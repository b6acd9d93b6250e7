/** The neural collaborators of the decode engine, seen only at their
    boundary. Hidden representations and logits are opaque; the temporal
    transformer, the depth transformer and the two token samplers are
    arbitrary functions of the discrete inputs they receive. */
module Neural {
  import opened LanguageModel

  /** Output of the temporal transformer for one step. */
  type Hidden

  /** Scores over one head's classes. */
  type Logits(!new)

  /** `forwardText` sees every slice fed so far (its incremental cache is the
      history); `depformer` sees this step's hidden representation and the
      calls made so far in the current chain (its cache is fresh per step).
      The samplers' randomness is part of the opaque logits. */
  datatype Backend = Backend(
    forwardText: seq<seq<int>> -> (Hidden, Logits),
    depformer: (Hidden, seq<DepformerCall>) -> Logits,
    sampleText: Logits -> int,
    sampleAudio: Logits -> int)

  /** Sampling only ever picks a class of the head it samples from. */
  ghost predicate SamplersInRange(m: LMModel, b: Backend)
  {
    && (forall l :: 0 <= b.sampleText(l) < m.TextHeadSize())
    && (forall l :: 0 <= b.sampleAudio(l) < m.AudioHeadSize())
  }
}
