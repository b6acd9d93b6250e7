/** The streaming decode engine: a session state holding the delay cache and
    the offset, its creation and reset, and the per-step transition that
    writes external tokens, seeds warm-up slots, feeds the aligned slice to
    the temporal model, runs the depth decoder, writes the generated tokens
    back and, once past the warm-up, gathers a delay-aligned output. */
module Generator {
  import opened Results
  import opened LanguageModel
  import opened Neural
  import opened DepthDecoder
  import opened DelayCache

  /** The largest element of a non-empty sequence. */
  function Max(s: seq<nat>): (m: nat)
    requires |s| > 0
    ensures forall i :: 0 <= i < |s| ==> s[i] <= m
    ensures exists i :: 0 <= i < |s| && s[i] == m
  {
    if |s| == 1 then s[0]
    else
      var m := Max(s[..|s| - 1]);
      assert forall i :: 0 <= i < |s| - 1 ==> s[..|s| - 1][i] == s[i];
      if s[|s| - 1] > m then s[|s| - 1] else m
  }

  /** The generator wrapped around a model. Sampling parameters (temperatures,
      top-k, whether to sample at all) live in the backend's samplers;
      `check` turns on the consistency assertions on every fed slice. */
  datatype LMGen = LMGen(lm: LMModel, check: bool)
  {
    predicate Valid() { lm.Valid() }

    /** The largest delay: how many steps pass before the first output. */
    function MaxDelay(): nat
      requires Valid()
    {
      Max(lm.delays)
    }

    /** Number of slots of every cache row. */
    function Capacity(): nat
      requires Valid()
    {
      MaxDelay() + 2
    }

    /** Number of codebooks the caller supplies each step. */
    function NeededTokens(): int
    {
      lm.NumCodebooks() - lm.depQ - 1
    }
  }

  /** A streaming session. `history` is every slice fed to the temporal
      transformer so far: it stands for that model's incremental cache. */
  datatype State = State(cache: seq<seq<int>>, initial: seq<int>, offset: nat, history: seq<seq<int>>)

  predicate WellFormed(g: LMGen, s: State)
  {
    && g.Valid()
    && Shaped(s.cache, g.lm.NumCodebooks(), g.Capacity())
    && s.initial == InitialToken(g.lm)
  }

  /** A fresh session: every slot of every codebook row is ungenerated and
      the offset is 0. */
  function InitStreamingState(g: LMGen): (s: State)
    requires g.Valid()
    ensures WellFormed(g, s)
    ensures |s.cache| == g.lm.nQ + 1
    ensures forall k :: 0 <= k < |s.cache| ==> |s.cache[k]| == g.MaxDelay() + 2
    ensures forall k, p :: 0 <= k < |s.cache| && 0 <= p < |s.cache[k]| ==> s.cache[k][p] == UngeneratedTokenId
    ensures s.initial == InitialToken(g.lm)
    ensures s.offset == 0 && s.history == []
  {
    State(Filled(g.lm.NumCodebooks(), g.Capacity(), UngeneratedTokenId), InitialToken(g.lm), 0, [])
  }

  /** Reset rewinds the offset and keeps the cache contents as they are. */
  function Reset(g: LMGen, s: State): (r: State)
    requires WellFormed(g, s)
    ensures WellFormed(g, r)
    ensures r.offset == 0
    ensures r.cache == s.cache && r.initial == s.initial && r.history == s.history
  {
    s.(offset := 0)
  }

  /** The vector returned once the warm-up is over, with the raw model
      outputs of the step beside it. */
  datatype Output = Output(
    out: seq<int>,
    input: seq<int>,
    hidden: Hidden,
    textLogits: Logits,
    textToken: int,
    audioLogits: seq<Logits>,
    audioTokens: seq<int>)

  /** A completed step: the next state, the slice fed to the temporal model,
      the tokens generated for codebooks `0..depQ`, and the output if any. */
  datatype Stepped = Stepped(state: State, fed: seq<int>, written: seq<int>, output: Option<Output>)

  datatype StepError =
    | NotStreaming
    | StepsNotOne
    | CodebookCountMismatch
    | FedUngenerated
    | AudioAboveCard
    | TextAboveTextCard
    | EmbeddingIndexError
    | EmptyDepformerStack

  /** The errors raised by the consistency assertions. */
  predicate IsConsistencyError(e: StepError)
  {
    e.FedUngenerated? || e.AudioAboveCard? || e.TextAboveTextCard?
  }

  /** The external input of one batch row, time-major: `x[t][q]` is the
      token of external codebook `q` at time `t`, so the time length `|x|`
      is kept even when there are no external codebooks. Exactly one time
      step per call. */
  predicate SingleStep(x: seq<seq<int>>)
  {
    |x| == 1
  }

  predicate ShapeOk(g: LMGen, x: seq<seq<int>>)
  {
    SingleStep(x) && |x[0]| == g.NeededTokens()
  }

  /** The cache after the external tokens are written at their delayed slots
      and the warm-up rows are seeded, before anything is read. */
  function Prepare(g: LMGen, s: State, x: seq<seq<int>>): (c: seq<seq<int>>)
    requires WellFormed(g, s) && ShapeOk(g, x)
    ensures Shaped(c, g.lm.NumCodebooks(), g.Capacity())
  {
    var ct := g.Capacity();
    var delays := g.lm.delays;
    var external := WriteDelayed(s.cache, delays, g.lm.depQ + 1, x[0], s.offset, ct);
    SeedWarmup(external, delays, s.initial, s.offset, ct)
  }

  /** The aligned slice read at `offset % capacity` and fed to the model. */
  function Fed(g: LMGen, s: State, x: seq<seq<int>>): (r: seq<int>)
    requires WellFormed(g, s) && ShapeOk(g, x)
    ensures |r| == g.lm.NumCodebooks()
  {
    Column(Prepare(g, s, x), s.offset % g.Capacity())
  }

  /** The consistency assertions, in the order they are made. */
  function CheckFed(m: LMModel, fed: seq<int>): (r: Option<StepError>)
    ensures r.None? <==> Admissible(m, fed)
    ensures r.Some? ==> IsConsistencyError(r.value)
  {
    if UngeneratedTokenId in fed then Some(FedUngenerated)
    else if exists k :: AudioOffset <= k < |fed| && fed[k] > m.card then Some(AudioAboveCard)
    else if |fed| > 0 && fed[0] > m.textCard then Some(TextAboveTextCard)
    else None
  }

  /** Nothing while `offset <= maxDelay`; afterwards the delay-aligned
      vector of codebooks `0..depQ` with the step's raw model outputs. */
  function Emit(g: LMGen, cache: seq<seq<int>>, offset: nat, fed: seq<int>,
                hidden: Hidden, textLogits: Logits, text: int, chain: Chain): (r: Option<Output>)
    requires g.Valid() && Shaped(cache, g.lm.NumCodebooks(), g.Capacity())
    requires g.lm.depQ < g.lm.NumCodebooks()
    ensures r.None? <==> offset <= g.MaxDelay()
    ensures r.Some? ==>
              var o := r.value;
              && |o.out| == g.lm.depQ + 1
              && o.input == fed && o.hidden == hidden && o.textLogits == textLogits
              && o.textToken == text && o.audioLogits == chain.logits && o.audioTokens == chain.tokens
              && forall k :: 0 <= k <= g.lm.depQ ==>
                   o.out[k] == cache[k][(offset - g.MaxDelay() + g.lm.delays[k]) % g.Capacity()]
  {
    if offset <= g.MaxDelay() then None
    else
      var out := GatherAligned(cache, g.lm.delays, g.lm.depQ + 1, offset, g.MaxDelay(), g.Capacity());
      Some(Output(out, fed, hidden, textLogits, text, chain.logits, chain.tokens))
  }

  /** The second half of a step, once the tokens exist: advance the offset,
      write the generated tokens at the new offset's slot and, once the
      warm-up is over, gather the aligned output. */
  function Commit(g: LMGen, s: State, prepared: seq<seq<int>>, fed: seq<int>,
                  hidden: Hidden, textLogits: Logits, text: int, chain: Chain): (t: Stepped)
    requires WellFormed(g, s) && Shaped(prepared, g.lm.NumCodebooks(), g.Capacity())
    requires |chain.tokens| == g.lm.depQ < g.lm.NumCodebooks()
    ensures t.fed == fed && t.written == [text] + chain.tokens
    ensures WellFormed(g, t.state)
    ensures t.state.offset == s.offset + 1
    ensures t.state.initial == s.initial && t.state.history == s.history + [fed]
    ensures t.state.cache == WriteColumn(prepared, t.written, t.state.offset % g.Capacity(), g.lm.NumCodebooks(), g.Capacity())
    ensures t.output.None? <==> t.state.offset <= g.MaxDelay()
    ensures t.output.Some? ==>
              var o := t.output.value;
              && o.input == fed && o.hidden == hidden && o.textLogits == textLogits
              && o.textToken == text && o.audioLogits == chain.logits && o.audioTokens == chain.tokens
              && o.out == GatherAligned(t.state.cache, g.lm.delays, g.lm.depQ + 1, t.state.offset, g.MaxDelay(), g.Capacity())
  {
    var ct := g.Capacity();
    var offset := s.offset + 1;
    var written := [text] + chain.tokens;
    var cache := WriteColumn(prepared, written, offset % ct, g.lm.NumCodebooks(), ct);
    var output := Emit(g, cache, offset, fed, hidden, textLogits, text, chain);
    Stepped(State(cache, s.initial, offset, s.history + [fed]), fed, written, output)
  }

  /** One decode step: the session and input-shape checks, then the step
      proper. */
  function Step(g: LMGen, b: Backend, st: Option<State>, x: seq<seq<int>>): (r: Result<Stepped, StepError>)
    requires g.Valid()
    requires st.Some? ==> WellFormed(g, st.value)
    ensures st.None? ==> r == Failure(NotStreaming)
    ensures st.Some? && !SingleStep(x) ==> r == Failure(StepsNotOne)
    ensures st.Some? && SingleStep(x) && |x[0]| != g.NeededTokens() ==> r == Failure(CodebookCountMismatch)
    ensures r.Success? ==> st.Some? && ShapeOk(g, x) && r == Advance(g, b, st.value, x)
  {
    if st.None? then Failure(NotStreaming)
    else if !SingleStep(x) then Failure(StepsNotOne)
    else if |x[0]| != g.NeededTokens() then Failure(CodebookCountMismatch)
    else Advance(g, b, st.value, x)
  }

  /** The step proper on a well-shaped input: write and seed the cache, read
      the aligned slice and, with checking on, stop on a slice that fails the
      consistency assertions; otherwise generate from it, which may still
      raise on a token past the end of its embedding table. */
  function Advance(g: LMGen, b: Backend, s: State, x: seq<seq<int>>): (r: Result<Stepped, StepError>)
    requires WellFormed(g, s) && ShapeOk(g, x)
    ensures r.Failure? ==> IsConsistencyError(r.error) || r.error == EmbeddingIndexError || r.error == EmptyDepformerStack
    ensures r.Failure? && IsConsistencyError(r.error) <==> g.check && !Admissible(g.lm, Fed(g, s, x))
    ensures !(g.check && !Admissible(g.lm, Fed(g, s, x))) ==> r == Generate(g, b, s, Prepare(g, s, x), Fed(g, s, x))
  {
    var prepared := Prepare(g, s, x);
    var fed := Column(prepared, s.offset % g.Capacity());
    var failed := if g.check then CheckFed(g.lm, fed) else None;
    if failed.Some? then Failure(failed.value)
    else Generate(g, b, s, prepared, fed)
  }

  /** Generation from the fed slice: the temporal model embeds every token
      of the slice, raising on one past the end of its table; otherwise it
      runs on the history extended by the slice and the text token is
      sampled, then the depth decoder seeded by it runs and its tokens are
      committed. */
  function Generate(g: LMGen, b: Backend, s: State, prepared: seq<seq<int>>, fed: seq<int>): (r: Result<Stepped, StepError>)
    requires WellFormed(g, s) && Shaped(prepared, g.lm.NumCodebooks(), g.Capacity())
    requires g.lm.depQ < g.lm.NumCodebooks() && |fed| == g.lm.NumCodebooks()
    ensures r.Failure? <==> !LooksUpInRange(g.lm, fed) || g.lm.depQ == 0
    ensures r.Failure? ==> r.error == if LooksUpInRange(g.lm, fed) then EmptyDepformerStack else EmbeddingIndexError
    ensures r.Success? ==>
              var model := b.forwardText(s.history + [fed]);
              var text := b.sampleText(model.1);
              r.value == Commit(g, s, prepared, fed, model.0, model.1, text, Iterations(g.lm, b, model.0, text, g.lm.depQ))
  {
    if !LooksUpInRange(g.lm, fed) then Failure(EmbeddingIndexError)
    else
      var (hidden, textLogits) := b.forwardText(s.history + [fed]);
      var text := b.sampleText(textLogits);
      match DepformerStep(g.lm, b, hidden, text)
      case None => Failure(EmptyDepformerStack)
      case Some(chain) =>
        Success(Commit(g, s, prepared, fed, hidden, textLogits, text, chain))
  }

  /** How many steps codebook `k` of the output trails the step that
      returns it: the largest delay less the codebook's own. */
  function Lag(g: LMGen, k: nat): (l: nat)
    requires g.Valid() && k < |g.lm.delays|
    ensures l + g.lm.delays[k] == g.MaxDelay()
  {
    DelayBelowCapacity(g, k);
    g.MaxDelay() - g.lm.delays[k]
  }

  /** Every delay is at most the largest one, so a delayed slot is less than
      a ring away from the current one. */
  lemma DelayBelowCapacity(g: LMGen, k: nat)
    requires g.Valid() && k < |g.lm.delays|
    ensures g.lm.delays[k] <= g.MaxDelay() < g.Capacity() - 1
  {
  }

  /** What a slice read at offset `o` holds: a row still in warm-up reads
      its initial token, an undelayed external row reads this call's token,
      and any other row reads what its slot `o % capacity` already held. */
  ghost predicate ReadFrom(g: LMGen, s: State, x: seq<seq<int>>, fed: seq<int>)
    requires WellFormed(g, s) && ShapeOk(g, x)
  {
    && |fed| == g.lm.NumCodebooks()
    && forall k :: 0 <= k < |fed| ==>
         fed[k] == if s.offset <= g.lm.delays[k] then s.initial[k]
                   else if g.lm.depQ < k && g.lm.delays[k] == 0 then x[0][k - g.lm.depQ - 1]
                   else s.cache[k][s.offset % g.Capacity()]
  }

  /** The bookkeeping of a completed step: the offset advances by one, the
      fed slice joins the temporal model's history, the initial tokens are
      kept and one token is written per generated codebook. */
  ghost predicate Advanced(g: LMGen, s: State, t: Stepped)
    requires WellFormed(g, s)
  {
    && 0 < g.lm.depQ < g.lm.NumCodebooks()
    && WellFormed(g, t.state)
    && t.state.offset == s.offset + 1
    && t.state.initial == s.initial
    && t.state.history == s.history + [t.fed]
    && |t.written| == g.lm.depQ + 1
  }

  /** Write discipline of a step: a generated row changes only at the new
      offset's slot, a row in warm-up only at the current slot, an external
      row only at its delayed slot; every other cell keeps its value. */
  ghost predicate Wrote(g: LMGen, s: State, x: seq<seq<int>>, t: Stepped)
    requires WellFormed(g, s) && ShapeOk(g, x) && Advanced(g, s, t)
  {
    var o := s.offset;
    var ct := g.Capacity();
    forall k, p :: 0 <= k < g.lm.NumCodebooks() && 0 <= p < ct ==>
      t.state.cache[k][p] ==
        if k <= g.lm.depQ && p == (o + 1) % ct then t.written[k]
        else if o <= g.lm.delays[k] && p == o % ct then s.initial[k]
        else if g.lm.depQ < k && p == (o + g.lm.delays[k]) % ct then x[0][k - g.lm.depQ - 1]
        else s.cache[k][p]
  }

  /** Output discipline of a step: an output exactly when the new offset is
      past the largest delay, with entry `k` read `Lag(k)` positions behind
      the new offset in the cache the step leaves. */
  ghost predicate Emitted(g: LMGen, s: State, t: Stepped)
    requires WellFormed(g, s) && Advanced(g, s, t)
  {
    && (t.output.Some? <==> s.offset + 1 > g.MaxDelay())
    && (t.output.Some? ==>
          && |t.output.value.out| == g.lm.depQ + 1
          && forall k :: 0 <= k <= g.lm.depQ ==>
               t.output.value.out[k] == t.state.cache[k][(s.offset + 1 - Lag(g, k)) % g.Capacity()])
  }

  /** Everything a completed step from `s` on input `x` is known to have
      done, independently of what the neural parts computed. */
  ghost predicate Transition(g: LMGen, s: State, x: seq<seq<int>>, t: Stepped)
    requires WellFormed(g, s)
  {
    && ShapeOk(g, x)
    && Advanced(g, s, t)
    && ReadFrom(g, s, x, t.fed)
    && (g.check ==> Admissible(g.lm, t.fed))
    && Wrote(g, s, x, t)
    && Emitted(g, s, t)
  }

  /** The slice a step feeds, cell by cell. */
  lemma FedReads(g: LMGen, s: State, x: seq<seq<int>>)
    requires WellFormed(g, s) && ShapeOk(g, x)
    ensures ReadFrom(g, s, x, Fed(g, s, x))
  {
    forall k | 0 <= k < g.lm.NumCodebooks()
      ensures Fed(g, s, x)[k] ==
                if s.offset <= g.lm.delays[k] then s.initial[k]
                else if g.lm.depQ < k && g.lm.delays[k] == 0 then x[0][k - g.lm.depQ - 1]
                else s.cache[k][s.offset % g.Capacity()]
    {
      var d := g.lm.delays[k];
      DelayBelowCapacity(g, k);
      if 0 < d {
        SlotsDistinct(s.offset, s.offset + d, g.Capacity());
      }
    }
  }

  /** A step that succeeds passed the session and shape checks and, with
      checking on, the consistency assertions, and generated from the slice
      it read. */
  lemma StepSucceeded(g: LMGen, b: Backend, s: State, x: seq<seq<int>>)
    requires WellFormed(g, s)
    requires Step(g, b, Some(s), x).Success?
    ensures ShapeOk(g, x) && g.lm.depQ > 0
    ensures g.check ==> Admissible(g.lm, Fed(g, s, x))
    ensures LooksUpInRange(g.lm, Fed(g, s, x))
    ensures Step(g, b, Some(s), x) == Generate(g, b, s, Prepare(g, s, x), Fed(g, s, x))
  {
  }

  /** Exactly when a step succeeds: the input is well shaped, there is a
      generated audio codebook to stack, with checking on the slice it reads
      passes the consistency assertions, and every token of that slice lies
      inside its embedding table. */
  lemma StepOutcome(g: LMGen, b: Backend, s: State, x: seq<seq<int>>)
    requires WellFormed(g, s)
    ensures Step(g, b, Some(s), x).Success? <==>
              && ShapeOk(g, x) && g.lm.depQ > 0 && (g.check ==> Admissible(g.lm, Fed(g, s, x)))
              && LooksUpInRange(g.lm, Fed(g, s, x))
  {
  }

  /** A step that succeeds advances the offset by one, appends the slice it
      fed to the temporal model's history, keeps the initial tokens and
      writes one token per generated codebook. */
  lemma StepAdvances(g: LMGen, b: Backend, s: State, x: seq<seq<int>>)
    requires WellFormed(g, s)
    requires Step(g, b, Some(s), x).Success?
    ensures ShapeOk(g, x) && Advanced(g, s, Step(g, b, Some(s), x).value)
  {
    StepSucceeded(g, b, s, x);
  }

  /** A step that succeeds fed the temporal model the aligned slice it read,
      and with checking on that slice passed the consistency assertions. */
  lemma StepReads(g: LMGen, b: Backend, s: State, x: seq<seq<int>>)
    requires WellFormed(g, s)
    requires Step(g, b, Some(s), x).Success?
    ensures ShapeOk(g, x)
    ensures Step(g, b, Some(s), x).value.fed == Fed(g, s, x)
    ensures ReadFrom(g, s, x, Step(g, b, Some(s), x).value.fed)
    ensures g.check ==> Admissible(g.lm, Step(g, b, Some(s), x).value.fed)
  {
    StepSucceeded(g, b, s, x);
    FedReads(g, s, x);
  }

  /** Before anything is read, a row still in warm-up holds its initial
      token at the current slot, an external row holds this call's token at
      its delayed slot, and every other cell is as the step found it. */
  lemma PreparedCell(g: LMGen, s: State, x: seq<seq<int>>, k: nat, p: nat)
    requires WellFormed(g, s) && ShapeOk(g, x)
    requires k < g.lm.NumCodebooks() && p < g.Capacity()
    ensures Prepare(g, s, x)[k][p] ==
              if s.offset <= g.lm.delays[k] && p == s.offset % g.Capacity() then s.initial[k]
              else if g.lm.depQ < k && p == (s.offset + g.lm.delays[k]) % g.Capacity() then x[0][k - g.lm.depQ - 1]
              else s.cache[k][p]
  {
  }

  /** Committing writes the generated tokens at the new offset's slot of
      rows `0..depQ` and nothing else. */
  lemma CommitWrites(g: LMGen, s: State, prepared: seq<seq<int>>, fed: seq<int>,
                     hidden: Hidden, textLogits: Logits, text: int, chain: Chain, k: nat, p: nat)
    requires WellFormed(g, s) && Shaped(prepared, g.lm.NumCodebooks(), g.Capacity())
    requires |chain.tokens| == g.lm.depQ < g.lm.NumCodebooks()
    requires k < g.lm.NumCodebooks() && p < g.Capacity()
    ensures var t := Commit(g, s, prepared, fed, hidden, textLogits, text, chain);
            t.state.cache[k][p] == if k <= g.lm.depQ && p == (s.offset + 1) % g.Capacity() then t.written[k] else prepared[k][p]
  {
  }

  /** One cell of the write discipline. */
  lemma StepWritesCell(g: LMGen, b: Backend, s: State, x: seq<seq<int>>, k: nat, p: nat)
    requires WellFormed(g, s)
    requires Step(g, b, Some(s), x).Success?
    requires k < g.lm.NumCodebooks() && p < g.Capacity()
    ensures ShapeOk(g, x)
    ensures var t := Step(g, b, Some(s), x).value;
            |t.written| == g.lm.depQ + 1 && |t.state.cache| == g.lm.NumCodebooks() && |t.state.cache[k]| == g.Capacity() &&
            t.state.cache[k][p] ==
              if k <= g.lm.depQ && p == (s.offset + 1) % g.Capacity() then t.written[k]
              else if s.offset <= g.lm.delays[k] && p == s.offset % g.Capacity() then s.initial[k]
              else if g.lm.depQ < k && p == (s.offset + g.lm.delays[k]) % g.Capacity() then x[0][k - g.lm.depQ - 1]
              else s.cache[k][p]
  {
    StepCommits(g, b, s, x);
    var fed := Fed(g, s, x);
    var model := b.forwardText(s.history + [fed]);
    var text := b.sampleText(model.1);
    CommitWrites(g, s, Prepare(g, s, x), fed, model.0, model.1, text, Iterations(g.lm, b, model.0, text, g.lm.depQ), k, p);
    PreparedCell(g, s, x, k, p);
  }

  /** A step that succeeds follows the write discipline. */
  lemma StepWrites(g: LMGen, b: Backend, s: State, x: seq<seq<int>>)
    requires WellFormed(g, s)
    requires Step(g, b, Some(s), x).Success?
    ensures ShapeOk(g, x) && Advanced(g, s, Step(g, b, Some(s), x).value)
    ensures Wrote(g, s, x, Step(g, b, Some(s), x).value)
  {
    StepAdvances(g, b, s, x);
    forall k, p | 0 <= k < g.lm.NumCodebooks() && 0 <= p < g.Capacity()
      ensures var t := Step(g, b, Some(s), x).value;
              t.state.cache[k][p] ==
                if k <= g.lm.depQ && p == (s.offset + 1) % g.Capacity() then t.written[k]
                else if s.offset <= g.lm.delays[k] && p == s.offset % g.Capacity() then s.initial[k]
                else if g.lm.depQ < k && p == (s.offset + g.lm.delays[k]) % g.Capacity() then x[0][k - g.lm.depQ - 1]
                else s.cache[k][p]
    {
      StepWritesCell(g, b, s, x, k, p);
    }
  }

  /** A step that succeeds committed the tokens generated from the slice it
      read: the temporal model saw the history extended by that slice, the
      text token was sampled from its logits and seeded the depth chain. */
  lemma StepCommits(g: LMGen, b: Backend, s: State, x: seq<seq<int>>)
    requires WellFormed(g, s)
    requires Step(g, b, Some(s), x).Success?
    ensures ShapeOk(g, x) && 0 < g.lm.depQ < g.lm.NumCodebooks()
    ensures var fed := Fed(g, s, x);
            var model := b.forwardText(s.history + [fed]);
            var text := b.sampleText(model.1);
            Step(g, b, Some(s), x) ==
              Success(Commit(g, s, Prepare(g, s, x), fed, model.0, model.1, text, Iterations(g.lm, b, model.0, text, g.lm.depQ)))
  {
    StepSucceeded(g, b, s, x);
  }

  /** Committing gathers the output delay-aligned: entry `k` is read `Lag(k)`
      positions behind the new offset. */
  lemma CommitEmits(g: LMGen, s: State, prepared: seq<seq<int>>, fed: seq<int>,
                    hidden: Hidden, textLogits: Logits, text: int, chain: Chain)
    requires WellFormed(g, s) && Shaped(prepared, g.lm.NumCodebooks(), g.Capacity())
    requires 0 < |chain.tokens| == g.lm.depQ < g.lm.NumCodebooks()
    ensures Advanced(g, s, Commit(g, s, prepared, fed, hidden, textLogits, text, chain))
    ensures Emitted(g, s, Commit(g, s, prepared, fed, hidden, textLogits, text, chain))
  {
    var t := Commit(g, s, prepared, fed, hidden, textLogits, text, chain);
    assert t.state.offset == s.offset + 1;
    if t.output.Some? {
      var out := t.output.value.out;
      assert out == GatherAligned(t.state.cache, g.lm.delays, g.lm.depQ + 1, t.state.offset, g.MaxDelay(), g.Capacity());
      forall k | 0 <= k <= g.lm.depQ
        ensures out[k] == t.state.cache[k][(s.offset + 1 - Lag(g, k)) % g.Capacity()]
      {
        GatherEntry(t.state.cache, g.lm.delays, g.lm.depQ + 1, t.state.offset, g.MaxDelay(), g.Capacity(), k, Lag(g, k));
      }
    }
  }

  /** A step returns an output exactly when its new offset is past the
      largest delay, gathered delay-aligned from the cache it leaves. */
  lemma StepEmits(g: LMGen, b: Backend, s: State, x: seq<seq<int>>)
    requires WellFormed(g, s)
    requires Step(g, b, Some(s), x).Success?
    ensures Advanced(g, s, Step(g, b, Some(s), x).value)
    ensures Emitted(g, s, Step(g, b, Some(s), x).value)
  {
    StepCommits(g, b, s, x);
    var fed := Fed(g, s, x);
    var model := b.forwardText(s.history + [fed]);
    var text := b.sampleText(model.1);
    CommitEmits(g, s, Prepare(g, s, x), fed, model.0, model.1, text, Iterations(g.lm, b, model.0, text, g.lm.depQ));
  }

  /** Every step that succeeds is a transition. */
  lemma StepTransition(g: LMGen, b: Backend, s: State, x: seq<seq<int>>)
    requires WellFormed(g, s)
    requires Step(g, b, Some(s), x).Success?
    ensures Transition(g, s, x, Step(g, b, Some(s), x).value)
  {
    StepReads(g, b, s, x);
    StepWrites(g, b, s, x);
    StepEmits(g, b, s, x);
  }

  /** Only the slice read, the offset and the history decide what a step
      generates: two sessions that agree on those make steps that succeed
      together and agree on everything but their caches and the gathered
      output vector. */
  lemma StepDependsOnSlice(g: LMGen, b: Backend, s: State, s': State, x: seq<seq<int>>)
    requires WellFormed(g, s) && WellFormed(g, s')
    requires s.offset == s'.offset && s.history == s'.history
    requires ShapeOk(g, x) && Fed(g, s, x) == Fed(g, s', x)
    ensures Step(g, b, Some(s), x).Success? <==> Step(g, b, Some(s'), x).Success?
    ensures Step(g, b, Some(s), x).Success? ==>
              var t := Step(g, b, Some(s), x).value;
              var t' := Step(g, b, Some(s'), x).value;
              && t.fed == t'.fed && t.written == t'.written
              && t.state.offset == t'.state.offset && t.state.history == t'.state.history
              && (t.output.Some? <==> t'.output.Some?)
              && (t.output.Some? ==>
                    var o := t.output.value;
                    var o' := t'.output.value;
                    && |o.out| == |o'.out| && o.input == o'.input && o.hidden == o'.hidden
                    && o.textLogits == o'.textLogits && o.textToken == o'.textToken
                    && o.audioLogits == o'.audioLogits && o.audioTokens == o'.audioTokens)
  {
    StepOutcome(g, b, s, x);
    StepOutcome(g, b, s', x);
    if Step(g, b, Some(s), x).Success? {
      StepCommits(g, b, s, x);
      StepCommits(g, b, s', x);
    }
  }

  /** With in-range samplers, a step writes a text token its head can produce
      and audio tokens that are real audio classes. */
  lemma StepWritesInRange(g: LMGen, b: Backend, s: State, x: seq<seq<int>>)
    requires WellFormed(g, s) && SamplersInRange(g.lm, b)
    requires Step(g, b, Some(s), x).Success?
    ensures var w := Step(g, b, Some(s), x).value.written;
            && |w| == g.lm.depQ + 1
            && 0 <= w[0] < g.lm.TextHeadSize()
            && forall k :: 1 <= k < |w| ==> 0 <= w[k] < g.lm.card
  {
    StepSucceeded(g, b, s, x);
    var w := Step(g, b, Some(s), x).value.written;
    var model := b.forwardText(s.history + [Fed(g, s, x)]);
    ChainInRange(g.lm, b, model.0, w[0]);
    assert forall k :: 1 <= k < |w| ==> w[k] == w[1..][k - 1];
  }

  /** With checking on, a step raises a consistency error exactly when the
      slice it reads fails the assertions; with checking off, never. */
  lemma StepChecks(g: LMGen, b: Backend, s: State, x: seq<seq<int>>)
    requires WellFormed(g, s) && ShapeOk(g, x)
    ensures var r := Step(g, b, Some(s), x);
            r.Failure? && IsConsistencyError(r.error) <==> g.check && !Admissible(g.lm, Fed(g, s, x))
  {
  }

  /** A well-shaped step raises the embedding index error exactly when
      checking is off and the slice it reads holds a text token above
      `textCard` or an audio token above `card`: with checking on, the
      consistency assertions stop such a slice first. */
  lemma StepIndexError(g: LMGen, b: Backend, s: State, x: seq<seq<int>>)
    requires WellFormed(g, s) && ShapeOk(g, x)
    ensures var fed := Fed(g, s, x);
            Step(g, b, Some(s), x) == Failure(EmbeddingIndexError) <==>
              !g.check && !(fed[0] <= g.lm.textCard && forall k :: AudioOffset <= k < |fed| ==> fed[k] <= g.lm.card)
  {
    var fed := Fed(g, s, x);
    LooksUpInRangeIff(g.lm, fed);
    if g.check && Admissible(g.lm, fed) {
      AdmissibleSliceLooksUpInRange(g.lm, fed);
    }
  }

  /** With every delay 0 there is no warm-up and no lag: each transition
      returns exactly the tokens it has just generated. */
  lemma ZeroDelaysNoLag(g: LMGen, s: State, x: seq<seq<int>>, t: Stepped)
    requires WellFormed(g, s) && Transition(g, s, x, t)
    requires forall k :: 0 <= k < |g.lm.delays| ==> g.lm.delays[k] == 0
    ensures t.output.Some? && t.output.value.out == t.written
  {
    assert g.MaxDelay() == 0;
    forall k | 0 <= k <= g.lm.depQ
      ensures t.output.value.out[k] == t.written[k]
    {
      assert t.output.value.out[k] == t.state.cache[k][(s.offset + 1) % g.Capacity()];
    }
  }
}
