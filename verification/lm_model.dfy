/** The integer bookkeeping of the multi-stream language model: codebook
    counts, reserved token ids, the initial-token vector, the sizes of the
    per-codebook module lists and which of them one depth-decoder call uses. */
module LanguageModel {
  import opened Results
  import opened Embeddings

  /** Input value meaning "no input for this stream": embeds to zero. */
  const ZeroTokenId: int := -1
  /** Cache fill value meaning "not produced yet, must not be read". */
  const UngeneratedTokenId: int := -2
  /** Codebook 0 is text; audio codebooks start at index 1. */
  const AudioOffset: nat := 1

  /** Construction parameters of the model that the decode engine depends on.
      Codebook 0 is text, codebooks `1..depQ` are generated by the depth
      decoder and codebooks `depQ+1..nQ` are supplied from outside. */
  datatype LMModel = LMModel(
    delays: seq<nat>,
    nQ: nat,
    depQ: nat,
    card: nat,
    textCard: nat,
    depformerMultiLinear: bool,
    existingTextPaddingId: Option<int>)
  {
    function NumCodebooks(): nat { nQ + 1 }

    function NumAudioCodebooks(): nat { nQ }

    /** Start-of-sequence token of every audio stream. */
    function InitialTokenId(): int { card }

    /** Start-of-sequence token of the text stream. */
    function TextInitialTokenId(): int { textCard }

    function TextPaddingTokenId(): int
    {
      match existingTextPaddingId
      case None => textCard
      case Some(id) => id
    }

    /** Number of text classes the text head scores: one more than the
        vocabulary when the tokenizer has no padding token of its own. */
    function TextHeadSize(): nat
    {
      textCard + (if existingTextPaddingId.None? then 1 else 0)
    }

    /** Number of classes each audio head scores. */
    function AudioHeadSize(): nat { card }

    /** One input projection per generated codebook, or a single shared one. */
    function DepformerInCount(): nat
    {
      if depformerMultiLinear then depQ else 1
    }

    /** The last generated codebook never conditions the depth decoder, so
        there is one audio embedding fewer than generated codebooks. */
    function DepformerEmbCount(): nat
    {
      if depQ == 0 then 0 else depQ - 1
    }

    /** One output head per generated codebook. */
    function LinearsCount(): nat { depQ }

    /** Text tables have one row per text token plus the initial token. */
    function TextEmbedding(): ScaledEmbedding
    {
      ScaledEmbedding(textCard + 1, ZeroTokenId)
    }

    /** Audio tables have one row per audio token plus the initial token. */
    function AudioEmbedding(): ScaledEmbedding
    {
      ScaledEmbedding(card + 1, ZeroTokenId)
    }

    /** The one construction-time requirement: a delay per codebook. */
    predicate Valid()
    {
      |delays| == NumCodebooks()
    }
  }

  datatype ModelError = DelayCountMismatch | EmbeddingRejected(e: EmbeddingError)

  /** Model construction: the delay count is checked first, then every
      embedding table is built with the zero token as its special input. */
  function NewModel(delays: seq<nat>, nQ: nat, depQ: nat, card: nat, textCard: nat,
                    depformerMultiLinear: bool, existingTextPaddingId: Option<int>): (r: Result<LMModel, ModelError>)
    ensures r.Success? <==> |delays| == nQ + 1
    ensures r.Success? ==> r.value.Valid()
    ensures r.Success? ==> r.value == LMModel(delays, nQ, depQ, card, textCard, depformerMultiLinear, existingTextPaddingId)
    ensures r.Failure? ==> r.error == DelayCountMismatch
  {
    if |delays| != nQ + 1 then Failure(DelayCountMismatch)
    else
      match Embeddings.New(card + 1, ZeroTokenId)
      case Failure(e) => Failure(EmbeddingRejected(e))
      case Success(_) =>
        Success(LMModel(delays, nQ, depQ, card, textCard, depformerMultiLinear, existingTextPaddingId))
  }

  /** The token fed for every stream before it has a real value: the text
      start token for codebook 0 and the audio start token for the others. */
  function InitialToken(m: LMModel): (r: seq<int>)
    ensures |r| == m.NumCodebooks()
    ensures r[0] == m.TextInitialTokenId()
    ensures forall k :: 1 <= k < |r| ==> r[k] == m.InitialTokenId()
  {
    [m.TextInitialTokenId()] + seq(m.NumAudioCodebooks(), _ => m.InitialTokenId())
  }

  /** In both kinds of table the zero id embeds to the zero vector and the
      ungenerated id is clamped to row 0, and every start token is an
      accepted input of its stream's embedding table. */
  lemma TokenIdsInRange(m: LMModel)
    ensures LookupOf(m.TextEmbedding(), ZeroTokenId) == ZeroVector
    ensures LookupOf(m.TextEmbedding(), UngeneratedTokenId) == Row(0)
    ensures LookupOf(m.TextEmbedding(), m.TextInitialTokenId()) == Row(m.textCard)
    ensures LookupOf(m.AudioEmbedding(), m.InitialTokenId()) == Row(m.card)
    ensures LookupOf(m.AudioEmbedding(), ZeroTokenId) == ZeroVector
    ensures LookupOf(m.AudioEmbedding(), UngeneratedTokenId) == Row(0)
    ensures m.existingTextPaddingId.None? ==> m.TextPaddingTokenId() < m.TextHeadSize()
  {
  }

  /** Which modules one depth-decoder call for codebook `cb` uses. */
  datatype EmbeddingChoice = DepformerTextEmb | DepformerEmb(index: nat)

  datatype DepformerCall = DepformerCall(
    cb: nat,
    inProj: nat,
    emb: EmbeddingChoice,
    token: int,
    lookup: Lookup,
    head: nat)

  function TableOf(m: LMModel, choice: EmbeddingChoice): ScaledEmbedding
  {
    match choice
    case DepformerTextEmb => m.TextEmbedding()
    case DepformerEmb(_) => m.AudioEmbedding()
  }

  /** The index selection of one depth-decoder call conditioned on `token`:
      the input projection, the embedding of the conditioning token (the text
      table for the first codebook, audio table `cb-1` afterwards) and the
      output head. Every index lies inside its module list. */
  function DepformerCallFor(m: LMModel, cb: nat, token: int): (c: DepformerCall)
    requires cb < m.depQ
    ensures c.cb == cb && c.token == token
    ensures c.inProj < m.DepformerInCount()
    ensures m.depformerMultiLinear ==> c.inProj == cb
    ensures c.emb.DepformerTextEmb? <==> cb == 0
    ensures c.emb.DepformerEmb? ==> c.emb.index == cb - 1 && c.emb.index < m.DepformerEmbCount()
    ensures c.head == cb && c.head < m.LinearsCount()
    ensures c.lookup == LookupOf(TableOf(m, c.emb), token)
  {
    var inProj := if m.depformerMultiLinear then cb else 0;
    var emb := if cb == 0 then DepformerTextEmb else DepformerEmb(cb - 1);
    DepformerCall(cb, inProj, emb, token, LookupOf(TableOf(m, emb), token), cb)
  }

  /** The table lookups the temporal model makes for one fed slice: the text
      table for codebook 0 and audio table `k-1` for codebook `k`. */
  function SliceLookups(m: LMModel, slice: seq<int>): (r: seq<Lookup>)
    requires |slice| == m.NumCodebooks()
    ensures |r| == |slice|
    ensures r[0] == LookupOf(m.TextEmbedding(), slice[0])
    ensures forall k :: 1 <= k < |r| ==> r[k] == LookupOf(m.AudioEmbedding(), slice[k])
  {
    seq(|slice|, k requires 0 <= k < |slice| =>
      if k == 0 then LookupOf(m.TextEmbedding(), slice[0])
      else LookupOf(m.AudioEmbedding(), slice[k]))
  }

  /** The three consistency assertions on a fed slice: no ungenerated value,
      audio codebooks at most `card`, text at most `textCard`. */
  predicate Admissible(m: LMModel, slice: seq<int>)
  {
    && UngeneratedTokenId !in slice
    && (forall k :: AudioOffset <= k < |slice| ==> slice[k] <= m.card)
    && (|slice| > 0 ==> slice[0] <= m.textCard)
  }

  /** No lookup of the slice raises an index error. */
  predicate LooksUpInRange(m: LMModel, slice: seq<int>)
    requires |slice| == m.NumCodebooks()
  {
    forall k :: 0 <= k < |slice| ==> !SliceLookups(m, slice)[k].OutOfRange?
  }

  /** The lookups stay inside their tables exactly when the text token is at
      most `textCard` and every audio token at most `card`: the tables have
      one row more than their vocabulary, and negative tokens are clamped. */
  lemma LooksUpInRangeIff(m: LMModel, slice: seq<int>)
    requires |slice| == m.NumCodebooks()
    ensures LooksUpInRange(m, slice) <==>
              slice[0] <= m.textCard && forall k :: AudioOffset <= k < |slice| ==> slice[k] <= m.card
  {
    if LooksUpInRange(m, slice) {
      assert !SliceLookups(m, slice)[0].OutOfRange?;
      forall k | AudioOffset <= k < |slice| ensures slice[k] <= m.card {
        assert !SliceLookups(m, slice)[k].OutOfRange?;
      }
    }
  }

  /** A slice that passes the consistency assertions never makes an embedding
      table raise an index error. */
  lemma AdmissibleSliceLooksUpInRange(m: LMModel, slice: seq<int>)
    requires |slice| == m.NumCodebooks()
    requires Admissible(m, slice)
    ensures LooksUpInRange(m, slice)
  {
  }
}
