/** The index rule of a scaled embedding table: which row (if any) a token
    looks up. The table contents and the optional layer norm are numerics and
    are not modelled; only the discrete choice between "the zero vector",
    "row i" and "index out of range" is. */
module Embeddings {
  import opened Results

  /** A table of `numEmbeddings` rows whose special input `zeroIdx` yields an
      all-zero vector. */
  datatype ScaledEmbedding = ScaledEmbedding(numEmbeddings: nat, zeroIdx: int)

  /** What a lookup produces for one input token. `OutOfRange` is the index
      error the underlying table raises. */
  datatype Lookup = ZeroVector | Row(index: nat) | OutOfRange(index: nat)

  datatype EmbeddingError = NonNegativeZeroIdx

  /** Construction refuses a non-negative `zeroIdx`, so that the special input
      can never collide with a real row index. */
  function New(numEmbeddings: nat, zeroIdx: int): (r: Result<ScaledEmbedding, EmbeddingError>)
    ensures r.Success? <==> zeroIdx < 0
    ensures r.Success? ==> r.value.numEmbeddings == numEmbeddings && r.value.zeroIdx == zeroIdx
  {
    if zeroIdx < 0 then Success(ScaledEmbedding(numEmbeddings, zeroIdx))
    else Failure(NonNegativeZeroIdx)
  }

  /** Negative inputs are clamped to 0 before the table is consulted, so the
      table sees index 0 even for the zero input; the zero input is then
      replaced by the zero vector. */
  function ClampedIndex(input: int): nat
  {
    if input < 0 then 0 else input
  }

  function LookupOf(e: ScaledEmbedding, input: int): (r: Lookup)
    requires e.zeroIdx < 0
    ensures r.OutOfRange? <==> input >= e.numEmbeddings || e.numEmbeddings == 0
    ensures r == ZeroVector <==> input == e.zeroIdx && 0 < e.numEmbeddings
    ensures input < 0 && input != e.zeroIdx && 0 < e.numEmbeddings ==> r == Row(0)
    ensures 0 <= input < e.numEmbeddings ==> r == Row(input)
  {
    var i := ClampedIndex(input);
    if i >= e.numEmbeddings then OutOfRange(i)
    else if input == e.zeroIdx then ZeroVector
    else Row(i)
  }
}
