/** The values that flow between the stage and its listeners. */
module TrfData {

  /** A unique token id (spaCy's `orth`). */
  type Orth = int

  /** A document, as the sequence of its tokens' orth ids. */
  type Doc = seq<Orth>

  /** A numeric array, flattened; integers stand in for floats so that sums are exact. */
  type Tensor = seq<int>

  /** One document's slice of the encoder output (only its `tensors` are modelled). */
  datatype TransformerData = TransformerData(tensors: seq<Tensor>)

  /** `TransformerData.empty()`: the value handed out for a batch without documents. */
  function EmptyData(): (r: TransformerData)
    ensures r.tensors == []
  {
    TransformerData([])
  }

  /** The whole-batch encoder result; `docData` holds one slice per document. */
  datatype FullTransformerBatch = FullTransformerBatch(docData: seq<TransformerData>)

  /** Element-wise sum of two arrays of one length. */
  function Add(a: Tensor, b: Tensor): (r: Tensor)
    requires |a| == |b|
    ensures |r| == |a|
    ensures forall k :: 0 <= k < |r| ==> r[k] == a[k] + b[k]
  {
    seq(|a|, k requires 0 <= k < |a| => a[k] + b[k])
  }

  /** The all-zero array of `n` elements. */
  function Zeros(n: nat): (r: Tensor)
    ensures |r| == n
    ensures forall k :: 0 <= k < n ==> r[k] == 0
  {
    seq(n, k => 0)
  }

  /** `(t ** 2).sum()`. */
  function SumOfSquares(t: Tensor): int
  {
    if t == [] then 0 else SumOfSquares(t[..|t| - 1]) + t[|t| - 1] * t[|t| - 1]
  }

  /** The loss contribution of a list of arrays: the sum of their sums of squares. */
  function TensorsSquares(ts: seq<Tensor>): int
  {
    if ts == [] then 0 else TensorsSquares(ts[..|ts| - 1]) + SumOfSquares(ts[|ts| - 1])
  }

  lemma {:induction false} SumOfSquaresNonNegative(t: Tensor)
    ensures SumOfSquares(t) >= 0
  {
    if t != [] {
      SumOfSquaresNonNegative(t[..|t| - 1]);
    }
  }

  lemma {:induction false} TensorsSquaresNonNegative(ts: seq<Tensor>)
    ensures TensorsSquares(ts) >= 0
  {
    if ts != [] {
      TensorsSquaresNonNegative(ts[..|ts| - 1]);
      SumOfSquaresNonNegative(ts[|ts| - 1]);
    }
  }

  lemma AddZeros(a: Tensor)
    ensures Add(a, Zeros(|a|)) == a && Add(Zeros(|a|), a) == a
  {
  }
}
