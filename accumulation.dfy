/**
 * What one call of the `accumulate_gradient` callback does to the state it
 * closes over (the `d_tensors` list and the stage's entry in `losses`), step
 * by step as the loops do it, including the partial state left behind when
 * an exception interrupts them; and what a whole history of calls adds up to.
 */
module Accumulation {
  import opened Errors
  import opened TrfData

  /** `d_tensors` (one list of gradient arrays per document) and `losses[name]`. */
  datatype AccState = AccState(dTensors: seq<seq<Tensor>>, loss: int)

  datatype RowResult = RowResult(row: seq<Tensor>, outcome: Outcome)

  datatype AccResult = AccResult(state: AccState, outcome: Outcome)

  function Max(a: int, b: int): int { if a < b then b else a }

  /** The arrays `ds` of one document can be added into `row`: no more of them, each of the same length. */
  predicate RowCompatible(row: seq<Tensor>, ds: seq<Tensor>)
  {
    |ds| <= |row| && forall j :: 0 <= j < |ds| ==> |ds[j]| == |row[j]|
  }

  /** Every document that is already accumulated can take the new contribution. */
  predicate Compatible(acc: seq<seq<Tensor>>, datas: seq<TransformerData>)
  {
    forall i :: 0 <= i < |acc| && i < |datas| ==> RowCompatible(acc[i], datas[i].tensors)
  }

  /** Reference definition: `row` with `ds` added in, position by position. */
  function Merged(row: seq<Tensor>, ds: seq<Tensor>): (r: seq<Tensor>)
    requires RowCompatible(row, ds)
  {
    seq(|row|, j requires 0 <= j < |row| => if j < |ds| then Add(row[j], ds[j]) else row[j])
  }

  /** Reference definition: the accumulator after an error-free call with `datas`. */
  function Accumulated(acc: seq<seq<Tensor>>, datas: seq<TransformerData>): (r: seq<seq<Tensor>>)
    requires Compatible(acc, datas)
  {
    seq(Max(|acc|, |datas|), i requires 0 <= i < Max(|acc|, |datas|) =>
      if i < |acc| && i < |datas| then Merged(acc[i], datas[i].tensors)
      else if i < |acc| then acc[i]
      else datas[i].tensors)
  }

  /** The loss a call adds: the sums of squares of every array of every document. */
  function LossOf(datas: seq<TransformerData>): int
  {
    if datas == [] then 0 else TensorsSquares(datas[0].tensors) + LossOf(datas[1..])
  }

  /** `for j, d_tensor in enumerate(ds): row[j] += d_tensor`, resumed at position `j`. */
  function AddRow(row: seq<Tensor>, ds: seq<Tensor>, j: nat): RowResult
    requires j <= |ds|
    decreases |ds| - j
  {
    if j == |ds| then RowResult(row, Pass)
    else if j >= |row| then RowResult(row, Fail(IndexError))
    else if |row[j]| != |ds[j]| then RowResult(row, Fail(BroadcastError))
    else AddRow(row[j := Add(row[j], ds[j])], ds, j + 1)
  }

  /** The body of `accumulate_gradient`, resumed at document `i`. */
  function AccumulateFrom(s: AccState, datas: seq<TransformerData>, i: nat): AccResult
    requires i <= |datas| && i <= |s.dTensors|
    decreases |datas| - i
  {
    if i == |datas| then AccResult(s, Pass)
    else
      var ds := datas[i].tensors;
      var loss := s.loss + TensorsSquares(ds);
      if i >= |s.dTensors| then
        AccumulateFrom(AccState(s.dTensors + [ds], loss), datas, i + 1)
      else
        var added := AddRow(s.dTensors[i], ds, 0);
        var next := AccState(s.dTensors[i := added.row], loss);
        if added.outcome.Fail? then AccResult(next, added.outcome)
        else AccumulateFrom(next, datas, i + 1)
  }

  /** From position `j` on, each array of `ds` has a counterpart of its length in `row`. */
  predicate FitsFrom(row: seq<Tensor>, ds: seq<Tensor>, j: nat)
  {
    && (j < |ds| ==> |ds| <= |row|)
    && forall k :: j <= k < |ds| && k < |row| ==> |ds[k]| == |row[k]|
  }

  lemma FitsAfterAdd(row: seq<Tensor>, ds: seq<Tensor>, j: nat)
    requires j < |ds| && j < |row| && |row[j]| == |ds[j]|
    ensures FitsFrom(row, ds, j) <==> FitsFrom(row[j := Add(row[j], ds[j])], ds, j + 1)
  {
  }

  lemma {:induction false} AddRowSpec(row: seq<Tensor>, ds: seq<Tensor>, j: nat)
    requires j <= |ds|
    ensures |AddRow(row, ds, j).row| == |row|
    ensures AddRow(row, ds, j).outcome.Pass? <==> FitsFrom(row, ds, j)
    ensures AddRow(row, ds, j).outcome.Pass? ==>
      forall k :: 0 <= k < |row| ==>
        AddRow(row, ds, j).row[k] == if j <= k < |ds| then Add(row[k], ds[k]) else row[k]
    decreases |ds| - j
  {
    if j < |ds| && j < |row| && |row[j]| == |ds[j]| {
      AddRowSpec(row[j := Add(row[j], ds[j])], ds, j + 1);
      FitsAfterAdd(row, ds, j);
    }
  }

  /** The list never shrinks nor grows past the larger count, and the loss never decreases. */
  lemma {:induction false} AccumulateFromBounds(s: AccState, datas: seq<TransformerData>, i: nat)
    requires i <= |datas| && i <= |s.dTensors|
    ensures var r := AccumulateFrom(s, datas, i);
      |s.dTensors| <= |r.state.dTensors| <= Max(|s.dTensors|, |datas|) && r.state.loss >= s.loss
    decreases |datas| - i
  {
    if i < |datas| {
      var ds := datas[i].tensors;
      var loss := s.loss + TensorsSquares(ds);
      TensorsSquaresNonNegative(ds);
      if i >= |s.dTensors| {
        AccumulateFromBounds(AccState(s.dTensors + [ds], loss), datas, i + 1);
      } else {
        var added := AddRow(s.dTensors[i], ds, 0);
        AddRowSpec(s.dTensors[i], ds, 0);
        if added.outcome.Pass? {
          AccumulateFromBounds(AccState(s.dTensors[i := added.row], loss), datas, i + 1);
        }
      }
    }
  }

  /** The call fails exactly when a remaining, already accumulated document cannot take its contribution. */
  lemma {:induction false} AccumulateFromPass(s: AccState, datas: seq<TransformerData>, i: nat)
    requires i <= |datas| && i <= |s.dTensors|
    ensures AccumulateFrom(s, datas, i).outcome.Pass? <==>
      forall k :: i <= k < |datas| && k < |s.dTensors| ==> RowCompatible(s.dTensors[k], datas[k].tensors)
    decreases |datas| - i
  {
    if i < |datas| {
      var ds := datas[i].tensors;
      var loss := s.loss + TensorsSquares(ds);
      if i >= |s.dTensors| {
        AccumulateFromPass(AccState(s.dTensors + [ds], loss), datas, i + 1);
      } else {
        var added := AddRow(s.dTensors[i], ds, 0);
        AddRowSpec(s.dTensors[i], ds, 0);
        var next := AccState(s.dTensors[i := added.row], loss);
        if added.outcome.Pass? {
          AccumulateFromPass(next, datas, i + 1);
          assert forall k :: i < k < |s.dTensors| ==> next.dTensors[k] == s.dTensors[k];
        }
      }
    }
  }

  /** Proof helper: the accumulator once documents `i..` are done, those before `i` being done already. */
  ghost function Pending(acc: seq<seq<Tensor>>, datas: seq<TransformerData>, i: nat): seq<seq<Tensor>>
    requires i <= |acc|
    requires forall k :: i <= k < |datas| && k < |acc| ==> RowCompatible(acc[k], datas[k].tensors)
  {
    seq(Max(|acc|, |datas|), k requires 0 <= k < Max(|acc|, |datas|) =>
      if k < i || k >= |datas| then acc[k]
      else if k < |acc| then Merged(acc[k], datas[k].tensors)
      else datas[k].tensors)
  }

  lemma PendingAppend(acc: seq<seq<Tensor>>, datas: seq<TransformerData>, i: nat)
    requires i == |acc| && i < |datas|
    ensures Pending(acc + [datas[i].tensors], datas, i + 1) == Pending(acc, datas, i)
  {
  }

  lemma PendingMerge(acc: seq<seq<Tensor>>, datas: seq<TransformerData>, i: nat)
    requires i < |acc| && i < |datas|
    requires forall k :: i <= k < |datas| && k < |acc| ==> RowCompatible(acc[k], datas[k].tensors)
    ensures Pending(acc[i := Merged(acc[i], datas[i].tensors)], datas, i + 1) == Pending(acc, datas, i)
  {
  }

  lemma {:induction false} UnfoldAppend(s: AccState, datas: seq<TransformerData>, i: nat)
    requires i == |s.dTensors| && i < |datas|
    ensures AccumulateFrom(s, datas, i) ==
      AccumulateFrom(AccState(s.dTensors + [datas[i].tensors], s.loss + TensorsSquares(datas[i].tensors)), datas, i + 1)
  {
  }

  /** What `accumulate_gradient` does for document `i` alone: add its loss, then append its arrays or add them into its row. */
  function DocStep(s: AccState, ds: seq<Tensor>, i: nat): (r: AccResult)
    requires i <= |s.dTensors|
    ensures |r.state.dTensors| == if i < |s.dTensors| then |s.dTensors| else i + 1
  {
    var loss := s.loss + TensorsSquares(ds);
    if i >= |s.dTensors| then AccResult(AccState(s.dTensors + [ds], loss), Pass)
    else
      var added := AddRow(s.dTensors[i], ds, 0);
      AccResult(AccState(s.dTensors[i := added.row], loss), added.outcome)
  }

  /** The body of `accumulate_gradient` is one `DocStep` per document, stopping at the first that fails. */
  lemma {:induction false} UnfoldStep(s: AccState, datas: seq<TransformerData>, i: nat)
    requires i <= |s.dTensors| && i < |datas|
    ensures var st := DocStep(s, datas[i].tensors, i);
      AccumulateFrom(s, datas, i) == if st.outcome.Fail? then st else AccumulateFrom(st.state, datas, i + 1)
  {
  }

  /** The loop over one document's arrays computes the reference `Merged` when the lengths fit. */
  lemma {:induction false} AddRowMerged(row: seq<Tensor>, ds: seq<Tensor>)
    requires RowCompatible(row, ds)
    ensures AddRow(row, ds, 0) == RowResult(Merged(row, ds), Pass)
  {
    AddRowSpec(row, ds, 0);
  }

  lemma {:induction false} UnfoldMerge(s: AccState, datas: seq<TransformerData>, i: nat)
    requires i < |s.dTensors| && i < |datas|
    requires RowCompatible(s.dTensors[i], datas[i].tensors)
    ensures AccumulateFrom(s, datas, i) ==
      AccumulateFrom(AccState(s.dTensors[i := Merged(s.dTensors[i], datas[i].tensors)],
                              s.loss + TensorsSquares(datas[i].tensors)), datas, i + 1)
  {
    AddRowMerged(s.dTensors[i], datas[i].tensors);
  }

  /** Without an error, each accumulated document gains its contribution and new ones are appended. */
  lemma {:induction false} AccumulateFromValue(s: AccState, datas: seq<TransformerData>, i: nat)
    requires i <= |datas| && i <= |s.dTensors|
    requires forall k :: i <= k < |datas| && k < |s.dTensors| ==> RowCompatible(s.dTensors[k], datas[k].tensors)
    ensures AccumulateFrom(s, datas, i).state ==
      AccState(Pending(s.dTensors, datas, i), s.loss + LossOf(datas[i..]))
    decreases |datas| - i
  {
    if i == |datas| {
      assert Pending(s.dTensors, datas, i) == s.dTensors;
    } else {
      var ds := datas[i].tensors;
      var loss := s.loss + TensorsSquares(ds);
      assert datas[i..][1..] == datas[i + 1..];
      assert LossOf(datas[i..]) == TensorsSquares(ds) + LossOf(datas[i + 1..]);
      if i >= |s.dTensors| {
        UnfoldAppend(s, datas, i);
        AccumulateFromValue(AccState(s.dTensors + [ds], loss), datas, i + 1);
        PendingAppend(s.dTensors, datas, i);
      } else {
        UnfoldMerge(s, datas, i);
        AccumulateFromValue(AccState(s.dTensors[i := Merged(s.dTensors[i], ds)], loss), datas, i + 1);
        PendingMerge(s.dTensors, datas, i);
      }
    }
  }

  /** One call of `accumulate_gradient` with the per-document gradients `datas`. */
  function Accumulate(s: AccState, datas: seq<TransformerData>): AccResult
  {
    AccumulateFrom(s, datas, 0)
  }

  /**
   * What one call of `accumulate_gradient` does. It fails exactly when some
   * document already accumulated gets more arrays than it has, or an array of
   * another length; when it does not fail, every accumulated array gains its
   * contribution, documents seen for the first time are appended, and the
   * loss gains the sum of squares of everything received. Whatever happens,
   * the loss never decreases and the list grows only to cover documents not
   * seen before.
   */
  lemma AccumulateSpec(s: AccState, datas: seq<TransformerData>)
    ensures var r := Accumulate(s, datas);
      && |s.dTensors| <= |r.state.dTensors| <= Max(|s.dTensors|, |datas|)
      && r.state.loss >= s.loss
      && (r.outcome.Pass? <==> Compatible(s.dTensors, datas))
      && (r.outcome.Pass? ==> r.state == AccState(Accumulated(s.dTensors, datas), s.loss + LossOf(datas)))
  {
    AccumulateFromBounds(s, datas, 0);
    AccumulateFromPass(s, datas, 0);
    if AccumulateFrom(s, datas, 0).outcome.Pass? {
      AccumulateFromValue(s, datas, 0);
      assert datas[0..] == datas;
      assert Pending(s.dTensors, datas, 0) == Accumulated(s.dTensors, datas);
    }
  }

  /** The state after every call in `calls`, in order (a failed call leaves its partial state behind). */
  function AccumulateAll(s: AccState, calls: seq<seq<TransformerData>>): AccState
  {
    if calls == [] then s
    else Accumulate(AccumulateAll(s, calls[..|calls| - 1]), calls[|calls| - 1]).state
  }

  lemma AccumulateAllSnoc(s: AccState, calls: seq<seq<TransformerData>>, c: seq<TransformerData>)
    ensures AccumulateAll(s, calls + [c]) == Accumulate(AccumulateAll(s, calls), c).state
  {
    assert (calls + [c])[..|calls|] == calls;
  }

  /** Over any sequence of calls, failed ones included, the loss never decreases and no document's entry is dropped. */
  lemma {:induction false} AccumulateAllMonotone(s: AccState, calls: seq<seq<TransformerData>>)
    ensures var r := AccumulateAll(s, calls);
      r.loss >= s.loss && |s.dTensors| <= |r.dTensors| <= Max(|s.dTensors|, MaxDocs(calls))
  {
    if calls != [] {
      var prefix := calls[..|calls| - 1];
      AccumulateAllMonotone(s, prefix);
      AccumulateSpec(AccumulateAll(s, prefix), calls[|calls| - 1]);
    }
  }

  /** No call in `calls` raised. */
  predicate AllPass(s: AccState, calls: seq<seq<TransformerData>>)
  {
    calls == [] ||
    (AllPass(s, calls[..|calls| - 1]) &&
     Accumulate(AccumulateAll(s, calls[..|calls| - 1]), calls[|calls| - 1]).outcome.Pass?)
  }

  /** The largest number of documents any call carried. */
  function MaxDocs(calls: seq<seq<TransformerData>>): nat
  {
    if calls == [] then 0 else Max(MaxDocs(calls[..|calls| - 1]), |calls[|calls| - 1]|)
  }

  /** What call `c` contributed to array `j` of document `i` (zeros when it carried none). */
  function Contribution(c: seq<TransformerData>, i: nat, j: nat, n: nat): (r: Tensor)
    ensures |r| == n
  {
    if i < |c| && j < |c[i].tensors| && |c[i].tensors[j]| == n then c[i].tensors[j] else Zeros(n)
  }

  /** Reference definition: the element-wise sum of everything `calls` contributed to array `j` of document `i`. */
  function ContributionSum(calls: seq<seq<TransformerData>>, i: nat, j: nat, n: nat): (r: Tensor)
    ensures |r| == n
  {
    if calls == [] then Zeros(n)
    else Add(ContributionSum(calls[..|calls| - 1], i, j, n), Contribution(calls[|calls| - 1], i, j, n))
  }

  /** The total loss `calls` contributed. */
  function TotalLoss(calls: seq<seq<TransformerData>>): int
  {
    if calls == [] then 0 else TotalLoss(calls[..|calls| - 1]) + LossOf(calls[|calls| - 1])
  }

  lemma {:induction false} NoContribution(calls: seq<seq<TransformerData>>, i: nat, j: nat, n: nat)
    requires MaxDocs(calls) <= i
    ensures ContributionSum(calls, i, j, n) == Zeros(n)
  {
    if calls != [] {
      NoContribution(calls[..|calls| - 1], i, j, n);
      AddZeros(Zeros(n));
    }
  }

  /**
   * After any sequence of calls that raised nothing, starting from the empty
   * `d_tensors`, the accumulator holds one entry per document of the largest
   * call, each array of it is the element-wise sum of all contributions made
   * to it, and the loss has gained the sums of squares of everything received.
   */
  lemma {:induction false} AccumulatedIsSum(loss0: int, calls: seq<seq<TransformerData>>)
    requires AllPass(AccState([], loss0), calls)
    ensures var r := AccumulateAll(AccState([], loss0), calls);
      && |r.dTensors| == MaxDocs(calls)
      && r.loss == loss0 + TotalLoss(calls)
      && forall i, j :: 0 <= i < |r.dTensors| && 0 <= j < |r.dTensors[i]| ==>
           r.dTensors[i][j] == ContributionSum(calls, i, j, |r.dTensors[i][j]|)
  {
    if calls != [] {
      var init := AccState([], loss0);
      var prefix := calls[..|calls| - 1];
      var last := calls[|calls| - 1];
      AccumulatedIsSum(loss0, prefix);
      var prev := AccumulateAll(init, prefix);
      var r := Accumulate(prev, last).state;
      AccumulateSpec(prev, last);
      assert r == AccState(Accumulated(prev.dTensors, last), prev.loss + LossOf(last));
      forall i, j | 0 <= i < |r.dTensors| && 0 <= j < |r.dTensors[i]|
        ensures r.dTensors[i][j] == ContributionSum(calls, i, j, |r.dTensors[i][j]|)
      {
        SumStep(prev.dTensors, prefix, last, i, j);
      }
    }
  }

  /** The inductive step of `AccumulatedIsSum`, for one array. */
  lemma SumStep(prev: seq<seq<Tensor>>, prefix: seq<seq<TransformerData>>, last: seq<TransformerData>, i: nat, j: nat)
    requires Compatible(prev, last)
    requires |prev| == MaxDocs(prefix)
    requires forall i, j :: 0 <= i < |prev| && 0 <= j < |prev[i]| ==>
               prev[i][j] == ContributionSum(prefix, i, j, |prev[i][j]|)
    requires i < |Accumulated(prev, last)| && j < |Accumulated(prev, last)[i]|
    ensures var r := Accumulated(prev, last);
      r[i][j] == ContributionSum(prefix + [last], i, j, |r[i][j]|)
  {
    var r := Accumulated(prev, last);
    var n := |r[i][j]|;
    var calls := prefix + [last];
    assert calls[..|calls| - 1] == prefix && calls[|calls| - 1] == last;
    assert ContributionSum(calls, i, j, n) ==
      Add(ContributionSum(prefix, i, j, n), Contribution(last, i, j, n));
    if i < |prev| {
      assert |r[i]| == |prev[i]| && |r[i][j]| == |prev[i][j]|;
      AddZeros(prev[i][j]);
    } else {
      NoContribution(prefix, i, j, n);
      AddZeros(last[i].tensors[j]);
    }
  }
}
