/**
 * The transformer stage of a spaCy pipeline and the listener layers fed by it:
 * one encoder pass per batch is broadcast to every registered listener, and in
 * training every listener but the last gets a callback that accumulates its
 * gradient while the last gets one that accumulates and then runs the
 * encoder's backward pass once.
 */
module Pipeline {
  import opened Errors
  import opened TrfData
  import opened Sums
  import opened Accumulation

  /** An optimizer passed to `update` as `sgd`; opaque. */
  datatype Optimizer = Optimizer(id: nat)

  /**
   * The wrapped encoder model. Its computations are opaque functions fixed at
   * construction; ghost counters record how often the stateful entry points
   * are called.
   */
  class Encoder {
    /** `get_dim("nO")`. */
    const width: nat
    /** `predict`. */
    const predictFn: seq<Doc> -> FullTransformerBatch
    /** The output half of `begin_update`. */
    const beginUpdateFn: seq<Doc> -> FullTransformerBatch
    /** `bp_trf_full`, the backward callback `begin_update(docs)` returns. */
    const backpropFn: (seq<Doc>, FullTransformerBatch) -> seq<Doc>
    /** `FullTransformerBatch.unsplit_by_doc`. */
    const unsplitFn: (FullTransformerBatch, seq<seq<Tensor>>) -> FullTransformerBatch
    ghost var predictCalls: nat
    ghost var beginUpdateCalls: nat
    /** The optimizers `finish_update` was called with, in order. */
    ghost var finishUpdates: seq<Optimizer>

    constructor (width: nat,
                 predictFn: seq<Doc> -> FullTransformerBatch,
                 beginUpdateFn: seq<Doc> -> FullTransformerBatch,
                 backpropFn: (seq<Doc>, FullTransformerBatch) -> seq<Doc>,
                 unsplitFn: (FullTransformerBatch, seq<seq<Tensor>>) -> FullTransformerBatch)
      ensures this.width == width && this.predictFn == predictFn && this.beginUpdateFn == beginUpdateFn
      ensures this.backpropFn == backpropFn && this.unsplitFn == unsplitFn
      ensures predictCalls == 0 && beginUpdateCalls == 0 && finishUpdates == []
    {
      this.width, this.predictFn, this.beginUpdateFn := width, predictFn, beginUpdateFn;
      this.backpropFn, this.unsplitFn := backpropFn, unsplitFn;
      predictCalls, beginUpdateCalls, finishUpdates := 0, 0, [];
    }

    method Predict(docs: seq<Doc>) returns (r: FullTransformerBatch)
      modifies this
      ensures r == predictFn(docs)
      ensures predictCalls == old(predictCalls) + 1
      ensures beginUpdateCalls == old(beginUpdateCalls) && finishUpdates == old(finishUpdates)
    {
      r := predictFn(docs);
      predictCalls := predictCalls + 1;
    }

    method BeginUpdate(docs: seq<Doc>) returns (r: FullTransformerBatch)
      modifies this
      ensures r == beginUpdateFn(docs)
      ensures beginUpdateCalls == old(beginUpdateCalls) + 1
      ensures predictCalls == old(predictCalls) && finishUpdates == old(finishUpdates)
    {
      r := beginUpdateFn(docs);
      beginUpdateCalls := beginUpdateCalls + 1;
    }

    method FinishUpdate(sgd: Optimizer)
      modifies this
      ensures finishUpdates == old(finishUpdates) + [sgd]
      ensures predictCalls == old(predictCalls) && beginUpdateCalls == old(beginUpdateCalls)
    {
      finishUpdates := finishUpdates + [sgd];
    }
  }

  /** `dict.setdefault(key, value)`, as it changes the dictionary. */
  function SetDefault(m: map<string, int>, key: string, value: int): (r: map<string, int>)
    ensures key in r && r.Keys == m.Keys + {key}
    ensures key in m ==> r == m
    ensures key !in m ==> r[key] == value && forall k :: k in m ==> r[k] == m[k]
  {
    if key in m then m else m[key := value]
  }

  /**
   * What the two callbacks built by one `update` call close over: the docs,
   * the encoder output and its backward function, the optimizer, the growing
   * `d_tensors` accumulator and the `losses` dictionary.
   */
  class UpdateStep {
    const name: string
    const docs: seq<Doc>
    const trfFull: FullTransformerBatch
    const sgd: Option<Optimizer>
    const encoder: Encoder
    var dTensors: seq<seq<Tensor>>
    var losses: map<string, int>
    /** `losses[name]` right after `setdefault`. */
    ghost const initialLoss: int
    /** The argument of every callback call so far, in order. */
    ghost var received: seq<seq<TransformerData>>
    ghost var unsplitCalls: nat
    ghost var backpropCalls: nat

    /** The accumulator and this stage's loss, as the accumulation specification sees them. */
    ghost function State(): AccState
      reads this
      requires name in losses
    {
      AccState(dTensors, losses[name])
    }

    /** The state is what the calls received so far have made of the initial one. */
    ghost predicate Valid()
      reads this
    {
      name in losses && State() == AccumulateAll(AccState([], initialLoss), received)
    }

    constructor (name: string, docs: seq<Doc>, trfFull: FullTransformerBatch, sgd: Option<Optimizer>,
                 encoder: Encoder, losses: map<string, int>)
      ensures Valid()
      ensures this.name == name && this.docs == docs && this.trfFull == trfFull
      ensures this.sgd == sgd && this.encoder == encoder
      ensures this.losses == SetDefault(losses, name, 0) && initialLoss == this.losses[name]
      ensures initialLoss == (if name in losses then losses[name] else 0)
      ensures forall k :: k in losses ==> k in this.losses && this.losses[k] == losses[k]
      ensures dTensors == [] && received == [] && unsplitCalls == 0 && backpropCalls == 0
    {
      this.name, this.docs, this.trfFull, this.sgd, this.encoder := name, docs, trfFull, sgd, encoder;
      var withLoss := SetDefault(losses, name, 0);
      this.losses := withLoss;
      initialLoss := withLoss[name];
      dTensors := [];
      received := [];
      unsplitCalls, backpropCalls := 0, 0;
    }

    /** The inner loop `losses[self.name] += float((d_tensor ** 2).sum())` over one document's arrays. */
    method AddLosses(ds: seq<Tensor>)
      requires name in losses
      modifies this`losses
      ensures losses == old(losses)[name := old(losses[name]) + TensorsSquares(ds)]
    {
      var t := 0;
      while t < |ds|
        invariant 0 <= t <= |ds|
        invariant losses == old(losses)[name := old(losses[name]) + TensorsSquares(ds[..t])]
      {
        losses := losses[name := losses[name] + SumOfSquares(ds[t])];
        assert ds[..t + 1][..t] == ds[..t];
        t := t + 1;
      }
      assert ds[..|ds|] == ds;
    }

    /** The inner loop `d_tensors[i][j] += d_tensor` over one document's arrays. */
    method AddIntoRow(i: nat, ds: seq<Tensor>) returns (outcome: Outcome)
      requires i < |dTensors|
      modifies this`dTensors
      ensures |dTensors| == |old(dTensors)| && dTensors == old(dTensors)[i := dTensors[i]]
      ensures AddRow(old(dTensors[i]), ds, 0) == RowResult(dTensors[i], outcome)
    {
      var j := 0;
      while j < |ds|
        invariant 0 <= j <= |ds|
        invariant |dTensors| == |old(dTensors)| && dTensors == old(dTensors)[i := dTensors[i]]
        invariant AddRow(old(dTensors[i]), ds, 0) == AddRow(dTensors[i], ds, j)
      {
        if j >= |dTensors[i]| {
          return Fail(IndexError);
        }
        if |dTensors[i][j]| != |ds[j]| {
          return Fail(BroadcastError);
        }
        dTensors := dTensors[i := dTensors[i][j := Add(dTensors[i][j], ds[j])]];
        j := j + 1;
      }
      outcome := Pass;
    }

    /** One pass of the outer loop of `accumulate_gradient`: document `i`'s loss, then its arrays appended or added into its row. */
    method AccumulateDoc(i: nat, ds: seq<Tensor>) returns (outcome: Outcome)
      requires name in losses && i <= |dTensors|
      modifies this`dTensors, this`losses
      ensures name in losses && losses == old(losses)[name := losses[name]]
      ensures AccResult(AccState(dTensors, losses[name]), outcome) == DocStep(old(AccState(dTensors, losses[name])), ds, i)
    {
      AddLosses(ds);
      if i >= |dTensors| {
        dTensors := dTensors + [ds];
        outcome := Pass;
      } else {
        outcome := AddIntoRow(i, ds);
      }
    }

    /** The outer loop of `accumulate_gradient`, over the documents received. */
    method AccumulateDocs(dTrfDatas: seq<TransformerData>) returns (outcome: Outcome)
      requires name in losses
      modifies this`dTensors, this`losses
      ensures name in losses && losses == old(losses)[name := losses[name]]
      ensures AccResult(AccState(dTensors, losses[name]), outcome) == Accumulate(old(AccState(dTensors, losses[name])), dTrfDatas)
    {
      ghost var target := Accumulate(AccState(dTensors, losses[name]), dTrfDatas);
      outcome := Pass;
      var i := 0;
      while i < |dTrfDatas|
        invariant 0 <= i <= |dTrfDatas| && i <= |dTensors| && outcome == Pass
        invariant name in losses && losses == old(losses)[name := losses[name]]
        invariant AccumulateFrom(AccState(dTensors, losses[name]), dTrfDatas, i) == target
      {
        UnfoldStep(AccState(dTensors, losses[name]), dTrfDatas, i);
        outcome := AccumulateDoc(i, dTrfDatas[i].tensors);
        if outcome.Fail? {
          break;
        }
        i := i + 1;
      }
    }

    /**
     * `accumulate_gradient`: add this stage's loss for every array received
     * and fold the arrays into `d_tensors`, document by document.
     */
    method AccumulateGradient(dTrfDatas: seq<TransformerData>) returns (outcome: Outcome)
      requires Valid()
      modifies this
      ensures Valid()
      ensures received == old(received) + [dTrfDatas]
      ensures AccResult(State(), outcome) == Accumulate(old(State()), dTrfDatas)
      ensures losses == old(losses)[name := losses[name]]
      ensures unsplitCalls == old(unsplitCalls) && backpropCalls == old(backpropCalls)
    {
      AccumulateAllSnoc(AccState([], initialLoss), received, dTrfDatas);
      received := received + [dTrfDatas];
      outcome := AccumulateDocs(dTrfDatas);
    }

    /**
     * When no callback call has raised, the accumulator that `backprop`
     * unsplits holds, for every document and array, the element-wise sum of
     * all contributions received, and this stage's loss has gained the
     * squares of all of them.
     */
    lemma AccumulatorIsSum()
      requires Valid() && AllPass(AccState([], initialLoss), received)
      ensures |dTensors| == MaxDocs(received) && losses[name] == initialLoss + TotalLoss(received)
      ensures forall i, j :: 0 <= i < |dTensors| && 0 <= j < |dTensors[i]| ==>
        dTensors[i][j] == ContributionSum(received, i, j, |dTensors[i][j]|)
    {
      AccumulatedIsSum(initialLoss, received);
    }

    /**
     * `backprop`: accumulate once more, unsplit the accumulated gradient,
     * run the encoder's backward function once, and apply the optimizer when
     * one was given.
     */
    method Backprop(dTrfDatas: seq<TransformerData>) returns (r: Result<seq<Doc>>)
      requires Valid()
      modifies this, encoder
      ensures Valid()
      ensures received == old(received) + [dTrfDatas]
      ensures AccResult(State(), if r.Ok? then Pass else Fail(r.error)) == Accumulate(old(State()), dTrfDatas)
      ensures losses == old(losses)[name := losses[name]]
      ensures r.Err? ==>
        && unsplitCalls == old(unsplitCalls) && backpropCalls == old(backpropCalls)
        && encoder.finishUpdates == old(encoder.finishUpdates)
      ensures r.Ok? ==>
        && r.value == encoder.backpropFn(docs, encoder.unsplitFn(trfFull, dTensors))
        && unsplitCalls == old(unsplitCalls) + 1 && backpropCalls == old(backpropCalls) + 1
        && encoder.finishUpdates == old(encoder.finishUpdates) + (if sgd.Some? then [sgd.value] else [])
      ensures encoder.predictCalls == old(encoder.predictCalls)
      ensures encoder.beginUpdateCalls == old(encoder.beginUpdateCalls)
    {
      var outcome := AccumulateGradient(dTrfDatas);
      if outcome.Fail? {
        return Err(outcome.error);
      }
      var dTrfFull := encoder.unsplitFn(trfFull, dTensors);
      unsplitCalls := unsplitCalls + 1;
      var dDocs := encoder.backpropFn(docs, dTrfFull);
      backpropCalls := backpropCalls + 1;
      if sgd.Some? {
        encoder.FinishUpdate(sgd.value);
      }
      r := Ok(dDocs);
    }
  }

  /** The two callbacks `update` hands to listeners, with the state they close over. */
  datatype Callback =
    | AccumulateCallback(step: UpdateStep)   // accumulate_gradient
    | BackpropCallback(step: UpdateStep)     // backprop

  /** `token.orth`. */
  function OrthOf(o: Orth): int { o }

  /** `sum(token.orth for token in doc)`. */
  function DocOrthSum(doc: Doc): int { SumOf(doc, OrthOf) }

  /** A layer fed its outputs by an upstream transformer stage. */
  class TransformerListener {
    const upstreamName: string
    const width: nat
    var batchId: Option<int>
    var outputs: Option<seq<TransformerData>>
    var backprop: Option<Callback>

    constructor (upstreamName: string, width: nat)
      ensures this.upstreamName == upstreamName && this.width == width
      ensures batchId == None && outputs == None && backprop == None
    {
      this.upstreamName, this.width := upstreamName, width;
      batchId, outputs, backprop := None, None, None;
    }

    /** `get_batch_id`: the sum over all docs of the sum of their tokens' orth ids. */
    static function GetBatchId(inputs: seq<Doc>): (r: int)
      ensures inputs == [] ==> r == 0
    {
      SumOf(inputs, DocOrthSum)
    }

    method Receive(batchId: Option<int>, outputs: Option<seq<TransformerData>>, backprop: Option<Callback>)
      modifies this
      ensures this.batchId == batchId && this.outputs == outputs && this.backprop == backprop
    {
      this.batchId, this.outputs, this.backprop := batchId, outputs, backprop;
    }

    /**
     * `verify_inputs`: raises before anything was received, raises when the
     * batch id of `inputs` differs from the one received, returns True otherwise.
     */
    function VerifyInputs(inputs: seq<Doc>): (r: Result<bool>)
      reads this
      ensures r.Ok? <==> batchId == Some(GetBatchId(inputs))
      ensures r.Ok? ==> r.value
      ensures batchId == None && outputs == None ==> r == Err(ValueError)
      ensures r.Err? && (batchId != None || outputs != None) ==> r.error == MismatchedIds(GetBatchId(inputs), batchId)
    {
      if batchId == None && outputs == None then Err(ValueError)
      else
        var id := GetBatchId(inputs);
        if Some(id) != batchId then Err(MismatchedIds(id, batchId)) else Ok(true)
    }
  }

  /** What a listener's forward pass returns. */
  datatype ListenerOutput =
    | Trained(outputs: Option<seq<TransformerData>>, callback: Option<Callback>)
    | Inferred(results: seq<Option<TransformerData>>, backward: seq<TransformerData> -> seq<Doc>)

  /** `doc._.trf_data` of the document at position `i`, or None when it was never set. */
  function TrfDataOf(trfData: map<nat, TransformerData>, i: nat): Option<TransformerData>
  {
    if i in trfData then Some(trfData[i]) else None
  }

  /**
   * The listener's `forward`. In training it checks the batch and passes the
   * stored outputs and callback through; at inference it ignores the stored
   * state and reads each document's `trf_data` slot (`trfData`, keyed by the
   * document's position), or gives the empty value for an empty batch; its
   * backward function returns the docs.
   */
  function Forward(model: TransformerListener, docs: seq<Doc>, isTrain: bool, trfData: map<nat, TransformerData>): (r: Result<ListenerOutput>)
    reads model
    ensures isTrain ==> (r.Ok? <==> model.batchId == Some(TransformerListener.GetBatchId(docs)))
    ensures isTrain && r.Ok? ==> r.value.Trained? && r.value.outputs == model.outputs && r.value.callback == model.backprop
    ensures isTrain && r.Err? ==> model.VerifyInputs(docs) == Err(r.error)
    ensures !isTrain ==> r.Ok? && r.value.Inferred?
    ensures !isTrain && docs == [] ==> r.Ok? && r.value.Inferred? && r.value.results == [Some(EmptyData())]
    ensures !isTrain && docs != [] ==>
      && r.Ok? && r.value.Inferred? && |r.value.results| == |docs|
      && forall i :: 0 <= i < |docs| ==> r.value.results[i] == TrfDataOf(trfData, i)
    ensures !isTrain ==> r.Ok? && r.value.Inferred? && forall d :: r.value.backward(d) == docs
  {
    if isTrain then
      match model.VerifyInputs(docs)
      case Err(e) => Err(e)
      case Ok(_) => Ok(Trained(model.outputs, model.backprop))
    else if |docs| == 0 then
      Ok(Inferred([Some(EmptyData())], (d: seq<TransformerData>) => docs))
    else
      Ok(Inferred(seq(|docs|, i requires 0 <= i < |docs| => TrfDataOf(trfData, i)), (d: seq<TransformerData>) => docs))
  }

  /** Before anything is received, every batch is rejected with a plain ValueError, in training and by `verify_inputs`. */
  lemma FreshListenerRejects(listener: TransformerListener, docs: seq<Doc>, trfData: map<nat, TransformerData>)
    requires listener.batchId == None && listener.outputs == None && listener.backprop == None
    ensures listener.VerifyInputs(docs) == Err(ValueError)
    ensures Forward(listener, docs, true, trfData) == Err(ValueError)
  {
  }

  /** After receiving a batch id and outputs, a training pass succeeds exactly on batches with that id and then hands back what was received. */
  lemma TrainingAfterReceive(listener: TransformerListener, docs: seq<Doc>, trfData: map<nat, TransformerData>,
                             b: int, o: seq<TransformerData>, cb: Option<Callback>)
    requires listener.batchId == Some(b) && listener.outputs == Some(o) && listener.backprop == cb
    ensures Forward(listener, docs, true, trfData).Ok? <==> TransformerListener.GetBatchId(docs) == b
    ensures TransformerListener.GetBatchId(docs) == b ==> Forward(listener, docs, true, trfData) == Ok(Trained(Some(o), cb))
    ensures TransformerListener.GetBatchId(docs) != b ==>
      Forward(listener, docs, true, trfData) == Err(MismatchedIds(TransformerListener.GetBatchId(docs), Some(b)))
  {
  }

  /** At inference two listeners in any states give the same results and the same backward function. */
  lemma InferenceIgnoresState(m1: TransformerListener, m2: TransformerListener, docs: seq<Doc>, trfData: map<nat, TransformerData>)
    ensures var r1, r2 := Forward(m1, docs, false, trfData), Forward(m2, docs, false, trfData);
      && r1.Ok? && r2.Ok? && r1.value.Inferred? && r2.value.Inferred?
      && r1.value.results == r2.value.results
      && forall d :: r1.value.backward(d) == r2.value.backward(d) == docs
  {
    var r1, r2 := Forward(m1, docs, false, trfData), Forward(m2, docs, false, trfData);
    if docs != [] {
      assert forall i :: 0 <= i < |docs| ==> r1.value.results[i] == r2.value.results[i];
    }
  }

  /** A node of a model graph, as `model.walk()` yields it. */
  datatype Node = ListenerNode(listener: TransformerListener) | OtherNode

  /** The listeners among `nodes` whose upstream name is `name`, in walk order. */
  function Matching(nodes: seq<Node>, name: string): seq<TransformerListener>
  {
    if nodes == [] then []
    else
      var n := nodes[|nodes| - 1];
      Matching(nodes[..|nodes| - 1], name) +
        if n.ListenerNode? && n.listener.upstreamName == name then [n.listener] else []
  }

  /** `Matching` keeps exactly the listener nodes that name the stage, and no more of them than there are nodes. */
  lemma {:induction false} MatchingSpec(nodes: seq<Node>, name: string)
    ensures |Matching(nodes, name)| <= |nodes|
    ensures forall l :: l in Matching(nodes, name) <==>
      exists i :: 0 <= i < |nodes| && nodes[i] == ListenerNode(l) && l.upstreamName == name
  {
    if nodes != [] {
      var prefix := nodes[..|nodes| - 1];
      MatchingSpec(prefix, name);
      assert forall i :: 0 <= i < |prefix| ==> prefix[i] == nodes[i];
      forall l | exists i :: 0 <= i < |nodes| && nodes[i] == ListenerNode(l) && l.upstreamName == name
        ensures l in Matching(nodes, name)
      {
        var i :| 0 <= i < |nodes| && nodes[i] == ListenerNode(l) && l.upstreamName == name;
        if i < |prefix| {
          assert prefix[i] == ListenerNode(l);
        }
      }
    }
  }

  /** The positions of the walk that yield `l`. */
  ghost function Positions(nodes: seq<Node>, l: TransformerListener): set<int>
  {
    set i | 0 <= i < |nodes| && nodes[i] == ListenerNode(l)
  }

  lemma PositionsSnoc(nodes: seq<Node>, l: TransformerListener)
    requires nodes != []
    ensures |Positions(nodes, l)| ==
      |Positions(nodes[..|nodes| - 1], l)| + if nodes[|nodes| - 1] == ListenerNode(l) then 1 else 0
  {
    var prefix := nodes[..|nodes| - 1];
    var all, before := Positions(nodes, l), Positions(prefix, l);
    assert forall i :: 0 <= i < |prefix| ==> prefix[i] == nodes[i];
    if nodes[|nodes| - 1] == ListenerNode(l) {
      forall i ensures i in all <==> i in before || i == |nodes| - 1 {
      }
      assert all == before + {|nodes| - 1};
    } else {
      forall i ensures i in all <==> i in before {
      }
      assert all == before;
    }
  }

  /** A listener naming the stage is selected as many times as the walk yields it. */
  lemma {:induction false} MatchingCount(nodes: seq<Node>, name: string, l: TransformerListener)
    requires l.upstreamName == name
    ensures multiset(Matching(nodes, name))[l] == |set i | 0 <= i < |nodes| && nodes[i] == ListenerNode(l)|
  {
    assert Positions(nodes, l) == set i | 0 <= i < |nodes| && nodes[i] == ListenerNode(l);
    if nodes == [] {
      assert Positions(nodes, l) == {};
    } else {
      var prefix := nodes[..|nodes| - 1];
      var last := nodes[|nodes| - 1];
      MatchingCount(prefix, name, l);
      assert Positions(prefix, l) == set i | 0 <= i < |prefix| && prefix[i] == ListenerNode(l);
      PositionsSnoc(nodes, l);
      var added := if last.ListenerNode? && last.listener.upstreamName == name then [last.listener] else [];
      assert Matching(nodes, name) == Matching(prefix, name) + added;
      assert multiset(added)[l] == if last == ListenerNode(l) then 1 else 0;
    }
  }

  /** `trf_data` after `set_annotations`: each of the first documents holds its slice of the batch, the others are untouched. */
  ghost predicate Annotated(before: map<nat, TransformerData>, after: map<nat, TransformerData>, docs: seq<Doc>, docData: seq<TransformerData>)
  {
    && (forall i :: 0 <= i < |docs| && i < |docData| ==> TrfDataOf(after, i) == Some(docData[i]))
    && (forall i: nat :: !(i < |docs| && i < |docData|) ==> TrfDataOf(after, i) == TrfDataOf(before, i))
  }

  /** After `set_annotations` with a slice per document, an inference pass of any listener reads back exactly those slices. */
  lemma AnnotationsFeedInference(model: TransformerListener, before: map<nat, TransformerData>, after: map<nat, TransformerData>,
                                 docs: seq<Doc>, docData: seq<TransformerData>)
    requires Annotated(before, after, docs, docData) && |docs| <= |docData|
    ensures var r := Forward(model, docs, false, after);
      && r.Ok? && r.value.Inferred?
      && r.value.results == if docs == [] then [Some(EmptyData())] else seq(|docs|, i requires 0 <= i < |docs| => Some(docData[i]))
  {
  }

  /** The pipeline component that runs the encoder and feeds its listeners. */
  class Transformer {
    const name: string
    const encoder: Encoder
    var listeners: seq<TransformerListener>

    /** `name` stands for the name the component is registered under, which `Pipe` supplies. */
    constructor (name: string, encoder: Encoder)
      ensures this.name == name && this.encoder == encoder && listeners == []
    {
      this.name, this.encoder := name, encoder;
      listeners := [];
    }

    /** `create_listener`: register a fresh listener for the stage named "transformer". */
    method CreateListener()
      modifies this
      ensures |listeners| == |old(listeners)| + 1 && listeners[..|old(listeners)|] == old(listeners)
      ensures var l := listeners[|listeners| - 1];
        && fresh(l) && l.upstreamName == "transformer" && l.width == encoder.width
        && l.batchId == None && l.outputs == None && l.backprop == None
    {
      var listener := new TransformerListener("transformer", encoder.width);
      listeners := listeners + [listener];
    }

    /** `add_listener`. */
    method AddListener(listener: TransformerListener)
      modifies this
      ensures listeners == old(listeners) + [listener]
    {
      listeners := listeners + [listener];
    }

    /** `find_listeners`: register every listener node of the graph whose upstream name is this stage's name. */
    method FindListeners(nodes: seq<Node>)
      modifies this
      ensures listeners == old(listeners) + Matching(nodes, name)
    {
      var i := 0;
      while i < |nodes|
        invariant 0 <= i <= |nodes|
        invariant listeners == old(listeners) + Matching(nodes[..i], name)
      {
        assert nodes[..i + 1][..i] == nodes[..i];
        var node := nodes[i];
        if node.ListenerNode? && node.listener.upstreamName == name {
          AddListener(node.listener);
        }
        i := i + 1;
      }
      assert nodes[..|nodes|] == nodes;
    }

    /** `predict`: one encoder pass, broadcast to every listener with the batch id and no callback. */
    method Predict(docs: seq<Doc>) returns (activations: FullTransformerBatch)
      modifies encoder, set l | l in listeners
      ensures activations == encoder.predictFn(docs)
      ensures encoder.predictCalls == old(encoder.predictCalls) + 1
      ensures encoder.beginUpdateCalls == old(encoder.beginUpdateCalls) && encoder.finishUpdates == old(encoder.finishUpdates)
      ensures forall k :: 0 <= k < |listeners| ==>
        && listeners[k].batchId == Some(TransformerListener.GetBatchId(docs))
        && listeners[k].outputs == Some(activations.docData)
        && listeners[k].backprop == None
    {
      activations := encoder.Predict(docs);
      var batchId := TransformerListener.GetBatchId(docs);
      var i := 0;
      while i < |listeners|
        invariant 0 <= i <= |listeners|
        invariant encoder.predictCalls == old(encoder.predictCalls) + 1
        invariant encoder.beginUpdateCalls == old(encoder.beginUpdateCalls) && encoder.finishUpdates == old(encoder.finishUpdates)
        invariant forall k :: 0 <= k < i ==>
          listeners[k].batchId == Some(batchId) && listeners[k].outputs == Some(activations.docData) && listeners[k].backprop == None
      {
        listeners[i].Receive(Some(batchId), Some(activations.docData), None);
        i := i + 1;
      }
    }

    /** `set_annotations`: write each document's slice into its `trf_data` slot (as far as both lists go). */
    method SetAnnotations(docs: seq<Doc>, predictions: FullTransformerBatch, trfData: map<nat, TransformerData>)
      returns (annotated: map<nat, TransformerData>)
      ensures Annotated(trfData, annotated, docs, predictions.docData)
    {
      annotated := trfData;
      var i := 0;
      while i < |docs| && i < |predictions.docData|
        invariant 0 <= i <= |docs| && i <= |predictions.docData|
        invariant forall k :: 0 <= k < i ==> TrfDataOf(annotated, k) == Some(predictions.docData[k])
        invariant forall k: nat :: k >= i ==> TrfDataOf(annotated, k) == TrfDataOf(trfData, k)
      {
        annotated := annotated[i := predictions.docData[i]];
        i := i + 1;
      }
    }

    /**
     * `update`: one encoder pass with gradient tracking, broadcast to every
     * listener; the last one gets the backprop callback, the others the
     * accumulating one. Fails on `self.listeners[-1]` when there are none,
     * after `begin_update` and `setdefault` have already run.
     */
    method Update(docs: seq<Doc>, sgd: Option<Optimizer>, losses: Option<map<string, int>>, setAnnotations: bool,
                  trfData: map<nat, TransformerData>)
      returns (outcome: Outcome, step: UpdateStep, annotated: map<nat, TransformerData>)
      modifies encoder, set l | l in listeners
      ensures fresh(step) && step.Valid()
      ensures step.name == name && step.docs == docs && step.trfFull == encoder.beginUpdateFn(docs)
      ensures step.sgd == sgd && step.encoder == encoder
      ensures step.losses == SetDefault(if losses.Some? then losses.value else map[], name, 0)
      ensures step.dTensors == [] && step.received == [] && step.unsplitCalls == 0 && step.backpropCalls == 0
      ensures encoder.beginUpdateCalls == old(encoder.beginUpdateCalls) + 1
      ensures encoder.predictCalls == old(encoder.predictCalls) && encoder.finishUpdates == old(encoder.finishUpdates)
      ensures outcome == if listeners == [] then Fail(IndexError) else Pass
      ensures listeners != [] ==> forall k :: 0 <= k < |listeners| ==>
        && listeners[k].batchId == Some(TransformerListener.GetBatchId(docs))
        && listeners[k].outputs == Some(step.trfFull.docData)
        && listeners[k].backprop == Some(if listeners[k] == listeners[|listeners| - 1] then BackpropCallback(step) else AccumulateCallback(step))
      ensures if listeners != [] && setAnnotations then Annotated(trfData, annotated, docs, step.trfFull.docData)
              else annotated == trfData
    {
      var trfFull := encoder.BeginUpdate(docs);
      step := new UpdateStep(name, docs, trfFull, sgd, encoder, if losses.Some? then losses.value else map[]);
      annotated := trfData;
      var batchId := TransformerListener.GetBatchId(docs);
      if listeners == [] {
        return Fail(IndexError), step, annotated;
      }
      var n := |listeners|;
      var i := 0;
      while i < n - 1
        invariant 0 <= i <= n - 1
        invariant fresh(step) && step.Valid()
        invariant step.dTensors == [] && step.received == [] && step.unsplitCalls == 0 && step.backpropCalls == 0
        invariant step.losses == SetDefault(if losses.Some? then losses.value else map[], name, 0)
        invariant encoder.beginUpdateCalls == old(encoder.beginUpdateCalls) + 1
        invariant encoder.predictCalls == old(encoder.predictCalls) && encoder.finishUpdates == old(encoder.finishUpdates)
        invariant forall k :: 0 <= k < i ==>
          listeners[k].batchId == Some(batchId) && listeners[k].outputs == Some(trfFull.docData) &&
          listeners[k].backprop == Some(AccumulateCallback(step))
      {
        listeners[i].Receive(Some(batchId), Some(trfFull.docData), Some(AccumulateCallback(step)));
        i := i + 1;
      }
      listeners[n - 1].Receive(Some(batchId), Some(trfFull.docData), Some(BackpropCallback(step)));
      if setAnnotations {
        annotated := SetAnnotations(docs, trfFull, trfData);
      }
      outcome := Pass;
    }
  }

  /** The batch id of two batches together is the sum of theirs. */
  lemma BatchIdConcat(a: seq<Doc>, b: seq<Doc>)
    ensures TransformerListener.GetBatchId(a + b) == TransformerListener.GetBatchId(a) + TransformerListener.GetBatchId(b)
  {
    SumOfConcat(a, b, DocOrthSum);
  }

  /** Reordering the documents of a batch leaves its id unchanged. */
  lemma BatchIdDocOrder(docs: seq<Doc>, reordered: seq<Doc>)
    requires multiset(docs) == multiset(reordered)
    ensures TransformerListener.GetBatchId(docs) == TransformerListener.GetBatchId(reordered)
  {
    SumOfPermutation(docs, reordered, DocOrthSum);
  }

  /** Reordering the tokens of one document leaves the batch id unchanged. */
  lemma BatchIdTokenOrder(docs: seq<Doc>, k: nat, reordered: Doc)
    requires k < |docs| && multiset(reordered) == multiset(docs[k])
    ensures TransformerListener.GetBatchId(docs[k := reordered]) == TransformerListener.GetBatchId(docs)
  {
    SumOfPermutation(reordered, docs[k], OrthOf);
    var after := docs[k := reordered];
    SumOfRemove(docs, k, DocOrthSum);
    SumOfRemove(after, k, DocOrthSum);
    assert after[..k] + after[k + 1..] == docs[..k] + docs[k + 1..];
  }

  /**
   * The batch id does not identify a batch: two different batches share an
   * id, so a listener that received one accepts the other in training.
   */
  lemma BatchIdCollision(listener: TransformerListener)
    requires listener.batchId == Some(TransformerListener.GetBatchId([[1, 2]]))
    ensures [[1, 2]] != [[3]] && listener.VerifyInputs([[3]]) == Ok(true)
  {
    assert TransformerListener.GetBatchId([[1, 2]]) == 3 == TransformerListener.GetBatchId([[3]]);
  }
}
