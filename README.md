# spaCy transformer stage and its listeners, in Dafny

This models the `Transformer` pipeline component of spacy-transformers and the
`TransformerListener` layers it feeds.

- **One pass, broadcast.** The component runs its encoder once per batch. It hands every registered listener three things:
  - the batch id, a fingerprint of the documents;
  - the per-document slices of the output;
  - a callback.
- **Training.** Every listener but the last gets `accumulate_gradient`, which folds the gradient it is given into a shared accumulator and adds the squared gradient to this stage's loss. The last listener gets `backprop`, which accumulates once more, unsplits the accumulated gradient, runs the encoder's backward function once, and applies the optimizer when one was given.
- **Listener forward.** In training, a listener's forward pass checks that the batch is the one it was fed and passes the stored values through. At inference it reads each document's `trf_data` instead.

Modules:

- `Errors` (errors.dfy): `Option`, `Result`, `Outcome` and the error kinds the code raises:
  - `ValueError`, with or without the "Mismatched IDs" message;
  - `IndexError`, for `self.listeners[-1]` on an empty list or a document with more arrays than accumulated;
  - a broadcasting error, standing for numpy's ValueError, for arrays of different lengths.
- `TrfData` (trf_data.dfy): documents as sequences of token `orth` ids, arrays as flat integer sequences, `TransformerData`, `FullTransformerBatch`, element-wise sums and sums of squares.
- `Sums` (sums.dfy): a generic sum over a sequence and the fact that it does not depend on order.
- `Accumulation` (accumulation.dfy): the value-level specification of `accumulate_gradient`. It has:
  - one call, with its partial state on failure;
  - a history of calls;
  - a reference definition of the accumulator as a sum of contributions, with the lemmas that connect them.
- `Pipeline` (pipeline.dfy): the classes.
  - `Encoder`: the wrapped model. Its outputs are opaque functions; ghost counters record `predict`, `begin_update` and `finish_update` calls.
  - `UpdateStep`: the environment that the two closures of one `update` call share. It holds the accumulator and the `losses` dictionary, with the invariant that they are what the callback calls so far made of the initial state.
  - `TransformerListener`, the listener `Forward` function, and `Transformer` with `create_listener`, `add_listener`, `find_listeners`, `predict`, `set_annotations` and `update`.

## Model

| member | source | states |
|---|---|---|
| Pipeline.TransformerListener.GetBatchId | spacy_transformers/pipeline.py:178-180 | the id of an empty batch is 0 |
| Pipeline.BatchIdConcat | spacy_transformers/pipeline.py:178-180 | the id of two batches together is the sum of their ids |
| Pipeline.BatchIdDocOrder | spacy_transformers/pipeline.py:178-180 | any reordering of the documents (equal multisets) gives the same id |
| Pipeline.BatchIdTokenOrder | spacy_transformers/pipeline.py:178-180 | reordering the tokens of any one document gives the same id |
| Sums.SumOfPermutation | spacy_transformers/pipeline.py:180 | a sum over a sequence depends only on the multiset of its elements |
| Pipeline.BatchIdCollision | spacy_transformers/pipeline.py:178-195 | two different batches (`[[1,2]]` and `[[3]]`) share an id, so a listener fed one accepts the other |
| Pipeline.TransformerListener.constructor | spacy_transformers/pipeline.py:171-176 | keeps the upstream name and width; batch id, outputs and callback start as None |
| Pipeline.TransformerListener.Receive | spacy_transformers/pipeline.py:182-185 | sets exactly the three stored fields to its arguments; upstream name and width are constants |
| Pipeline.TransformerListener.VerifyInputs | spacy_transformers/pipeline.py:187-195 | succeeds (with True) exactly when the stored batch id is the id of the inputs; a plain ValueError when id and outputs are both None; otherwise a mismatch error carrying both ids |
| Pipeline.FreshListenerRejects | spacy_transformers/pipeline.py:187-201 | a listener with nothing received rejects every batch with a plain ValueError, directly and in a training pass |
| Pipeline.TrainingAfterReceive | spacy_transformers/pipeline.py:182-201 | after receiving id `b`, outputs `o` and callback `cb`, a training pass succeeds exactly when the batch id is `b` and then returns `o` and `cb` unchanged; otherwise a mismatch error naming both ids |
| Pipeline.Forward | spacy_transformers/pipeline.py:198-206 | training: succeeds iff the ids match, passes outputs and callback through, otherwise fails as `verify_inputs` does. Inference: always succeeds; an empty batch gives `[TransformerData.empty()]`; otherwise one `trf_data` per document in input order, of the same length; the backward function returns the docs for every argument |
| Pipeline.InferenceIgnoresState | spacy_transformers/pipeline.py:202-206 | at inference any two listeners, whatever they stored, give the same results and a backward function returning the docs |
| Pipeline.Transformer.constructor | spacy_transformers/pipeline.py:25-40 | keeps the encoder; the listener list starts empty; the name parameter stands for the component's registered name (pipeline.py:14), which `Pipe` supplies |
| Pipeline.Transformer.CreateListener | spacy_transformers/pipeline.py:42-46 | appends one fresh listener with upstream name "transformer", the encoder's width and nothing stored; earlier listeners are kept |
| Pipeline.Transformer.AddListener | spacy_transformers/pipeline.py:48-49 | appends the listener |
| Pipeline.MatchingSpec | spacy_transformers/pipeline.py:51-57 | a listener is selected from the walked nodes exactly when it is one of them and its upstream name is the stage's name |
| Pipeline.MatchingCount | spacy_transformers/pipeline.py:51-57 | a listener naming the stage is selected once for every node that holds it, no more and no fewer |
| Pipeline.Transformer.FindListeners | spacy_transformers/pipeline.py:51-57 | appends exactly the matching listener nodes, in walk order |
| Pipeline.Encoder.Predict | spacy_transformers/pipeline.py:77 | returns the encoder's prediction and records one `predict` call |
| Pipeline.Encoder.BeginUpdate | spacy_transformers/pipeline.py:108 | returns the encoder's training output and records one `begin_update` call |
| Pipeline.Encoder.FinishUpdate | spacy_transformers/pipeline.py:134 | records one `finish_update` with the given optimizer |
| Pipeline.Transformer.Predict | spacy_transformers/pipeline.py:76-81 | one `predict` call; every listener then holds the batch id of the docs, the prediction's `doc_data` and no callback; returns the prediction |
| Pipeline.Transformer.SetAnnotations | spacy_transformers/pipeline.py:83-92 | each document up to the shorter of the two lists gets its slice in `trf_data`; every other slot is unchanged |
| Pipeline.AnnotationsFeedInference | spacy_transformers/pipeline.py:90-91 | after `set_annotations`, an inference pass of any listener reads back exactly the slices written |
| Pipeline.UpdateStep.constructor | spacy_transformers/pipeline.py:108-111 | an empty accumulator; `losses` after `setdefault(name, 0)`: every existing entry kept, and the initial loss is the existing value for this stage or 0; no calls received yet; the invariant holds |
| Pipeline.UpdateStep.AddLosses | spacy_transformers/pipeline.py:119-120 | this stage's loss gains the sum of squares of every array of one document; other entries are unchanged |
| Pipeline.UpdateStep.AddIntoRow | spacy_transformers/pipeline.py:124-125 | adds each array into the accumulated row as the row specification says, stopping with IndexError or a broadcasting error at the first array that does not fit; other rows are unchanged |
| Pipeline.UpdateStep.AccumulateDoc | spacy_transformers/pipeline.py:118-125 | one document: the loss gains its squares, then its arrays are appended if the document is new, or added into its row; the result is the one-document step of the accumulation specification; other loss entries are unchanged |
| Pipeline.UpdateStep.AccumulateDocs | spacy_transformers/pipeline.py:118-125 | the loop over the documents equals the accumulation specification on the old accumulator and loss, stopping with the partial state at the first document that raises |
| Pipeline.UpdateStep.AccumulateGradient | spacy_transformers/pipeline.py:113-125 | keeps the invariant; the new accumulator, loss and outcome are those of the accumulation specification on the old state; only this stage's loss entry changes |
| Pipeline.UpdateStep.Backprop | spacy_transformers/pipeline.py:127-135 | exactly one accumulation; only this stage's loss entry changes. If it fails: no unsplit, no backward call, no optimizer step. If it passes: one unsplit of the accumulated gradient, one backward call whose result is returned, and `finish_update(sgd)` exactly when `sgd` is given |
| Pipeline.UpdateStep.AccumulatorIsSum | spacy_transformers/pipeline.py:113-131 | when no callback call has raised, the accumulator `backprop` unsplits has one entry per document of the largest call, each array is the element-wise sum of every contribution received for it, and the loss is the initial loss plus all squares received |
| Pipeline.Transformer.Update | spacy_transformers/pipeline.py:94-142 | one `begin_update` and a fresh update step with `setdefault` applied. With no listeners: IndexError. Otherwise every listener holds the batch id and `doc_data`, the last one the backprop callback and all others the accumulating one. The annotations are set when asked |
| Accumulation.AddRowSpec | spacy_transformers/pipeline.py:124-125 | adding a document's arrays into its row keeps the row length and passes exactly when every array fits; then each array is the element-wise sum |
| Accumulation.AccumulateSpec | spacy_transformers/pipeline.py:113-125 | one call: the list grows only to cover documents not seen before; the loss never decreases; it passes exactly when every already-seen document has no more arrays than its row and arrays of the same lengths; then the accumulator is the merged reference value and the loss gains the squares of everything received |
| Accumulation.AccumulateAllMonotone | spacy_transformers/pipeline.py:113-125 | over any sequence of calls, failed ones included, the loss never decreases and the list never shrinks nor outgrows the largest call |
| Accumulation.AccumulatedIsSum | spacy_transformers/pipeline.py:113-125 | after any sequence of calls that all passed, from the empty accumulator: one entry per document of the largest call; each array is the element-wise sum of every contribution made to it; the loss is the initial loss plus all squares received |
| TrfData.TensorsSquaresNonNegative | spacy_transformers/pipeline.py:120 | a loss contribution is never negative |

## Left out

- `Pipeline.Forward` and `Pipeline.Transformer.SetAnnotations` model the `doc._.trf_data` extension as a map keyed by document position. A missing key reads as None, which takes the extension to be registered with a None default; that registration is not part of this model.
- Arrays are flat integer sequences and the loss is an integer. Floating point and `float(...)` rounding are not modelled.
- `Pipeline.UpdateStep.AddIntoRow` models `+=` only for arrays of equal length. Numpy broadcasting between arrays of different lengths is modelled as an error, and so is a document with more arrays than accumulated (the IndexError the code raises).
- `Pipeline.UpdateStep.AddIntoRow`, `Accumulation.AddRow`: array shape is not modelled, only the flat length. Two arrays with the same number of elements are added element by element whatever their shapes, where numpy's in-place `+=` would raise for shapes such as (2,3) and (3,2).
- Arrays have value semantics. In the code, the first `d_trf_data.tensors` stored for a document is kept by reference and later `+=` mutates it in place, which the caller can observe. The model does not capture that aliasing.
- `Pipeline.UpdateStep` owns its `losses` map. In the code the caller's dictionary is mutated in place; the model exposes the resulting map instead.
- The encoder: `predict`, `begin_update`, its backward function, `unsplit_by_doc` and `get_dim` are opaque functions fixed when the encoder is built. `set_dropout_rate` and `finish_update`'s effect on the weights are not modelled; only the calls are recorded.
- `layers/split_trf.py` and `layers/hf_shim.py` are not part of this model. `split_trf.py`'s backprop delegates to `FullTransformerBatch.unsplit_by_doc` (data_classes.py); `hf_shim.py` delegates to torch, srsly, the `transformers` Auto classes and temporary-directory file I/O.
- `annotation_setter` in `set_annotations`: a user callback whose effect is not modelled.
- `pipe`, `__call__`, `begin_training` and `get_loss`: spaCy plumbing (batching, vocab linking, an empty `get_loss`). They are not modelled.
- `Example.to_example_objects`, and the single-`Doc` wrapping in `update`: `Pipeline.Transformer.Update` takes the list of documents directly.
- `model.walk()`: `Pipeline.Transformer.FindListeners` takes the walked nodes as a sequence.
- The batch id is the plain sum of token ids, as the code computes it. It is order-insensitive and collides across different batches (`Pipeline.BatchIdCollision`).
- Callback objects are values (`Pipeline.Callback`) naming the update step they close over. Calling a stored callback is a call of `Pipeline.UpdateStep.AccumulateGradient` or `Pipeline.UpdateStep.Backprop` on that step.
