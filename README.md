# GTZAN augmentation pipeline: a Dafny model

This project models the orchestration core of a music-genre classifier that
is evaluated and trained under data augmentation:

- the **interpreter** (`model_fitter/interpreter.py`): the table of
  test-time-augmentation (TTA) bounds per transform, model construction with
  and without the augerino wrapper, the three-mode evaluation record
  (`no_aug`, `tta_normal`, `tta_custom`), the loader settings and the
  data-extraction dataset;
- the **dynamic dataset** (`model_fitter/dataset/dynamic_dataset.py`): the
  transform registry, the mode-dependent `__getitem__` (augerino, tangent
  propagation "tp", and the segmented sweep over strength options), `__len__`
  and the truncate-split-mel patching;
- the **training loop** (`model_fitter/utils/train.py`): the nested loop over
  batches and augmentation options, recorded as a log of the calls it makes to
  the model, the optimizer and the reporter.

Tensor work is not modelled. Samples, mel spectrograms, network classes, saved
weights and class ids are opaque types; audio loading, noise injection, pitch
shifting, `splitsongs`, the mel transform, `evaluate_model` and
`get_num_correct` are functions passed in as parameters (`Audio.Primitives`,
`Interpreter.Evaluator`). Python exceptions become `Python.Result` values
carrying an `Error`.

Modules: `Python` (results, exceptions, list indexing with negative indices,
dictionary lookup, slicing), `Audio` (waveforms, the 478912-sample prefix),
`Traces` (sequences appended by loops and their projections), `DynamicDataset`,
`Interpreter`, `Train`.

Design choices:
- `model_type` and transform keys stay strings, because the source dispatches
  on string equality: a model type other than `augerino` or `tp` takes the
  segmented branch of the dataset, while the training loop only treats the
  exact string `segmented` as having several inner iterations.
- The dataset is a class whose fields are set once by its constructor. The
  interpreter is a datatype built by `Interpreter.Create`, because its
  `__init__` calls `get_model`, which can raise.
- Dafny refuses a `map` of functions as a class field, so the transform
  registry is the `AugTable` datatype wrapped around that map.
- `accuracy` divides the number of correct predictions by the constant 100
  (model_fitter/interpreter.py:60), which is the fraction correct only for a
  test split of 100 samples; `Interpreter.AccuracyIsFraction` proves that case.
- A waveform shorter than 478912 samples passes through `wave[:478912]`
  unchanged; no error is raised for it.
- `torch.stack` of an empty list raises. This is modelled as `StackError`:
  a segmented sweep with no options, or `splitsongs` returning no segments.
  The mel transform is only read inside the per-segment comprehension, so an
  empty split raises `StackError` even in augerino mode, where there is no
  mel transform.

## Model

| member | source | states |
|---|---|---|
| `Audio.Truncate` | model_fitter/dataset/dynamic_dataset.py:102-107 | the result is the prefix of the waveform of length min(length, 478912) |
| `Audio.TruncateIgnoresTail` | model_fitter/dataset/dynamic_dataset.py:102-107 | samples after position 478912 never reach the truncated waveform |
| `DynamicDataset.NoAugmentation` | model_fitter/dataset/dynamic_dataset.py:47 | the "none" transform returns its input and ignores strength and flag |
| `DynamicDataset.GtzanDynamicDataset.constructor` | model_fitter/dataset/dynamic_dataset.py:28-61 | fields stored as given; the registry maps ni, ps, none to noise injection, pitch shift and identity; e0 and the mel transform (16000 Hz, bands, window, hop) are set exactly when the model type is not augerino |
| `DynamicDataset.GtzanDynamicDataset.Len` | model_fitter/dataset/dynamic_dataset.py:99-100 | the length is the number of paths |
| `DynamicDataset.GtzanDynamicDataset.IndexOutOfRange` | model_fitter/dataset/dynamic_dataset.py:66-67 | an index outside -len..len-1 raises IndexError on the path list |
| `DynamicDataset.GtzanDynamicDataset.GetPatchedSpectrograms` | model_fitter/dataset/dynamic_dataset.py:102-113 | one mel spectrogram per segment of the truncated waveform, in segment order; an empty segment list raises the empty-stack error in every mode; otherwise AttributeError when there is no mel transform |
| `DynamicDataset.GtzanDynamicDataset.PatchesIgnoreTail` | model_fitter/dataset/dynamic_dataset.py:102-109 | appending samples after the first 478912 does not change the patches |
| `DynamicDataset.GtzanDynamicDataset.AugmentedView` | model_fitter/dataset/dynamic_dataset.py:88-91 | one sweep iteration: KeyError for an unregistered transform, otherwise the patches of the non-deterministic augmentation with the given strength |
| `DynamicDataset.GtzanDynamicDataset.AugmentedViews` | model_fitter/dataset/dynamic_dataset.py:85-91 | the sweep yields one view per option, or the exception of one of its iterations |
| `DynamicDataset.GtzanDynamicDataset.ItemOf` | model_fitter/dataset/dynamic_dataset.py:66-96 | an index outside -len..len-1 raises IndexError; a returned item has both indices in range and the target at that index; its data is a raw waveform exactly in augerino mode, one patch stack exactly in tp mode, and otherwise one view per strength option, with at least one option |
| `DynamicDataset.GtzanDynamicDataset.GetItem` | model_fitter/dataset/dynamic_dataset.py:66-96 | the loop-based `__getitem__` returns exactly the item or exception of the function `ItemOf` |
| `DynamicDataset.GtzanDynamicDataset.AugmentedViewsKeepFirstError` | model_fitter/dataset/dynamic_dataset.py:87-91 | an exception in one sweep iteration is the exception of the whole sweep |
| `DynamicDataset.GtzanDynamicDataset.AugmentedViewsPointwise` | model_fitter/dataset/dynamic_dataset.py:85-91 | the sweep succeeds iff every option does, and then holds one view per option, view i being the view of option i |
| `DynamicDataset.GtzanDynamicDataset.AugerinoItem` | model_fitter/dataset/dynamic_dataset.py:70-74 | augerino: succeeds iff both indices are in range; returns the 478912-prefix of the loaded wave with gradient tracking, an empty second component and the target |
| `DynamicDataset.GtzanDynamicDataset.TangentPropItem` | model_fitter/dataset/dynamic_dataset.py:76-83 | tp: succeeds iff patching, the registry lookup, patching the deterministic augmentation with strength e0 and the target lookup all do; returns those patches and the target |
| `DynamicDataset.GtzanDynamicDataset.SegmentedItem` | model_fitter/dataset/dynamic_dataset.py:84-96 | segmented: succeeds iff there is an option, the key is registered and every option patches; view i is the patched non-deterministic augmentation with option i; the second component is empty |
| `DynamicDataset.GtzanDynamicDataset.UnknownTransformFails` | model_fitter/dataset/dynamic_dataset.py:76-91 | an unregistered transform key raises KeyError once the lookup is reached |
| `DynamicDataset.GtzanDynamicDataset.NoneTransformKeepsInput` | model_fitter/dataset/dynamic_dataset.py:44-48 | with "none", the tp second component and every segmented view equal the patches of the unaugmented wave |
| `Interpreter.GetAugs` | model_fitter/interpreter.py:89-95 | ni gives [None, (9, 12), (9.1788, 12.7092)], ps gives [None, (-2, 2), (-1.7464, 1.1212)], any other key gives [None] |
| `Interpreter.CustomBoundsScaleNormalBound` | model_fitter/interpreter.py:90-93 | the custom bounds are the upper normal bound times the two calibration factors of the transform |
| `Interpreter.AugerinoAugmentation` | model_fitter/interpreter.py:105-109 | ps gives PitchShiftAug, ni gives GaussianNoiseAug, any other transform raises RuntimeError |
| `Interpreter.GetModel` | model_fitter/interpreter.py:99-114 | not augerino: the bare net with the weights loaded; augerino: ps gives PitchShiftAug, ni gives GaussianNoiseAug around an unloaded net with the weights on the wrapper; any other transform raises RuntimeError |
| `Interpreter.Create` | model_fitter/interpreter.py:13-25 | fails exactly when `get_model` does; otherwise fixes the mel parameters and stores the configuration and the model |
| `Interpreter.AugerinoInterpreterHasAllBounds` | model_fitter/interpreter.py:89-111 | an augerino interpreter always has all three bound settings |
| `Interpreter.GetLoader` | model_fitter/interpreter.py:119-137 | the loader reads the test split with train off, the given settings, batch size 16 and no shuffling |
| `Interpreter.ModeRecord` | model_fitter/interpreter.py:56-63 | predictions and targets are the evaluator's outputs unchanged; 100 times the accuracy is the number correct |
| `Interpreter.AccuracyIsFraction` | model_fitter/interpreter.py:58-61 | with 100 targets the accuracy is the fraction correct and lies in [0, 1] |
| `Interpreter.RunEvaluation` | model_fitter/interpreter.py:50-87 | succeeds iff the transform has bounds, and otherwise fails with IndexError on index 1; the result has exactly the keys no_aug, tta_normal, tta_custom, evaluated with settings 0, 1 and 2 |
| `Interpreter.DataExtractionDataset` | model_fitter/interpreter.py:30-48 | the five fixed paths and labels in order, train off, the custom setting; IndexError on index 2 without bounds |
| `Interpreter.RunDataExtraction` | model_fitter/interpreter.py:30-48 | succeeds iff the transform has bounds (IndexError on index 2 otherwise) and then makes the gather_outputs call with the interpreter's model, the extraction dataset, the chosen transform and the model type |
| `Train.NAugsCases` | model_fitter/utils/train.py:13-15 | n_augs is 1 outside segmented mode, and 0, which skips the inner loop, exactly for segmented mode with no options |
| `Train.InnerEvents` | model_fitter/utils/train.py:24-49 | one inner iteration makes 9 calls on even batches and 7 on odd ones |
| `Train.InnerEventsTagged` | model_fitter/utils/train.py:24-49 | every call of an inner iteration is tagged with that batch and iteration, and none is model.train(), the gradient flag or record_augerino_lims |
| `Train.EpochEvents` | model_fitter/utils/train.py:10-52 | the epoch log starts with model.train() |
| `Train.EpochLength` | model_fitter/utils/train.py:10-52 | an epoch makes 1 + (n if tangent prop) + n_augs * (7n + 2 ceil(n/2)) + (1 in augerino mode) calls |
| `Train.BatchLoopLength` | model_fitter/utils/train.py:18-49 | the batch loop makes (n if tangent prop) + n_augs * (7n + 2 ceil(n/2)) calls |
| `Train.InnerIteration` | model_fitter/utils/train.py:23-49 | one inner iteration appends fetch, predict, loss, record, zero_grad, backward, step, then keep_log and memory release on even batches |
| `Train.TrainBatch` | model_fitter/utils/train.py:18-49 | one batch appends the gradient flag when tangent prop is on, then n_augs inner iterations in order |
| `Train.RunBatches` | model_fitter/utils/train.py:18-49 | the batch loop appends the calls of batch 0, 1, ... up to the number of batches, in order |
| `Train.TrainModel` | model_fitter/utils/train.py:10-52 | sets train_set_len to n_augs times the dataset length in segmented mode only, and appends exactly the call log of the epoch |
| `Train.ForwardPasses` | model_fitter/utils/train.py:18-25 | batches times n_augs forward passes; pass b * n_augs + i fetches view i of batch b |
| `Train.OptimizerOrder` | model_fitter/utils/train.py:33-39 | the reporter and optimizer calls are exactly record_batch_data, zero_grad, backward, step for every batch and inner iteration, in loop order, 4 * n_augs per batch |
| `Train.LoggingCadence` | model_fitter/utils/train.py:42-49 | keep_log and the memory release happen only on even batches, n_augs times each, 2 * n_augs * ceil(batches / 2) calls in all |
| `Train.AugerinoLimsRecordedOnce` | model_fitter/utils/train.py:50-52 | record_augerino_lims is called once, as the last call, in augerino mode, and never otherwise |
| `Train.GradTrackingOnlyForTangentProp` | model_fitter/utils/train.py:19-20 | the gradient flag is set for every batch in order when is_tangent_prop holds, and never otherwise |

## Left out

- Audio loading and resampling: a parameter function; unreadable files (IOError) are not modelled.
- Noise injection, pitch shift, `splitsongs` and the mel transform: opaque parameter functions, so nothing is claimed about their numerics or the lengths they produce.
- GtzanTTADataset, `evaluate_model`, `get_num_correct`, `gather_outputs`, `get_batch_data`, `get_model_prediction`, `get_model_loss`, `AugAveragedModel` and the loss functions are not part of this model. They appear only as recorded calls (`Train.Event`, `Interpreter.GatherCall`), parameters (`Interpreter.Evaluator`) or constructor-argument records (`Interpreter.TtaDataset`); what `gather_outputs` computes is not modelled.
- Randomness: the non-deterministic augmentations (called with `deterministic=False` in the segmented sweep), `evaluate_model` running over those random views, and the loaders' data are fixed functions in the model. Two calls with the same arguments therefore agree here, whereas in the program repeated `__getitem__` or evaluation calls draw fresh noise.
- Python floats are modelled as exact reals: the bound literals such as `12 * 0.7649` and the division `/ 100` carry no rounding.
- `load_path_data` is passed in as one test split; the model assumes each call to `get_loader` sees the same split.
- Tensor shapes: only the empty `torch.stack` is modelled, not shape mismatches.
- Device placement, `.double()`, `.to(device)`, `print`, and the text of the log message (including the `epoch` argument, which feeds only that text).
- Loss values, autograd and optimizer arithmetic, and the values of the learned augerino limits: only the order of the calls is recorded.
- DataLoader batching: the training loop sees only the number of batches and the dataset length.
- Default `None` arguments of the dataset constructor: every caller passes the dictionaries explicitly.
