/** The test-time-augmentation interpreter: builds the model, derives the
    augmentation bounds of its three evaluation modes from the chosen
    transform, and collects one evaluation record per mode. */
module Interpreter {
  import opened Python
  import opened Audio
  import opened DynamicDataset

  /** A `tta_settings` value: none, or the (low, high) strength bounds. */
  type Setting = Option<(real, real)>

  /** Network class (`combo[0]`), saved weights (`combo[1]`) and predicted
      class ids: handled only as whole values. */
  type Arch(==)
  type StateDict(==)
  type ClassId(==)

  datatype Combo = Combo(arch: Arch, state: StateDict)

  /** A network instance and the weights loaded into it directly, if any. */
  datatype Net = Net(arch: Arch, loaded: Option<StateDict>)

  /** The learned-bounds augmentation objects of the augerino wrapper. */
  datatype AugModule = PitchShiftAug | GaussianNoiseAug

  datatype Model =
    | Plain(net: Net)                                        // the bare network
    | AugAveraged(net: Net, aug: AugModule, loaded: StateDict) // AugAveragedModel

  /** The fields __init__ sets. */
  datatype Interp = Interp(params: MelSpecParams, augParams: AugParams, modelType: string, model: Model)

  /** The test split returned by `load_path_data`. */
  datatype Split = Split(testX: seq<string>, testY: seq<string>)

  /** The arguments a GtzanTTADataset is built from. */
  datatype TtaDataset = TtaDataset(paths: seq<string>, labels: seq<string>, melSpecParams: MelSpecParams,
                                   augParams: AugParams, train: bool, ttaSettings: Setting)

  datatype EvalLoader = EvalLoader(dataset: TtaDataset, batchSize: nat, shuffle: bool)

  /** `evaluate_model` and `get_num_correct`. */
  datatype Evaluator = Evaluator(
    evaluate: (Model, EvalLoader, string) -> (seq<ClassId>, seq<ClassId>),
    numCorrect: (seq<ClassId>, seq<ClassId>) -> nat)

  /** The arguments of the `gather_outputs` call that ends a data-extraction
      run: the model, the dataset, the transform key and the model type. */
  datatype GatherCall = GatherCall(model: Model, dataset: TtaDataset, transformChosen: string, modelType: string)

  /** One entry of the dictionary `run_evaluation` returns. */
  datatype EvalRecord = EvalRecord(accuracy: real, predictions: seq<ClassId>, targets: seq<ClassId>)

  /** The mel-spectrogram parameters __init__ fixes. */
  const PARAMS := MelSpecParams(256, 128, 1024, 256, 0.001)

  /** The five files, one per genre, of the data-extraction run. */
  const SAMPLES: seq<(string, string)> := [
    ("data/blues/norm/blues.00090.wav", "blues"),
    ("data/classical/norm/classical.00090.wav", "classical"),
    ("data/hiphop/norm/hiphop.00090.wav", "hiphop"),
    ("data/jazz/norm/jazz.00090.wav", "jazz"),
    ("data/reggae/norm/reggae.00090.wav", "reggae")]

  /** `get_augs`: the settings of no_aug, tta_normal and tta_custom. Only the
      noise-injection and pitch-shift keys have bounds. */
  function GetAugs(transform: string): (r: seq<Setting>)
    ensures |r| == if transform == "ni" || transform == "ps" then 3 else 1
    ensures r[0] == None
    ensures transform == "ni" ==> r[1] == Some((9.0, 12.0)) && r[2] == Some((9.1788, 12.7092))
    ensures transform == "ps" ==> r[1] == Some((-2.0, 2.0)) && r[2] == Some((-1.7464, 1.1212))
  {
    if transform == "ni" then [None, Some((9.0, 12.0)), Some((12.0 * 0.7649, 12.0 * 1.0591))]
    else if transform == "ps" then [None, Some((-2.0, 2.0)), Some((2.0 * -0.8732, 2.0 * 0.5606))]
    else [None]
  }

  /** The custom bounds are the upper normal bound scaled by the two
      calibration factors of the transform. */
  lemma CustomBoundsScaleNormalBound(transform: string)
    requires transform == "ni" || transform == "ps"
    ensures
      var hi := GetAugs(transform)[1].value.1;
      var (lowFactor, highFactor) := if transform == "ni" then (0.7649, 1.0591) else (-0.8732, 0.5606);
      GetAugs(transform)[2] == Some((hi * lowFactor, hi * highFactor))
  {
  }

  /** The augmentation object the augerino wrapper learns bounds for. */
  function AugerinoAugmentation(transform: string): (r: Result<AugModule>)
    ensures r.Ok? <==> transform == "ps" || transform == "ni"
    ensures transform == "ps" ==> r == Ok(PitchShiftAug)
    ensures transform == "ni" ==> r == Ok(GaussianNoiseAug)
    ensures r.Err? ==> r.error.RuntimeError?
  {
    if transform == "ps" then Ok(PitchShiftAug)
    else if transform == "ni" then Ok(GaussianNoiseAug)
    else Err(RuntimeError("no augmentation for augerino"))
  }

  /** `get_model`. The network is always instantiated; its weights are loaded
      directly unless the model type is augerino, in which case it is wrapped
      with the augmentation of the chosen transform and the wrapper receives
      the weights; with no such transform it raises before wrapping. */
  function GetModel(modelType: string, transform: string, combo: Combo): (r: Result<Model>)
    ensures modelType != "augerino" ==> r == Ok(Plain(Net(combo.arch, Some(combo.state))))
    ensures modelType == "augerino" ==> (r.Ok? <==> transform == "ps" || transform == "ni")
    ensures modelType == "augerino" && r.Ok? ==>
              && r.value.AugAveraged?
              && r.value.net == Net(combo.arch, None)
              && r.value.loaded == combo.state
              && r.value.aug == if transform == "ps" then PitchShiftAug else GaussianNoiseAug
    ensures r.Err? ==> r.error.RuntimeError?
  {
    var net := Net(combo.arch, None);
    if modelType != "augerino" then Ok(Plain(net.(loaded := Some(combo.state))))
    else
      var aug :- AugerinoAugmentation(transform);
      Ok(AugAveraged(net, aug, combo.state))
  }

  /** `__init__`: fails exactly when `get_model` does. */
  function Create(combo: Combo, augParams: AugParams, modelType: string): (r: Result<Interp>)
    ensures r.Ok? <==> GetModel(modelType, augParams.transformChosen, combo).Ok?
    ensures r.Ok? ==>
              && r.value.params == PARAMS
              && r.value.augParams == augParams
              && r.value.modelType == modelType
              && r.value.model == GetModel(modelType, augParams.transformChosen, combo).value
  {
    var model :- GetModel(modelType, augParams.transformChosen, combo);
    Ok(Interp(PARAMS, augParams, modelType, model))
  }

  /** An interpreter can only be built in augerino mode for a transform that
      has TTA bounds, so its evaluation always reaches all three modes. */
  lemma {:induction false} AugerinoInterpreterHasAllBounds(combo: Combo, augParams: AugParams)
    requires Create(combo, augParams, "augerino").Ok?
    ensures |GetAugs(augParams.transformChosen)| == 3
  {
  }

  /** `get_loader`: the test split, never in training mode, batches of 16,
      no shuffling. */
  function GetLoader(it: Interp, split: Split, setting: Setting): (r: EvalLoader)
    ensures r.dataset.paths == split.testX && r.dataset.labels == split.testY
    ensures r.dataset.melSpecParams == it.params && r.dataset.augParams == it.augParams
    ensures !r.dataset.train && r.dataset.ttaSettings == setting
    ensures r.batchSize == 16 && !r.shuffle
  {
    EvalLoader(TtaDataset(split.testX, split.testY, it.params, it.augParams, false, setting), 16, false)
  }

  /** The record of one evaluation mode. */
  function ModeRecord(it: Interp, split: Split, ev: Evaluator, setting: Setting): (rec: EvalRecord)
    ensures
      var (predictions, targets) := ev.evaluate(it.model, GetLoader(it, split, setting), it.modelType);
      && rec.predictions == predictions
      && rec.targets == targets
      && rec.accuracy * 100.0 == ev.numCorrect(predictions, targets) as real
  {
    var (predictions, targets) := ev.evaluate(it.model, GetLoader(it, split, setting), it.modelType);
    EvalRecord(ev.numCorrect(predictions, targets) as real / 100.0, predictions, targets)
  }

  /** The accuracy is the fraction of correct predictions when the split
      holds 100 samples, which the constant divisor assumes. */
  lemma AccuracyIsFraction(it: Interp, split: Split, ev: Evaluator, setting: Setting)
    requires
      var (predictions, targets) := ev.evaluate(it.model, GetLoader(it, split, setting), it.modelType);
      |targets| == 100 && ev.numCorrect(predictions, targets) <= |targets|
    ensures
      var (predictions, targets) := ev.evaluate(it.model, GetLoader(it, split, setting), it.modelType);
      var rec := ModeRecord(it, split, ev, setting);
      && 0.0 <= rec.accuracy <= 1.0
      && rec.accuracy == ev.numCorrect(predictions, targets) as real / |targets| as real
  {
  }

  /** `run_evaluation`: no_aug, tta_normal and tta_custom run in that order
      with settings 0, 1 and 2 of `get_augs`; without bounds for the
      transform the second mode raises IndexError and nothing is returned. */
  method RunEvaluation(it: Interp, split: Split, ev: Evaluator) returns (r: Result<map<string, EvalRecord>>)
    ensures var augs := GetAugs(it.augParams.transformChosen);
      && (r.Ok? <==> |augs| == 3)
      && (r.Err? ==> r.error == IndexError(1, 1))
      && (r.Ok? ==>
            && r.value.Keys == {"no_aug", "tta_normal", "tta_custom"}
            && r.value["no_aug"] == ModeRecord(it, split, ev, augs[0])
            && r.value["tta_normal"] == ModeRecord(it, split, ev, augs[1])
            && r.value["tta_custom"] == ModeRecord(it, split, ev, augs[2]))
  {
    var out: map<string, EvalRecord> := map[];
    var augs := GetAugs(it.augParams.transformChosen);

    var testLoader := GetLoader(it, split, augs[0]);
    var (noAugPredictions, noAugTargets) := ev.evaluate(it.model, testLoader, it.modelType);
    var noAugAccuracy := ev.numCorrect(noAugPredictions, noAugTargets);
    out := out["no_aug" := EvalRecord(noAugAccuracy as real / 100.0, noAugPredictions, noAugTargets)];

    var second :- At(augs, 1);
    testLoader := GetLoader(it, split, second);
    var (ttaPredictions, ttaTargets) := ev.evaluate(it.model, testLoader, it.modelType);
    var ttaAccuracy := ev.numCorrect(ttaPredictions, ttaTargets);
    out := out["tta_normal" := EvalRecord(ttaAccuracy as real / 100.0, ttaPredictions, ttaTargets)];

    var third := augs[2];
    testLoader := GetLoader(it, split, third);
    var (customPredictions, customTargets) := ev.evaluate(it.model, testLoader, it.modelType);
    ttaAccuracy := ev.numCorrect(customPredictions, customTargets);
    out := out["tta_custom" := EvalRecord(ttaAccuracy as real / 100.0, customPredictions, customTargets)];
    return Ok(out);
  }

  /** The dataset `run_data_extraction` hands to `gather_outputs`, built
      from the five fixed samples in order with the custom bounds; without
      custom bounds for the transform it raises IndexError. */
  function DataExtractionDataset(it: Interp): (r: Result<TtaDataset>)
    ensures var augs := GetAugs(it.augParams.transformChosen);
      && (r.Ok? <==> |augs| == 3)
      && (r.Err? ==> r.error == IndexError(2, 1))
      && (r.Ok? ==>
            && |r.value.paths| == |SAMPLES| && |r.value.labels| == |SAMPLES|
            && (forall i :: 0 <= i < |SAMPLES| ==>
                  r.value.paths[i] == SAMPLES[i].0 && r.value.labels[i] == SAMPLES[i].1)
            && r.value.melSpecParams == it.params && r.value.augParams == it.augParams
            && !r.value.train
            && r.value.ttaSettings == augs[2])
  {
    var augs := GetAugs(it.augParams.transformChosen);
    var custom :- At(augs, 2);
    Ok(TtaDataset(seq(|SAMPLES|, i requires 0 <= i < |SAMPLES| => SAMPLES[i].0),
                  seq(|SAMPLES|, i requires 0 <= i < |SAMPLES| => SAMPLES[i].1),
                  it.params, it.augParams, false, custom))
  }

  /** `run_data_extraction`: its one effect is the `gather_outputs` call,
      made with the interpreter's model, the extraction dataset, the chosen
      transform and the model type; it raises where the dataset does. */
  function RunDataExtraction(it: Interp): (r: Result<GatherCall>)
    ensures r.Ok? <==> |GetAugs(it.augParams.transformChosen)| == 3
    ensures r.Err? ==> r.error == IndexError(2, 1)
    ensures r.Ok? ==>
              && r.value.model == it.model
              && r.value.dataset == DataExtractionDataset(it).value
              && r.value.transformChosen == it.augParams.transformChosen
              && r.value.modelType == it.modelType
  {
    var dataset :- DataExtractionDataset(it);
    Ok(GatherCall(it.model, dataset, it.augParams.transformChosen, it.modelType))
  }
}
