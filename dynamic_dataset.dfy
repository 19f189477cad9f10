/** The per-sample pipeline of the GTZAN dynamic dataset: one audio file in,
    one model input out, shaped by the model type ("augerino", "tp", or
    anything else, which is the segmented pipeline). */
module DynamicDataset {
  import opened Python
  import opened Audio

  type Label = string

  /** The augmentation configuration: the chosen transform key and the
      strength options that `get_options_of_chosen_transform` returns. */
  datatype AugParams = AugParams(transformChosen: string, options: seq<real>)

  /** First component of a dataset item. */
  datatype Tensor =
    | RawWave(samples: Wave, requiresGrad: bool)   // augerino: truncated audio
    | Patches(specs: seq<MelSpec>)                 // tp: one patched spectrogram
    | Views(views: seq<seq<MelSpec>>)              // segmented: one per option

  /** The triple `__getitem__` returns: data, transformed view, target. */
  datatype Item = Item(data: Tensor, transformed: seq<MelSpec>, target: Label)

  /** The transform registry built in __init__, keyed by transform name. */
  datatype AugTable = AugTable(entries: map<string, AugFn>)

  /** The table entry for the key "none". */
  function NoAugmentation(wave: Wave, strength: real, deterministic: bool): (r: Wave)
    ensures r == wave
  {
    wave
  }

  class GtzanDynamicDataset {
    const paths: seq<string>
    const targets: seq<Label>
    const augParams: AugParams
    const train: bool
    const modelType: string
    const augmentations: AugTable
    const e0: Option<real>
    const melSpecTransform: Option<MelConfig>
    const load: string -> Wave
    const split: Wave -> seq<Wave>
    const mel: (MelConfig, Wave) -> MelSpec

    /** What __init__ establishes: e0 and the mel transform exist exactly
        outside augerino mode, and the table has its three keys with "none"
        being the identity. */
    ghost predicate Valid() {
      && (modelType == "augerino" <==> e0.None?)
      && (modelType == "augerino" <==> melSpecTransform.None?)
      && augmentations.entries.Keys == {"ni", "ps", "none"}
      && augmentations.entries["none"] == NoAugmentation
    }

    constructor (paths: seq<string>, labels: seq<Label>, melSpecParams: MelSpecParams,
                 augParams: AugParams, train: bool, modelType: string, prim: Primitives)
      ensures Valid()
      ensures this.paths == paths && targets == labels && this.augParams == augParams
      ensures this.train == train && this.modelType == modelType
      ensures load == prim.load && split == prim.split && mel == prim.mel
      ensures augmentations.entries == map["ni" := prim.noise, "ps" := prim.pitch, "none" := NoAugmentation]
      ensures modelType == "augerino" ==> e0 == None && melSpecTransform == None
      ensures modelType != "augerino" ==>
        && e0 == Some(melSpecParams.e0)
        && melSpecTransform == Some(MelConfig(BASE_SAMPLE_RATE, melSpecParams.bands,
                                              melSpecParams.windowSize, melSpecParams.hopSize))
    {
      this.paths := paths;
      targets := labels;
      this.augParams := augParams;
      this.train := train;
      augmentations := AugTable(map["ni" := prim.noise, "ps" := prim.pitch, "none" := NoAugmentation]);
      this.modelType := modelType;
      load := prim.load;
      split := prim.split;
      mel := prim.mel;
      if modelType != "augerino" {
        e0 := Some(melSpecParams.e0);
        melSpecTransform := Some(MelConfig(BASE_SAMPLE_RATE, melSpecParams.bands,
                                           melSpecParams.windowSize, melSpecParams.hopSize));
      } else {
        e0 := None;
        melSpecTransform := None;
      }
    }

    /** `__len__`. */
    function Len(): (n: nat)
      ensures n == |paths|
    {
      |paths|
    }

    /** `get_patched_spectrograms`: keep the first 478912 samples, split
        them into segments and stack the mel spectrogram of each segment.
        The mel transform is only looked up for a segment, so an empty
        split fails in `torch.stack` before a missing transform is noticed. */
    function GetPatchedSpectrograms(wd: Wave): (r: Result<seq<MelSpec>>)
      ensures split(Truncate(wd)) == [] ==> r == Err(StackError)
      ensures melSpecTransform.None? && split(Truncate(wd)) != [] ==>
                r == Err(AttributeError("mel_spec_transform"))
      ensures r.Ok? <==> melSpecTransform.Some? && |split(Truncate(wd))| > 0
      ensures r.Ok? ==>
        && |r.value| == |split(Truncate(wd))|
        && forall k :: 0 <= k < |r.value| ==>
             r.value[k] == mel(melSpecTransform.value, split(Truncate(wd))[k])
    {
      var segments := split(Truncate(wd));
      if |segments| == 0 then Err(StackError)
      else if melSpecTransform.None? then Err(AttributeError("mel_spec_transform"))
      else Ok(seq(|segments|, k requires 0 <= k < |segments| => mel(melSpecTransform.value, segments[k])))
    }

    /** One iteration of the segmented loop: augment non-deterministically
        with the given strength, then patch. */
    function AugmentedView(wave: Wave, factor: real): (r: Result<seq<MelSpec>>)
      ensures augParams.transformChosen !in augmentations.entries ==>
                r == Err(KeyError(augParams.transformChosen))
      ensures augParams.transformChosen in augmentations.entries ==>
                r == GetPatchedSpectrograms(augmentations.entries[augParams.transformChosen](wave, factor, false))
    {
      var augment :- Get(augmentations.entries, augParams.transformChosen);
      GetPatchedSpectrograms(augment(wave, factor, false))
    }

    /** The list the segmented loop builds, or the first exception it meets. */
    function AugmentedViews(wave: Wave, options: seq<real>): (r: Result<seq<seq<MelSpec>>>)
      ensures r.Ok? ==> |r.value| == |options|
      ensures r.Err? ==> exists i :: 0 <= i < |options| && AugmentedView(wave, options[i]) == Err(r.error)
      decreases |options|
    {
      if options == [] then Ok([])
      else
        var earlier :- AugmentedViews(wave, options[..|options| - 1]);
        var view :- AugmentedView(wave, options[|options| - 1]);
        Ok(earlier + [view])
    }

    /** What `__getitem__` returns for an index, or the exception it raises. */
    function ItemOf(index: int): (r: Result<Item>)
      requires Valid()
      ensures !(-|paths| <= index < |paths|) ==> r == Err(IndexError(index, |paths|))
      ensures r.Ok? ==> -|paths| <= index < |paths| && -|targets| <= index < |targets|
      ensures r.Ok? ==> r.value.target == targets[Position(index, |targets|)]
      ensures r.Ok? ==> (r.value.data.RawWave? <==> modelType == "augerino")
      ensures r.Ok? ==> (r.value.data.Patches? <==> modelType == "tp")
      ensures r.Ok? && r.value.data.Views? ==> |r.value.data.views| == |augParams.options| > 0
    {
      var path :- At(paths, index);
      var wave := load(path);
      if modelType == "augerino" then
        var target :- At(targets, index);
        Ok(Item(RawWave(Truncate(wave), true), [], target))
      else if modelType == "tp" then
        var base :- GetPatchedSpectrograms(wave);
        var augment :- Get(augmentations.entries, augParams.transformChosen);
        var shifted :- GetPatchedSpectrograms(augment(wave, e0.value, true));
        var target :- At(targets, index);
        Ok(Item(Patches(base), shifted, target))
      else
        var views :- AugmentedViews(wave, augParams.options);
        if views == [] then Err(StackError)
        else
          var target :- At(targets, index);
          Ok(Item(Views(views), [], target))
    }

    /** `__getitem__`. */
    method GetItem(index: int) returns (r: Result<Item>)
      requires Valid()
      ensures r == ItemOf(index)
    {
      var path :- At(paths, index);
      var wave := load(path);
      if modelType == "augerino" {
        var target :- At(targets, index);
        return Ok(Item(RawWave(Truncate(wave), true), [], target));
      }
      var augType := augParams.transformChosen;
      if modelType == "tp" {
        var base :- GetPatchedSpectrograms(wave);
        var augment :- Get(augmentations.entries, augType);
        var shifted :- GetPatchedSpectrograms(augment(wave, e0.value, true));
        var target :- At(targets, index);
        return Ok(Item(Patches(base), shifted, target));
      }
      var options := augParams.options;
      var augs: seq<seq<MelSpec>> := [];
      for j := 0 to |options|
        invariant AugmentedViews(wave, options[..j]) == Ok(augs)
      {
        assert options[..j + 1][..j] == options[..j];
        var augment := Get(augmentations.entries, augType);
        if augment.Err? {
          AugmentedViewsKeepFirstError(wave, options, j + 1);
          return Err(augment.error);
        }
        var augmentedWd := augment.value(wave, options[j], false);
        var view := GetPatchedSpectrograms(augmentedWd);
        if view.Err? {
          AugmentedViewsKeepFirstError(wave, options, j + 1);
          return Err(view.error);
        }
        augs := augs + [view.value];
      }
      assert options[..|options|] == options;
      if augs == [] {
        return Err(StackError);
      }
      var target :- At(targets, index);
      return Ok(Item(Views(augs), [], target));
    }

    /** Once a prefix of the options fails, the whole loop fails with the
        same exception. */
    lemma {:induction false} AugmentedViewsKeepFirstError(wave: Wave, options: seq<real>, j: nat)
      requires j <= |options|
      requires AugmentedViews(wave, options[..j]).Err?
      ensures AugmentedViews(wave, options) == AugmentedViews(wave, options[..j])
    {
      if j < |options| {
        var shorter := options[..|options| - 1];
        assert shorter[..j] == options[..j];
        AugmentedViewsKeepFirstError(wave, shorter, j);
      } else {
        assert options[..j] == options;
      }
    }

    /** The segmented loop succeeds exactly when every option does, and then
        holds one view per option, in option order. */
    lemma {:induction false} AugmentedViewsPointwise(wave: Wave, options: seq<real>)
      ensures AugmentedViews(wave, options).Ok? <==>
                forall i :: 0 <= i < |options| ==> AugmentedView(wave, options[i]).Ok?
      ensures AugmentedViews(wave, options).Ok? ==>
                && |AugmentedViews(wave, options).value| == |options|
                && forall i :: 0 <= i < |options| ==>
                     AugmentedViews(wave, options).value[i] == AugmentedView(wave, options[i]).value
      decreases |options|
    {
      if options != [] {
        var shorter := options[..|options| - 1];
        AugmentedViewsPointwise(wave, shorter);
        assert forall i :: 0 <= i < |shorter| ==> shorter[i] == options[i];
      }
    }

    /** Indices outside Python's range raise IndexError on the path list. */
    lemma IndexOutOfRange(index: int)
      requires Valid()
      requires !(-(Len() as int) <= index < Len())
      ensures ItemOf(index) == Err(IndexError(index, Len()))
    {
    }

    /** Augerino mode: the raw waveform cut to its first 478912 samples with
        gradient tracking on, an empty transformed view, and the target. */
    lemma AugerinoItem(index: int)
      requires Valid() && modelType == "augerino"
      ensures ItemOf(index).Ok? <==> -|paths| <= index < |paths| && -|targets| <= index < |targets|
      ensures ItemOf(index).Ok? ==>
        var wave := load(paths[Position(index, |paths|)]);
        var item := ItemOf(index).value;
        && item.data.RawWave?
        && item.data.requiresGrad
        && |item.data.samples| == Min(|wave|, PATCH_SOURCE_LEN)
        && item.data.samples == wave[..|item.data.samples|]
        && item.transformed == []
        && item.target == targets[Position(index, |targets|)]
    {
    }

    /** Tangent-prop mode: the patched waveform and the patched deterministic
        augmentation of strength e0. */
    lemma TangentPropItem(index: int)
      requires Valid() && modelType == "tp"
      requires -|paths| <= index < |paths|
      ensures
        var wave := load(paths[Position(index, |paths|)]);
        var t := augParams.transformChosen;
        && (ItemOf(index).Ok? <==>
              && GetPatchedSpectrograms(wave).Ok?
              && t in augmentations.entries
              && GetPatchedSpectrograms(augmentations.entries[t](wave, e0.value, true)).Ok?
              && -|targets| <= index < |targets|)
        && (ItemOf(index).Ok? ==>
              && ItemOf(index).value.data == Patches(GetPatchedSpectrograms(wave).value)
              && ItemOf(index).value.transformed
                   == GetPatchedSpectrograms(augmentations.entries[t](wave, e0.value, true)).value
              && ItemOf(index).value.target == targets[Position(index, |targets|)])
    {
    }

    /** Segmented mode: one patched, non-deterministically augmented view per
        strength option, in option order; no transformed view. */
    lemma SegmentedItem(index: int)
      requires Valid() && modelType != "augerino" && modelType != "tp"
      requires -|paths| <= index < |paths|
      ensures
        var wave := load(paths[Position(index, |paths|)]);
        var t := augParams.transformChosen;
        var options := augParams.options;
        && (ItemOf(index).Ok? <==>
              && |options| > 0
              && t in augmentations.entries
              && (forall i :: 0 <= i < |options| ==>
                    GetPatchedSpectrograms(augmentations.entries[t](wave, options[i], false)).Ok?)
              && -|targets| <= index < |targets|)
        && (ItemOf(index).Ok? ==>
              && ItemOf(index).value.data.Views?
              && |ItemOf(index).value.data.views| == |options|
              && (forall i :: 0 <= i < |options| ==>
                    ItemOf(index).value.data.views[i]
                      == GetPatchedSpectrograms(augmentations.entries[t](wave, options[i], false)).value)
              && ItemOf(index).value.transformed == []
              && ItemOf(index).value.target == targets[Position(index, |targets|)])
    {
      var wave := load(paths[Position(index, |paths|)]);
      AugmentedViewsPointwise(wave, augParams.options);
      if |augParams.options| > 0 && augParams.transformChosen !in augmentations.entries {
        assert !AugmentedView(wave, augParams.options[0]).Ok?;
      }
    }

    /** An unknown transform key raises KeyError on the table lookup, once
        the lookup is reached. */
    lemma UnknownTransformFails(index: int)
      requires Valid() && modelType != "augerino"
      requires augParams.transformChosen !in {"ni", "ps", "none"}
      requires -|paths| <= index < |paths|
      requires modelType == "tp" ==> GetPatchedSpectrograms(load(paths[Position(index, |paths|)])).Ok?
      requires modelType != "tp" ==> |augParams.options| > 0
      ensures ItemOf(index) == Err(KeyError(augParams.transformChosen))
    {
      if modelType != "tp" {
        var wave := load(paths[Position(index, |paths|)]);
        var options := augParams.options;
        assert options[..1][..0] == [];
        AugmentedViewsKeepFirstError(wave, options, 1);
      }
    }

    /** The "none" transform leaves the waveform alone: every augmented view
        equals the patched original. */
    lemma NoneTransformKeepsInput(index: int)
      requires Valid() && modelType != "augerino"
      requires augParams.transformChosen == "none"
      requires ItemOf(index).Ok?
      ensures
        var wave := load(paths[Position(index, |paths|)]);
        var item := ItemOf(index).value;
        && GetPatchedSpectrograms(wave).Ok?
        && (modelType == "tp" ==> item.transformed == GetPatchedSpectrograms(wave).value)
        && (modelType == "tp" ==> item.data == Patches(item.transformed))
        && (modelType != "tp" ==>
              forall i :: 0 <= i < |item.data.views| ==> item.data.views[i] == GetPatchedSpectrograms(wave).value)
    {
      var wave := load(paths[Position(index, |paths|)]);
      var none := augmentations.entries["none"];
      if modelType == "tp" {
        TangentPropItem(index);
        assert none(wave, e0.value, true) == wave;
      } else {
        SegmentedItem(index);
        assert none(wave, augParams.options[0], false) == wave;
        forall i | 0 <= i < |augParams.options|
          ensures none(wave, augParams.options[i], false) == wave
        {
        }
      }
    }

    /** Patching only looks at the first 478912 samples. */
    lemma PatchesIgnoreTail(w: Wave, tail: Wave)
      requires |w| >= PATCH_SOURCE_LEN
      ensures GetPatchedSpectrograms(w + tail) == GetPatchedSpectrograms(w)
    {
      TruncateIgnoresTail(w, tail);
    }
  }
}
