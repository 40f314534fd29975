/** PluginEditor: the morph slider handler that writes the combo harmonics, the preset
    browser's index over the preset files, and the saving and loading of presets. */
module PluginEditor {
  import opened Juce
  import opened Harmonics
  import opened Preset

  const PresetExtension := ".preset"

  /** One combo value: harm1's value weighted by 1 - m plus harm2's weighted by m. */
  function Interpolate(v1: real, v2: real, m: real): real
  {
    v1 * (1.0 - m) + v2 * m
  }

  /** The combo after the morph handler ran with slider value m: values 0..7 interpolated
      between harm1 and harm2 and written with setValue; values from index 8 on kept. */
  function Morphed(combo: seq<real>, harm1: seq<real>, harm2: seq<real>, m: real): seq<real>
  {
    seq(Max(|combo|, NumHarmonics), i requires 0 <= i < Max(|combo|, NumHarmonics) =>
      if i < NumHarmonics then Interpolate(ArrayGet(harm1, i), ArrayGet(harm2, i), m) else combo[i])
  }

  /** C++ `%` on int: the remainder takes the sign of the dividend. */
  function CppRem(a: int, n: int): (r: int)
    requires n > 0
    ensures a >= 0 ==> 0 <= r < n
    ensures a < 0 ==> -n < r <= 0
  {
    if a >= 0 then a % n else -((-a) % n)
  }

  /** The index loadNextPreset moves to in a list of n presets. */
  function NextIndex(index: int, n: int): int
    requires n > 0
  {
    CppRem(index + 1, n)
  }

  /** The index loadPrevPreset moves to in a list of n presets. */
  function PrevIndex(index: int, n: int): int
  {
    if index - 1 < 0 then n - 1 else index - 1
  }

  /** The file name savePreset uses: `.preset` is appended unless the name already ends
      with it, compared ignoring case. */
  function NormalisedName(name: string): string
  {
    if EndsWithIgnoreCase(name, PresetExtension) then name else name + PresetExtension
  }

  /** Juce Slider::setValue keeps the value inside the slider's range, here the Morph
      parameter's range 0..1. */
  function SliderValue(v: real): (r: real)
    ensures 0.0 <= r <= 1.0
    ensures 0.0 <= v <= 1.0 ==> r == v
    ensures v < 0.0 ==> r == 0.0
    ensures v > 1.0 ==> r == 1.0
  {
    if v < 0.0 then 0.0 else if v > 1.0 then 1.0 else v
  }

  /** The combo tables show after a loaded record is applied while the slider was at
      `shown`: the record's combo, morphed again when setValue changes the slider. */
  function LoadedCombo(data: PresetData, shown: real): seq<real>
  {
    var m := SliderValue(data.morphValue);
    if m == shown then data.comboData else Morphed(data.comboData, data.harm1Data, data.harm2Data, m)
  }

  class Editor {
    /** The values shown by the harm1, harm2 and combo harmonic tables. */
    var harm1: seq<real>
    var harm2: seq<real>
    var combo: seq<real>
    /** The morph slider's value. */
    var morph: real
    /** The preset files of the preset directory, each as the document it parses to (None
        when it does not parse), in the order updatePresetList sorted them. */
    var presetFiles: seq<Option<Tree>>
    var currentPresetIndex: int

    /** The browser index never goes below -1, its value before any preset was browsed. */
    predicate Valid()
      reads this
    {
      currentPresetIndex >= -1 && 0.0 <= morph <= 1.0
    }

    constructor (harm1: seq<real>, harm2: seq<real>, combo: seq<real>, morph: real, presetFiles: seq<Option<Tree>>)
      ensures Valid()
      ensures this.harm1 == harm1 && this.harm2 == harm2 && this.combo == combo
      ensures this.morph == SliderValue(morph) && this.presetFiles == presetFiles
      ensures currentPresetIndex == -1
    {
      this.harm1 := harm1;
      this.harm2 := harm2;
      this.combo := combo;
      this.morph := SliderValue(morph);
      this.presetFiles := presetFiles;
      currentPresetIndex := -1;
    }

    /** morphSlider.onValueChange: for i < Harm::numValues, combo.setValue(i, v1 * (1 - m) + v2 * m). */
    method OnMorphValueChange()
      modifies this
      ensures combo == Morphed(old(combo), harm1, harm2, morph)
      ensures harm1 == old(harm1) && harm2 == old(harm2) && morph == old(morph)
      ensures presetFiles == old(presetFiles) && currentPresetIndex == old(currentPresetIndex)
    {
      var value := morph;
      ghost var before := combo;
      for i := 0 to NumHarmonics
        invariant harm1 == old(harm1) && harm2 == old(harm2) && morph == value
        invariant presetFiles == old(presetFiles) && currentPresetIndex == old(currentPresetIndex)
        invariant |combo| == Max(|before|, i)
        invariant forall k :: 0 <= k < |combo| ==>
          combo[k] == (if k < i then Interpolate(ArrayGet(harm1, k), ArrayGet(harm2, k), value) else before[k])
      {
        var v1 := ArrayGet(harm1, i);
        var v2 := ArrayGet(harm2, i);
        var interpolatedValue := v1 * (1.0 - value) + v2 * value;
        combo := ArraySet(combo, i, interpolatedValue);
      }
    }

    /** The part of loadPreset and loadPresetAtIndex that applies a loaded record: the
      three tables take the arrays, and morphSlider.setValue with notification runs the
      morph handler when the slider's value changes. */
    method ApplyPreset(data: PresetData)
      requires Valid()
      modifies this
      ensures Valid()
      ensures harm1 == data.harm1Data && harm2 == data.harm2Data
      ensures morph == SliderValue(data.morphValue)
      ensures combo == LoadedCombo(data, old(morph))
      ensures presetFiles == old(presetFiles) && currentPresetIndex == old(currentPresetIndex)
    {
      harm1 := data.harm1Data;
      harm2 := data.harm2Data;
      combo := data.comboData;
      var newValue := SliderValue(data.morphValue);
      if newValue != morph {
        morph := newValue;
        OnMorphValueChange();
      }
    }

    /** loadPreset: the file the chooser returned (None when no local file was chosen). */
    method LoadPreset(chosen: Option<Option<Tree>>)
      requires Valid()
      modifies this
      ensures Valid()
      ensures chosen.None? ==> harm1 == old(harm1) && harm2 == old(harm2) && combo == old(combo) && morph == old(morph)
      ensures chosen.Some? ==>
                harm1 == PresetFromDocument(chosen.value).harm1Data
                && harm2 == PresetFromDocument(chosen.value).harm2Data
                && morph == SliderValue(PresetFromDocument(chosen.value).morphValue)
                && combo == LoadedCombo(PresetFromDocument(chosen.value), old(morph))
      ensures presetFiles == old(presetFiles) && currentPresetIndex == old(currentPresetIndex)
    {
      if chosen.Some? {
        var data := LoadFromFile(chosen.value);
        ApplyPreset(data);
      }
    }

    /** loadPresetAtIndex: loads and applies the preset at `index` when it is a position
      of the list, and does nothing otherwise. */
    method LoadPresetAtIndex(index: int)
      requires Valid()
      modifies this
      ensures Valid()
      ensures !(0 <= index < |presetFiles|) ==>
                harm1 == old(harm1) && harm2 == old(harm2) && combo == old(combo) && morph == old(morph)
      ensures 0 <= index < |presetFiles| ==>
                harm1 == PresetFromDocument(presetFiles[index]).harm1Data
                && harm2 == PresetFromDocument(presetFiles[index]).harm2Data
                && morph == SliderValue(PresetFromDocument(presetFiles[index]).morphValue)
                && combo == LoadedCombo(PresetFromDocument(presetFiles[index]), old(morph))
      ensures presetFiles == old(presetFiles) && currentPresetIndex == old(currentPresetIndex)
    {
      if index >= 0 && index < |presetFiles| {
        var data := LoadFromFile(presetFiles[index]);
        ApplyPreset(data);
      }
    }

    /** loadNextPreset: with presets, moves to the next one, wrapping to the first. */
    method LoadNextPreset()
      requires Valid()
      modifies this
      ensures Valid()
      ensures presetFiles == old(presetFiles)
      ensures |presetFiles| == 0 ==>
                currentPresetIndex == old(currentPresetIndex)
                && harm1 == old(harm1) && harm2 == old(harm2) && combo == old(combo) && morph == old(morph)
      ensures |presetFiles| > 0 ==>
                currentPresetIndex == NextIndex(old(currentPresetIndex), |presetFiles|)
                && harm1 == PresetFromDocument(presetFiles[currentPresetIndex]).harm1Data
                && harm2 == PresetFromDocument(presetFiles[currentPresetIndex]).harm2Data
                && morph == SliderValue(PresetFromDocument(presetFiles[currentPresetIndex]).morphValue)
                && combo == LoadedCombo(PresetFromDocument(presetFiles[currentPresetIndex]), old(morph))
    {
      if |presetFiles| == 0 {
        return;
      }
      NextIndexInRange(currentPresetIndex, |presetFiles|);
      currentPresetIndex := CppRem(currentPresetIndex + 1, |presetFiles|);
      LoadPresetAtIndex(currentPresetIndex);
    }

    /** loadPrevPreset: with presets, moves to the previous one, wrapping to the last. */
    method LoadPrevPreset()
      requires Valid()
      modifies this
      ensures Valid()
      ensures presetFiles == old(presetFiles)
      ensures |presetFiles| == 0 ==>
                currentPresetIndex == old(currentPresetIndex)
                && harm1 == old(harm1) && harm2 == old(harm2) && combo == old(combo) && morph == old(morph)
      ensures |presetFiles| > 0 ==> currentPresetIndex == PrevIndex(old(currentPresetIndex), |presetFiles|)
      ensures |presetFiles| > 0 && currentPresetIndex < |presetFiles| ==>
                harm1 == PresetFromDocument(presetFiles[currentPresetIndex]).harm1Data
                && harm2 == PresetFromDocument(presetFiles[currentPresetIndex]).harm2Data
                && morph == SliderValue(PresetFromDocument(presetFiles[currentPresetIndex]).morphValue)
                && combo == LoadedCombo(PresetFromDocument(presetFiles[currentPresetIndex]), old(morph))
      ensures |presetFiles| > 0 && currentPresetIndex >= |presetFiles| ==>
                harm1 == old(harm1) && harm2 == old(harm2) && combo == old(combo) && morph == old(morph)
    {
      if |presetFiles| == 0 {
        return;
      }
      currentPresetIndex := currentPresetIndex - 1;
      if currentPresetIndex < 0 {
        currentPresetIndex := |presetFiles| - 1;
      }
      LoadPresetAtIndex(currentPresetIndex);
    }

    /** updatePresetList: the directory listing, sorted, replaces the list; the browser
      index is left as it was. */
    method UpdatePresetList(listing: seq<Option<Tree>>)
      modifies this
      ensures presetFiles == listing
      ensures harm1 == old(harm1) && harm2 == old(harm2) && combo == old(combo) && morph == old(morph)
      ensures currentPresetIndex == old(currentPresetIndex)
    {
      presetFiles := listing;
    }

    /** The dialog callback of savePreset: when OK (result 1) was clicked with a non-empty
      name, the current tables and morph value are saved under the normalised name and
      the preset list is read again. Returns the file name and the tree written, if any. */
    method SavePreset(result: int, presetName: string, listing: seq<Option<Tree>>)
      returns (saved: Option<(string, Tree)>)
      requires Valid()
      modifies this
      ensures Valid()
      ensures result != 1 || presetName == [] ==> saved.None? && presetFiles == old(presetFiles)
      ensures result == 1 && presetName != [] ==>
                saved == Some((NormalisedName(presetName), PresetTree(PresetData(harm1, harm2, combo, morph))))
                && presetFiles == listing
      ensures harm1 == old(harm1) && harm2 == old(harm2) && combo == old(combo) && morph == old(morph)
      ensures currentPresetIndex == old(currentPresetIndex)
    {
      saved := None;
      if result == 1 {
        var name := presetName;
        if |name| == 0 {
          return;
        }
        if !EndsWithIgnoreCase(name, PresetExtension) {
          name := name + PresetExtension;
        }
        var data := PresetData(harm1, harm2, combo, morph);
        var tree := SaveToFile(data);
        saved := Some((name, tree));
        UpdatePresetList(listing);
      }
    }
  }

  // ---------------------------------------------------------------------------
  // Properties

  /** At m = 0 the morph copies harm1, at m = 1 it copies harm2 (into the first eight
      combo values; zero where the table is shorter). */
  lemma MorphEndpoints(combo: seq<real>, harm1: seq<real>, harm2: seq<real>)
    ensures var r0, r1 := Morphed(combo, harm1, harm2, 0.0), Morphed(combo, harm1, harm2, 1.0);
      |r0| == |r1| == Max(|combo|, NumHarmonics)
      && forall i :: 0 <= i < NumHarmonics ==> r0[i] == ArrayGet(harm1, i) && r1[i] == ArrayGet(harm2, i)
  {
  }

  /** For tables of eight values, the end positions of the slider give harm1 and harm2. */
  lemma MorphEndpointsExact(combo: seq<real>, harm1: seq<real>, harm2: seq<real>)
    requires |harm1| == |harm2| == NumHarmonics && |combo| <= NumHarmonics
    ensures Morphed(combo, harm1, harm2, 0.0) == harm1
    ensures Morphed(combo, harm1, harm2, 1.0) == harm2
  {
    MorphEndpoints(combo, harm1, harm2);
  }

  /** For m in 0..1 each interpolated value lies between the two table values. */
  lemma InterpolateBetween(v1: real, v2: real, m: real)
    requires 0.0 <= m <= 1.0
    ensures v1 <= v2 ==> v1 <= Interpolate(v1, v2, m) <= v2
    ensures v2 <= v1 ==> v2 <= Interpolate(v1, v2, m) <= v1
  {
    var d := v2 - v1;
    assert Interpolate(v1, v2, m) == v1 + d * m;
    assert d * (1.0 - m) == d - d * m;
    var w := 1.0 - m;
    assert 0.0 <= w;
    if v1 <= v2 {
      assert 0.0 <= d * m && 0.0 <= d * w;
    } else {
      assert 0.0 <= -d * m && 0.0 <= -d * w;
    }
  }

  /** The morph handler keeps every combo value between the two tables' values when the
      slider is in range. */
  lemma MorphedBetween(combo: seq<real>, harm1: seq<real>, harm2: seq<real>, m: real, i: nat)
    requires 0.0 <= m <= 1.0 && i < NumHarmonics
    ensures var v1, v2, r := ArrayGet(harm1, i), ArrayGet(harm2, i), Morphed(combo, harm1, harm2, m)[i];
      (v1 <= v2 ==> v1 <= r <= v2) && (v2 <= v1 ==> v2 <= r <= v1)
  {
    InterpolateBetween(ArrayGet(harm1, i), ArrayGet(harm2, i), m);
  }

  /** From any index at least -1, the next index is a position of the list: the one
      after it, or the first after the last. */
  lemma NextIndexInRange(index: int, n: int)
    requires n > 0 && index >= -1
    ensures 0 <= NextIndex(index, n) < n
    ensures index + 1 < n ==> NextIndex(index, n) == index + 1
    ensures index == n - 1 ==> NextIndex(index, n) == 0
  {
    if index + 1 < n {
      assert (index + 1) % n == index + 1;
    }
    if index == n - 1 {
      assert n % n == 0;
    }
  }

  /** From -1 up to the list length, the previous index is a position of the list. */
  lemma PrevIndexInRange(index: int, n: int)
    requires n > 0 && -1 <= index <= n
    ensures 0 <= PrevIndex(index, n) < n
    ensures index > 0 ==> PrevIndex(index, n) == index - 1
  {
  }

  /** Previous undoes next on every position of the list, and next undoes previous. */
  lemma NextThenPrev(index: int, n: int)
    requires n > 0 && 0 <= index < n
    ensures PrevIndex(NextIndex(index, n), n) == index
    ensures NextIndex(PrevIndex(index, n), n) == index
  {
    NextIndexInRange(index, n);
    if index == 0 {
      NextIndexInRange(n - 1, n);
    } else {
      NextIndexInRange(index - 1, n);
    }
  }

  /** The saved name ends with ".preset" in some case, a name that already did is kept,
      and normalising twice is normalising once. */
  lemma NormalisedNameProperties(name: string)
    ensures EndsWithIgnoreCase(NormalisedName(name), PresetExtension)
    ensures EndsWithIgnoreCase(name, PresetExtension) ==> NormalisedName(name) == name
    ensures !EndsWithIgnoreCase(name, PresetExtension) ==> NormalisedName(name) == name + PresetExtension
    ensures NormalisedName(NormalisedName(name)) == NormalisedName(name)
  {
    var r := NormalisedName(name);
    if !EndsWithIgnoreCase(name, PresetExtension) {
      assert r[|r| - |PresetExtension|..] == PresetExtension;
    }
  }
}
