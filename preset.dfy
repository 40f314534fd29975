/** PresetData: the record a preset file holds, and its saveToFile / loadFromFile
    conversions to and from a ValueTree of type PRESET. */
module Preset {
  import opened Juce
  import opened Harmonics
  import opened HarmonicKeys

  const PresetTag := "PRESET"
  const Harm1Tag := "HARM1"
  const Harm2Tag := "HARM2"
  const ComboTag := "COMBO"
  const MorphKey := "morphValue"

  datatype PresetData = PresetData(
    harm1Data: seq<real>,
    harm2Data: seq<real>,
    comboData: seq<real>,
    morphValue: real)

  /** The tree saveToFile writes: the morph value as the PRESET tree's only property and
      the three arrays as its children HARM1, HARM2 and COMBO, in that order. */
  function PresetTree(d: PresetData): Tree
  {
    Tree(PresetTag, map[MorphKey := d.morphValue],
         [SectionTree(Harm1Tag, d.harm1Data), SectionTree(Harm2Tag, d.harm2Data), SectionTree(ComboTag, d.comboData)])
  }

  /** The eight values the load loop reads from a section: getProperty of a missing key is
      a void var, which converts to 0. */
  function SectionValues(section: Tree): (r: seq<real>)
    ensures |r| == NumHarmonics
  {
    seq(NumHarmonics, i requires 0 <= i < NumHarmonics => PropertyOr(section, KeyName(i), 0.0))
  }

  /** The array loaded for the child `name`: empty when the tree has no such child. */
  function LoadedSection(preset: Tree, name: string): seq<real>
  {
    match ChildWithName(preset, name)
    case None => []
    case Some(section) => SectionValues(section)
  }

  /** The record loadFromFile returns for a file that parses to `preset`. */
  function PresetFromTree(preset: Tree): PresetData
  {
    PresetData(LoadedSection(preset, Harm1Tag), LoadedSection(preset, Harm2Tag),
               LoadedSection(preset, ComboTag), PropertyOr(preset, MorphKey, 0.0))
  }

  /** loadFromFile as written, for a file that parses (Some) or not (None). When it does not
      parse, the record's morphValue is never assigned and holds whatever `indeterminate`
      value the uninitialised float had. */
  function PresetFromDocumentAsWritten(doc: Option<Tree>, indeterminate: real): PresetData
  {
    match doc
    case None => PresetData([], [], [], indeterminate)
    case Some(preset) => PresetFromTree(preset)
  }

  /** loadFromFile with morphValue initialised to 0, as the load of a parsed file reads a
      missing morphValue. */
  function PresetFromDocument(doc: Option<Tree>): PresetData
  {
    match doc
    case None => PresetData([], [], [], 0.0)
    case Some(preset) => PresetFromTree(preset)
  }

  /** saveToFile, up to the XML text written to the file. */
  method SaveToFile(d: PresetData) returns (preset: Tree)
    ensures preset == PresetTree(d)
  {
    var harm1Props := WriteSection(d.harm1Data);
    var harm2Props := WriteSection(d.harm2Data);
    var comboProps := WriteSection(d.comboData);
    var props := map[MorphKey := d.morphValue];
    preset := Tree(PresetTag, props, [Tree(Harm1Tag, harm1Props, []), Tree(Harm2Tag, harm2Props, []),
                                      Tree(ComboTag, comboProps, [])]);
  }

  /** The loop `for i < 8: array.add(section.getProperty("h" + i))`, onto an empty array. */
  method ReadSection(section: Tree) returns (values: seq<real>)
    ensures values == SectionValues(section)
  {
    values := [];
    for i := 0 to NumHarmonics
      invariant |values| == i
      invariant forall k :: 0 <= k < i ==> values[k] == PropertyOr(section, KeyName(k), 0.0)
    {
      values := values + [PropertyOr(section, KeyName(i), 0.0)];
    }
  }

  /** loadFromFile for the document the file parses to, or None when it does not parse. */
  method LoadFromFile(doc: Option<Tree>) returns (data: PresetData)
    ensures data == PresetFromDocument(doc)
  {
    data := PresetData([], [], [], 0.0);
    if doc.Some? {
      var preset := doc.value;
      var harm1Tree := ChildWithName(preset, Harm1Tag);
      if harm1Tree.Some? {
        var values := ReadSection(harm1Tree.value);
        data := data.(harm1Data := data.harm1Data + values);
      }
      var harm2Tree := ChildWithName(preset, Harm2Tag);
      if harm2Tree.Some? {
        var values := ReadSection(harm2Tree.value);
        data := data.(harm2Data := data.harm2Data + values);
      }
      var comboTree := ChildWithName(preset, ComboTag);
      if comboTree.Some? {
        var values := ReadSection(comboTree.value);
        data := data.(comboData := data.comboData + values);
      }
      data := data.(morphValue := PropertyOr(preset, MorphKey, 0.0));
    }
  }

  // ---------------------------------------------------------------------------
  // Properties

  /** saveToFile stores h0 .. h(n-1) for an array of n values, each under its own key, and
      nothing else; the PRESET tree holds only morphValue. */
  lemma SavedKeys(d: PresetData)
    ensures var t := PresetTree(d);
      t.props.Keys == {MorphKey} && t.props[MorphKey] == d.morphValue
      && |t.children| == 3
      && forall c :: 0 <= c < 3 ==>
           var a := [d.harm1Data, d.harm2Data, d.comboData][c];
           (forall i :: 0 <= i < |a| ==> KeyName(i) in t.children[c].props && t.children[c].props[KeyName(i)] == a[i])
           && forall key :: key in t.children[c].props ==> exists i :: 0 <= i < |a| && key == KeyName(i)
  {
    var t := PresetTree(d);
    forall c | 0 <= c < 3
      ensures var a := [d.harm1Data, d.harm2Data, d.comboData][c];
        t.children[c] == SectionTree(t.children[c].tag, a)
    {
    }
  }

  /** The three sections of a saved preset are found by their exact names. */
  lemma SavedSectionsFound(d: PresetData)
    ensures var t := PresetTree(d);
      ChildWithName(t, Harm1Tag) == Some(SectionTree(Harm1Tag, d.harm1Data))
      && ChildWithName(t, Harm2Tag) == Some(SectionTree(Harm2Tag, d.harm2Data))
      && ChildWithName(t, ComboTag) == Some(SectionTree(ComboTag, d.comboData))
  {
    var cs := PresetTree(d).children;
    assert FirstMatch(cs, Harm1Tag, false) == 0;
    assert FirstMatch(cs[1..], Harm2Tag, false) == 0;
    assert FirstMatch(cs, Harm2Tag, false) == 1;
    assert FirstMatch(cs[1..][1..], ComboTag, false) == 0;
    assert FirstMatch(cs[1..], ComboTag, false) == 1;
    assert FirstMatch(cs, ComboTag, false) == 2;
  }

  /** Loading a loaded section reads back the first eight values saved, zero past the end. */
  lemma SectionValuesOfSaved(tag: string, a: seq<real>)
    ensures SectionValues(SectionTree(tag, a)) == Resize(a, NumHarmonics)
  {
    var r := SectionValues(SectionTree(tag, a));
    forall i | 0 <= i < NumHarmonics ensures r[i] == ArrayGet(a, i) {
      SectionPropsRead(tag, a, i);
    }
  }

  /** Saving a preset and loading the file gives back the morph value and each array
      resized to eight elements. */
  lemma PresetRoundTrip(d: PresetData)
    ensures PresetFromDocument(Some(PresetTree(d)))
            == PresetData(Resize(d.harm1Data, NumHarmonics), Resize(d.harm2Data, NumHarmonics),
                          Resize(d.comboData, NumHarmonics), d.morphValue)
  {
    SavedSectionsFound(d);
    SectionValuesOfSaved(Harm1Tag, d.harm1Data);
    SectionValuesOfSaved(Harm2Tag, d.harm2Data);
    SectionValuesOfSaved(ComboTag, d.comboData);
  }

  /** A preset whose arrays have the eight elements the editor keeps comes back unchanged. */
  lemma PresetRoundTripExact(d: PresetData)
    requires |d.harm1Data| == |d.harm2Data| == |d.comboData| == NumHarmonics
    ensures PresetFromDocument(Some(PresetTree(d))) == d
  {
    PresetRoundTrip(d);
    assert Resize(d.harm1Data, NumHarmonics) == d.harm1Data;
    assert Resize(d.harm2Data, NumHarmonics) == d.harm2Data;
    assert Resize(d.comboData, NumHarmonics) == d.comboData;
  }

  /** Each array of a loaded record has eight values when its section is present and none
      when it is absent; a missing morphValue, or a file that does not parse, loads as 0. */
  lemma LoadedShape(doc: Option<Tree>)
    ensures var d := PresetFromDocument(doc);
      (doc.None? ==> d == PresetData([], [], [], 0.0))
      && (doc.Some? ==>
            (|d.harm1Data| == if ChildWithName(doc.value, Harm1Tag).Some? then NumHarmonics else 0)
            && (|d.harm2Data| == if ChildWithName(doc.value, Harm2Tag).Some? then NumHarmonics else 0)
            && (|d.comboData| == if ChildWithName(doc.value, ComboTag).Some? then NumHarmonics else 0)
            && (MorphKey !in doc.value.props ==> d.morphValue == 0.0))
  {
  }

  /** As written, the morph value loaded from a file that does not parse is whatever the
      uninitialised member held: two runs can load different values from the same file. */
  lemma UnparsedMorphAsWritten(x: real, y: real)
    requires x != y
    ensures PresetFromDocumentAsWritten(None, x).morphValue != PresetFromDocumentAsWritten(None, y).morphValue
    ensures PresetFromDocument(None).morphValue == 0.0
  {
  }

  /** The corrected load agrees with the source whenever the file parses. */
  lemma LoadAgreesWhenParsed(preset: Tree, indeterminate: real)
    ensures PresetFromDocument(Some(preset)) == PresetFromDocumentAsWritten(Some(preset), indeterminate)
  {
  }
}
