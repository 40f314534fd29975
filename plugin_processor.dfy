/** PluginProcessor: the harmonic data store (harm1Data, harm2Data, comboData), the MIDI
    block processing that reads it, and the plugin state that saves and restores it inside
    the parameter tree of the AudioProcessorValueTreeState. */
module PluginProcessor {
  import opened Juce
  import opened Midi
  import opened Harmonics
  import opened HarmonicKeys
  import opened Expansion

  const HarmonicDataTag := "HarmonicData"
  const Harm1Tag := "Harm1"
  const Harm2Tag := "Harm2"
  const ComboTag := "Combo"

  /** Everything the processor stores: the parameter tree (apvts.state) and the three arrays. */
  datatype ProcessorState = ProcessorState(
    parameters: Tree,
    harm1Data: seq<real>,
    harm2Data: seq<real>,
    comboData: seq<real>)

  /** A freshly constructed processor: the parameter tree of type "Parameters" and three
      arrays of eight zeros. */
  function InitialState(): ProcessorState
  {
    ProcessorState(Tree("Parameters", map[], []), Zeros(NumHarmonics), Zeros(NumHarmonics), Zeros(NumHarmonics))
  }

  // ---------------------------------------------------------------------------
  // The saved document

  /** The HarmonicData element getStateInformation adds: three sections holding the arrays. */
  function HarmonicDataTree(h1: seq<real>, h2: seq<real>, c: seq<real>): Tree
  {
    Tree(HarmonicDataTag, map[], [SectionTree(Harm1Tag, h1), SectionTree(Harm2Tag, h2), SectionTree(ComboTag, c)])
  }

  /** The children of a tree with every HarmonicData element removed, the others in order. */
  function WithoutHarmonicData(cs: seq<Tree>): (r: seq<Tree>)
    ensures forall k :: 0 <= k < |r| ==> !EqualsIgnoreCase(r[k].tag, HarmonicDataTag)
    ensures forall c :: c in r <==> c in cs && !EqualsIgnoreCase(c.tag, HarmonicDataTag)
  {
    if cs == [] then []
    else
      assert cs == [cs[0]] + cs[1..];
      (if EqualsIgnoreCase(cs[0].tag, HarmonicDataTag) then [] else [cs[0]]) + WithoutHarmonicData(cs[1..])
  }

  /** Filtering a concatenation filters each part and keeps them in order, so the kept
      children stay in their original order. */
  lemma {:induction false} WithoutHarmonicDataAppend(a: seq<Tree>, b: seq<Tree>)
    ensures WithoutHarmonicData(a + b) == WithoutHarmonicData(a) + WithoutHarmonicData(b)
    decreases |a|
  {
    if a != [] {
      assert (a + b)[1..] == a[1..] + b;
      WithoutHarmonicDataAppend(a[1..], b);
    } else {
      assert a + b == b;
    }
  }

  /** The document getStateInformation writes, as the source builds it: a copy of the
      parameter tree with a new HarmonicData element appended after its children, including
      any HarmonicData element that an earlier setStateInformation left in the tree. */
  function StateDocumentAsWritten(s: ProcessorState): Tree
  {
    Tree(s.parameters.tag, s.parameters.props,
         s.parameters.children + [HarmonicDataTree(s.harm1Data, s.harm2Data, s.comboData)])
  }

  /** The document getStateInformation is meant to write: the parameter tree with the
      current arrays as its only HarmonicData element. It is the corrected save of the
      finding about lines 252-253 of PluginProcessor.cpp. */
  function StateDocument(s: ProcessorState): Tree
  {
    Tree(s.parameters.tag, s.parameters.props,
         WithoutHarmonicData(s.parameters.children) + [HarmonicDataTree(s.harm1Data, s.harm2Data, s.comboData)])
  }

  // ---------------------------------------------------------------------------
  // Restoring

  /** An array after the restore loop over one section: elements 0..7 are read from the
      section (a missing key reads 0), written with Array::set, so the array grows to eight
      elements when shorter; elements from index 8 on are kept. */
  function RestoredSection(arr: seq<real>, section: Tree): seq<real>
  {
    seq(Max(|arr|, NumHarmonics), i requires 0 <= i < Max(|arr|, NumHarmonics) =>
      if i < NumHarmonics then PropertyOr(section, KeyName(i), 0.0) else arr[i])
  }

  /** An array restored from the section `name` of a HarmonicData element, or kept when
      there is no such section. */
  function RestoredFrom(arr: seq<real>, harmonics: Tree, name: string): seq<real>
  {
    match ChildByName(harmonics, name)
    case None => arr
    case Some(section) => RestoredSection(arr, section)
  }

  /** The state after setStateInformation with a document (None when the data does not
      parse as XML). A document whose tag is not the parameter tree's type is ignored;
      otherwise it replaces the parameter tree, and the arrays are restored from its first
      HarmonicData child when it has one. */
  function Restored(s: ProcessorState, data: Option<Tree>): ProcessorState
  {
    if data.None? || !EqualsIgnoreCase(data.value.tag, s.parameters.tag) then s
    else
      var doc := data.value;
      match ChildByName(doc, HarmonicDataTag)
      case None => s.(parameters := doc)
      case Some(harmonics) =>
        ProcessorState(doc,
          RestoredFrom(s.harm1Data, harmonics, Harm1Tag),
          RestoredFrom(s.harm2Data, harmonics, Harm2Tag),
          RestoredFrom(s.comboData, harmonics, ComboTag))
  }

  /** `r` is `before` restored from a section that saved `saved`: eight elements read back
      from `saved` (zero past its end), followed by the elements of `before` from index 8. */
  predicate RestoredAs(r: seq<real>, saved: seq<real>, before: seq<real>)
  {
    |r| == Max(|before|, NumHarmonics)
    && forall i :: 0 <= i < |r| ==> r[i] == (if i < NumHarmonics then ArrayGet(saved, i) else before[i])
  }

  lemma RestoredSectionReads(before: seq<real>, tag: string, saved: seq<real>)
    ensures RestoredAs(RestoredSection(before, SectionTree(tag, saved)), saved, before)
  {
    var r := RestoredSection(before, SectionTree(tag, saved));
    forall i | 0 <= i < |r| && i < NumHarmonics ensures r[i] == ArrayGet(saved, i) {
      SectionPropsRead(tag, saved, i);
    }
  }

  /** The three sections of a HarmonicData element are found by name. */
  lemma HarmonicSectionsFound(h1: seq<real>, h2: seq<real>, c: seq<real>)
    ensures var hd := HarmonicDataTree(h1, h2, c);
      ChildByName(hd, Harm1Tag) == Some(SectionTree(Harm1Tag, h1))
      && ChildByName(hd, Harm2Tag) == Some(SectionTree(Harm2Tag, h2))
      && ChildByName(hd, ComboTag) == Some(SectionTree(ComboTag, c))
  {
    var hd := HarmonicDataTree(h1, h2, c);
    assert EqualsIgnoreCase(Harm1Tag, Harm1Tag);
    assert !EqualsIgnoreCase(Harm1Tag, Harm2Tag) by { assert ToLower(Harm1Tag[4]) != ToLower(Harm2Tag[4]); }
    assert EqualsIgnoreCase(Harm2Tag, Harm2Tag);
    assert !EqualsIgnoreCase(Harm1Tag, ComboTag) by { assert ToLower(Harm1Tag[0]) != ToLower(ComboTag[0]); }
    assert !EqualsIgnoreCase(Harm2Tag, ComboTag) by { assert ToLower(Harm2Tag[0]) != ToLower(ComboTag[0]); }
    assert EqualsIgnoreCase(ComboTag, ComboTag);
    var cs := hd.children;
    assert FirstMatch(cs, Harm1Tag, true) == 0;
    assert FirstMatch(cs[1..][1..], Harm2Tag, true) == 1 + FirstMatch(cs[1..][1..][1..], Harm2Tag, true);
    assert FirstMatch(cs[1..], Harm2Tag, true) == 0;
    assert FirstMatch(cs, Harm2Tag, true) == 1;
    assert FirstMatch(cs[1..][1..], ComboTag, true) == 0;
    assert FirstMatch(cs[1..], ComboTag, true) == 1;
    assert FirstMatch(cs, ComboTag, true) == 2;
  }

  /** Restoring a document whose first HarmonicData child holds h1, h2, c. */
  lemma RestoreFromFirstHarmonicData(t: ProcessorState, doc: Tree, k: nat, h1: seq<real>, h2: seq<real>, c: seq<real>)
    requires EqualsIgnoreCase(doc.tag, t.parameters.tag)
    requires k < |doc.children| && doc.children[k] == HarmonicDataTree(h1, h2, c)
    requires forall j :: 0 <= j < k ==> !EqualsIgnoreCase(doc.children[j].tag, HarmonicDataTag)
    ensures var r := Restored(t, Some(doc));
      r.parameters == doc
      && RestoredAs(r.harm1Data, h1, t.harm1Data)
      && RestoredAs(r.harm2Data, h2, t.harm2Data)
      && RestoredAs(r.comboData, c, t.comboData)
  {
    var cs := doc.children;
    assert cs == cs[..k] + cs[k..];
    FirstMatchAfter(cs[..k], cs[k..], HarmonicDataTag, true);
    assert EqualsIgnoreCase(cs[k].tag, HarmonicDataTag);
    assert ChildByName(doc, HarmonicDataTag) == Some(HarmonicDataTree(h1, h2, c));
    HarmonicSectionsFound(h1, h2, c);
    RestoredSectionReads(t.harm1Data, Harm1Tag, h1);
    RestoredSectionReads(t.harm2Data, Harm2Tag, h2);
    RestoredSectionReads(t.comboData, ComboTag, c);
  }

  /** Save/restore round trip: restoring the saved state of `s` into any processor `t`
      whose parameter tree has the same type replaces t's parameter tree by the document
      and reads back the first eight elements of each of s's arrays (zero past their end),
      keeping t's elements from index 8 on. */
  lemma StateRoundTrip(s: ProcessorState, t: ProcessorState)
    requires EqualsIgnoreCase(s.parameters.tag, t.parameters.tag)
    ensures var r := Restored(t, Some(StateDocument(s)));
      r.parameters == StateDocument(s)
      && RestoredAs(r.harm1Data, s.harm1Data, t.harm1Data)
      && RestoredAs(r.harm2Data, s.harm2Data, t.harm2Data)
      && RestoredAs(r.comboData, s.comboData, t.comboData)
  {
    var doc := StateDocument(s);
    var kept := WithoutHarmonicData(s.parameters.children);
    assert doc.children[|kept|] == HarmonicDataTree(s.harm1Data, s.harm2Data, s.comboData);
    RestoreFromFirstHarmonicData(t, doc, |kept|, s.harm1Data, s.harm2Data, s.comboData);
  }

  /** With the corrected save, arrays of eight elements, the size the constructor gives
      them, come back exactly. */
  lemma StateRoundTripExact(s: ProcessorState, t: ProcessorState)
    requires EqualsIgnoreCase(s.parameters.tag, t.parameters.tag)
    requires |s.harm1Data| == |s.harm2Data| == |s.comboData| == NumHarmonics
    requires |t.harm1Data| <= NumHarmonics && |t.harm2Data| <= NumHarmonics && |t.comboData| <= NumHarmonics
    ensures var r := Restored(t, Some(StateDocument(s)));
      r.harm1Data == s.harm1Data && r.harm2Data == s.harm2Data && r.comboData == s.comboData
  {
    StateRoundTrip(s, t);
  }

  /** With the corrected save, a processor that restores its own saved state keeps its
      arrays, padded with zeros to eight elements when shorter: the only change is the
      Array::set growth. */
  lemma RestoreOwnState(s: ProcessorState)
    ensures var r := Restored(s, Some(StateDocument(s)));
      r.harm1Data == Resize(s.harm1Data, Max(|s.harm1Data|, NumHarmonics))
      && r.harm2Data == Resize(s.harm2Data, Max(|s.harm2Data|, NumHarmonics))
      && r.comboData == Resize(s.comboData, Max(|s.comboData|, NumHarmonics))
  {
    StateRoundTrip(s, s);
  }

  /** No child of the tree is a HarmonicData element: true of the constructor's parameter
      tree, and kept by every operation except a restore of a document holding one. */
  predicate NoHarmonicData(cs: seq<Tree>)
  {
    forall k :: 0 <= k < |cs| ==> !EqualsIgnoreCase(cs[k].tag, HarmonicDataTag)
  }

  lemma {:induction false} WithoutHarmonicDataKeepsAll(cs: seq<Tree>)
    requires NoHarmonicData(cs)
    ensures WithoutHarmonicData(cs) == cs
  {
    if cs != [] {
      assert cs == [cs[0]] + cs[1..];
      assert !EqualsIgnoreCase(cs[0].tag, HarmonicDataTag);
      assert NoHarmonicData(cs[1..]) by {
        forall k | 0 <= k < |cs[1..]| ensures !EqualsIgnoreCase(cs[1..][k].tag, HarmonicDataTag) {
          assert cs[1..][k] == cs[k + 1];
        }
      }
      WithoutHarmonicDataKeepsAll(cs[1..]);
    }
  }

  /** While the parameter tree holds no HarmonicData element, the save as written is the
      corrected save. */
  lemma AsWrittenIsCorrectedSave(s: ProcessorState)
    requires NoHarmonicData(s.parameters.children)
    ensures StateDocumentAsWritten(s) == StateDocument(s)
  {
    WithoutHarmonicDataKeepsAll(s.parameters.children);
  }

  /** The save as written round-trips like the corrected save as long as the saving
      processor's parameter tree holds no HarmonicData element, as after construction. */
  lemma StateRoundTripAsWritten(s: ProcessorState, t: ProcessorState)
    requires EqualsIgnoreCase(s.parameters.tag, t.parameters.tag)
    requires NoHarmonicData(s.parameters.children)
    ensures var r := Restored(t, Some(StateDocumentAsWritten(s)));
      r.parameters == StateDocumentAsWritten(s)
      && RestoredAs(r.harm1Data, s.harm1Data, t.harm1Data)
      && RestoredAs(r.harm2Data, s.harm2Data, t.harm2Data)
      && RestoredAs(r.comboData, s.comboData, t.comboData)
  {
    AsWrittenIsCorrectedSave(s);
    StateRoundTrip(s, t);
  }

  /** As written, a processor whose parameter tree holds no HarmonicData element restores
      its own saved arrays, padded with zeros to eight elements; the restored parameter
      tree then holds the saved HarmonicData element. */
  lemma RestoreOwnStateAsWritten(s: ProcessorState)
    requires NoHarmonicData(s.parameters.children)
    ensures var r := Restored(s, Some(StateDocumentAsWritten(s)));
      r.harm1Data == Resize(s.harm1Data, Max(|s.harm1Data|, NumHarmonics))
      && r.harm2Data == Resize(s.harm2Data, Max(|s.harm2Data|, NumHarmonics))
      && r.comboData == Resize(s.comboData, Max(|s.comboData|, NumHarmonics))
      && !NoHarmonicData(r.parameters.children)
  {
    AsWrittenIsCorrectedSave(s);
    RestoreOwnState(s);
    StateRoundTrip(s, s);
    var cs := StateDocumentAsWritten(s).children;
    assert cs[|cs| - 1].tag == HarmonicDataTag;
  }

  /** As written, a save that follows a restore keeps the restored HarmonicData element in
      front of the new one, and a later restore reads the old one: when the parameter tree
      holds a HarmonicData element with h1, h2, c and no earlier one, restoring the saved
      document yields h1, h2, c whatever arrays the saving processor held. */
  lemma StaleHarmonicDataAsWritten(s: ProcessorState, t: ProcessorState, k: nat,
                                   h1: seq<real>, h2: seq<real>, c: seq<real>)
    requires EqualsIgnoreCase(s.parameters.tag, t.parameters.tag)
    requires k < |s.parameters.children| && s.parameters.children[k] == HarmonicDataTree(h1, h2, c)
    requires forall j :: 0 <= j < k ==> !EqualsIgnoreCase(s.parameters.children[j].tag, HarmonicDataTag)
    ensures var r := Restored(t, Some(StateDocumentAsWritten(s)));
      RestoredAs(r.harm1Data, h1, t.harm1Data)
      && RestoredAs(r.harm2Data, h2, t.harm2Data)
      && RestoredAs(r.comboData, c, t.comboData)
  {
    var doc := StateDocumentAsWritten(s);
    assert doc.children[k] == s.parameters.children[k];
    RestoreFromFirstHarmonicData(t, doc, k, h1, h2, c);
  }

  /** The host restores a session saved with arrays `a`, the user then sets arrays `b`, and
      the host saves and restores again. As written the processor comes back with `a`; with
      the saved document the model uses it comes back with `b`. */
  lemma StaleSessionExample(a: seq<real>, b: seq<real>)
    requires |a| == NumHarmonics && |b| == NumHarmonics
    ensures var first := InitialState().(harm1Data := a, harm2Data := a, comboData := a);
      var restored := Restored(InitialState(), Some(StateDocumentAsWritten(first)));
      var edited := restored.(harm1Data := b, harm2Data := b, comboData := b);
      Restored(edited, Some(StateDocumentAsWritten(edited))).harm1Data == a
      && Restored(edited, Some(StateDocument(edited))).harm1Data == b
  {
    var first := InitialState().(harm1Data := a, harm2Data := a, comboData := a);
    var doc0 := StateDocumentAsWritten(first);
    assert doc0.children == [HarmonicDataTree(a, a, a)];
    RestoreFromFirstHarmonicData(InitialState(), doc0, 0, a, a, a);
    var restored := Restored(InitialState(), Some(doc0));
    assert restored.harm1Data == a;
    var edited := restored.(harm1Data := b, harm2Data := b, comboData := b);
    StaleHarmonicDataAsWritten(edited, edited, 0, a, a, a);
    assert Restored(edited, Some(StateDocumentAsWritten(edited))).harm1Data == a;
    StateRoundTripExact(edited, edited);
  }

  // ---------------------------------------------------------------------------
  // The processor

  class Processor {
    /** apvts.state: the parameter tree. */
    var parameters: Tree
    var harm1Data: seq<real>
    var harm2Data: seq<real>
    var comboData: seq<real>

    function State(): ProcessorState
      reads this
    {
      ProcessorState(parameters, harm1Data, harm2Data, comboData)
    }

    /** Resizes the three arrays to eight elements and sets each element to zero. */
    constructor ()
      ensures State() == InitialState()
    {
      parameters := Tree("Parameters", map[], []);
      harm1Data := Resize([], NumHarmonics);
      harm2Data := Resize([], NumHarmonics);
      comboData := Resize([], NumHarmonics);
      new;
      for i := 0 to NumHarmonics
        invariant parameters == Tree("Parameters", map[], [])
        invariant harm1Data == harm2Data == comboData == Zeros(NumHarmonics)
      {
        harm1Data := ArraySet(harm1Data, i, 0.0);
        harm2Data := ArraySet(harm2Data, i, 0.0);
        comboData := ArraySet(comboData, i, 0.0);
      }
    }

    /** Stores the three arrays as given, of any length and with any values. */
    method SetHarmonicData(harm1: seq<real>, harm2: seq<real>, combo: seq<real>)
      modifies this
      ensures State() == old(State()).(harm1Data := harm1, harm2Data := harm2, comboData := combo)
      ensures Harm1Data() == harm1 && Harm2Data() == harm2 && ComboData() == combo
    {
      harm1Data := harm1;
      harm2Data := harm2;
      comboData := combo;
    }

    function Harm1Data(): seq<real>
      reads this
    {
      harm1Data
    }

    function Harm2Data(): seq<real>
      reads this
    {
      harm2Data
    }

    function ComboData(): seq<real>
      reads this
    {
      comboData
    }

    /** processBlock: the block's events are replaced by their harmonic expansion under the
      current combo array; the processor itself is not changed. */
    method ProcessBlock(midiMessages: MidiBuffer)
      requires midiMessages.Valid()
      modifies midiMessages
      ensures midiMessages.Valid()
      ensures midiMessages.events == ExpandAll(old(midiMessages.events), comboData)
    {
      ExpandAllSorted(midiMessages.events, comboData);
      var processedMidi := ExpandBlock(midiMessages.events, comboData);
      midiMessages.events := processedMidi;
    }

    /** getStateInformation: a copy of the whole parameter tree with the three arrays
      appended as a HarmonicData element holding the sections Harm1, Harm2 and Combo.
      A HarmonicData element an earlier restore left in the tree is copied too. */
    method GetStateInformation() returns (doc: Tree)
      ensures doc == StateDocumentAsWritten(State())
    {
      var harm1Props := WriteSection(harm1Data);
      var harm2Props := WriteSection(harm2Data);
      var comboProps := WriteSection(comboData);
      var harmonics := Tree(HarmonicDataTag, map[], [Tree(Harm1Tag, harm1Props, []),
                                                    Tree(Harm2Tag, harm2Props, []),
                                                    Tree(ComboTag, comboProps, [])]);
      doc := Tree(parameters.tag, parameters.props, parameters.children + [harmonics]);
    }

    /** setStateInformation: a document of the parameter tree's type replaces the tree,
      and each section of its first HarmonicData element restores its array. */
    method SetStateInformation(data: Option<Tree>)
      modifies this
      ensures State() == Restored(old(State()), data)
    {
      if data.Some? {
        var xmlState := data.value;
        if EqualsIgnoreCase(xmlState.tag, parameters.tag) {
          parameters := xmlState;
          var harmonics := ChildByName(xmlState, HarmonicDataTag);
          if harmonics.Some? {
            var harm1Xml := ChildByName(harmonics.value, Harm1Tag);
            if harm1Xml.Some? {
              harm1Data := RestoreSection(harm1Data, harm1Xml.value);
            }
            var harm2Xml := ChildByName(harmonics.value, Harm2Tag);
            if harm2Xml.Some? {
              harm2Data := RestoreSection(harm2Data, harm2Xml.value);
            }
            var comboXml := ChildByName(harmonics.value, ComboTag);
            if comboXml.Some? {
              comboData := RestoreSection(comboData, comboXml.value);
            }
          }
        }
      }
    }
  }

  /** The loop `for i < 8: arr.set(i, section.getDoubleAttribute("h" + i, 0.0))`. */
  method RestoreSection(arr: seq<real>, section: Tree) returns (r: seq<real>)
    ensures r == RestoredSection(arr, section)
  {
    r := arr;
    for i := 0 to NumHarmonics
      invariant |r| == Max(|arr|, i)
      invariant forall k :: 0 <= k < |r| ==>
        r[k] == (if k < i then PropertyOr(section, KeyName(k), 0.0) else arr[k])
    {
      r := ArraySet(r, i, PropertyOr(section, KeyName(i), 0.0));
    }
  }
}
