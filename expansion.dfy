/** The harmonic expansion of a block of MIDI events performed by
    PluginProcessor::processBlock: each note-on is followed by one note-on per sounding
    harmonic, each note-off by a note-off for every harmonic that fits in the MIDI range,
    and every other message is copied. */
module Expansion {
  import opened Midi
  import opened Harmonics

  /** The note of harmonic index `i` above `base`. */
  function HarmonicNote(base: int, i: nat): int
  {
    base + HarmonicOffset(i)
  }

  /** Harmonic `i` is added to a note-on when its strength is positive and its note is
      still a MIDI note. */
  predicate Sounds(combo: seq<real>, base: int, i: nat)
    requires i < |combo|
  {
    combo[i] > 0.0 && HarmonicNote(base, i) <= 127
  }

  /** Harmonic `i` is released on a note-off when its note is still a MIDI note. */
  predicate Releasable(base: int, i: nat)
  {
    HarmonicNote(base, i) <= 127
  }

  function OnCompanion(channel: int, base: int, velocity: int, time: int, strength: real, i: nat): TimedEvent
  {
    TimedEvent(NoteOn(channel, HarmonicNote(base, i), HarmonicVelocity(velocity, strength)), time)
  }

  /** juce::MidiMessage::noteOff(channel, note) has velocity 0. */
  function OffCompanion(channel: int, base: int, time: int, i: nat): TimedEvent
  {
    TimedEvent(NoteOff(channel, HarmonicNote(base, i), 0), time)
  }

  /** The note-ons synthesized for harmonic indices below `j`, in index order. */
  function NoteOnCompanions(channel: int, base: int, velocity: int, time: int, combo: seq<real>, j: nat): seq<TimedEvent>
    requires j <= |combo|
  {
    if j == 0 then []
    else
      NoteOnCompanions(channel, base, velocity, time, combo, j - 1)
      + (if Sounds(combo, base, j - 1) then [OnCompanion(channel, base, velocity, time, combo[j - 1], j - 1)] else [])
  }

  /** The note-offs synthesized for harmonic indices below `j`, in index order. */
  function NoteOffCompanions(channel: int, base: int, time: int, j: nat): seq<TimedEvent>
  {
    if j == 0 then []
    else
      NoteOffCompanions(channel, base, time, j - 1)
      + (if Releasable(base, j - 1) then [OffCompanion(channel, base, time, j - 1)] else [])
  }

  /** What processBlock emits for one input event. */
  function ExpandEvent(e: TimedEvent, combo: seq<real>): seq<TimedEvent>
  {
    match e.message
    case NoteOn(channel, note, velocity) => [e] + NoteOnCompanions(channel, note, velocity, e.time, combo, |combo|)
    case NoteOff(channel, note, _) => [e] + NoteOffCompanions(channel, note, e.time, NumHarmonics)
    case Other(_) => [e]
  }

  /** What processBlock emits for a block: the expansions of its events, in order. */
  function ExpandAll(events: seq<TimedEvent>, combo: seq<real>): seq<TimedEvent>
    decreases |events|
  {
    if events == [] then []
    else ExpandAll(events[..|events| - 1], combo) + ExpandEvent(events[|events| - 1], combo)
  }

  // ---------------------------------------------------------------------------
  // The loop of processBlock

  /** The body of processBlock: the loop over the block's events that appends each event
      and its companions to a fresh buffer with MidiBuffer::addEvent. */
  method ExpandBlock(events: seq<TimedEvent>, combo: seq<real>) returns (processed: seq<TimedEvent>)
    requires SortedByTime(events)
    ensures processed == ExpandAll(events, combo)
  {
    processed := [];
    var k := 0;
    while k < |events|
      invariant 0 <= k <= |events|
      invariant processed == ExpandAll(events[..k], combo)
    {
      var ev := events[k];
      assert events[..k + 1][..k] == events[..k];
      ExpandAllTimes(events[..k], combo, ev.time);
      processed := ExpandOne(processed, ev, combo);
      k := k + 1;
    }
    assert events[..|events|] == events;
  }

  /** One iteration of processBlock's event loop: the event itself, then its companions. */
  method ExpandOne(processed: seq<TimedEvent>, ev: TimedEvent, combo: seq<real>) returns (r: seq<TimedEvent>)
    requires TimesAtMost(processed, ev.time)
    ensures r == processed + ExpandEvent(ev, combo)
  {
    AddEventAppends(processed, ev);
    r := AddEvent(processed, ev);
    match ev.message {
      case NoteOn(channel, baseNote, baseVelocity) =>
        r := AddNoteOnCompanions(r, channel, baseNote, baseVelocity, ev.time, combo);
      case NoteOff(channel, baseNote, _) =>
        r := AddNoteOffCompanions(r, channel, baseNote, ev.time);
      case Other(_) =>
    }
  }

  /** `baseNote + ratioToSemitones(i + 2)`: the note of harmonic index `i` as processBlock
      computes it, which is the table offset above the base note. */
  method RatioNote(baseNote: int, i: nat) returns (note: int)
    ensures note == HarmonicNote(baseNote, i)
  {
    HarmonicOffsetRounds(i);
    note := baseNote + Semitones(i + 2);
  }

  /** The loop over the harmonic strengths that follows a note-on. */
  method AddNoteOnCompanions(processed: seq<TimedEvent>, channel: int, baseNote: int, baseVelocity: int,
                             time: int, combo: seq<real>) returns (r: seq<TimedEvent>)
    requires TimesAtMost(processed, time)
    ensures r == processed + NoteOnCompanions(channel, baseNote, baseVelocity, time, combo, |combo|)
  {
    r := processed;
    var i := 0;
    while i < |combo|
      invariant 0 <= i <= |combo|
      invariant r == processed + NoteOnCompanions(channel, baseNote, baseVelocity, time, combo, i)
      invariant TimesAtMost(r, time)
    {
      r := AddNoteOnCompanion(r, channel, baseNote, baseVelocity, time, combo, i);
      assert r == processed + NoteOnCompanions(channel, baseNote, baseVelocity, time, combo, i + 1);
      i := i + 1;
    }
  }

  /** One turn of that loop: the note-on of harmonic `i` is added when its strength is
      positive and its note is still a MIDI note. */
  method AddNoteOnCompanion(processed: seq<TimedEvent>, channel: int, baseNote: int, baseVelocity: int,
                            time: int, combo: seq<real>, i: nat) returns (r: seq<TimedEvent>)
    requires i < |combo| && TimesAtMost(processed, time)
    ensures r == processed + (if Sounds(combo, baseNote, i)
                              then [OnCompanion(channel, baseNote, baseVelocity, time, combo[i], i)] else [])
    ensures TimesAtMost(r, time)
  {
    r := processed;
    var harmonicStrength := combo[i];
    if harmonicStrength > 0.0 {
      var harmonicNote := RatioNote(baseNote, i);
      var harmonicVelocity := HarmonicVelocity(baseVelocity, harmonicStrength);
      if harmonicNote <= 127 {
        var companion := TimedEvent(NoteOn(channel, harmonicNote, harmonicVelocity), time);
        AddEventAppends(r, companion);
        r := AddEvent(r, companion);
      }
    }
  }

  /** The loop over the harmonic indices that follows a note-off. */
  method AddNoteOffCompanions(processed: seq<TimedEvent>, channel: int, baseNote: int, time: int)
    returns (r: seq<TimedEvent>)
    requires TimesAtMost(processed, time)
    ensures r == processed + NoteOffCompanions(channel, baseNote, time, NumHarmonics)
  {
    r := processed;
    var i := 0;
    while i < NumHarmonics
      invariant 0 <= i <= NumHarmonics
      invariant r == processed + NoteOffCompanions(channel, baseNote, time, i)
      invariant TimesAtMost(r, time)
    {
      r := AddNoteOffCompanion(r, channel, baseNote, time, i);
      assert r == processed + NoteOffCompanions(channel, baseNote, time, i + 1);
      i := i + 1;
    }
  }

  /** One turn of that loop: the note-off of harmonic `i` is added when its note is still a
      MIDI note. */
  method AddNoteOffCompanion(processed: seq<TimedEvent>, channel: int, baseNote: int, time: int, i: nat)
    returns (r: seq<TimedEvent>)
    requires TimesAtMost(processed, time)
    ensures r == processed + (if Releasable(baseNote, i) then [OffCompanion(channel, baseNote, time, i)] else [])
    ensures TimesAtMost(r, time)
  {
    r := processed;
    var harmonicNote := RatioNote(baseNote, i);
    if harmonicNote <= 127 {
      var companion := TimedEvent(NoteOff(channel, harmonicNote, 0), time);
      AddEventAppends(r, companion);
      r := AddEvent(r, companion);
    }
  }

  // ---------------------------------------------------------------------------
  // Which harmonic indices are emitted

  /** The indices below `j` of the harmonics a note-on on `base` adds, in increasing order. */
  function SoundingIndices(combo: seq<real>, base: int, j: nat): seq<nat>
    requires j <= |combo|
  {
    if j == 0 then []
    else SoundingIndices(combo, base, j - 1) + (if Sounds(combo, base, j - 1) then [j - 1] else [])
  }

  /** The indices below `j` of the harmonics a note-off on `base` releases, in increasing order. */
  function ReleasedIndices(base: int, j: nat): seq<nat>
  {
    if j == 0 then []
    else ReleasedIndices(base, j - 1) + (if Releasable(base, j - 1) then [j - 1] else [])
  }

  lemma {:induction false} SoundingIndicesSpec(combo: seq<real>, base: int, j: nat)
    requires j <= |combo|
    ensures forall a, b :: 0 <= a < b < |SoundingIndices(combo, base, j)| ==>
      SoundingIndices(combo, base, j)[a] < SoundingIndices(combo, base, j)[b]
    ensures forall a :: 0 <= a < |SoundingIndices(combo, base, j)| ==>
      SoundingIndices(combo, base, j)[a] < j && Sounds(combo, base, SoundingIndices(combo, base, j)[a])
    ensures forall i :: 0 <= i < j && Sounds(combo, base, i) ==> i in SoundingIndices(combo, base, j)
  {
    if j > 0 {
      SoundingIndicesSpec(combo, base, j - 1);
      var prev := SoundingIndices(combo, base, j - 1);
      var idx := SoundingIndices(combo, base, j);
      if Sounds(combo, base, j - 1) {
        assert idx == prev + [j - 1];
        forall a, b | 0 <= a < b < |idx| ensures idx[a] < idx[b] {
          if b < |prev| { assert idx[a] == prev[a] && idx[b] == prev[b]; }
          else { assert idx[a] == prev[a] < j - 1 == idx[b]; }
        }
        forall a | 0 <= a < |idx| ensures idx[a] < j && Sounds(combo, base, idx[a]) {
          if a < |prev| { assert idx[a] == prev[a]; }
        }
        forall i | 0 <= i < j && Sounds(combo, base, i) ensures i in idx {
          if i < j - 1 { assert i in prev; } else { assert idx[|idx| - 1] == i; }
        }
      } else {
        assert idx == prev;
        forall i | 0 <= i < j && Sounds(combo, base, i) ensures i in idx {
          assert i < j - 1;
        }
      }
    }
  }

  /** The k-th sounding index is below `j` and sounds. */
  lemma SoundingIndexAt(combo: seq<real>, base: int, j: nat, k: nat)
    requires j <= |combo| && k < |SoundingIndices(combo, base, j)|
    ensures SoundingIndices(combo, base, j)[k] < j && Sounds(combo, base, SoundingIndices(combo, base, j)[k])
  {
    SoundingIndicesSpec(combo, base, j);
  }

  /** There are as many sounding indices below `j` as indices below `j` that sound. */
  lemma SoundingIndicesCount(combo: seq<real>, base: int, j: nat)
    requires j <= |combo|
    ensures |SoundingIndices(combo, base, j)| == |set i: nat | i < j && Sounds(combo, base, i)|
  {
    SoundingIndicesSpec(combo, base, j);
    assert forall a, b :: 0 <= a < b < |SoundingIndices(combo, base, j)| ==>
      SoundingIndices(combo, base, j)[a] < SoundingIndices(combo, base, j)[b];
    DistinctCardinality(SoundingIndices(combo, base, j));
    assert (set x: int | x in SoundingIndices(combo, base, j)) == set i: nat | i < j && Sounds(combo, base, i);
  }

  lemma {:induction false} ReleasedIndicesSpec(base: int, j: nat)
    ensures forall a, b :: 0 <= a < b < |ReleasedIndices(base, j)| ==>
      ReleasedIndices(base, j)[a] < ReleasedIndices(base, j)[b]
    ensures forall a :: 0 <= a < |ReleasedIndices(base, j)| ==>
      ReleasedIndices(base, j)[a] < j && Releasable(base, ReleasedIndices(base, j)[a])
    ensures forall i :: 0 <= i < j && Releasable(base, i) ==> i in ReleasedIndices(base, j)
  {
    if j > 0 {
      ReleasedIndicesSpec(base, j - 1);
      var prev := ReleasedIndices(base, j - 1);
      var idx := ReleasedIndices(base, j);
      if Releasable(base, j - 1) {
        assert idx == prev + [j - 1];
        forall a, b | 0 <= a < b < |idx| ensures idx[a] < idx[b] {
          if b < |prev| { assert idx[a] == prev[a] && idx[b] == prev[b]; }
          else { assert idx[a] == prev[a] < j - 1 == idx[b]; }
        }
        forall a | 0 <= a < |idx| ensures idx[a] < j && Releasable(base, idx[a]) {
          if a < |prev| { assert idx[a] == prev[a]; }
        }
        forall i | 0 <= i < j && Releasable(base, i) ensures i in idx {
          if i < j - 1 { assert i in prev; } else { assert idx[|idx| - 1] == i; }
        }
      } else {
        assert idx == prev;
        forall i | 0 <= i < j && Releasable(base, i) ensures i in idx {
          assert i < j - 1;
        }
      }
    }
  }

  /** The k-th released index is below `j` and fits. */
  lemma ReleasedIndexAt(base: int, j: nat, k: nat)
    requires k < |ReleasedIndices(base, j)|
    ensures ReleasedIndices(base, j)[k] < j && Releasable(base, ReleasedIndices(base, j)[k])
  {
    ReleasedIndicesSpec(base, j);
  }

  /** There are as many released indices below `j` as indices below `j` that fit. */
  lemma ReleasedIndicesCount(base: int, j: nat)
    ensures |ReleasedIndices(base, j)| == |set i: nat | i < j && Releasable(base, i)|
  {
    ReleasedIndicesSpec(base, j);
    DistinctCardinality(ReleasedIndices(base, j));
    assert (set x: int | x in ReleasedIndices(base, j)) == set i: nat | i < j && Releasable(base, i);
  }

  /** A sequence without repeated elements has as many elements as its set of elements. */
  lemma {:induction false} DistinctCardinality(s: seq<int>)
    requires forall a, b :: 0 <= a < b < |s| ==> s[a] != s[b]
    ensures |set x | x in s| == |s|
  {
    if s != [] {
      var init, last := s[..|s| - 1], s[|s| - 1];
      assert s == init + [last];
      DistinctCardinality(init);
      var head := set x | x in init;
      assert last !in head;
      assert (set x | x in s) == head + {last};
    }
  }

  /** The k-th synthesized note-on is the companion of the k-th sounding index. */
  lemma {:induction false} NoteOnCompanionsAt(channel: int, base: int, velocity: int, time: int, combo: seq<real>, j: nat)
    requires j <= |combo|
    ensures var c, idx := NoteOnCompanions(channel, base, velocity, time, combo, j), SoundingIndices(combo, base, j);
      |c| == |idx|
      && forall k :: 0 <= k < |c| ==> idx[k] < |combo| && c[k] == OnCompanion(channel, base, velocity, time, combo[idx[k]], idx[k])
  {
    if j > 0 {
      NoteOnCompanionsAt(channel, base, velocity, time, combo, j - 1);
      SoundingIndicesSpec(combo, base, j - 1);
    }
  }

  /** NoteOnCompanionsAt at one position `k`. */
  lemma NoteOnCompanionAt(channel: int, base: int, velocity: int, time: int, combo: seq<real>, j: nat, k: nat)
    requires j <= |combo|
    ensures |NoteOnCompanions(channel, base, velocity, time, combo, j)| == |SoundingIndices(combo, base, j)|
    ensures k < |SoundingIndices(combo, base, j)| ==>
      SoundingIndices(combo, base, j)[k] < |combo|
      && NoteOnCompanions(channel, base, velocity, time, combo, j)[k]
         == OnCompanion(channel, base, velocity, time, combo[SoundingIndices(combo, base, j)[k]], SoundingIndices(combo, base, j)[k])
  {
    NoteOnCompanionsAt(channel, base, velocity, time, combo, j);
  }

  /** The k-th synthesized note-off is the companion of the k-th released index. */
  lemma {:induction false} NoteOffCompanionsAt(channel: int, base: int, time: int, j: nat)
    ensures var c, idx := NoteOffCompanions(channel, base, time, j), ReleasedIndices(base, j);
      |c| == |idx| && forall k :: 0 <= k < |c| ==> c[k] == OffCompanion(channel, base, time, idx[k])
  {
    if j > 0 {
      NoteOffCompanionsAt(channel, base, time, j - 1);
    }
  }

  // ---------------------------------------------------------------------------
  // Properties of one event's expansion

  /** The original event comes first; everything after it is a companion of the same kind,
      on the same channel and at the same sample position; other messages pass alone. */
  lemma ExpandEventShape(e: TimedEvent, combo: seq<real>)
    ensures var r := ExpandEvent(e, combo);
      1 <= |r| && r[0] == e
      && (forall p :: 0 <= p < |r| ==> r[p].time == e.time)
      && (e.message.NoteOn? ==> forall p :: 1 <= p < |r| ==>
            r[p].message.NoteOn? && r[p].message.channel == e.message.channel)
      && (e.message.NoteOff? ==> forall p :: 1 <= p < |r| ==>
            r[p].message.NoteOff? && r[p].message.channel == e.message.channel)
      && (e.message.Other? ==> r == [e])
  {
    match e.message
    case NoteOn(channel, note, velocity) =>
      NoteOnCompanionsAt(channel, note, velocity, e.time, combo, |combo|);
    case NoteOff(channel, note, _) =>
      NoteOffCompanionsAt(channel, note, e.time, NumHarmonics);
    case Other(_) =>
  }

  /** A harmonic index sounds exactly when its strength is positive and its note,
      n + round(12 log2(i + 2)), is still a MIDI note. */
  lemma SoundsIff(combo: seq<real>, n: int, i: nat)
    requires i < |combo|
    ensures Sounds(combo, n, i) <==> combo[i] > 0.0 && n + Semitones(i + 2) <= 127
  {
    HarmonicOffsetRounds(i);
  }

  /** A note-on is followed by exactly as many companions as there are harmonic indices
      whose strength is positive and whose note fits in the MIDI range. */
  lemma NoteOnCount(e: TimedEvent, combo: seq<real>)
    requires e.message.NoteOn?
    ensures var n := e.message.note;
      |ExpandEvent(e, combo)| == 1 + |set i: nat | i < |combo| && combo[i] > 0.0 && n + Semitones(i + 2) <= 127|
  {
    var n, v, ch := e.message.note, e.message.velocity, e.message.channel;
    NoteOnCompanionsAt(ch, n, v, e.time, combo, |combo|);
    SoundingIndicesCount(combo, n, |combo|);
    var s1 := set i: nat | i < |combo| && combo[i] > 0.0 && n + Semitones(i + 2) <= 127;
    var s2 := set i: nat | i < |combo| && Sounds(combo, n, i);
    forall i: nat | i < |combo| ensures i in s1 <==> i in s2 {
      SoundsIff(combo, n, i);
    }
    assert s1 == s2;
  }

  /** The sounding indices of a note-on, in increasing order, are exactly the indices with
      positive strength whose note fits. */
  lemma NoteOnIndices(combo: seq<real>, n: int)
    ensures var idx := SoundingIndices(combo, n, |combo|);
      (forall a, b :: 0 <= a < b < |idx| ==> idx[a] < idx[b])
      && (forall i :: 0 <= i < |combo| ==> (i in idx <==> combo[i] > 0.0 && n + Semitones(i + 2) <= 127))
  {
    SoundingIndicesSpec(combo, n, |combo|);
    forall i | 0 <= i < |combo|
      ensures i in SoundingIndices(combo, n, |combo|) <==> combo[i] > 0.0 && n + Semitones(i + 2) <= 127
    {
      SoundsIff(combo, n, i);
    }
  }

  /** A note-on on note n with velocity v is emitted first, and its k-th companion is a
      note-on on the same channel and at the same position for the k-th sounding index i,
      at note n + round(12 log2(i + 2)) <= 127 and velocity jlimit(1, 127, trunc(v * combo[i])). */
  lemma NoteOnCompanion(e: TimedEvent, combo: seq<real>, k: nat)
    requires e.message.NoteOn?
    ensures var r, n, v := ExpandEvent(e, combo), e.message.note, e.message.velocity;
      var idx := SoundingIndices(combo, n, |combo|);
      |r| == 1 + |idx| && r[0] == e
      && (k < |idx| ==>
           idx[k] < |combo|
           && r[k + 1] == TimedEvent(NoteOn(e.message.channel, n + Semitones(idx[k] + 2),
                                            HarmonicVelocity(v, combo[idx[k]])), e.time)
           && r[k + 1].message.note <= 127
           && 1 <= r[k + 1].message.velocity <= 127)
  {
    var n, v, ch := e.message.note, e.message.velocity, e.message.channel;
    var r := ExpandEvent(e, combo);
    var c := NoteOnCompanions(ch, n, v, e.time, combo, |combo|);
    var idx := SoundingIndices(combo, n, |combo|);
    assert r == [e] + c;
    NoteOnCompanionAt(ch, n, v, e.time, combo, |combo|, k);
    if k < |idx| {
      NoteOnCompanionEntry(ch, n, v, e.time, combo, k);
      assert r[k + 1] == c[k];
    }
  }

  /** The k-th note-on companion of a note-on, written out. */
  lemma NoteOnCompanionEntry(ch: int, n: int, v: int, t: int, combo: seq<real>, k: nat)
    requires k < |SoundingIndices(combo, n, |combo|)|
    ensures var c, i := NoteOnCompanions(ch, n, v, t, combo, |combo|), SoundingIndices(combo, n, |combo|)[k];
      i < |combo| && k < |c|
      && c[k] == TimedEvent(NoteOn(ch, n + Semitones(i + 2), HarmonicVelocity(v, combo[i])), t)
      && n + Semitones(i + 2) <= 127
  {
    NoteOnCompanionAt(ch, n, v, t, combo, |combo|, k);
    SoundingIndexAt(combo, n, |combo|, k);
    var i := SoundingIndices(combo, n, |combo|)[k];
    SoundingCompanion(ch, n, v, t, combo, i);
  }

  /** The note-on companion of a sounding index, with its note written as the rounded
      offset and its velocity as the limited product. */
  lemma SoundingCompanion(ch: int, n: int, v: int, t: int, combo: seq<real>, i: nat)
    requires i < |combo| && Sounds(combo, n, i)
    ensures OnCompanion(ch, n, v, t, combo[i], i)
            == TimedEvent(NoteOn(ch, n + Semitones(i + 2), HarmonicVelocity(v, combo[i])), t)
    ensures n + Semitones(i + 2) <= 127
  {
    HarmonicOffsetRounds(i);
  }

  /** With no positive strength a note-on is emitted alone. */
  lemma SilentComboAddsNothing(e: TimedEvent, combo: seq<real>)
    requires e.message.NoteOn?
    requires forall i :: 0 <= i < |combo| ==> combo[i] <= 0.0
    ensures ExpandEvent(e, combo) == [e]
  {
    var n := e.message.note;
    NoteOnCompanionsAt(e.message.channel, n, e.message.velocity, e.time, combo, |combo|);
    SoundingIndicesCount(combo, n, |combo|);
    var none := set i: nat | i < |combo| && Sounds(combo, n, i);
    assert none == {} by {
      forall i: nat | i < |combo| ensures !Sounds(combo, n, i) { }
    }
  }

  /** A note-off is expanded the same way whatever the harmonic strengths are. */
  lemma NoteOffIgnoresStrengths(e: TimedEvent, combo: seq<real>, other: seq<real>)
    requires e.message.NoteOff?
    ensures ExpandEvent(e, combo) == ExpandEvent(e, other)
  {
  }

  /** A note-off on note n is followed by one note-off per harmonic index i < 8 with
      n + SemitoneTable[i] <= 127 (SemitoneTable holds round(12 log2(i + 2))). */
  lemma NoteOffCount(e: TimedEvent, combo: seq<real>)
    requires e.message.NoteOff?
    ensures var n := e.message.note;
      |ExpandEvent(e, combo)| == 1 + |set i: nat | i < NumHarmonics && n + SemitoneTable[i] <= 127|
  {
    var n, ch := e.message.note, e.message.channel;
    NoteOffIgnoresStrengths(e, combo, []);
    NoteOffCompanionsAt(ch, n, e.time, NumHarmonics);
    ReleasedIndicesCount(n, NumHarmonics);
    var s1 := set i: nat | i < NumHarmonics && n + SemitoneTable[i] <= 127;
    var s2 := set i: nat | i < NumHarmonics && Releasable(n, i);
    forall i: nat | i < NumHarmonics ensures i in s1 <==> i in s2 {
    }
    assert s1 == s2;
  }

  /** The released indices of a note-off, in increasing order, are exactly the indices
      below eight whose note fits. */
  lemma NoteOffIndices(n: int)
    ensures var idx := ReleasedIndices(n, NumHarmonics);
      (forall a, b :: 0 <= a < b < |idx| ==> idx[a] < idx[b])
      && (forall i :: 0 <= i < NumHarmonics ==> (i in idx <==> n + SemitoneTable[i] <= 127))
  {
    ReleasedIndicesSpec(n, NumHarmonics);
    forall i | 0 <= i < NumHarmonics
      ensures i in ReleasedIndices(n, NumHarmonics) <==> n + SemitoneTable[i] <= 127
    {
    }
  }

  /** A note-off is emitted first, and its k-th companion is a note-off of velocity 0 on
      the same channel and at the same position for the k-th released index i, at note
      n + round(12 log2(i + 2)) <= 127. */
  lemma NoteOffCompanion(e: TimedEvent, combo: seq<real>, k: nat)
    requires e.message.NoteOff?
    ensures var r, n := ExpandEvent(e, combo), e.message.note;
      var idx := ReleasedIndices(n, NumHarmonics);
      |r| == 1 + |idx| && r[0] == e
      && (k < |idx| ==>
           idx[k] < NumHarmonics
           && r[k + 1] == TimedEvent(NoteOff(e.message.channel, n + Semitones(idx[k] + 2), 0), e.time)
           && r[k + 1].message.note <= 127)
  {
    var n, ch := e.message.note, e.message.channel;
    var r := ExpandEvent(e, combo);
    var c := NoteOffCompanions(ch, n, e.time, NumHarmonics);
    assert r == [e] + c;
    NoteOffCompanionEntry(ch, n, e.time, k);
    if k < |ReleasedIndices(n, NumHarmonics)| {
      assert r[k + 1] == c[k];
    }
  }

  /** The k-th note-off companion of a note-off, written out. */
  lemma NoteOffCompanionEntry(ch: int, n: int, t: int, k: nat)
    ensures |NoteOffCompanions(ch, n, t, NumHarmonics)| == |ReleasedIndices(n, NumHarmonics)|
    ensures k < |ReleasedIndices(n, NumHarmonics)| ==>
      var c, i := NoteOffCompanions(ch, n, t, NumHarmonics), ReleasedIndices(n, NumHarmonics)[k];
      i < NumHarmonics
      && c[k] == TimedEvent(NoteOff(ch, n + Semitones(i + 2), 0), t)
      && n + Semitones(i + 2) <= 127
  {
    NoteOffCompanionsAt(ch, n, t, NumHarmonics);
    if k < |ReleasedIndices(n, NumHarmonics)| {
      ReleasedIndexAt(n, NumHarmonics, k);
      var i := ReleasedIndices(n, NumHarmonics)[k];
      assert NoteOffCompanions(ch, n, t, NumHarmonics)[k] == OffCompanion(ch, n, t, i);
      ReleasedCompanion(ch, n, t, i);
    }
  }

  /** The note-off companion of a released index, with its note written as the rounded
      offset. */
  lemma ReleasedCompanion(ch: int, n: int, t: int, i: nat)
    requires Releasable(n, i)
    ensures OffCompanion(ch, n, t, i) == TimedEvent(NoteOff(ch, n + Semitones(i + 2), 0), t)
    ensures n + Semitones(i + 2) <= 127
  {
    HarmonicOffsetRounds(i);
  }

  /** A note-off on a note up to 89 releases all eight harmonics, at n + 12, n + 19, ...,
      n + 38 in that order. */
  lemma NoteOffReleasesAll(e: TimedEvent, combo: seq<real>)
    requires e.message.NoteOff? && e.message.note <= 89
    ensures var n, ch := e.message.note, e.message.channel;
      ExpandEvent(e, combo) == [e] + seq(NumHarmonics, i requires 0 <= i < NumHarmonics =>
        TimedEvent(NoteOff(ch, n + SemitoneTable[i], 0), e.time))
  {
    var n, ch := e.message.note, e.message.channel;
    AllReleasable(ch, n, e.time, NumHarmonics);
  }

  lemma {:induction false} AllReleasable(ch: int, n: int, t: int, j: nat)
    requires n <= 89 && j <= NumHarmonics
    ensures NoteOffCompanions(ch, n, t, j)
            == seq(j, i requires 0 <= i < j => TimedEvent(NoteOff(ch, n + SemitoneTable[i], 0), t))
  {
    if j > 0 {
      AllReleasable(ch, n, t, j - 1);
      assert Releasable(n, j - 1);
    }
  }

  // ---------------------------------------------------------------------------
  // Properties of a whole block

  lemma {:induction false} ExpandAllAppend(a: seq<TimedEvent>, b: seq<TimedEvent>, combo: seq<real>)
    ensures ExpandAll(a + b, combo) == ExpandAll(a, combo) + ExpandAll(b, combo)
    decreases |b|
  {
    if b == [] {
      assert a + b == a;
    } else {
      var b0, last := b[..|b| - 1], b[|b| - 1];
      assert (a + b)[..|a + b| - 1] == a + b0;
      assert (a + b)[|a + b| - 1] == last;
      ExpandAllAppend(a, b0, combo);
      var x := ExpandEvent(last, combo);
      calc {
        ExpandAll(a + b, combo);
        ExpandAll(a + b0, combo) + x;
        (ExpandAll(a, combo) + ExpandAll(b0, combo)) + x;
        ExpandAll(a, combo) + (ExpandAll(b0, combo) + x);
        ExpandAll(a, combo) + ExpandAll(b, combo);
      }
    }
  }

  /** Event k of the block is emitted once, after the expansions of the events before it
      and before the expansions of the events after it, followed by its own companions. */
  lemma ExpandAllAt(events: seq<TimedEvent>, combo: seq<real>, k: nat)
    requires k < |events|
    ensures ExpandAll(events, combo)
            == ExpandAll(events[..k], combo) + ExpandEvent(events[k], combo) + ExpandAll(events[k + 1..], combo)
    ensures ExpandAll(events, combo)[|ExpandAll(events[..k], combo)|] == events[k]
  {
    assert events == events[..k] + [events[k]] + events[k + 1..];
    ExpandAllAppend(events[..k] + [events[k]], events[k + 1..], combo);
    ExpandAllAppend(events[..k], [events[k]], combo);
    assert ExpandAll([events[k]], combo) == ExpandEvent(events[k], combo) by {
      assert [events[k]][..0] == [];
    }
    ExpandEventShape(events[k], combo);
  }

  /** When every event of the block is at or before `t`, so is every event of its
      expansion. */
  lemma {:induction false} ExpandAllTimes(events: seq<TimedEvent>, combo: seq<real>, t: int)
    requires TimesAtMost(events, t)
    ensures TimesAtMost(ExpandAll(events, combo), t)
    decreases |events|
  {
    if events != [] {
      ExpandAllTimes(events[..|events| - 1], combo, t);
      ExpandEventShape(events[|events| - 1], combo);
    }
  }

  /** The expansion of a time-ordered block is time-ordered. */
  lemma {:induction false} ExpandAllSorted(events: seq<TimedEvent>, combo: seq<real>)
    requires SortedByTime(events)
    ensures SortedByTime(ExpandAll(events, combo))
    decreases |events|
  {
    if events != [] {
      var init, last := events[..|events| - 1], events[|events| - 1];
      ExpandAllSorted(init, combo);
      ExpandAllTimes(init, combo, last.time);
      ExpandEventShape(last, combo);
    }
  }

  /** The 2nd harmonic alone doubles a middle C at the octave, at the same velocity. */
  lemma OctaveExample()
    ensures ExpandEvent(TimedEvent(NoteOn(1, 60, 100), 0), [1.0, 0.0, 0.0, 0.0, 0.0, 0.0, 0.0, 0.0])
            == [TimedEvent(NoteOn(1, 60, 100), 0), TimedEvent(NoteOn(1, 72, 100), 0)]
  {
  }
}
