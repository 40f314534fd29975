/** MIDI messages and juce::MidiBuffer, as far as the harmonic expander uses them. */
module Midi {

  /** A MIDI message as juce::MidiMessage classifies it. Whether a message counts as a
      note-on or a note-off (JUCE treats a note-on of velocity 0 as a note-off) is taken as
      given; every other kind of message is carried as its raw bytes. */
  datatype MidiMessage =
    | NoteOn(channel: int, note: int, velocity: int)
    | NoteOff(channel: int, note: int, velocity: int)
    | Other(bytes: seq<int>)

  /** One entry of a MidiBuffer: a message and its sample position in the block. */
  datatype TimedEvent = TimedEvent(message: MidiMessage, time: int)

  predicate SortedByTime(s: seq<TimedEvent>)
  {
    forall i, j :: 0 <= i < j < |s| ==> s[i].time <= s[j].time
  }

  predicate TimesAtMost(s: seq<TimedEvent>, t: int)
  {
    forall i :: 0 <= i < |s| ==> s[i].time <= t
  }

  /** MidiBuffer::addEvent: the event goes in front of the first stored event whose
      sample position is later than its own, so after every event at the same position. */
  function AddEvent(buf: seq<TimedEvent>, e: TimedEvent): (r: seq<TimedEvent>)
    ensures multiset(r) == multiset(buf) + multiset{e}
    decreases |buf|
  {
    if buf == [] || buf[0].time > e.time then
      [e] + buf
    else
      assert buf == [buf[0]] + buf[1..];
      [buf[0]] + AddEvent(buf[1..], e)
  }

  /** addEvent keeps a buffer in order of sample position. */
  lemma {:induction false} AddEventSorted(buf: seq<TimedEvent>, e: TimedEvent)
    requires SortedByTime(buf)
    ensures SortedByTime(AddEvent(buf, e))
    decreases |buf|
  {
    if buf != [] && buf[0].time <= e.time {
      var rest := AddEvent(buf[1..], e);
      AddEventSorted(buf[1..], e);
      forall k | 0 <= k < |rest| ensures buf[0].time <= rest[k].time {
        assert rest[k] in multiset(rest);
        assert rest[k] in multiset(buf[1..]) || rest[k] == e;
        if rest[k] != e {
          var j :| 0 <= j < |buf[1..]| && buf[1..][j] == rest[k];
          assert buf[j + 1] == rest[k];
        }
      }
    }
  }

  /** When no stored event is later than the new one, addEvent appends. */
  lemma {:induction false} AddEventAppends(buf: seq<TimedEvent>, e: TimedEvent)
    requires TimesAtMost(buf, e.time)
    ensures AddEvent(buf, e) == buf + [e]
    ensures TimesAtMost(buf + [e], e.time)
    decreases |buf|
  {
    if buf != [] {
      AddEventAppends(buf[1..], e);
    }
  }

  /** juce::MidiBuffer: its events are always kept in order of sample position. */
  class MidiBuffer {
    var events: seq<TimedEvent>

    predicate Valid()
      reads this
    {
      SortedByTime(events)
    }

    constructor (initial: seq<TimedEvent>)
      requires SortedByTime(initial)
      ensures Valid() && events == initial
    {
      events := initial;
    }
  }
}
