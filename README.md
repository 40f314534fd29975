# Harmonic MIDI plugin: a verified model

The plugin is a JUCE MIDI effect. It expands every incoming MIDI note into a stack of
harmonics. On a note-on it adds one note-on per harmonic index `i` whose strength
`comboData[i]` is positive:

- the added note-on sits `round(12 log2(i + 2))` semitones above the base note;
- its velocity is the base velocity times the strength, truncated towards zero and
  limited to 1..127;
- it is omitted when its note would be above 127.

On a note-off it adds note-offs for all eight harmonics that fit in the MIDI range. Every
other message passes through unchanged.

The model covers six more pieces:

- the three harmonic arrays the processor stores;
- how they are saved into, and restored from, the plugin's parameter tree;
- the preset record and its ValueTree form;
- the editor's morph handler, which interpolates the combo array between the two harmonic
  tables;
- the preset browser's index;
- the normalisation of preset file names.

Modules, one per source file plus shared pieces:

- `Juce` (`juce.dfy`): the library behaviour the code relies on, modelled on values.
  - `juce::Array<float>`: `operator[]` out of range reads 0, and `set` past the end appends.
  - `String(int)` and `endsWithIgnoreCase`.
  - XML elements and ValueTrees as one `Tree` of tag, numeric properties and ordered
    children. `XmlElement::getChildByName` compares tags ignoring case.
    `ValueTree::getChildWithName` compares them exactly.
- `Harmonics` (`harmonics.dfy`): the integer arithmetic of one harmonic.
  - `ratioToSemitones` is computed exactly without floating point as
    `Semitones(r) = (floor(log2(r^24)) + 1) / 2`.
  - This is proved to be the integer nearest to `12 log2 r`.
  - For the ratios 2..9 it is proved to give the table 12, 19, 24, 28, 31, 34, 36, 38.
  - The file also holds truncation, `jlimit` and the harmonic velocity.
- `Midi` (`midi.dfy`): MIDI messages and `MidiBuffer`.
  - `addEvent` inserts after every event at the same or an earlier position.
  - It is proved to keep a buffer ordered, and to append when nothing stored is later.
- `Expansion` (`expansion.dfy`): the loop of `processBlock`, as a method over sequences.
  - It is proved equal to a recursive definition of the expansion: each event followed
    by its companions.
  - Lemmas give the count, order, pitch and velocity of the companions.
- `HarmonicKeys` (`harmonic_keys.dfy`): the `"h" + String(i)` keys.
  - Distinct indices have distinct keys.
  - A section that stores an array reads it back.
- `PluginProcessor` (`plugin_processor.dfy`): the `Processor` class.
  - Its fields are the parameter tree and the three arrays.
  - Its methods are the constructor, `setHarmonicData`, `processBlock` and the
    `get`/`setStateInformation` pair.
  - The file also holds the save/restore laws.
- `Preset` (`preset.dfy`): `PresetData`, `saveToFile` and `loadFromFile`, with the
  round trip.
- `PluginEditor` (`plugin_editor.dfy`): the `Editor` class.
  - It holds the morph handler, preset loading, next/previous and savePreset.
  - The file also holds the interpolation and index laws.

The getters `getHarm1Data`, `getHarm2Data` and `getComboData` are the functions
`Harm1Data`, `Harm2Data` and `ComboData`. They read the fields and cannot change
anything. `ProcessBlock` may modify only the MIDI buffer, so it leaves the three arrays
unchanged.

Four facts about the code shape the model:

- `setHarmonicData` stores the arrays verbatim, with no clamping to 0..1 and no length
  check.
- The constructor fills the three arrays with zeros.
- The velocity of a synthesized note-on is truncated towards zero, not rounded.
- The combo array is written only by the morph handler and by preset loading. It is not
  kept equal to the interpolation of the two tables at all times, see `Editor.ApplyPreset`.

`Processor.GetStateInformation` saves as the code does, copying every child of the
parameter tree. `StateDocument` is the corrected save of the first finding below. The
save/restore laws are stated for the corrected save, and for the save as written while the
parameter tree holds no `HarmonicData` child, as after construction.

Rounding of `12 log2 r` has no ties for integer ratios. A half-integer would need
`r^24 = 2^(2s+1)`, which no integer `r` satisfies. `SemitonesRounds` states the window
with the upper bound open.

## Model

| member | source | states |
|---|---|---|
| `Harmonics.SemitonesRounds` | source/PluginProcessor.cpp:138-139 | the offset `s = Semitones(r)` is the nearest integer to `12 log2 r`: `2^(2s) <= 2 r^24 < 2^(2s+2)` |
| `Harmonics.SemitonesUnique` | source/PluginProcessor.cpp:138-139 | exactly one integer lies within half a semitone of `12 log2 r`, so the rounding is well defined |
| `Harmonics.SemitoneTableCorrect` | source/PluginProcessor.cpp:164-167 | for the harmonic indices 0..7 (ratios 2..9) the offset is 12, 19, 24, 28, 31, 34, 36, 38 |
| `Harmonics.HarmonicOffsetRounds` | source/PluginProcessor.cpp:166-167 | the table-based offset of every harmonic index `i` equals `ratioToSemitones(i + 2)` |
| `Harmonics.TruncTowardsZero` | source/PluginProcessor.cpp:170 | `static_cast<int>` gives the integer next to the value on the side of zero |
| `Harmonics.Clamp` | source/PluginProcessor.cpp:169-170 | `jlimit(lo, hi, v)` lies in `lo..hi`, is `v` inside the range, `lo` below it and `hi` above it |
| `Harmonics.HarmonicVelocity` | source/PluginProcessor.cpp:169-170 | the velocity of a synthesized note-on is always in 1..127 |
| `Midi.AddEvent` | source/PluginProcessor.cpp:154 | `addEvent` keeps every stored event and adds the new one (as multisets) |
| `Midi.AddEventSorted` | source/PluginProcessor.cpp:142-144 | `addEvent` keeps a buffer ordered by sample position |
| `Midi.AddEventAppends` | source/PluginProcessor.cpp:174-178 | adding an event no earlier than every stored one appends it, and the result still holds no later event |
| `Expansion.ExpandBlock` | source/PluginProcessor.cpp:142-205 | the loop over a time-ordered block builds exactly the concatenation of each event's expansion, in input order |
| `Expansion.ExpandOne` | source/PluginProcessor.cpp:144-204 | one iteration appends the event followed by its companions |
| `Expansion.AddNoteOnCompanions` | source/PluginProcessor.cpp:159-181 | the strength loop appends the note-on companions of all sounding indices in increasing index order |
| `Expansion.AddNoteOnCompanion` | source/PluginProcessor.cpp:161-180 | one turn of the strength loop appends the note-on of harmonic `i` exactly when it sounds, and leaves the buffer unchanged otherwise |
| `Expansion.RatioNote` | source/PluginProcessor.cpp:166-167 | `baseNote + ratioToSemitones(i + 2)` is the base note plus the table offset of index `i` |
| `Expansion.AddNoteOffCompanions` | source/PluginProcessor.cpp:189-199 | the note-off loop appends a note-off for every index 0..7 whose note fits, in index order |
| `Expansion.AddNoteOffCompanion` | source/PluginProcessor.cpp:191-198 | one turn of the note-off loop appends the note-off of harmonic `i` exactly when its note fits, and leaves the buffer unchanged otherwise |
| `Expansion.SoundingIndicesSpec` | source/PluginProcessor.cpp:159-172 | the sounding indices are strictly increasing and are exactly the indices with positive strength whose note fits |
| `Expansion.SoundingIndicesCount` | source/PluginProcessor.cpp:159-172 | there are as many sounding indices as elements in that set of indices |
| `Expansion.ReleasedIndicesSpec` | source/PluginProcessor.cpp:189-193 | the released indices are strictly increasing and are exactly the indices whose note fits |
| `Expansion.ReleasedIndicesCount` | source/PluginProcessor.cpp:189-193 | there are as many released indices as elements in that set of indices |
| `Expansion.NoteOnCompanionsAt` | source/PluginProcessor.cpp:174-178 | the k-th note-on companion is the note-on of the k-th sounding index |
| `Expansion.NoteOffCompanionsAt` | source/PluginProcessor.cpp:195-197 | the k-th note-off companion is the note-off of the k-th released index |
| `Expansion.ExpandEventShape` | source/PluginProcessor.cpp:144-204 | the original event comes first, every companion has its position, kind and channel, and any other message is emitted alone and unchanged |
| `Expansion.SoundsIff` | source/PluginProcessor.cpp:162-172 | an index sounds exactly when its strength is positive and `n + round(12 log2(i + 2)) <= 127` |
| `Expansion.NoteOnCount` | source/PluginProcessor.cpp:154-181 | a note-on yields `1 + #{i < |combo| : combo[i] > 0 and n + round(12 log2(i + 2)) <= 127}` events |
| `Expansion.NoteOnIndices` | source/PluginProcessor.cpp:159-172 | the companions' indices increase and an index is used exactly when its strength is positive and its note fits |
| `Expansion.NoteOnCompanion` | source/PluginProcessor.cpp:166-178 | the k-th companion is a note-on on the same channel and position at `n + round(12 log2(i + 2)) <= 127` with velocity `jlimit(1, 127, trunc(v * combo[i]))` in 1..127 |
| `Expansion.SilentComboAddsNothing` | source/PluginProcessor.cpp:159-163 | with no positive strength a note-on is emitted alone |
| `Expansion.NoteOffIgnoresStrengths` | source/PluginProcessor.cpp:183-200 | a note-off expands the same way whatever the strengths |
| `Expansion.NoteOffCount` | source/PluginProcessor.cpp:189-199 | whatever the strengths, a note-off yields `1 + #{i < 8 : n + table[i] <= 127}` events |
| `Expansion.NoteOffIndices` | source/PluginProcessor.cpp:189-193 | the released indices increase and an index below 8 is used exactly when `n + table[i] <= 127` |
| `Expansion.NoteOffCompanion` | source/PluginProcessor.cpp:191-197 | the k-th companion is a velocity-0 note-off on the same channel and position at `n + round(12 log2(i + 2)) <= 127` |
| `Expansion.NoteOffReleasesAll` | source/PluginProcessor.cpp:189-199 | a note-off on a note up to 89 is followed by exactly the eight note-offs `n + 12`, ..., `n + 38` |
| `Expansion.ExpandAllAppend` | source/PluginProcessor.cpp:144-205 | the expansion of a concatenated block is the concatenation of the expansions |
| `Expansion.ExpandAllAt` | source/PluginProcessor.cpp:144-205 | every input event appears unchanged, after the output of the events before it and before the output of the events after it |
| `Expansion.ExpandAllTimes` | source/PluginProcessor.cpp:147-203 | if every event of the block is at or before `t`, so is every event of its expansion (that each companion has its original's position is `ExpandEventShape`) |
| `Expansion.ExpandAllSorted` | source/PluginProcessor.cpp:142-207 | the expansion of a time-ordered block is time-ordered |
| `Expansion.OctaveExample` | source/PluginProcessor.cpp:159-179 | note-on 60 at velocity 100 with only the second harmonic at strength 1 gives itself and note-on 72 at velocity 100 |
| `Juce.ArraySet` | source/PluginProcessor.cpp:271 | `Array::set` overwrites only index `i` inside the array, appends at or past its end, and ignores a negative index |
| `Juce.Resize` | source/PluginProcessor.cpp:16-18 | `Array::resize(n)` gives `n` elements, keeps the existing ones below `n`, and fills new ones with 0 |
| `Juce.FirstMatch` | source/PluginProcessor.cpp:267 | the child lookup stops at the first child whose tag matches, and no earlier child matches |
| `Juce.DecimalStringInjective` | source/PluginProcessor.cpp:237 | `String(i)` of distinct non-negative integers differ |
| `HarmonicKeys.KeyNameInjective` | source/PluginProcessor.cpp:237 | the keys `"h" + String(i)` of distinct indices differ |
| `HarmonicKeys.SectionProps` | source/PluginProcessor.cpp:235-237 | a stored section holds every element of the array under its key, and no other key |
| `HarmonicKeys.WriteSection` | source/PluginProcessor.cpp:235-238 | the `setAttribute` loop builds exactly that section |
| `HarmonicKeys.SectionPropsRead` | source/PluginProcessor.cpp:271 | reading key `h<i>` of a stored section with default 0 gives `array[i]`, or 0 past its end |
| `PluginProcessor.Processor.constructor` | source/PluginProcessor.cpp:16-26 | after construction all three arrays are eight zeros |
| `PluginProcessor.Processor.SetHarmonicData` | source/PluginProcessor.h:45-55 | the arrays are stored verbatim, afterwards the getters return them, and nothing else changes |
| `PluginProcessor.Processor.ProcessBlock` | source/PluginProcessor.cpp:134-207 | the buffer afterwards holds exactly the expansion of its old events, stays time-ordered, and the processor is not written |
| `PluginProcessor.Processor.GetStateInformation` | source/PluginProcessor.cpp:226-255 | the saved document is a copy of the parameter tree with all its children, including any `HarmonicData` child a restore left there, followed by a new `HarmonicData` child holding the arrays as `Harm1`, `Harm2` and `Combo` |
| `PluginProcessor.Processor.SetStateInformation` | source/PluginProcessor.cpp:257-283 | the new state is the restore of the old state, see `Restored` and the lemmas below |
| `PluginProcessor.RestoreSection` | source/PluginProcessor.cpp:269-271 | the `set` loop writes eight values read with default 0, growing a shorter array to eight and keeping elements past eight |
| `PluginProcessor.WithoutHarmonicData` | source/PluginProcessor.cpp:252-253 | corrected half of the finding at these lines: the corrected save keeps exactly the children that are not `HarmonicData` elements |
| `PluginProcessor.WithoutHarmonicDataAppend` | source/PluginProcessor.cpp:252-253 | the corrected save's filter distributes over concatenation, so the kept children stay in their original order |
| `PluginProcessor.AsWrittenIsCorrectedSave` | source/PluginProcessor.cpp:226-255 | while the parameter tree holds no `HarmonicData` child, the save as written is the corrected save |
| `PluginProcessor.RestoredSectionReads` | source/PluginProcessor.cpp:269-279 | restoring from a saved section reads back its first eight values, zero past its end |
| `PluginProcessor.HarmonicSectionsFound` | source/PluginProcessor.cpp:269-279 | `getChildByName` finds `Harm1`, `Harm2` and `Combo` in a saved `HarmonicData` element |
| `PluginProcessor.RestoreFromFirstHarmonicData` | source/PluginProcessor.cpp:262-279 | a document of the right type replaces the parameter tree, and the arrays come from its first `HarmonicData` child |
| `PluginProcessor.StateRoundTrip` | source/PluginProcessor.cpp:226-283 | with the corrected save, restoring a saved state into any processor of the same parameter type reads back each array's first eight values and keeps the target's elements past eight |
| `PluginProcessor.StateRoundTripExact` | source/PluginProcessor.cpp:226-283 | with the corrected save, arrays of eight values come back exactly |
| `PluginProcessor.RestoreOwnState` | source/PluginProcessor.cpp:226-283 | with the corrected save, a processor restoring its own save keeps its arrays, only padding shorter ones with zeros to eight |
| `PluginProcessor.StateRoundTripAsWritten` | source/PluginProcessor.cpp:226-283 | with the save as written and no `HarmonicData` child in the saving processor's parameter tree, a restore into any processor of the same parameter type reads back each array's first eight values and keeps the target's elements past eight |
| `PluginProcessor.RestoreOwnStateAsWritten` | source/PluginProcessor.cpp:226-283 | with the save as written and no `HarmonicData` child in the parameter tree, a processor restoring its own save keeps its arrays padded to eight, and its parameter tree then holds a `HarmonicData` child |
| `PluginProcessor.StaleHarmonicDataAsWritten` | source/PluginProcessor.cpp:252-267 | as written, a restore after a save reads the oldest `HarmonicData` element left in the parameter tree |
| `PluginProcessor.StaleSessionExample` | source/PluginProcessor.cpp:252-267 | as written, restore, edit, save and restore returns the pre-edit arrays; the corrected save returns the edited ones |
| `Preset.SaveToFile` | source/Preset.h:12-40 | the saved tree is `PRESET` with property `morphValue` and children `HARM1`, `HARM2`, `COMBO`, one key per array element |
| `Preset.SectionValues` | source/Preset.h:53-57 | a present section always loads exactly eight values |
| `Preset.ReadSection` | source/Preset.h:53-57 | the `add` loop yields the eight values of keys `h0`..`h7`, each 0 when missing |
| `Preset.LoadFromFile` | source/Preset.h:42-84 | with the corrected load (morph value 0 for a file that does not parse), the loaded record is the arrays of the present sections, empty for absent ones, and `morphValue` defaulting to 0 |
| `Preset.SavedKeys` | source/Preset.h:17-32 | `saveToFile` writes key `hK` for every K below each array's size and nothing else, and `morphValue` alone on the preset |
| `Preset.SavedSectionsFound` | source/Preset.h:50-70 | `getChildWithName` finds the three saved sections |
| `Preset.SectionValuesOfSaved` | source/Preset.h:17-19 | a saved section loads back as the array resized to eight |
| `Preset.PresetRoundTrip` | source/Preset.h:12-84 | saving and loading any record gives its morph value and its arrays resized to eight |
| `Preset.PresetRoundTripExact` | source/Preset.h:12-84 | a record with arrays of eight values comes back unchanged |
| `Preset.LoadedShape` | source/Preset.h:44-81 | each loaded array has eight values when its section is present and none otherwise; a missing `morphValue` loads as 0 |
| `Preset.UnparsedMorphAsWritten` | source/Preset.h:44-46 | as written, the morph value of an unparsable file is whatever the uninitialised member held; the corrected load gives 0 |
| `Preset.LoadAgreesWhenParsed` | source/Preset.h:46-81 | the corrected load equals the source's whenever the file parses |
| `PluginEditor.Editor.constructor` | source/PluginEditor.h:48 | the browser index starts at -1 |
| `PluginEditor.Editor.OnMorphValueChange` | source/PluginEditor.cpp:27-36 | the combo holds `v1 * (1 - m) + v2 * m` at indices 0..7, and nothing else changes |
| `PluginEditor.MorphEndpoints` | source/PluginEditor.cpp:27-36 | at m = 0 the first eight combo values are harm1's, and at m = 1 they are harm2's |
| `PluginEditor.MorphEndpointsExact` | source/PluginEditor.cpp:27-36 | for eight-value tables the ends of the slider give exactly harm1 and harm2 |
| `PluginEditor.InterpolateBetween` | source/PluginEditor.cpp:33 | for m in 0..1 the interpolated value lies between the two table values |
| `PluginEditor.MorphedBetween` | source/PluginEditor.cpp:29-34 | every morphed combo value lies between harm1's and harm2's values |
| `PluginEditor.CppRem` | source/PluginEditor.cpp:244 | C++ `%` on int takes the sign of the dividend and is smaller than the divisor in magnitude |
| `PluginEditor.SliderValue` | source/PluginEditor.cpp:267 | the slider value lies in the Morph range 0..1: a value inside is kept, one below 0 gives 0 and one above 1 gives 1 |
| `PluginEditor.Editor.ApplyPreset` | source/PluginEditor.cpp:264-267 | the tables take the loaded arrays, and the combo is re-morphed only when the slider value changes |
| `PluginEditor.Editor.LoadPreset` | source/PluginEditor.cpp:211-225 | with the corrected load, a chosen file is loaded and applied: the tables take its arrays, the slider its limited morph value, and the combo its array, re-morphed when the slider moved; no choice changes nothing |
| `PluginEditor.Editor.LoadPresetAtIndex` | source/PluginEditor.cpp:257-268 | with the corrected load, for an index in `0..n-1` the preset is applied with the tables, slider and combo as for `LoadPreset`; any other index changes nothing |
| `PluginEditor.Editor.LoadNextPreset` | source/PluginEditor.cpp:240-246 | with the corrected load: with no presets nothing changes, otherwise the index becomes `(old + 1) % n` and that preset is applied: tables, slider and combo |
| `PluginEditor.Editor.LoadPrevPreset` | source/PluginEditor.cpp:248-255 | with the corrected load: with no presets nothing changes, otherwise the index decrements and wraps below 0 to `n - 1`; a new index in the list applies that preset, tables, slider and combo, and a new index at or past the end of a shortened list changes nothing else |
| `PluginEditor.Editor.UpdatePresetList` | source/PluginEditor.cpp:233-238 | the list is replaced and the browser index is left as it was |
| `PluginEditor.Editor.SavePreset` | source/PluginEditor.cpp:172-195 | an empty name or a cancelled dialog saves nothing, otherwise the current tables and morph are saved under the normalised name |
| `PluginEditor.NextIndexInRange` | source/PluginEditor.cpp:244 | from any index of at least -1, next lands in `0..n-1` and wraps from the last to the first |
| `PluginEditor.PrevIndexInRange` | source/PluginEditor.cpp:252-253 | from -1 up to n, previous lands in `0..n-1` |
| `PluginEditor.NextThenPrev` | source/PluginEditor.cpp:240-255 | on every position of the list, previous undoes next and next undoes previous |
| `PluginEditor.NormalisedNameProperties` | source/PluginEditor.cpp:178-180 | the saved name ends with `.preset` ignoring case, is unchanged if it already did, and normalising is idempotent |

## Left out

- Floating point: values are reals.
  - The model does not capture float rounding in `v1 * (1 - m) + v2 * m`, in
    `baseVelocity * harmonicStrength`, or in the `double` to `float` casts of the restore.
  - It does not capture the conversion of values to and from XML text.
  - It does not capture NaN or infinite strengths.
- `std::log2` and `std::round` are replaced by the exact integer definition of the nearest
  integer to `12 log2 r`. The floating-point evaluation is taken to agree with it for
  the ratios used, as the table lemma shows for 2..9.
- Harmonics.HarmonicVelocity: the `int` cast of `baseVelocity * harmonicStrength` is modelled
  as exact truncation. A product outside the `int` range is undefined behaviour in C++, so
  the model is exact only while `|velocity * strength| < 2^31`. Nothing in the processor
  bounds the strengths: `setHarmonicData` and `setStateInformation` store any value.
- Expansion: the velocity-0 note-on that JUCE classes as a note-off is taken as an already
  classified `NoteOff` event. The byte-level MIDI encoding and `uint8_t` casts are not
  modelled.
- Audio buffer clearing, bus layouts, program and plugin metadata calls, and
  `createParameterLayout` are not modelled.
- The Morph parameter inside the APVTS tree is not modelled.
  - The processor's parameter tree starts with no children.
  - The slider attachment is reduced to the slider range 0..1 in `SliderValue`.
- `copyXmlToBinary` / `getXmlFromBinary`, XML parsing and file reading and writing are
  abstracted.
  - A saved document is a `Tree`.
  - A stored blob or file is `Option<Tree>`, with `None` for data that does not parse.
  - Property values are numbers only.
- Non-ASCII case folding in `equalsIgnoreCase` / `endsWithIgnoreCase` is not modelled;
  only ASCII letters are folded.
- `updatePresetList` lists and sorts a directory. Its result is a parameter: the parsed
  content of each file, in the sorted order.
- The file chooser, the alert window and all painting and layout are GUI toolkit calls.
  - They become plain parameters: the chosen file, the dialog result, the typed name.
- `Harm` widget: `source/Harm.h` declares an unrelated table component.
  - The `getValue`, `setValue`, `setHarmonicData`, `getHarmonicData` and `numValues`
    members the editor calls are not part of this model.
  - The editor models the widget's values as `juce::Array<float>` with `numValues = 8`,
    stored verbatim by `setHarmonicData`.
- `Slider::setValue` sends its notification asynchronously. The model runs the morph
  handler at once, and only when the value changed.
- Concurrency between the audio thread, which reads `comboData`, and the message
  thread is not modelled.
- Idempotence of `setHarmonicData` has no lemma of its own. Its `ensures` determines the
  whole new state from the arguments and the untouched parameter tree, so a second call
  with the same arguments changes nothing.

## Findings

| source | as written | input that shows it | evidently intended | confidence | as-written member | corrected member |
|---|---|---|---|---|---|---|
| source/PluginProcessor.cpp:252-253 | `getStateInformation` appends a new `HarmonicData` element to a copy of the whole parameter tree. After `setStateInformation`, line 264 has already put the restored `HarmonicData` element into that tree. The next save therefore holds two such elements, and the restore at line 267 reads the first, stale one | restore a session saved with arrays `a`, call `setHarmonicData(b, b, b)`, then save and restore: the arrays come back as `a` | each save holds only the current arrays, and a restore reads them back | high (not executed) | `PluginProcessor.StaleSessionExample` | `PluginProcessor.StateRoundTrip` |
| source/Preset.h:44-46 | `PresetData data;` leaves the float `morphValue` uninitialised. It is assigned only when the file parses, so for an unparsable file `loadFromFile` returns, and the editor applies, an indeterminate morph value | a preset file whose content is not XML | the morph value of a record loaded from an unparsable file is 0, like a missing `morphValue` key | high (not executed) | `Preset.UnparsedMorphAsWritten` | `Preset.LoadFromFile` |
