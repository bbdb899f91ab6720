# Ableton-style session view: a verified model of its view logic

The application is a browser mock-up of a clip-launching digital audio
workstation. It has no audio or timing engine. Its behaviour lives in a
few small state machines and mapping functions inside the view
components:

- a **session grid** of eight tracks by eight scenes, whose slots hold
  clips that are created on first click and started or stopped on later
  clicks, with a global play/record/stop transport and a tempo field;
- a **device rack**, shown while a track is selected: an ordered chain
  of instrument and effect devices that can be added from a browser,
  removed, folded and re-parameterised;
- a **rotary knob** that turns vertical mouse drags into a bounded value
  on a step grid and draws it as a pointer angle;
- a **piano roll** that lays out twenty demo notes over a 25-key column;
- the **track header** (type badge, volume fader, pan readout) and the
  **clip slot** face.

One Dafny module models each of these files:

| module | file |
|---|---|
| `Knob` | `src/components/ui/Knob.tsx` |
| `DeviceRack` | `src/components/DeviceRack.tsx` |
| `SessionView` | `src/components/SessionView.tsx` |
| `ClipSlot` | `src/components/ClipSlot.tsx` |
| `TrackHeader` | `src/components/TrackHeader.tsx` |
| `Transport` | `src/components/Transport.tsx` |
| `PianoRoll` | `src/components/PianoRoll.tsx` |

Three helper modules support them:

- `Options` is the optional-value type.
- `Text` holds the decimal form that template literals give integers, and ASCII upper-casing.
- `Numeric` holds the clamp, `Math.round`, and facts about real division.

Components whose handlers change state step by step are classes:

- `Knob.Knob` holds `isDragging` and the `lastY` ref.
- `DeviceRack.Rack` holds `devices` and `showBrowser`.
- `SessionView.SessionView` holds the clips map, the selections, the flags and the tempo.

Each of their methods is tied by its `ensures` to a pure function of the old state. The properties are proved about those functions.

JavaScript numbers are modelled as mathematical reals, except a track's volume and pan, which are integers (see "## Left out"). `Math.round(x)` is `Floor(x + 1/2)`.

The piano roll in the code has no editing at all. There are no draw, select or erase tools, and no quantize, zoom or selection set. The "Quantize", "Velocity" and "Length" footer texts are fixed labels. The model therefore covers only layout.

## Model

| member | source | states |
|---|---|---|
| Numeric.Clamp | src/components/ui/Knob.tsx:49 | `Math.max(lo, Math.min(hi, x))` lies in [lo, hi] when lo <= hi, returns x unchanged inside the range, lo below it and hi above it |
| Numeric.ClampIdempotent | src/components/ui/Knob.tsx:49 | clamping a clamped value changes nothing |
| Numeric.ClampMonotone | src/components/ui/Knob.tsx:49 | the clamp never reverses the order of two inputs |
| Numeric.Round | src/components/ui/Knob.tsx:50 | `Math.round(x)` is an integer within half of x, halves rounding up |
| Numeric.RoundInteger | src/components/ui/Knob.tsx:50 | rounding an integer gives it back |
| Numeric.RoundShift | src/components/ui/Knob.tsx:50 | rounding commutes with adding a whole number |
| Knob.Change | src/components/ui/Knob.tsx:45-47 | the pre-clamp change times 200 equals pixel distance moved up times (max - min); moving up never gives a negative change when min <= max |
| Knob.Stepped | src/components/ui/Knob.tsx:50 | the stepped value is a whole number of steps and lies within half a step of its input |
| Knob.SteppedWithin | src/components/ui/Knob.tsx:49-50 | rounding after clamping stays in [min, max] when min and max are whole numbers of steps |
| Knob.DragValue | src/components/ui/Knob.tsx:45-50 | the emitted value is on the step grid, within half a step of the clamped value, and in [min, max] when both bounds are on the grid |
| Knob.StillPointerKeepsValue | src/components/ui/Knob.tsx:45-50 | a move with no vertical change re-emits an in-range on-grid value unchanged |
| Knob.DragFromGrid | src/components/ui/Knob.tsx:45-50 | from an on-grid value, a move that stays inside the bounds changes the emitted value by exactly the pixel change rounded to the step |
| Knob.SteppedShift | src/components/ui/Knob.tsx:50 | rounding to the step commutes with adding a value that is already on the grid |
| Knob.DragIsLinear | src/components/ui/Knob.tsx:45-50 | away from the bounds, the same pixel distance moves every on-grid value by the same emitted amount |
| Knob.Gesture | src/components/ui/Knob.tsx:42-54 | after any non-empty sequence of moves, with each emitted value written back, the value is in [min, max] and on the step grid when the bounds are on the grid |
| Knob.Rotation | src/components/ui/Knob.tsx:33-34 | min maps to -150 degrees and max to +150; for min < max, values in range give angles in [-150, 150] |
| Knob.RotationBounds | src/components/ui/Knob.tsx:33 | the normalised value is 0 at min, 1 at max and between 0 and 1 in range |
| Knob.RotationLinear | src/components/ui/Knob.tsx:33-34 | the angle is linear in the value: moving the value by d turns the pointer by 300·d / (max - min) degrees |
| Knob.RotationMidpoint | src/components/ui/Knob.tsx:33-34 | the middle of the range maps to 0 degrees |
| Knob.RotationMonotone | src/components/ui/Knob.tsx:33-34 | a larger value never gives a smaller angle |
| Knob.Knob.constructor | src/components/ui/Knob.tsx:23-25 | a knob starts not dragging with lastY 0 |
| Knob.Knob.MouseDown | src/components/ui/Knob.tsx:36-40 | mouse-down enters dragging and records lastY = clientY, emitting nothing |
| Knob.Knob.MouseMove | src/components/ui/Knob.tsx:42-54 | outside a drag it emits nothing and keeps lastY; during a drag it emits `DragValue` measured from the previous lastY and sets lastY to this event's clientY |
| Knob.Knob.MouseUp | src/components/ui/Knob.tsx:56-58 | mouse-up leaves the dragging state and keeps lastY, so repeating it changes nothing |
| Knob.DeviceRangesOnGrid | src/components/devices/Operator.tsx:33-150 | every knob range of the device panels has bounds on its step grid: Operator ratio 0.125..16 by 0.125 and LFO rate 0.1..20 by 0.1, frequency 20..2000, Sampler tune -24..24 and length 1..100 (src/components/devices/Sampler.tsx:75-76, 109-110), and the 0..100 knobs of every panel, all by the default step 1 |
| DeviceRack.DeviceName | src/components/DeviceRack.tsx:182-193 | every one of the seven categories has a non-empty name |
| DeviceRack.CategoryKey | src/components/DeviceRack.tsx:32 | the category spelling that starts a new device id is non-empty and holds no dash, so the id's first dash ends it |
| DeviceRack.DeviceNamesDistinct | src/components/DeviceRack.tsx:182-193 | two categories share a name exactly when they are the same category |
| DeviceRack.DeviceTypeOf | src/components/DeviceRack.tsx:195-198 | a category is an instrument exactly when it is synth, drum or sampler |
| DeviceRack.BrowserAgreesWithTables | src/components/DeviceBrowser.tsx:11-22 | the browser lists a category under instruments exactly when `getDeviceType` calls it one, otherwise under effects, always with the `getDeviceName` name |
| DeviceRack.DefaultParameters | src/components/DeviceRack.tsx:200-212 | synth, drum, sampler and reverb get exactly four parameters; delay, EQ and compressor get none |
| DeviceRack.NewDevice | src/components/DeviceRack.tsx:31-38 | a new device is expanded, has the requested category, the id `category-stamp`, and the name, type and parameters of the three tables |
| DeviceRack.PanelOf | src/components/DeviceRack.tsx:64-97 | a folded device shows no panel; an expanded synth, drum, sampler or reverb shows the Operator, Drum Rack, Sampler or Reverb panel; an expanded one shows "not implemented" exactly when its category has no default parameters (delay, EQ, compressor) |
| DeviceRack.Without | src/components/DeviceRack.tsx:46 | removal keeps exactly the devices whose id differs, never grows the chain, and leaves it unchanged when no device has the id |
| DeviceRack.WithoutAppend | src/components/DeviceRack.tsx:46 | removal filters each part of a concatenation in place, so the survivors keep their order |
| DeviceRack.WithoutIdempotent | src/components/DeviceRack.tsx:46 | removing an id twice is removing it once |
| DeviceRack.ToggleExpanded | src/components/DeviceRack.tsx:51-53 | toggling keeps the length, changes no field but `isExpanded`, and flips it exactly on the devices with the id |
| DeviceRack.ToggleTwice | src/components/DeviceRack.tsx:51-53 | toggling the same id twice restores the chain |
| DeviceRack.SetParameter | src/components/DeviceRack.tsx:57-61 | a parameter change keeps the length and all other devices; on the matching device it adds the key, sets it to the value and keeps every other field and key |
| DeviceRack.SetParameterLastWins | src/components/DeviceRack.tsx:57-61 | setting the same parameter twice keeps only the second value |
| DeviceRack.Rack.constructor | src/components/DeviceRack.tsx:27-28 | a rack starts empty with the browser closed |
| DeviceRack.Rack.OpenBrowser | src/components/DeviceRack.tsx:107 | the "+" button opens the browser and keeps the chain |
| DeviceRack.Rack.CloseBrowser | src/components/DeviceRack.tsx:175 | the browser's close button closes it and keeps the chain |
| DeviceRack.Rack.Add | src/components/DeviceRack.tsx:30-43 | adding appends exactly the new device at the end, keeps the earlier ones in order, returns the device reported to the host, and closes the browser |
| DeviceRack.Rack.Remove | src/components/DeviceRack.tsx:45-48 | the chain becomes `Without` of the old chain; the browser flag is kept |
| DeviceRack.Rack.Toggle | src/components/DeviceRack.tsx:50-54 | the chain becomes `ToggleExpanded` of the old chain; the browser flag is kept |
| DeviceRack.Rack.ChangeParameter | src/components/DeviceRack.tsx:56-62 | the chain becomes `SetParameter` of the old chain; the browser flag is kept |
| Transport.ClampTempo | src/components/Transport.tsx:87 | the tempo lies in [60, 200], an input in range passes through, below 60 gives 60 and above 200 gives 200 |
| Transport.ClampTempoIdempotent | src/components/Transport.tsx:87 | clamping an accepted tempo again changes nothing |
| Transport.ClampTempoMonotone | src/components/Transport.tsx:87 | a larger input never gives a smaller tempo |
| SessionView.InitialTracks | src/components/SessionView.tsx:30-41 | the start-up table has eight tracks |
| SessionView.TrackId | src/components/SessionView.tsx:32 | a track id is the prefix `track-` followed by the decimal index |
| SessionView.InitialTracksShape | src/components/SessionView.tsx:30-41 | track i has id `TrackId(i)`, that is `track-${i}`, and the ids are distinct; tracks 0-3 are MIDI named "MIDI 1".."MIDI 4", tracks 4-7 audio named "Audio 1".."Audio 4"; all have volume 75, pan 0 and no flag set |
| SessionView.FindTrack | src/components/SessionView.tsx:66 | the lookup returns the first track of the table with that id (no earlier track has it), and finds none exactly when no track has the id |
| SessionView.FindTrackAt | src/components/SessionView.tsx:66 | with distinct ids, looking up a track's id finds that very track |
| SessionView.ClipId | src/components/SessionView.tsx:53 | a slot key is the track id, a dash, then the decimal scene index |
| SessionView.SplitAtDash | src/components/SessionView.tsx:53 | a digit string, a dash and a tail split back into the same two parts |
| SessionView.DashBeforeDigit | src/components/SessionView.tsx:53 | joins whose digit prefixes differ in length differ |
| SessionView.SlotKeysDistinct | src/components/SessionView.tsx:53 | the slot key `track-i-j` determines both the track and the scene |
| SessionView.NewClip | src/components/SessionView.tsx:70-76 | a created clip has the slot key as id, the name "<track name> Clip <scene + 1>", the track's type, the drawn colour, and is neither playing nor recording |
| SessionView.TogglePlaying | src/components/SessionView.tsx:57-63 | only the clicked clip changes, and only in its play flag, which flips |
| SessionView.ClickClip | src/components/SessionView.tsx:52-81 | clicks never remove clips; an existing clip toggles playback and keeps the selection; an empty slot of a known track gets exactly `NewClip` of the first track with that id (name, type, colour, not playing), which becomes selected; an unknown track changes nothing; other slots and all other fields are unchanged |
| SessionView.ClickClipTwice | src/components/SessionView.tsx:55-63 | two clicks on an existing clip restore the session |
| SessionView.ClickLeavesOtherSlots | src/components/SessionView.tsx:52-81 | a click on one grid slot leaves every other slot's clip as it was |
| SessionView.NewClipOpensPianoRoll | src/components/SessionView.tsx:163 | a first click on a start-up track's empty slot shows the piano roll exactly when the track is MIDI |
| SessionView.SelectTrack | src/components/SessionView.tsx:84 | selecting the selected track clears the selection and any other track becomes selected; nothing else changes |
| SessionView.SelectTrackTwice | src/components/SessionView.tsx:84 | from no selection or from that track, selecting a track twice returns to the start |
| SessionView.SelectTrackShowsRack | src/components/SessionView.tsx:83-156 | a track click shows the device rack, for that track, unless that track was already selected, in which case the rack goes away |
| SessionView.Play | src/components/SessionView.tsx:87 | play flips the global play flag and nothing else |
| SessionView.Record | src/components/SessionView.tsx:96 | record flips the global record flag and nothing else |
| SessionView.StopAll | src/components/SessionView.tsx:90-94 | stop keeps every clip key and clears each clip's play flag, changing no other field |
| SessionView.Stop | src/components/SessionView.tsx:88-95 | stop clears the global play flag and every clip's, and nothing else |
| SessionView.StopIdempotent | src/components/SessionView.tsx:88-95 | stopping twice is stopping once |
| SessionView.SetTempo | src/components/SessionView.tsx:108 | the tempo handler stores exactly `ClampTempo` of the input, which lies in [60, 200], and changes nothing else |
| SessionView.ClosePianoRoll | src/components/SessionView.tsx:166 | closing the piano roll clears the selected clip and hides the roll, and nothing else |
| SessionView.PianoRollVisible | src/components/SessionView.tsx:163 | the piano roll is drawn exactly when the selected clip exists and is MIDI |
| SessionView.DeviceRackVisible | src/components/SessionView.tsx:152 | the device rack is drawn exactly when a track is selected |
| SessionView.SessionView.constructor | src/components/SessionView.tsx:30-48 | the view starts with the start-up tracks, no clips, no selection, stopped, not recording, at 120 BPM |
| SessionView.SessionView.HandleClipClick | src/components/SessionView.tsx:52-81 | the new state is `ClickClip` of the old one |
| SessionView.SessionView.HandleTrackSelect | src/components/SessionView.tsx:83-85 | the new state is `SelectTrack` of the old one |
| SessionView.SessionView.HandlePlay | src/components/SessionView.tsx:87 | the new state is `Play` of the old one |
| SessionView.SessionView.HandleStop | src/components/SessionView.tsx:88-95 | the new state is `Stop` of the old one |
| SessionView.SessionView.HandleRecord | src/components/SessionView.tsx:96 | the new state is `Record` of the old one |
| SessionView.SessionView.HandleTempoChange | src/components/SessionView.tsx:108 | the new state is `SetTempo` of the old one |
| SessionView.SessionView.HandlePianoRollClose | src/components/SessionView.tsx:166 | the new state is `ClosePianoRoll` of the old one |
| TrackHeader.TypeBadge | src/components/TrackHeader.tsx:20 | the upper-cased type is "MIDI" for MIDI tracks and "AUDIO" for audio tracks |
| TrackHeader.TypeName | src/components/TrackHeader.tsx:20 | the type is spelt in lower-case letters only, so upper-casing changes every letter |
| TrackHeader.PanLabel | src/components/TrackHeader.tsx:87 | the readout is "C" exactly at pan 0; a right pan reads "R" followed by `Show(pan)` and a left pan "L" followed by `Show(-pan)`, so the digits have no leading zero and read back as the distance from centre |
| TrackHeader.PanLabelMirror | src/components/TrackHeader.tsx:87 | the readouts of p and -p differ only in the side letter |
| TrackHeader.PanLabelInjective | src/components/TrackHeader.tsx:87 | different pans never share a readout |
| TrackHeader.Fader | src/components/TrackHeader.tsx:74-78 | fill height and handle offset both equal the volume percentage, within 0..100 when the volume is |
| ClipSlot.SlotClip | src/components/SessionView.tsx:141 | a slot receives a clip exactly when its key is in the clips map, and then that clip |
| ClipSlot.IsEmpty | src/components/ClipSlot.tsx:11 | a slot is empty exactly when it has no clip |
| ClipSlot.ShowsPlaying | src/components/ClipSlot.tsx:12 | a slot shows as playing exactly when it has a clip that is playing and the transport plays |
| ClipSlot.ShowsRecording | src/components/ClipSlot.tsx:13 | a slot shows as recording exactly when it has a clip that is recording |
| ClipSlot.FaceOf | src/components/ClipSlot.tsx:11-55 | a slot shows the dot exactly when empty; otherwise the clip's name and upper-cased type, a recording dot exactly when recording, and the stop icon and pulse exactly when the clip plays while the transport plays |
| ClipSlot.EmptySlotNeverPlays | src/components/ClipSlot.tsx:11-12 | an empty slot never shows as playing |
| ClipSlot.NothingPlaysAfterStop | src/components/ClipSlot.tsx:12 | after stop, no slot shows as playing, and none does even once play is pressed again |
| Text.DigitValue | src/components/TrackHeader.tsx:87 | a digit's value is below ten |
| Text.Digit | src/components/TrackHeader.tsx:87 | the digit character for a value below ten reads back as that value |
| Text.Show | src/components/TrackHeader.tsx:87 | the decimal form of a number is a non-empty digit string with no leading zero, one digit long exactly below ten |
| Text.ParseShow | src/components/TrackHeader.tsx:87 | reading the decimal form back gives the number |
| Text.ShowInjective | src/components/SessionView.tsx:32 | two numbers have the same decimal form exactly when they are equal |
| Text.UpperChar | src/components/TrackHeader.tsx:20 | upper-casing a character leaves no lower-case letter, shifts lower-case letters by 32 and keeps every other character |
| Text.Upper | src/components/TrackHeader.tsx:20 | upper-casing keeps the length and upper-cases each character on its own, so each lower-case letter becomes its capital, no lower-case letter is left and every other character is kept |
| PianoRoll.KeyColoursComplementary | src/components/PianoRoll.tsx:17-18 | every name is exactly one of black key and white key |
| PianoRoll.Pitches | src/components/PianoRoll.tsx:12-15 | the key column, C5 down to C3 (its properties are the rows below) |
| PianoRoll.IsBlackKey | src/components/PianoRoll.tsx:17 | a key is black exactly when its name contains a sharp |
| PianoRoll.IsWhiteKey | src/components/PianoRoll.tsx:18 | a key is white exactly when its name contains no sharp |
| PianoRoll.PitchNumber | src/components/PianoRoll.tsx:12-15 | a well-formed pitch name has a MIDI number between 12 and 132 |
| PianoRoll.PitchesChromatic | src/components/PianoRoll.tsx:12-15 | the column has 25 keys, one semitone apart, from C5 (72) down to C3 (48) |
| PianoRoll.PitchesDistinct | src/components/PianoRoll.tsx:12-15 | no key appears twice |
| PianoRoll.BlackKeysAreSharps | src/components/PianoRoll.tsx:17 | a key is black exactly when its pitch class is C#, D#, F#, G# or A# |
| PianoRoll.BlackRows | src/components/PianoRoll.tsx:17 | row i is black exactly when pitch 72 - i is a sharp |
| PianoRoll.TenBlackKeys | src/components/PianoRoll.tsx:12-18 | ten of the 25 keys are black and fifteen white |
| PianoRoll.DemoNote | src/components/PianoRoll.tsx:21-27 | a demo note has a pitch of the column, starts within the first 15 beats, lasts 0.25 to 2.25 beats and has velocity 60 to 127 |
| PianoRoll.DemoNotes | src/components/PianoRoll.tsx:21-27 | there are twenty demo notes numbered 0..19, each on a key of the column |
| PianoRoll.FooterCountsDemoNotes | src/components/PianoRoll.tsx:135 | the footer reports twenty notes |
| PianoRoll.NoteCountLabel | src/components/PianoRoll.tsx:135 | the footer count is the number of notes |
| PianoRoll.LaneNotes | src/components/PianoRoll.tsx:107-108 | a lane draws exactly the notes whose pitch is the lane's name, and no more notes than there are |
| PianoRoll.NoteInOneLane | src/components/PianoRoll.tsx:98-108 | a note on a key of the column is drawn in that lane and no other; any other note is drawn nowhere |
| PianoRoll.DrawnCountCons | src/components/PianoRoll.tsx:98-108 | one more note adds one rectangle per lane carrying its pitch |
| PianoRoll.OccursOnce | src/components/PianoRoll.tsx:98 | among distinct lane names a name occurs once if present, otherwise never |
| PianoRoll.EachNoteDrawnOnce | src/components/PianoRoll.tsx:98-108 | with distinct lanes covering every pitch, the lanes draw exactly as many rectangles as there are notes |
| PianoRoll.DrawnCountEmpty | src/components/PianoRoll.tsx:107-108 | no notes draw no rectangles |
| PianoRoll.DemoNotesAllDrawn | src/components/PianoRoll.tsx:98-135 | the grid draws as many rectangles as the footer counts |
| PianoRoll.FlowTop | src/components/PianoRoll.tsx:70-81 | row i of a column of 24-pixel rows sits at a multiple of 24 pixels in flow, and dividing by 24 gives i back |
| PianoRoll.KeyTop | src/components/PianoRoll.tsx:70-81 | key i sits i rows down the key column |
| PianoRoll.LaneOffset | src/components/PianoRoll.tsx:104 | the `top` style of lane i, i rows of 24 pixels, equals the distance the lane already sits down the column in flow |
| PianoRoll.LaneDrawnTopAsWritten | src/components/PianoRoll.tsx:98-105 | as written, lane i is drawn at twice the height of key i: flow position plus the relative offset |
| PianoRoll.LanesDriftFromKeys | src/components/PianoRoll.tsx:98-105 | as written, every lane after the first is drawn below its key, by i rows for lane i (lane 1 at 48 pixels, key 1 at 24) |
| PianoRoll.LaneDrawnTop | src/components/PianoRoll.tsx:98-105 | with the intended layout, lane i is drawn at its flow position, i rows down |
| PianoRoll.LanesLevelWithKeys | src/components/PianoRoll.tsx:70-105 | with the intended layout, every lane sits level with its key, and consecutive lanes are exactly one row apart |
| PianoRoll.NoteBesideItsKey | src/components/PianoRoll.tsx:98-108 | a note drawn in lane i has the pitch of key i and, with the intended layout, sits level with that key |
| PianoRoll.NoteBoxOf | src/components/PianoRoll.tsx:113-117 | left and width are the start and duration in beats at 64 pixels per beat; opacity is velocity / 127, so it lies in (0, 1] for velocity in (0, 127] |
| PianoRoll.NoteBoxLinear | src/components/PianoRoll.tsx:114-115 | the right edge is where the note ends, and shifting a note by d beats shifts only its left edge, by 64 d pixels |
| PianoRoll.DemoOpacity | src/components/PianoRoll.tsx:116 | demo notes have opacity at least 60/127 and below 1 |
| PianoRoll.GridLines | src/components/PianoRoll.tsx:88-94 | there are seventeen grid lines |
| PianoRoll.MajorAmong | src/components/PianoRoll.tsx:91 | counts the bar lines among the first k grid lines |
| PianoRoll.GridLinesShape | src/components/PianoRoll.tsx:88-94 | line i sits at 64 i pixels; it is a bar line exactly when i is a multiple of 4, giving five bar lines; only line 0 has no left border; the last line ends four 4-beat bars |

## Left out

- The rack's lifetime is not modelled. The session view mounts one `DeviceRack` without a `key` (src/components/SessionView.tsx:152-156). Switching to another track therefore keeps the same device chain, and clearing the selection unmounts the rack and loses its chain. The model has one `Rack`, independent of the selection.
- Knob: the document listeners, the `ns-resize` cursor and the React hooks (src/components/ui/Knob.tsx:61-73) are browser plumbing. In the model the drag handlers are called directly. The SVG arc arithmetic (line 114) is presentation only.
- Knob.Knob.MouseMove: requires `step > 0`. A zero step divides by zero and a negative one flips the grid. Every knob in the code uses a positive step.
- Knob.Rotation: requires `max != min`. With equal bounds the source divides by zero and draws a NaN angle. Every knob in the code has `min < max`.
- Knob.Change and Knob.DragValue: JavaScript numbers are IEEE doubles. The model computes with exact reals, so floating-point rounding (for example 0.1 steps that are not exact) is not captured.
- SessionView.SetTempo and Transport.ClampTempo: `Number(e.target.value)` parsing is not modelled. Nor is the NaN that a non-numeric entry carries through `Math.max`/`Math.min`. The model clamps a number that has already been read.
- SessionView.NewClip: the clip colour drawn with `Math.random` is a parameter.
- PianoRoll.DemoNote: the demo-note readings are a `Draw` of four numbers in [0, 1).
- The random preview bars in a clip slot (src/components/ClipSlot.tsx:62-84) are not modelled.
- The random drum pattern in src/components/devices/DrumRack.tsx is not modelled.
- DeviceRack.NewDevice: the `Date.now()` reading in the device id is a `stamp` parameter. The code does not guarantee unique ids, so the model claims none.
- The `onDeviceAdd`/`onDeviceRemove` host callbacks are not modelled beyond `Rack.Add` returning the added device. The session view passes neither.
- Track volume and pan are integers in the model. A fractional pan would print its JavaScript decimal form, which `Text.Show` does not cover. A fractional volume would set a fractional percentage in the fader styles. The code only ever sets volume 75 and pan 0 (src/components/SessionView.tsx:35-36), so no reachable behaviour is lost.
- Text.Upper: upper-cases only the ASCII letters a-z, which is all the views pass it. Full Unicode case mapping is not modelled.
- The device panels (Operator, DrumRack, Sampler, Reverb) are only knob wiring and are not modelled. `DeviceRangesOnGrid` uses their ranges.
- Those panels read parameters as `parameters.x || default`, so a stored 0 reads back as the default. This quirk is not modelled.
- DeviceBrowser.tsx and MasterSection.tsx are static markup and are not modelled. The browser's two menus appear only as data, in `BrowserAgreesWithTables`.
- The waveform display is canvas drawing with floating-point trigonometry and is not modelled.
- The build and theme configuration files are not modelled.
- The clip-click handler reads `clips` from the render and writes through an updater function. Two clicks within one render could therefore see a stale map. The model applies each click to the current state.
- The toolbar buttons in the piano roll header have no handlers, and the footer texts are fixed, so there is nothing to model.

## Findings

| source | as written | input that shows it | evidently intended | confidence | as-written member | corrected member |
|---|---|---|---|---|---|---|
| src/components/PianoRoll.tsx:98-105 | each note lane is a relatively positioned 24-pixel row in normal flow and also gets `top: index * 24px`, so the offset adds to the flow position and lane i is drawn at 48·i pixels | lane 1 (B4) is drawn at 48 pixels while key 1 (B4) of the key column sits at 24; lane 24 (C3) is drawn at 1152 pixels, beside no key | lane i drawn level with key i, at 24·i pixels (no offset, or absolute positioning) | medium; not executed, inferred from the CSS positioning rules | PianoRoll.LanesDriftFromKeys | PianoRoll.LanesLevelWithKeys |
