# Hand music player: gesture-to-sound engine

A Dafny model of the per-frame decision logic of the hand music player web
app. Each camera frame brings either no hand or one hand as 21 tracked
landmarks. From that hand the engine:

1. classifies each of the four non-thumb fingers as extended or not
   (tip above the joint below it);
2. recognises the gesture: thumb up, number of raised fingers, and spread;
3. maps the palm centre's height to one of eight scale notes (C4 .. C5)
   and its depth to a volume in [0.3, 1];
4. passes a 150 ms debounce gate and then plays a triad (thumb up and at
   least three fingers), a single note (at least one finger) or nothing.

Modules:

- `Wrappers` (wrappers.dfy): the `Option` type.
- `Hand` (hand.dfy): landmarks, the finger-state classifier and the gesture
  recogniser, as functions.
- `Sound` (sound.dfy): the note and chord tables, the pitch index, the
  volume clamp and the chord lookup, as functions.
- `Gate` (gate.dfy): playback commands, the decision rule `Decide`, the
  gate state with its invariant, the one-frame specification `Step`, `Run`
  over a stream of frames, and the class `Player`. Its fields are the
  app's `lastPlayTime`, `lastPlayedNote`, `isPlaying` and `currentNote`.
  `Player.ProcessFrame` updates them in place as `onResults` does.

The clock and the instrument are parameters of `ProcessFrame`.
A command is a returned value naming the instrument, the pitches, the
duration tag "8n" and the volume. Coordinates are exact `real`s.

Behaviour of the code worth knowing:

- The debounce test is strict: `now - lastPlayTime > 150`
  (app/src/App.jsx:120).
- Past the window, the time and note are stamped even when no finger is
  raised and nothing plays (app/src/App.jsx:134-135).
- A frame without a hand clears only `isPlaying` and `currentNote`. It
  does not reset the debounce stamp (app/src/App.jsx:138-141).
- `lastPlayedNote` is written but never read (app/src/App.jsx:39, 134).
  There is no repeat-note suppression, only the time window.

## Model

| member | source | states |
|---|---|---|
| `Hand.CompareJoints` | app/src/App.jsx:77-81 | one boolean per table entry, in order; entry i is true iff the y of landmark tips[i] is less than the y of landmark mids[i] |
| `Hand.CalculateFingerState` | app/src/App.jsx:74-83 | exactly four entries (index, middle, ring, pinky); entry i is true iff finger i+1 is extended in the tracker's layout, i.e. tip landmark 4(i+1)+4 is above landmark 4(i+1)+3 (8/7, 12/11, 16/15, 20/19) |
| `Hand.CountRaised` | app/src/App.jsx:92 | the count equals the number of `true` entries (multiset count), is at most the length, is 0 iff no entry is true and equals the length iff no entry is false |
| `Hand.DetectGesture` | app/src/App.jsx:85-103 | thumb up iff y4 < y5; raised fingers equals the number of true finger states; spread iff the index and pinky tips are more than 0.3 apart in x, in either direction |
| `Hand.RaisedFingersOfFrame` | app/src/App.jsx:108-109 | for a frame, the raised-finger count lies in 0..4, is 0 iff no finger is extended and 4 iff all four are |
| `Sound.NoteIndex` | app/src/App.jsx:112-114 | for palm y9 <= 1 the index is in 0..7, so the lookup is in bounds; below 7 it is the bucket containing (1 - y9)·8; it is 7 exactly when (1 - y9)·8 >= 7 |
| `Sound.NoteFor` | app/src/App.jsx:25 | the note played is one of the eight scale notes, a two-character name |
| `Sound.PitchMonotone` | app/src/App.jsx:112-114 | if y9 <= y9' then the index for y9' is at most the index for y9: a higher hand never gives a lower note |
| `Sound.TopBucketIsLastNote` | app/src/App.jsx:113-114 | any palm with y9 <= 0.125, including height exactly 1.0, plays the last note C5 |
| `Sound.PalmAtPointTwoPlaysB4` | app/src/App.jsx:112-114 | palm y9 = 0.2 gives index floor(6.4) = 6, the note B4 |
| `Sound.Volume` | app/src/App.jsx:117 | the volume is always in [0.3, 1]; it equals 1 - z9 when that is in range, 1 when above and 0.3 when below |
| `Sound.ChordFor` | app/src/App.jsx:125 | three two-character pitches; exactly the table's triad for the note's first letter, rooted on that letter, when the letter keys the table (C, F, G), otherwise the C triad C4 E4 G4 |
| `Sound.ChordRootMatchesNote` | app/src/App.jsx:26-30 | for a scale note the triad is rooted on the note's own letter iff the letter is C, F or G; for any other letter it is the C triad |
| `Gate.Decide` | app/src/App.jsx:123-132 | a command is chosen iff at least one finger is raised; it is a triad iff the thumb is up and 3 or more fingers are raised (so never a single note then); the triad is `ChordFor(note)`, the single note is the palm's note; the instrument, "8n" and the volume are passed through |
| `Gate.Label` | app/src/App.jsx:127 | the status text is the note itself for a single note; for a triad it is the palm note's first letter followed by " chord", and for a scale note it is one of the chord labels |
| `Gate.Step` | app/src/App.jsx:105-142 | one frame of `onResults`: a command only for a hand frame past the window, which then stamps `now`, is playing and shows a non-empty text; the stamp is either kept or becomes `now`; a no-hand frame emits nothing, goes idle with empty text and keeps both gate fields; a hand frame leaves the player playing iff it was playing or the frame is past the window |
| `Gate.Run` | app/src/App.jsx:56 | frames handled one after another in arrival order: at most one command per frame, and none from a stream without a hand |
| `Gate.InitialSatisfiesInvariant` | app/src/App.jsx:36-40 | the initial state (time 0, no last note, idle, empty text) satisfies the gate invariant |
| `Gate.StepKeepsInvariant` | app/src/App.jsx:105-142 | every frame keeps the invariant: idle means empty text, the text is empty, a note or "<letter> chord", the last note is a scale note, and before the first stamp the time is 0 and the player idle |
| `Gate.NoHandIsSilent` | app/src/App.jsx:138-141 | a frame with no hand emits nothing, sets `isPlaying` false and `currentNote` to "", and leaves `lastPlayTime` and `lastPlayedNote` unchanged |
| `Gate.WithinWindowIsSilent` | app/src/App.jsx:120-137 | a hand frame with now - lastPlayTime <= 150 emits nothing and leaves the whole state unchanged |
| `Gate.PastWindowStamps` | app/src/App.jsx:120-136 | a hand frame with now - lastPlayTime > 150 emits the frame's decided command, which is absent iff no finger is raised, and in every case stamps lastPlayTime := now, lastPlayedNote := the palm's note, isPlaying := true |
| `Gate.ChordTakesPrecedence` | app/src/App.jsx:123-127 | past the window, thumb up with 3 or more fingers emits exactly the triad command for the palm's note with "8n" and the palm volume |
| `Gate.FallbackChordShowsOwnLetter` | app/src/App.jsx:125-127 | past the window, thumb up, 3 or more fingers and a palm note with letter D, E, A or B: the C triad plays while the status text is that note's letter followed by " chord", which differs from the C of the triad played |
| `Gate.QuietWithinWindow` | app/src/App.jsx:119-141 | any stream of frames all within 150 ms of the last stamp, with or without hands, emits no command and leaves lastPlayTime and lastPlayedNote unchanged |
| `Gate.AtMostOnePerWindow` | app/src/App.jsx:119-141 | a stream of frames in which every frame arrives at most 150 ms after each earlier one emits at most one command in total, whatever the hands and the starting stamp |
| `Gate.Player.constructor` | app/src/App.jsx:36-40 | the player starts in the initial gate state, which satisfies the invariant |
| `Gate.Player.ProcessFrame` | app/src/App.jsx:105-142 | keeps the invariant, and the new fields and the returned command are exactly those of `Step` from the old fields; so every lemma about `Step` holds of each call |

## Left out

- The React component shell: hooks, rendering, the instrument `<select>` and
  the status text markup. `isPlaying` and `currentNote` are plain fields.
- MediaPipe `Hands` and `Camera` setup and the asynchronous frame callback.
  They are I/O and a foreign ML library. A frame is an `Option` of the first
  detected hand, because the tracker is limited to one hand.
- The Tone.js instrument registry and `triggerAttackRelease`. They are
  foreign audio calls. A trigger is a returned `Command` value.
- Gate.Player.ProcessFrame: the instrument is a per-frame parameter, which
  over-approximates the program. `onResults` is registered once, inside an
  effect that runs only on the first render (app/src/App.jsx:56, 72), so it
  keeps that render's `selectedInstrument`, 'piano' (app/src/App.jsx:35).
  Changing the `<select>` (app/src/App.jsx:152-155) never reaches the
  callback, so the app always plays the piano. The model does not capture
  this stale capture.
- `Date.now()`: the clock reading is the `now` parameter.
- IEEE-754 floating point: coordinates are exact reals. Rounding near a
  bucket boundary or near the 0.3 spread threshold is not modelled.
- The unused state `mode` and `canvasRef`. The spread flag is computed but
  never affects the output. It is only a field of `Gesture`.
- React's asynchronous state updates: `setIsPlaying` and `setCurrentNote`
  become direct field writes. Within one frame they have the same final
  effect.
- Sound.NoteIndex: requires palm y9 <= 1. The code has no lower clamp: a palm
  below the frame gives a negative index and an undefined note, so that
  input is excluded instead of modelled. Palms above the frame (y9 < 0) are
  modelled; the upper clamp maps them to C5.
- Gate.Step, Gate.Run, Gate.Player.ProcessFrame, Gate.QuietWithinWindow and
  Gate.AtMostOnePerWindow: through `ValidFrame` they exclude every hand frame
  with palm y9 > 1. That includes frames inside the debounce window, where
  the code never uses the note (app/src/App.jsx:120) and the frame changes
  nothing. Such frames are not modelled.
- Hand.CalculateFingerState: requires exactly 21 landmarks, as the tracker
  delivers. With a shorter array, `landmarks[tip].y` (app/src/App.jsx:78-79)
  would throw a TypeError on the missing entry. That case is not modelled.
