# Playback store of a step-sequencer tracker, in Dafny

This project models the playback store of a browser step-sequencer music
tracker (`src/store/playback.js`, a Vuex module). The store is a
single-writer state machine. It holds:

- the transport status (`isPlaying`);
- the step cursor (`iterator` in the source, `cursor` here, because
  `iterator` is a reserved word in Dafny);
- the tempo (`BPM`, `bpm` here);
- the tracks, each a fixed-length grid of notes plus a name, a colour and
  an oscillator kind;
- the counter that names new tracks;
- the targets of the two editors: the track-options editor (a track index)
  and the virtual keyboard (a track and a step offset).

The empty note is one shared object. `removeNote` stores that very object at
a step, and `incrementVolume` assigns the volume in place on whatever object
a step holds. So a volume step on an emptied step changes the empty note
itself: every step holding it, and every later removal, shows the new volume.
The model keeps this. A step holds either a note of its own (`Own`) or the
shared empty note (`Shared`). The store keeps the shared note's current
contents in the field `nullNote`.

Every mutation is a method of the class `Playback.PlaybackStore`. Each
method changes only the fields its `modifies` clause names, and its
`ensures` gives the new value of those fields. The value rules the mutations
apply are pure functions with their own contracts and lemmas:

- the tempo clamp, the saturating volume step, the refusing octave step and
  JavaScript's one-element `splice` are in `Editing`;
- the cursor advance and the set of triggers of one tick are in `Transport`;
- the note, track and trigger records, the note replacement and the
  automatic track names are in `TrackModel`.

The class invariant `Valid()` says:

- the cursor is a step of the grid;
- every track has exactly one grid's worth of steps;
- the tempo lies in [50, 300];
- the number of tracks never exceeds the cap.

Every mutation preserves it.

The constants the store imports are not part of this model. These are the
grid size `TRACK_LENGTH`, the cap `MAX_TRACKS`, the empty note `NULL_NOTE`,
the oscillator kinds `OSC_TYPES` and the blank grid `initTrack()` returns.
`lib.helpers.js` and `lib.audio.js` are not part of this model either. The
constants are parameters of the store's constructor: the initial contents of
the empty note, and class constants for the rest. The grid size must be at
least 1, there must be at least one oscillator kind, and the blank grid must
have one step per grid position. Each blank step is either the shared empty
note or a note of its own.

`Scenarios` holds client methods that drive the store through typical
playback and editing sequences, using only the contracts:

- a full cycle of ticks returns the cursor to its start;
- the name counter keeps advancing past the track cap;
- inserting a pitch keeps the step's octave and volume;
- the octave refuses to go above 7 while the volume saturates at 100;
- a volume step on one emptied step shows on every emptied step.

The octave rule of `changeOctave` is modelled as written. A +1 step is
refused when the result would be 8 or more. A −1 step is refused only when
the result would be exactly 0, so 1 → 0 is refused but 0 is lowered to −1
(`Editing.OctaveBelowOneStillLowers`). Octaves are therefore not kept in any
range unless they start in [1, 7] (`Editing.OctaveStepStaysInRange`). Steps
other than ±1 are never refused.

## Model

| member | source | states |
|---|---|---|
| `Playback.PlaybackStore.constructor` | src/store/playback.js:18-28 | The initial state: not playing, cursor 0, tempo 120, no tracks, name counter 0, both editors closed; the invariant holds. |
| `Playback.PlaybackStore.SoundingTriggers` | src/store/playback.js:34-41 | The loop over the tracks yields exactly `Triggers(tracks, cursor)`: every track is read at the same, current step. |
| `Playback.PlaybackStore.Play` | src/store/playback.js:31-44 | One tick: `isPlaying` becomes true, the triggers are those of the step under the old cursor, and the cursor moves to `NextStep` of the old cursor; nothing else changes. |
| `Playback.PlaybackStore.Pause` | src/store/playback.js:46-50 | Playback stops; only `isPlaying` may change, so the cursor is kept. |
| `Playback.PlaybackStore.Stop` | src/store/playback.js:52-57 | Playback stops and the cursor is reset to 0, whatever it was. |
| `Playback.PlaybackStore.AddTrack` | src/store/playback.js:59-70 | The name counter always grows by one; a track named `Track <counter>` with the blank grid, colour `#000` and the first oscillator kind is appended exactly when the cap is not reached; the cap is preserved. |
| `Playback.PlaybackStore.DeleteTrack` | src/store/playback.js:72-74 | The tracks become `splice(i, 1)` of the old tracks. |
| `Playback.PlaybackStore.OpenTrackOptions` | src/store/playback.js:76-78 | The track-options editor targets the given track. |
| `Playback.PlaybackStore.CloseTrackOptions` | src/store/playback.js:80-83 | The track-options editor closes exactly when the click lands on the overlay. |
| `Playback.PlaybackStore.CloseTrackOptionsEsc` | src/store/playback.js:85-87 | The track-options editor closes. |
| `Playback.PlaybackStore.OpenVirtualKeyboard` | src/store/playback.js:89-91 | The virtual keyboard targets the given track and step. |
| `Playback.PlaybackStore.CloseVirtualKeyboard` | src/store/playback.js:93-96 | The virtual keyboard closes exactly when the click lands on the overlay. |
| `Playback.PlaybackStore.CloseVirtualKeyboardEsc` | src/store/playback.js:98-100 | The virtual keyboard closes. |
| `Playback.PlaybackStore.SetTrackColor` | src/store/playback.js:102-104 | Only the colour of the track under the options editor changes. |
| `Playback.PlaybackStore.SetTrackName` | src/store/playback.js:106-108 | Only the name of the track under the options editor changes. |
| `Playback.PlaybackStore.SetTrackOsc` | src/store/playback.js:110-112 | Only the oscillator kind of the track under the options editor changes. |
| `Playback.PlaybackStore.IncrementVolume` | src/store/playback.js:114-132 | The addressed step shows its old note with volume `SteppedVolume(old volume, inc)`. On a step of its own only that step changes. On a step holding the shared empty note, the empty note itself changes, so every step holding it shows the new volume and every other step is unchanged. |
| `Playback.PlaybackStore.VolumeUp` | src/store/playback.js:192-200 | The volume-up action is a +5 volume step, with the same effect on own and shared steps as `IncrementVolume`. |
| `Playback.PlaybackStore.VolumeDown` | src/store/playback.js:202-210 | The volume-down action is a −5 volume step, with the same effect on own and shared steps as `IncrementVolume`. |
| `Playback.PlaybackStore.InsertNote` | src/store/playback.js:134-144 | The step under the keyboard gets a note of its own: the note it showed, with the new pitch and the same octave and volume. Nothing else changes, and the keyboard closes. |
| `Playback.PlaybackStore.RemoveNote` | src/store/playback.js:146-148 | The addressed step holds the shared empty note and shows its current contents. Nothing else changes, and no editor is needed. |
| `Playback.PlaybackStore.ChangeOctave` | src/store/playback.js:150-163 | When the octave rule refuses, nothing changes. Otherwise the step under the keyboard gets a note of its own with the new octave, and nothing else changes. The keyboard stays open. |
| `Playback.PlaybackStore.LowerOctave` | src/store/playback.js:236-238 | The lower-octave action changes nothing when the −1 step is refused. Otherwise the step under the keyboard gets octave `OctaveAfter(old octave, −1)`. |
| `Playback.PlaybackStore.UpperOctave` | src/store/playback.js:240-242 | The upper-octave action changes nothing when the +1 step is refused. Otherwise the step under the keyboard gets octave `OctaveAfter(old octave, +1)`. |
| `Playback.PlaybackStore.SetBPM` | src/store/playback.js:165-168 | The stored tempo is `ClampBPM` of the requested one. |
| `Transport.NextStep` | src/store/playback.js:43 | The next cursor is below the grid size and equals `(cursor + 1) mod gridSize`. |
| `Transport.FullCycleReturns` | src/store/playback.js:43 | A grid size's worth of consecutive ticks brings the cursor back to its start. |
| `Transport.Triggers` | src/store/playback.js:34-41 | Given the shared empty note's current contents, there is at most one trigger per track, each naming an existing track, in strictly increasing track order. |
| `Transport.TriggersSound` | src/store/playback.js:37-39 | Every trigger comes from a track whose step at the cursor is neither `-` nor `#`. It carries that track's oscillator and that step's volume, pitch and octave. |
| `Transport.TriggersComplete` | src/store/playback.js:34-41 | Every track whose step at the cursor is neither `-` nor `#` gets a trigger. |
| `Transport.SilentTrackNeverTriggers` | src/store/playback.js:37 | A track whose steps are all sentinels never triggers, at any cursor. |
| `Editing.ClampBPM` | src/store/playback.js:166 | The stored tempo is `max(50, min(300, bpm))`, always in [50, 300], and an in-range request is kept as is. |
| `Editing.SteppedVolume` | src/store/playback.js:114-131 | A positive step gives `min(100, cur + inc)`, any other step gives `max(0, cur + inc)`, and a volume in [0, 100] stays in [0, 100]. |
| `Editing.ChangedOctave` | src/store/playback.js:150-156 | A +1 step is refused exactly when the octave is 7 or more. A −1 step is refused exactly when the octave is 1. Any other step is never refused. An accepted step yields `cur + inc`. |
| `Editing.OctaveStepStaysInRange` | src/store/playback.js:150-163 | The ±1 octave actions keep an octave in [1, 7] inside [1, 7]. |
| `Editing.OctaveUpDownRoundTrip` | src/store/playback.js:236-242 | From any octave in [1, 6], raising then lowering returns to the same octave. |
| `Editing.OctaveDownUpRoundTrip` | src/store/playback.js:236-242 | From any octave in [2, 7], lowering then raising returns to the same octave. |
| `Editing.OctaveBelowOneStillLowers` | src/store/playback.js:155 | The −1 guard only refuses reaching exactly 0, so an octave at 0 or below is lowered further. |
| `Editing.SpliceStart` | src/store/playback.js:73 | `splice` starts at `i` for `0 <= i <= len`, at `len + i` for `-len <= i < 0`, at 0 below `-len` and at `len` above `len`. |
| `Editing.SpliceOne` | src/store/playback.js:73 | Deleting at a valid index removes exactly that element and keeps the others in order. An index past the end leaves the tracks unchanged. |
| `Editing.SpliceOneRemovesOne` | src/store/playback.js:73 | A deletion at a valid index keeps every other track: the multiset loses exactly the deleted one. |
| `TrackModel.WithNote` | src/store/playback.js:138-141 | Replacing one step changes that step and nothing else. Every other step, every other field of that track and every other track stay the same. |
| `TrackModel.DecimalString` | src/store/playback.js:65 | The counter is written as a non-empty string of decimal digits with no leading zero. |
| `TrackModel.DecimalRoundTrip` | src/store/playback.js:65 | Reading back the decimal numeral of the counter gives the counter. |
| `TrackModel.AutoNameInjective` | src/store/playback.js:59-65 | Different counter values give different automatic names. Since the counter only grows, a new track's name never repeats an earlier automatic one. |
| `Playback.PlaybackStore.CurrentOctave` | src/store/playback.js:254-258 | The `currentOctave` getter is the octave of the note the step under the keyboard shows. |
| `Playback.PlaybackStore.NewTrack` | src/store/playback.js:63-68 | A new track has the blank grid, the automatic name for the counter, colour `#000` and the first oscillator kind. |
| `TrackModel.Sounds` | src/store/playback.js:37 | A note sounds exactly when its pitch is neither `-` nor `#`. |
| `TrackModel.AutoName` | src/store/playback.js:65 | The automatic name is `Track ` followed by the decimal counter. |
| `Scenarios.PlayFullCycle` | src/store/playback.js:31-44 | Playing a grid size's worth of ticks, as a client of `Play`, leaves the cursor where it started. |

## Left out

- The timer is not modelled: `window.setInterval`, `window.clearInterval`
  and the global `window.playbackInterval` handle. The `Play` action is
  modelled as one immediate `Play` tick, and `Pause` and `Stop` have no
  timer to clear. This is concurrency and timer plumbing.
- `BPM2ms`, the tempo-to-interval conversion, is a floating-point division
  in `lib.helpers.js`, which is not part of this model.
- The audio side is not modelled: `createOscillator`, `playNote` and the
  frequency `NOTE_FREQUENCIES[note] * 2^octave`. These are foreign audio
  calls and floating-point numerics. A tick instead returns one `Trigger`
  record (track, oscillator kind, volume, pitch, octave) per sounding step.
- `Vue.set` reactivity is not modelled. A replaced note is a plain
  replace-at-index (`TrackModel.WithNote`).
- DOM glue is not modelled. The `className == 'global-overlay'` test of the
  close mutations is the boolean parameter `onOverlay`. `preventDefault` has
  no counterpart. `e.target.value` is the string the name setter receives.
- The actions that only commit the mutation of the same name are not
  separate members. Their mutation methods stand for them. Only the actions
  that fix a step are modelled (±5 volume, ±1 octave).
- The `BPM` getter is the field `bpm` itself.
- JavaScript numbers are not modelled. Tempo, volumes and octaves are
  unbounded integers: no fractions, no `NaN`, no strings coerced by `+`.
- Null and out-of-range editor targets and indices are preconditions.
  - Where the code dereferences them unguarded, it would throw. The
    track-option setters need an open options editor on an existing track.
    `insertNote` and `changeOctave` need an open keyboard on an existing
    track. `changeOctave` and `incrementVolume` also need an existing step,
    and `removeNote` needs an existing track.
  - The step offset of `insertNote` and `removeNote` only reaches
    `Vue.set`. Past the end of the grid, that lengthens the track's notes
    instead of failing. The model requires an existing step there, so that
    every track keeps exactly one grid of steps.
- `initTrack()` is not part of this model, so how its blank steps share
  note objects is unknown. Each blank step is taken to be either the shared
  empty note or a note of its own. Sharing of one fresh object among several
  steps is not modelled.
- Assignment to a frozen `NULL_NOTE` is not modelled: the empty note is
  taken to be an ordinary mutable object, so the volume step never throws.
- Mutual exclusion of the two editors is not added, because the code does
  not enforce it. Neither is closing an editor whose target a deletion has
  shifted.
