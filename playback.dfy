/**
 * The playback store of the step sequencer: a single-writer state machine
 * whose mutations change its fields in place. The grid size, the track cap,
 * the oscillator kinds and the blank step grid of a new track are
 * configuration, fixed when the store is created. The empty note is one
 * shared object: the store keeps its current contents, which a volume step
 * on a step holding it changes for every step holding it.
 */
module Playback {
  import opened Optional
  import opened TrackModel
  import opened Transport
  import opened Editing

  /** The step the note-entry editor (the virtual keyboard) is open on. */
  datatype KeyboardTarget = KeyboardTarget(track: nat, offset: nat)

  class PlaybackStore {
    // configuration
    const trackLength: nat
    const maxTracks: nat
    const oscTypes: seq<string>
    const blankNotes: seq<Cell>

    // the current contents of the one shared empty-note object
    var nullNote: Note

    // state
    var isPlaying: bool
    var cursor: nat
    var bpm: int
    var tracks: seq<Track>
    var trackNameIterator: nat
    var openedOptions: Option<nat>
    var openedVK: Option<KeyboardTarget>

    /**
     * The store's invariant: the cursor is a step of the grid, every track
     * has exactly one grid of steps, the tempo is in range and the track cap
     * is respected.
     */
    ghost predicate Valid()
      reads this
    {
      && trackLength >= 1
      && |oscTypes| >= 1
      && |blankNotes| == trackLength
      && cursor < trackLength
      && MIN_BPM <= bpm <= MAX_BPM
      && |tracks| <= maxTracks
      && forall k :: 0 <= k < |tracks| ==> |tracks[k].notes| == trackLength
    }

    /** The step the note-entry editor is open on exists. */
    predicate KeyboardOnStep()
      reads this
    {
      openedVK.Some? && openedVK.value.track < |tracks|
      && openedVK.value.offset < |tracks[openedVK.value.track].notes|
    }

    /** The track the track-options editor is open on exists. */
    predicate OptionsOnTrack()
      reads this
    {
      openedOptions.Some? && openedOptions.value < |tracks|
    }

    /** The note step `offset` of track `track` shows. */
    function NoteAt(track: nat, offset: nat): Note
      reads this
      requires track < |tracks| && offset < |tracks[track].notes|
    {
      NoteOf(tracks[track], offset, nullNote)
    }

    /** The note under the note-entry editor. */
    function TargetNote(): Note
      reads this
      requires KeyboardOnStep()
    {
      NoteAt(openedVK.value.track, openedVK.value.offset)
    }

    /** The `currentOctave` getter: the octave of the note under the note-entry editor. */
    function CurrentOctave(): int
      reads this
      requires KeyboardOnStep()
    {
      TargetNote().octave
    }

    /** The track `addTrack` appends when the counter has reached `counter`. */
    function NewTrack(counter: nat): Track
      requires |oscTypes| >= 1
    {
      Track(blankNotes, AutoName(counter), "#000", oscTypes[0])
    }

    constructor (trackLength: nat, maxTracks: nat, nullNote: Note,
                 oscTypes: seq<string>, blankNotes: seq<Cell>)
      requires trackLength >= 1 && |oscTypes| >= 1 && |blankNotes| == trackLength
      ensures Valid()
      ensures this.trackLength == trackLength && this.maxTracks == maxTracks
      ensures this.nullNote == nullNote && this.oscTypes == oscTypes
      ensures this.blankNotes == blankNotes
      ensures !isPlaying && cursor == 0 && bpm == 120
      ensures tracks == [] && trackNameIterator == 0
      ensures openedOptions == None && openedVK == None
    {
      this.trackLength := trackLength;
      this.maxTracks := maxTracks;
      this.nullNote := nullNote;
      this.oscTypes := oscTypes;
      this.blankNotes := blankNotes;
      isPlaying := false;
      cursor := 0;
      bpm := 120;
      tracks := [];
      trackNameIterator := 0;
      openedOptions := None;
      openedVK := None;
    }

    // -------------------------------------------------------------------------
    // Transport

    /** Reads every track's step at the cursor, in track order, and collects the triggers. */
    method SoundingTriggers() returns (triggers: seq<Trigger>)
      requires Valid()
      ensures triggers == Triggers(tracks, cursor, nullNote)
    {
      triggers := [];
      var k := 0;
      while k < |tracks|
        invariant 0 <= k <= |tracks|
        invariant triggers == Triggers(tracks[..k], cursor, nullNote)
      {
        var n := NoteOf(tracks[k], cursor, nullNote);
        assert tracks[..k + 1][..k] == tracks[..k];
        if Sounds(n) {
          triggers := triggers + [TriggerFor(k, tracks[k], cursor, nullNote)];
        }
        k := k + 1;
      }
      assert tracks[..|tracks|] == tracks;
    }

    /**
     * One playback tick: marks the store as playing, triggers every track
     * whose step at the cursor sounds, then moves the cursor one step on.
     */
    method Play() returns (triggers: seq<Trigger>)
      requires Valid()
      modifies this`isPlaying, this`cursor
      ensures Valid()
      ensures isPlaying
      ensures triggers == Triggers(tracks, old(cursor), nullNote)
      ensures cursor == NextStep(old(cursor), trackLength)
    {
      isPlaying := true;
      triggers := SoundingTriggers();
      cursor := NextStep(cursor, trackLength);
    }

    /** Stops playback and keeps the cursor where it is. */
    method Pause()
      requires Valid()
      modifies this`isPlaying
      ensures Valid() && !isPlaying
    {
      isPlaying := false;
    }

    /** Stops playback and rewinds the cursor to the first step. */
    method Stop()
      requires Valid()
      modifies this`isPlaying, this`cursor
      ensures Valid() && !isPlaying && cursor == 0
    {
      isPlaying := false;
      cursor := 0;
    }

    // -------------------------------------------------------------------------
    // Tracks

    /**
     * Advances the name counter, then appends a blank track named after it
     * unless the track cap is reached.
     */
    method AddTrack()
      requires Valid()
      modifies this`trackNameIterator, this`tracks
      ensures Valid()
      ensures trackNameIterator == old(trackNameIterator) + 1
      ensures old(|tracks|) < maxTracks ==> tracks == old(tracks) + [NewTrack(trackNameIterator)]
      ensures old(|tracks|) >= maxTracks ==> tracks == old(tracks)
    {
      trackNameIterator := trackNameIterator + 1;
      if |tracks| < maxTracks {
        tracks := tracks + [NewTrack(trackNameIterator)];
      }
    }

    /** Removes the track at position `i` with `splice(i, 1)`; later tracks move down one place. */
    method DeleteTrack(i: int)
      requires Valid()
      modifies this`tracks
      ensures Valid()
      ensures tracks == SpliceOne(old(tracks), i)
    {
      tracks := SpliceOne(tracks, i);
    }

    // -------------------------------------------------------------------------
    // Editors

    method OpenTrackOptions(trackId: nat)
      requires Valid()
      modifies this`openedOptions
      ensures Valid() && openedOptions == Some(trackId)
    {
      openedOptions := Some(trackId);
    }

    /** A click closes the track-options editor only when it lands on the overlay. */
    method CloseTrackOptions(onOverlay: bool)
      requires Valid()
      modifies this`openedOptions
      ensures Valid()
      ensures openedOptions == if onOverlay then None else old(openedOptions)
    {
      if onOverlay {
        openedOptions := None;
      }
    }

    method CloseTrackOptionsEsc()
      requires Valid()
      modifies this`openedOptions
      ensures Valid() && openedOptions == None
    {
      openedOptions := None;
    }

    method OpenVirtualKeyboard(track: nat, offset: nat)
      requires Valid()
      modifies this`openedVK
      ensures Valid() && openedVK == Some(KeyboardTarget(track, offset))
    {
      openedVK := Some(KeyboardTarget(track, offset));
    }

    /** A click closes the note-entry editor only when it lands on the overlay. */
    method CloseVirtualKeyboard(onOverlay: bool)
      requires Valid()
      modifies this`openedVK
      ensures Valid()
      ensures openedVK == if onOverlay then None else old(openedVK)
    {
      if onOverlay {
        openedVK := None;
      }
    }

    method CloseVirtualKeyboardEsc()
      requires Valid()
      modifies this`openedVK
      ensures Valid() && openedVK == None
    {
      openedVK := None;
    }

    // -------------------------------------------------------------------------
    // Track options (applied to the track the options editor is open on)

    method SetTrackColor(col: string)
      requires Valid() && OptionsOnTrack()
      modifies this`tracks
      ensures Valid()
      ensures tracks == old(tracks)[openedOptions.value := old(tracks)[openedOptions.value].(bgColor := col)]
    {
      var k := openedOptions.value;
      tracks := tracks[k := tracks[k].(bgColor := col)];
    }

    method SetTrackName(name: string)
      requires Valid() && OptionsOnTrack()
      modifies this`tracks
      ensures Valid()
      ensures tracks == old(tracks)[openedOptions.value := old(tracks)[openedOptions.value].(name := name)]
    {
      var k := openedOptions.value;
      tracks := tracks[k := tracks[k].(name := name)];
    }

    method SetTrackOsc(t: string)
      requires Valid() && OptionsOnTrack()
      modifies this`tracks
      ensures Valid()
      ensures tracks == old(tracks)[openedOptions.value := old(tracks)[openedOptions.value].(oscType := t)]
    {
      var k := openedOptions.value;
      tracks := tracks[k := tracks[k].(oscType := t)];
    }

    // -------------------------------------------------------------------------
    // Notes

    /**
     * Steps the volume of one note by `inc`, saturating at 0 and 100. The
     * volume is assigned in place on the note object the step holds: when
     * that is the shared empty note, every step holding it sees the change,
     * and so does every later removal.
     */
    method IncrementVolume(track: nat, offset: nat, inc: int)
      requires Valid() && track < |tracks| && offset < trackLength
      modifies this`tracks, this`nullNote
      ensures Valid()
      ensures var c := old(tracks[track].notes[offset]);
        var v := SteppedVolume(old(NoteAt(track, offset)).volume, inc);
        match c
        case Shared => tracks == old(tracks) && nullNote == old(nullNote).(volume := v)
        case Own(n) => tracks == WithNote(old(tracks), track, offset, Own(n.(volume := v)))
                       && nullNote == old(nullNote)
      ensures NoteAt(track, offset)
              == old(NoteAt(track, offset)).(volume := SteppedVolume(old(NoteAt(track, offset)).volume, inc))
      ensures forall j, s :: 0 <= j < |tracks| && 0 <= s < trackLength && (j != track || s != offset) ==>
        NoteAt(j, s) == if tracks[j].notes[s].Shared? && tracks[track].notes[offset].Shared?
                        then old(NoteAt(j, s)).(volume := NoteAt(track, offset).volume)
                        else old(NoteAt(j, s))
    {
      var cur := NoteAt(track, offset).volume;
      var newVol;
      if inc > 0 {
        if cur + inc >= 100 {
          newVol := 100;
        } else {
          newVol := cur + inc;
        }
      } else {
        if cur + inc <= 0 {
          newVol := 0;
        } else {
          newVol := cur + inc;
        }
      }
      match tracks[track].notes[offset]
      case Shared =>
        nullNote := nullNote.(volume := newVol);
      case Own(n) =>
        tracks := WithNote(tracks, track, offset, Own(n.(volume := newVol)));
    }

    /** The volume-up action: a step of +5. */
    method VolumeUp(track: nat, offset: nat)
      requires Valid() && track < |tracks| && offset < trackLength
      modifies this`tracks, this`nullNote
      ensures Valid()
      ensures var c := old(tracks[track].notes[offset]);
        var v := SteppedVolume(old(NoteAt(track, offset)).volume, VOLUME_STEP);
        match c
        case Shared => tracks == old(tracks) && nullNote == old(nullNote).(volume := v)
        case Own(n) => tracks == WithNote(old(tracks), track, offset, Own(n.(volume := v)))
                       && nullNote == old(nullNote)
    {
      IncrementVolume(track, offset, VOLUME_STEP);
    }

    /** The volume-down action: a step of -5. */
    method VolumeDown(track: nat, offset: nat)
      requires Valid() && track < |tracks| && offset < trackLength
      modifies this`tracks, this`nullNote
      ensures Valid()
      ensures var c := old(tracks[track].notes[offset]);
        var v := SteppedVolume(old(NoteAt(track, offset)).volume, -VOLUME_STEP);
        match c
        case Shared => tracks == old(tracks) && nullNote == old(nullNote).(volume := v)
        case Own(n) => tracks == WithNote(old(tracks), track, offset, Own(n.(volume := v)))
                       && nullNote == old(nullNote)
    {
      IncrementVolume(track, offset, -VOLUME_STEP);
    }

    /**
     * Puts pitch `note` on the step the note-entry editor is open on, as a new
     * note object of that step's own that keeps the octave and volume the
     * step showed, and closes the editor.
     */
    method InsertNote(note: string)
      requires Valid() && KeyboardOnStep()
      modifies this`tracks, this`openedVK
      ensures Valid()
      ensures openedVK == None
      ensures var t := old(openedVK).value;
        tracks == WithNote(old(tracks), t.track, t.offset, Own(old(TargetNote()).(note := note)))
    {
      var t := openedVK.value;
      tracks := WithNote(tracks, t.track, t.offset, Own(TargetNote().(note := note)));
      openedVK := None;
    }

    /**
     * Puts the shared empty-note object on one step, so that the step shows
     * the empty note's current contents; no editor needs to be open.
     */
    method RemoveNote(track: nat, offset: nat)
      requires Valid() && track < |tracks| && offset < trackLength
      modifies this`tracks
      ensures Valid()
      ensures tracks == WithNote(old(tracks), track, offset, Shared)
      ensures NoteAt(track, offset) == nullNote
    {
      tracks := WithNote(tracks, track, offset, Shared);
    }

    /**
     * Moves the octave of the step the note-entry editor is open on by `inc`,
     * as a new note object of that step's own, unless the octave rule refuses
     * it; the editor stays open.
     */
    method ChangeOctave(inc: int)
      requires Valid() && KeyboardOnStep()
      modifies this`tracks
      ensures Valid()
      ensures var t := openedVK.value;
        match ChangedOctave(old(CurrentOctave()), inc)
        case None => tracks == old(tracks)
        case Some(o) => tracks == WithNote(old(tracks), t.track, t.offset, Own(old(TargetNote()).(octave := o)))
    {
      var nextOctave := CurrentOctave() + inc;
      if nextOctave >= 8 && inc == 1 {
        return;
      } else if nextOctave == 0 && inc == -1 {
        return;
      }
      var t := openedVK.value;
      tracks := WithNote(tracks, t.track, t.offset, Own(TargetNote().(octave := nextOctave)));
    }

    /** The lower-octave action: a step of -1. */
    method LowerOctave()
      requires Valid() && KeyboardOnStep()
      modifies this`tracks
      ensures Valid()
      ensures ChangedOctave(old(CurrentOctave()), -1).None? ==> tracks == old(tracks)
      ensures ChangedOctave(old(CurrentOctave()), -1).Some? ==>
        var t := openedVK.value;
        tracks == WithNote(old(tracks), t.track, t.offset,
                           Own(old(TargetNote()).(octave := OctaveAfter(old(CurrentOctave()), -1))))
    {
      ChangeOctave(-1);
    }

    /** The upper-octave action: a step of +1. */
    method UpperOctave()
      requires Valid() && KeyboardOnStep()
      modifies this`tracks
      ensures Valid()
      ensures ChangedOctave(old(CurrentOctave()), 1).None? ==> tracks == old(tracks)
      ensures ChangedOctave(old(CurrentOctave()), 1).Some? ==>
        var t := openedVK.value;
        tracks == WithNote(old(tracks), t.track, t.offset,
                           Own(old(TargetNote()).(octave := OctaveAfter(old(CurrentOctave()), 1))))
    {
      ChangeOctave(1);
    }

    // -------------------------------------------------------------------------
    // Tempo

    method SetBPM(requested: int)
      requires Valid()
      modifies this`bpm
      ensures Valid() && bpm == ClampBPM(requested)
    {
      bpm := if requested > 300 then 300 else if requested < 50 then 50 else requested;
    }
  }
}
