/**
 * Client code that drives the store through typical playback and editing
 * sequences, using nothing but the store's contracts.
 */
module Scenarios {
  import opened Optional
  import opened TrackModel
  import opened Transport
  import opened Playback

  /** `len` consecutive ticks bring the cursor back to where it started. */
  method PlayFullCycle(store: PlaybackStore) returns (ticks: seq<seq<Trigger>>)
    requires store.Valid()
    modifies store
    ensures store.Valid() && store.cursor == old(store.cursor)
    ensures |ticks| == store.trackLength
  {
    ghost var start := store.cursor;
    ticks := [];
    var k := 0;
    while k < store.trackLength
      invariant store.Valid() && 0 <= k <= store.trackLength
      invariant start < store.trackLength
      invariant store.cursor == Ticks(start, k, store.trackLength)
      invariant |ticks| == k
      invariant store.tracks == old(store.tracks)
    {
      var triggers := store.Play();
      ticks := ticks + [triggers];
      TicksCompose(start, k, 1, store.trackLength);
      k := k + 1;
    }
    FullCycleReturns(start, store.trackLength);
  }

  /** Adding past the cap still advances the name counter, so a later track's name shows it. */
  method NameCounterSurvivesCap()
  {
    var empty := Note("-", 3, 50);
    var store := new PlaybackStore(2, 1, empty, ["sine"], [Shared, Shared]);
    store.AddTrack();
    store.AddTrack();
    assert |store.tracks| == 1 && store.trackNameIterator == 2;
    store.DeleteTrack(0);
    assert store.tracks == [];
    store.AddTrack();
    assert store.tracks[0].name == "Track " + DecimalString(3);
  }

  /** Inserting a pitch keeps the step's octave and volume and closes the keyboard. */
  method InsertKeepsOctaveAndVolume()
  {
    var empty := Note("-", 4, 80);
    var store := new PlaybackStore(1, 8, empty, ["sine"], [Shared]);
    store.AddTrack();
    store.OpenVirtualKeyboard(0, 0);
    store.InsertNote("C");
    assert store.tracks[0].notes[0] == Own(Note("C", 4, 80));
    assert store.openedVK == None;
  }

  /** The octave edit refuses to go above 7, while the volume step saturates at 100. */
  method OctaveRefusesVolumeSaturates()
  {
    var empty := Note("-", 6, 98);
    var store := new PlaybackStore(1, 8, empty, ["sine"], [Shared]);
    store.AddTrack();
    store.OpenVirtualKeyboard(0, 0);
    store.InsertNote("C");
    store.OpenVirtualKeyboard(0, 0);
    store.UpperOctave();
    assert store.NoteAt(0, 0) == Note("C", 7, 98);
    store.UpperOctave();
    assert store.NoteAt(0, 0).octave == 7;
    store.VolumeUp(0, 0);
    assert store.NoteAt(0, 0).volume == 100;
    store.VolumeUp(0, 0);
    assert store.NoteAt(0, 0).volume == 100;
  }

  /**
   * Removed steps all hold the one empty note: a volume step on one of them
   * shows on the others, on later removals and on a pitch inserted there.
   */
  method EmptyStepsShareVolume()
  {
    var empty := Note("-", 3, 50);
    var store := new PlaybackStore(3, 8, empty, ["sine"], [Own(empty), Own(empty), Own(empty)]);
    store.AddTrack();
    store.RemoveNote(0, 0);
    store.RemoveNote(0, 1);
    store.VolumeUp(0, 0);
    assert store.NoteAt(0, 1).volume == 55;
    assert store.NoteAt(0, 2).volume == 50;
    store.RemoveNote(0, 2);
    assert store.NoteAt(0, 2).volume == 55;
    store.OpenVirtualKeyboard(0, 1);
    store.InsertNote("E");
    assert store.NoteAt(0, 1) == Note("E", 3, 55);
  }
}
