/**
 * The playback tick as pure rules: where the step cursor goes next, and which
 * tracks sound at the current step.
 */
module Transport {
  import opened TrackModel

  /** The cursor after one tick on a grid of `len` steps: one step on, back to 0 after the last. */
  function NextStep(i: nat, len: nat): (r: nat)
    requires i < len
    ensures r < len
    ensures r == (i + 1) % len
  {
    if i < len - 1 then i + 1 else 0
  }

  /** The cursor after `n` ticks starting from `i`. */
  function Ticks(i: nat, n: nat, len: nat): (r: nat)
    requires i < len
    ensures r < len
    decreases n
  {
    if n == 0 then i else Ticks(NextStep(i, len), n - 1, len)
  }

  /** Ticking `a` times and then `b` times is ticking `a + b` times. */
  lemma {:induction false} TicksCompose(i: nat, a: nat, b: nat, len: nat)
    requires i < len
    ensures Ticks(Ticks(i, a, len), b, len) == Ticks(i, a + b, len)
    decreases a
  {
    if a > 0 {
      TicksCompose(NextStep(i, len), a - 1, b, len);
    }
  }

  /** From step `i`, `n` ticks that do not pass the last step land on step `i + n`. */
  lemma {:induction false} TicksForward(i: nat, n: nat, len: nat)
    requires i + n < len
    ensures Ticks(i, n, len) == i + n
    decreases n
  {
    if n > 0 {
      TicksForward(i + 1, n - 1, len);
    }
  }

  /** A full cycle of `len` ticks brings the cursor back to where it started. */
  lemma FullCycleReturns(i: nat, len: nat)
    requires i < len
    ensures Ticks(i, len, len) == i
  {
    // len - 1 - i ticks reach the last step, one more wraps to 0, i more reach i.
    TicksForward(i, len - 1 - i, len);
    TicksCompose(i, len - 1 - i, 1, len);
    TicksCompose(i, len - i, i, len);
    if i > 0 {
      TicksForward(0, i, len);
    }
  }

  /**
   * The triggers of one tick at cursor `step`, where `shared` is the current
   * contents of the shared empty note: one per track whose step sounds, in
   * track order. Defined on growing prefixes, as the tick visits the tracks.
   */
  function Triggers(tracks: seq<Track>, step: nat, shared: Note): (ts: seq<Trigger>)
    requires HasStep(tracks, step)
    ensures |ts| <= |tracks|
    ensures forall j :: 0 <= j < |ts| ==> ts[j].track < |tracks|
    ensures forall i, j :: 0 <= i < j < |ts| ==> ts[i].track < ts[j].track
    decreases |tracks|
  {
    if tracks == [] then []
    else
      var n := |tracks| - 1;
      Triggers(tracks[..n], step, shared)
        + (if Sounds(NoteOf(tracks[n], step, shared)) then [TriggerFor(n, tracks[n], step, shared)] else [])
  }

  /**
   * Every trigger comes from a track whose step at `step` sounds, and carries
   * that track's oscillator and that step's volume, note and octave.
   */
  lemma {:induction false} TriggersSound(tracks: seq<Track>, step: nat, shared: Note, j: nat)
    requires HasStep(tracks, step)
    requires j < |Triggers(tracks, step, shared)|
    ensures var t := Triggers(tracks, step, shared)[j];
      t.track < |tracks| && Sounds(NoteOf(tracks[t.track], step, shared))
      && t == TriggerFor(t.track, tracks[t.track], step, shared)
    decreases |tracks|
  {
    var n := |tracks| - 1;
    var prefix := tracks[..n];
    if j < |Triggers(prefix, step, shared)| {
      TriggersSound(prefix, step, shared, j);
    }
  }

  /** Every track whose step at `step` sounds gets a trigger. */
  lemma {:induction false} TriggersComplete(tracks: seq<Track>, step: nat, shared: Note, k: nat)
    requires HasStep(tracks, step)
    requires k < |tracks| && Sounds(NoteOf(tracks[k], step, shared))
    ensures exists j :: 0 <= j < |Triggers(tracks, step, shared)| && Triggers(tracks, step, shared)[j].track == k
    decreases |tracks|
  {
    var n := |tracks| - 1;
    var prefix := tracks[..n];
    if k == n {
      assert Triggers(tracks, step, shared)[|Triggers(prefix, step, shared)|].track == k;
    } else {
      TriggersComplete(prefix, step, shared, k);
      var j :| 0 <= j < |Triggers(prefix, step, shared)| && Triggers(prefix, step, shared)[j].track == k;
      assert Triggers(tracks, step, shared)[j].track == k;
    }
  }

  /** A track whose steps are all sentinels never triggers, whatever the cursor. */
  lemma SilentTrackNeverTriggers(tracks: seq<Track>, step: nat, shared: Note, k: nat)
    requires HasStep(tracks, step)
    requires k < |tracks|
    requires forall s :: 0 <= s < |tracks[k].notes| ==> !Sounds(NoteOf(tracks[k], s, shared))
    ensures forall j :: 0 <= j < |Triggers(tracks, step, shared)| ==> Triggers(tracks, step, shared)[j].track != k
  {
    forall j | 0 <= j < |Triggers(tracks, step, shared)|
      ensures Triggers(tracks, step, shared)[j].track != k
    {
      TriggersSound(tracks, step, shared, j);
    }
  }
}
