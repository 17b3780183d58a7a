/**
 * The value rules of the editing mutations: the tempo clamp, the saturating
 * volume step, the octave step that refuses an edit, and JavaScript's
 * one-element splice used to delete a track.
 */
module Editing {
  import opened Optional

  const MIN_BPM: int := 50
  const MAX_BPM: int := 300
  const MIN_VOLUME: int := 0
  const MAX_VOLUME: int := 100
  /** The step the volume actions pass to the volume mutation. */
  const VOLUME_STEP: int := 5

  function Min(a: int, b: int): int { if a <= b then a else b }
  function Max(a: int, b: int): int { if a >= b then a else b }

  /** The tempo `setBPM` stores: the requested value, clamped into [50, 300]. */
  function ClampBPM(bpm: int): (r: int)
    ensures MIN_BPM <= r <= MAX_BPM
    ensures r == Max(MIN_BPM, Min(MAX_BPM, bpm))
    ensures MIN_BPM <= bpm <= MAX_BPM ==> r == bpm
  {
    if bpm > 300 then 300 else if bpm < 50 then 50 else bpm
  }

  /**
   * The volume `incrementVolume` stores: a positive step saturates at 100,
   * a zero or negative step at 0.
   */
  function SteppedVolume(cur: int, inc: int): (r: int)
    ensures inc > 0 ==> r == Min(MAX_VOLUME, cur + inc)
    ensures inc <= 0 ==> r == Max(MIN_VOLUME, cur + inc)
    ensures MIN_VOLUME <= cur <= MAX_VOLUME ==> MIN_VOLUME <= r <= MAX_VOLUME
  {
    if inc > 0 then
      (if cur + inc >= 100 then 100 else cur + inc)
    else
      (if cur + inc <= 0 then 0 else cur + inc)
  }

  /**
   * The octave `changeOctave` writes, or None when it refuses the edit: a +1
   * step that would reach 8 or more, or a -1 step that would reach exactly 0.
   */
  function ChangedOctave(cur: int, inc: int): (r: Option<int>)
    ensures r.Some? ==> r.value == cur + inc
    ensures inc == 1 ==> (r.None? <==> cur >= 7)
    ensures inc == -1 ==> (r.None? <==> cur == 1)
    ensures inc != 1 && inc != -1 ==> r.Some?
  {
    var next := cur + inc;
    if next >= 8 && inc == 1 then None
    else if next == 0 && inc == -1 then None
    else Some(next)
  }

  /** The octave a note has after `changeOctave(inc)`: the new one, or the old one if refused. */
  function OctaveAfter(cur: int, inc: int): int
  {
    match ChangedOctave(cur, inc)
    case None => cur
    case Some(o) => o
  }

  /** The ±1 octave actions keep an octave that starts in [1, 7] inside [1, 7]. */
  lemma OctaveStepStaysInRange(cur: int, inc: int)
    requires 1 <= cur <= 7 && (inc == 1 || inc == -1)
    ensures 1 <= OctaveAfter(cur, inc) <= 7
  {
  }

  /** Raising then lowering the octave, from any octave in [1, 6], is the identity. */
  lemma OctaveUpDownRoundTrip(cur: int)
    requires 1 <= cur <= 6
    ensures OctaveAfter(OctaveAfter(cur, 1), -1) == cur
  {
  }

  /** Lowering then raising the octave, from any octave in [2, 7], is the identity. */
  lemma OctaveDownUpRoundTrip(cur: int)
    requires 2 <= cur <= 7
    ensures OctaveAfter(OctaveAfter(cur, -1), 1) == cur
  {
  }

  /**
   * The guard only refuses reaching 0 exactly: an octave already at 0 or
   * below is lowered further.
   */
  lemma OctaveBelowOneStillLowers(cur: int)
    requires cur <= 0
    ensures ChangedOctave(cur, -1) == Some(cur - 1)
  {
  }

  /** Where `splice(i, 1)` starts on an array of length `len` (negative `i` counts from the end). */
  function SpliceStart(i: int, len: nat): (s: nat)
    ensures s <= len
    ensures 0 <= i <= len ==> s == i
    ensures 0 < -i <= len ==> s == len + i
    ensures i + len < 0 ==> s == 0
    ensures i > len ==> s == len
  {
    if i < 0 then (if len + i < 0 then 0 else len + i)
    else if i > len then len
    else i
  }

  /**
   * The array after `splice(i, 1)`: the element at the start position is
   * removed when there is one; all others keep their order.
   */
  function SpliceOne<T>(s: seq<T>, i: int): (r: seq<T>)
    ensures var k := SpliceStart(i, |s|);
      && |r| == (if k < |s| then |s| - 1 else |s|)
      && (forall j :: 0 <= j < k && j < |r| ==> r[j] == s[j])
      && (forall j :: k <= j < |r| ==> r[j] == s[j + 1])
    ensures 0 <= i < |s| ==> r == s[..i] + s[i + 1..]
    ensures i >= |s| ==> r == s
  {
    var k := SpliceStart(i, |s|);
    if k < |s| then s[..k] + s[k + 1..] else s
  }

  /** A deletion keeps exactly the other elements, as a multiset. */
  lemma SpliceOneRemovesOne<T>(s: seq<T>, i: int)
    requires 0 <= i < |s|
    ensures multiset(SpliceOne(s, i)) + multiset{s[i]} == multiset(s)
  {
    assert s == s[..i] + [s[i]] + s[i + 1..];
  }
}
