/**
 * The values the playback store keeps: one step of a track (a note, either
 * the step's own or the one shared empty-note object), a track (its grid of
 * steps plus display metadata), and the record a playback tick hands to the
 * audio layer for every step that sounds.
 */
module TrackModel {

  /** One step of a track: a pitch name (or a sentinel), an octave and a volume. */
  datatype Note = Note(note: string, octave: int, volume: int)

  /**
   * What a step holds: a note object of its own, or the one shared empty-note
   * object that removing a note stores. Every step holding `Shared` sees the
   * same, possibly edited, note.
   */
  datatype Cell = Own(n: Note) | Shared

  /** The note a step shows, given the current contents of the shared empty note. */
  function Resolve(c: Cell, shared: Note): Note
  {
    match c
    case Own(n) => n
    case Shared => shared
  }

  /** One instrument lane: its steps, its label, its display colour and its oscillator kind. */
  datatype Track = Track(notes: seq<Cell>, name: string, bgColor: string, oscType: string)

  /**
   * What one sounding step asks of the audio layer: which track, with which
   * oscillator and volume, and the pitch (name and octave) the frequency is
   * derived from.
   */
  datatype Trigger = Trigger(track: nat, oscType: string, volume: int, note: string, octave: int)

  /** "-" marks an empty step and "#" a rest; neither is ever sounded. */
  predicate Sounds(n: Note)
  {
    n.note != "-" && n.note != "#"
  }

  /** Every track has a step with index `step`. */
  predicate HasStep(tracks: seq<Track>, step: nat)
  {
    forall k :: 0 <= k < |tracks| ==> step < |tracks[k].notes|
  }

  /** The note step `step` of track `t` shows. */
  function NoteOf(t: Track, step: nat, shared: Note): Note
    requires step < |t.notes|
  {
    Resolve(t.notes[step], shared)
  }

  /** The trigger emitted for track number `k` when its step `step` sounds. */
  function TriggerFor(k: nat, t: Track, step: nat, shared: Note): Trigger
    requires step < |t.notes|
  {
    var n := NoteOf(t, step, shared);
    Trigger(k, t.oscType, n.volume, n.note, n.octave)
  }

  /** Replaces step `s` of track `k` by `n`; every other step and every other field stays. */
  function WithNote(tracks: seq<Track>, k: nat, s: nat, n: Cell): (r: seq<Track>)
    requires k < |tracks| && s < |tracks[k].notes|
    ensures |r| == |tracks|
    ensures forall j :: 0 <= j < |r| && j != k ==> r[j] == tracks[j]
    ensures r[k].name == tracks[k].name && r[k].bgColor == tracks[k].bgColor
    ensures r[k].oscType == tracks[k].oscType
    ensures |r[k].notes| == |tracks[k].notes| && r[k].notes[s] == n
    ensures forall i :: 0 <= i < |r[k].notes| && i != s ==> r[k].notes[i] == tracks[k].notes[i]
  {
    tracks[k := tracks[k].(notes := tracks[k].notes[s := n])]
  }

  // ---------------------------------------------------------------------------
  // Automatic track names: "Track " followed by the decimal counter.

  predicate IsDigit(c: char)
  {
    '0' <= c <= '9'
  }

  predicate AllDigits(s: string)
  {
    forall i :: 0 <= i < |s| ==> IsDigit(s[i])
  }

  function DigitChar(d: nat): (c: char)
    requires d < 10
    ensures IsDigit(c)
  {
    ('0' as int + d) as char
  }

  /** The decimal numeral of `n`, as JavaScript writes a non-negative integer. */
  function DecimalString(n: nat): (s: string)
    ensures |s| >= 1 && AllDigits(s)
    ensures s[0] == '0' ==> n == 0
    decreases n
  {
    if n < 10 then [DigitChar(n)] else DecimalString(n / 10) + [DigitChar(n % 10)]
  }

  /** The number a string of decimal digits denotes. */
  function DecimalValue(s: string): nat
    requires AllDigits(s)
  {
    if s == [] then 0
    else DecimalValue(s[..|s| - 1]) * 10 + (s[|s| - 1] as int - '0' as int)
  }

  /** Reading back the decimal numeral of `n` gives `n`. */
  lemma {:induction false} DecimalRoundTrip(n: nat)
    ensures DecimalValue(DecimalString(n)) == n
    decreases n
  {
    if n >= 10 {
      var s := DecimalString(n);
      assert s[..|s| - 1] == DecimalString(n / 10);
      DecimalRoundTrip(n / 10);
    }
  }

  /** The name a new track gets from the name counter. */
  function AutoName(counter: nat): string
  {
    "Track " + DecimalString(counter)
  }

  /** Two different counter values never give the same automatic name. */
  lemma AutoNameInjective(a: nat, b: nat)
    requires AutoName(a) == AutoName(b)
    ensures a == b
  {
    assert DecimalString(a) == AutoName(a)[6..];
    assert DecimalString(b) == AutoName(b)[6..];
    DecimalRoundTrip(a);
    DecimalRoundTrip(b);
  }
}
