/**
 * The pitch and volume mapper: the fixed scale and chord tables, hand
 * height to scale note, and palm depth to loudness.
 */
module Sound {

  type Note = string

  /** The scale the hand plays, lowest first: one octave of C major. */
  const Notes: seq<Note> := ["C4", "D4", "E4", "F4", "G4", "A4", "B4", "C5"]

  /** Triads keyed by the first letter of a note's name. */
  const Chords: map<char, seq<Note>> := map[
    'C' := ["C4", "E4", "G4"],
    'F' := ["F4", "A4", "C5"],
    'G' := ["G4", "B4", "D5"]
  ]

  const CTriad: seq<Note> := ["C4", "E4", "G4"]

  /**
   * The scale position for palm height 1 - y9: the height is cut into
   * |Notes| equal buckets and everything from the top bucket upwards
   * plays the last note. There is no lower clamp: a palm below the frame
   * (y9 > 1) would give a negative position, so callers must keep y9 <= 1.
   */
  function NoteIndex(y9: real): (i: nat)
    requires y9 <= 1.0
    ensures i < |Notes|
    ensures i < |Notes| - 1 ==> i as real <= (1.0 - y9) * 8.0 < (i + 1) as real
    ensures i == |Notes| - 1 <==> (1.0 - y9) * 8.0 >= 7.0
  {
    var raw := ((1.0 - y9) * (|Notes| as real)).Floor;
    if raw < |Notes| - 1 then raw else |Notes| - 1
  }

  /** The note played for palm height 1 - y9. */
  function NoteFor(y9: real): (n: Note)
    requires y9 <= 1.0
    ensures n in Notes && |n| == 2
  {
    Notes[NoteIndex(y9)]
  }

  /** A higher palm (smaller y9) never gives a lower scale position. */
  lemma PitchMonotone(y9: real, y9': real)
    requires y9 <= y9' <= 1.0
    ensures NoteIndex(y9') <= NoteIndex(y9)
  {
  }

  /** The top edge of the frame, and everything in the top eighth, plays C5. */
  lemma TopBucketIsLastNote(y9: real)
    requires y9 <= 0.125
    ensures NoteFor(y9) == "C5"
  {
  }

  /** A palm at y9 = 0.2 (height 0.8) falls in bucket floor(6.4) = 6, B4. */
  lemma PalmAtPointTwoPlaysB4()
    ensures NoteIndex(0.2) == 6 && NoteFor(0.2) == "B4"
  {
  }

  function Min(a: real, b: real): real { if a < b then a else b }
  function Max(a: real, b: real): real { if a < b then b else a }

  /**
   * Loudness from palm depth z9 (negative is closer to the camera):
   * 1 - z9 clamped into [0.3, 1].
   */
  function Volume(z9: real): (v: real)
    ensures 0.3 <= v <= 1.0
    ensures 0.3 <= 1.0 - z9 <= 1.0 ==> v == 1.0 - z9
    ensures 1.0 - z9 > 1.0 ==> v == 1.0
    ensures 1.0 - z9 < 0.3 ==> v == 0.3
  {
    Max(0.3, Min(1.0, 1.0 - z9))
  }

  /**
   * The triad played for a note: the one keyed by the note's first letter,
   * or the C triad when that letter has none.
   */
  function ChordFor(note: Note): (r: seq<Note>)
    requires note != []
    ensures |r| == 3 && forall p <- r :: |p| == 2
    ensures note[0] in Chords ==> r == Chords[note[0]] && r[0][0] == note[0]
    ensures note[0] !in Chords ==> r == CTriad
  {
    if note[0] in Chords then Chords[note[0]] else Chords['C']
  }

  /**
   * For a scale note, the triad played is rooted on the note's own letter
   * exactly when that letter has a triad; D, E, A and B fall back to C,
   * although the display still names their own letter.
   */
  lemma ChordRootMatchesNote(note: Note)
    requires note in Notes
    ensures ChordFor(note)[0][0] == note[0] <==> note[0] in {'C', 'F', 'G'}
    ensures note[0] !in {'C', 'F', 'G'} ==> ChordFor(note) == CTriad
  {
  }
}
