/**
 * The trigger gate: from one frame's reading to at most one playback
 * command, with a 150 ms debounce between frames that reach the decision.
 *
 * The gate state is what the player keeps between frames: the time and
 * note of the last frame that passed the debounce window, whether it is
 * playing, and the text it shows. Step is the specification of one frame;
 * the Player class holds the same state in fields and ProcessFrame updates
 * them in place.
 */
module Gate {
  import opened Wrappers
  import opened Hand
  import opened Sound

  /** The instrument the user has selected; playing it is the audio backend's job. */
  datatype Instrument = Piano | Synth | Marimba

  /** What a command plays: one scale note, or a triad. */
  datatype Voicing = SingleNote(note: Note) | Triad(pitches: seq<Note>)

  /** One attack-and-release request for the audio backend. */
  datatype Command = Command(instrument: Instrument, voicing: Voicing, duration: string, volume: real)

  /** Tone.js duration tag of every command: an eighth note. */
  const Duration: string := "8n"

  /** A frame reaches the decision only if more than this many ms passed since the last one did. */
  const DebounceMs: int := 150

  /** Palm centre, used for both pitch (its y) and volume (its z). */
  const Palm: nat := 9

  /** A hand frame the engine can map: 21 landmarks and the palm not below the frame. */
  predicate ValidFrame(lm: Landmarks) {
    IsHand(lm) && lm[Palm].y <= 1.0
  }

  predicate ValidInput(hand: Option<Landmarks>) {
    hand.Some? ==> ValidFrame(hand.value)
  }

  /**
   * The choice made once the debounce window has passed: a triad when the
   * thumb is up and three or more fingers are raised, otherwise a single
   * note when any finger is raised, otherwise nothing.
   */
  function Decide(g: Gesture, note: Note, volume: real, instrument: Instrument): (r: Option<Command>)
    requires note != []
    ensures r.Some? <==> g.raisedFingers > 0
    ensures r.Some? ==> r.value.instrument == instrument && r.value.duration == "8n" && r.value.volume == volume
    ensures r.Some? ==> (r.value.voicing.Triad? <==> g.isThumbUp && g.raisedFingers >= 3)
    ensures r.Some? && r.value.voicing.Triad? ==> r.value.voicing.pitches == ChordFor(note)
    ensures r.Some? && r.value.voicing.SingleNote? ==> r.value.voicing.note == note
  {
    if g.isThumbUp && g.raisedFingers >= 3 then
      Some(Command(instrument, Triad(ChordFor(note)), Duration, volume))
    else if g.raisedFingers > 0 then
      Some(Command(instrument, SingleNote(note), Duration, volume))
    else
      None
  }

  /**
   * The status text for what was just played: the note itself, or the
   * first letter of the palm's note followed by " chord", whatever triad
   * was actually played.
   */
  function Label(v: Voicing, note: Note): (r: string)
    requires note != []
    ensures v.SingleNote? ==> r == v.note
    ensures v.Triad? ==> |r| == 7 && r[0] == note[0] && r[1..] == " chord"
    ensures note in Notes && v.Triad? ==> r in ChordLabels
  {
    match v
    case SingleNote(n) => n
    case Triad(_) => [note[0]] + " chord"
  }

  /** Every status text a triad can produce. */
  const ChordLabels: set<string> := set n <- Notes | n != [] :: [n[0]] + " chord"

  /** The command a hand frame would produce once past the debounce window. */
  function FrameCommand(lm: Landmarks, instrument: Instrument): Option<Command>
    requires ValidFrame(lm)
  {
    Decide(GestureOf(lm), NoteFor(lm[Palm].y), Volume(lm[Palm].z), instrument)
  }

  datatype GateState = GateState(
    lastPlayTime: int,
    lastPlayedNote: Option<Note>,
    isPlaying: bool,
    currentNote: string)

  /** The state before any frame: time 0, no note yet, idle, nothing shown. */
  const Initial: GateState := GateState(0, None, false, "")

  /**
   * What the gate state always satisfies: an idle player shows nothing,
   * the text shown is empty, a scale note or a chord label, the last note
   * is a scale note, and before the first stamped frame the time is still
   * 0 and the player idle.
   */
  predicate GateInvariant(s: GateState) {
    && (!s.isPlaying ==> s.currentNote == "")
    && (s.currentNote == "" || s.currentNote in Notes || s.currentNote in ChordLabels)
    && (s.lastPlayedNote.Some? ==> s.lastPlayedNote.value in Notes)
    && (s.lastPlayedNote.None? ==> s.lastPlayTime == 0 && !s.isPlaying)
  }

  /**
   * One frame, as onResults handles it. A frame without a hand only marks
   * the player idle and clears the text. A hand frame within the window
   * changes nothing. A hand frame past the window emits what Decide
   * chooses, shows it if anything was played, and stamps the note and the
   * time whether or not anything was played.
   */
  function Step(s: GateState, hand: Option<Landmarks>, now: int, instrument: Instrument): (r: (GateState, Option<Command>))
    requires ValidInput(hand)
    ensures r.1.Some? ==> hand.Some? && now - s.lastPlayTime > 150
    ensures r.1.Some? ==> r.0.lastPlayTime == now && r.0.isPlaying && r.0.currentNote != ""
    ensures r.0.lastPlayTime == s.lastPlayTime || r.0.lastPlayTime == now
    ensures hand.None? ==> r.1.None? && !r.0.isPlaying && r.0.currentNote == ""
    ensures hand.None? ==> r.0.lastPlayTime == s.lastPlayTime && r.0.lastPlayedNote == s.lastPlayedNote
    ensures hand.Some? ==> (r.0.isPlaying <==> s.isPlaying || now - s.lastPlayTime > 150)
  {
    match hand
    case None => (s.(isPlaying := false, currentNote := ""), None)
    case Some(lm) =>
      if now - s.lastPlayTime > DebounceMs then
        var note := NoteFor(lm[Palm].y);
        var cmd := Decide(GestureOf(lm), note, Volume(lm[Palm].z), instrument);
        var shown := if cmd.Some? then Label(cmd.value.voicing, note) else s.currentNote;
        (GateState(now, Some(note), true, shown), cmd)
      else
        (s, None)
  }

  lemma InitialSatisfiesInvariant()
    ensures GateInvariant(Initial)
  {
  }

  /** Every frame keeps the gate invariant. */
  lemma StepKeepsInvariant(s: GateState, hand: Option<Landmarks>, now: int, instrument: Instrument)
    requires GateInvariant(s) && ValidInput(hand)
    ensures GateInvariant(Step(s, hand, now, instrument).0)
  {
  }

  /** A frame without a hand emits nothing, goes idle, and leaves the debounce stamp alone. */
  lemma NoHandIsSilent(s: GateState, now: int, instrument: Instrument)
    ensures Step(s, None, now, instrument).1 == None
    ensures Step(s, None, now, instrument).0.lastPlayTime == s.lastPlayTime
    ensures Step(s, None, now, instrument).0.lastPlayedNote == s.lastPlayedNote
    ensures !Step(s, None, now, instrument).0.isPlaying
    ensures Step(s, None, now, instrument).0.currentNote == ""
  {
  }

  /** A hand frame at most 150 ms after the last stamp emits nothing and changes nothing. */
  lemma WithinWindowIsSilent(s: GateState, lm: Landmarks, now: int, instrument: Instrument)
    requires ValidFrame(lm) && now - s.lastPlayTime <= 150
    ensures Step(s, Some(lm), now, instrument) == (s, None)
  {
  }

  /**
   * A hand frame more than 150 ms after the last stamp emits the frame's
   * command, which is absent exactly when no finger is raised, and stamps
   * its note and time in either case.
   */
  lemma PastWindowStamps(s: GateState, lm: Landmarks, now: int, instrument: Instrument)
    requires ValidFrame(lm) && now - s.lastPlayTime > 150
    ensures Step(s, Some(lm), now, instrument).1 == FrameCommand(lm, instrument)
    ensures Step(s, Some(lm), now, instrument).1.None? <==> GestureOf(lm).raisedFingers == 0
    ensures Step(s, Some(lm), now, instrument).0.lastPlayTime == now
    ensures Step(s, Some(lm), now, instrument).0.lastPlayedNote == Some(NoteFor(lm[9].y))
    ensures Step(s, Some(lm), now, instrument).0.isPlaying
  {
  }

  /**
   * Past the window, thumb up with three or more raised fingers plays the
   * triad of the palm's note and never a single note.
   */
  lemma ChordTakesPrecedence(s: GateState, lm: Landmarks, now: int, instrument: Instrument)
    requires ValidFrame(lm) && now - s.lastPlayTime > 150
    requires GestureOf(lm).isThumbUp && GestureOf(lm).raisedFingers >= 3
    ensures Step(s, Some(lm), now, instrument).1 ==
      Some(Command(instrument, Triad(ChordFor(NoteFor(lm[9].y))), "8n", Volume(lm[9].z)))
  {
  }

  /**
   * Past the window, thumb up with three or more fingers and a palm note
   * whose letter has no triad (D, E, A or B): the C triad plays while the
   * status text names the note's own letter, e.g. "A chord".
   */
  lemma FallbackChordShowsOwnLetter(s: GateState, lm: Landmarks, now: int, instrument: Instrument)
    requires ValidFrame(lm) && now - s.lastPlayTime > 150
    requires GestureOf(lm).isThumbUp && GestureOf(lm).raisedFingers >= 3
    requires NoteFor(lm[9].y)[0] in {'D', 'E', 'A', 'B'}
    ensures Step(s, Some(lm), now, instrument).1.Some?
    ensures Step(s, Some(lm), now, instrument).1.value.voicing == Triad(CTriad)
    ensures Step(s, Some(lm), now, instrument).0.currentNote == [NoteFor(lm[9].y)[0]] + " chord"
    ensures Step(s, Some(lm), now, instrument).0.currentNote[0] != CTriad[0][0]
  {
  }

  /** A frame as delivered by the tracker: an optional hand and the clock reading. */
  datatype Frame = Frame(hand: Option<Landmarks>, now: int)

  predicate ValidFrames(frames: seq<Frame>) {
    forall k :: 0 <= k < |frames| ==> ValidInput(frames[k].hand)
  }

  /**
   * A stream of frames handled in arrival order: the final state and every
   * command emitted. Each frame adds at most one command, and a stream with
   * no hand in it emits nothing.
   */
  function Run(s: GateState, frames: seq<Frame>, instrument: Instrument): (r: (GateState, seq<Command>))
    requires ValidFrames(frames)
    ensures |r.1| <= |frames|
    ensures (forall k :: 0 <= k < |frames| ==> frames[k].hand.None?) ==> r.1 == []
    decreases |frames|
  {
    if frames == [] then (s, [])
    else
      var (s1, cmd) := Step(s, frames[0].hand, frames[0].now, instrument);
      var (s2, rest) := Run(s1, frames[1..], instrument);
      (s2, (if cmd.Some? then [cmd.value] else []) + rest)
  }

  /**
   * Frames that all arrive within 150 ms of the last stamp emit nothing and
   * leave the stamp as it was, with or without a hand in them: a frame
   * without a hand does not reopen the window.
   */
  lemma {:induction false} QuietWithinWindow(s: GateState, frames: seq<Frame>, instrument: Instrument)
    requires ValidFrames(frames)
    requires forall k :: 0 <= k < |frames| ==> frames[k].now - s.lastPlayTime <= 150
    ensures Run(s, frames, instrument).1 == []
    ensures Run(s, frames, instrument).0.lastPlayTime == s.lastPlayTime
    ensures Run(s, frames, instrument).0.lastPlayedNote == s.lastPlayedNote
    decreases |frames|
  {
    if frames != [] {
      var s1 := Step(s, frames[0].hand, frames[0].now, instrument).0;
      QuietWithinWindow(s1, frames[1..], instrument);
    }
  }

  /**
   * Frames that each arrive at most 150 ms after every earlier frame of
   * the stream emit at most one command between them, whatever the hands
   * do and wherever the stamp stood before.
   */
  lemma {:induction false} AtMostOnePerWindow(s: GateState, frames: seq<Frame>, instrument: Instrument)
    requires ValidFrames(frames)
    requires forall i, j :: 0 <= i < j < |frames| ==> frames[j].now - frames[i].now <= 150
    ensures |Run(s, frames, instrument).1| <= 1
    decreases |frames|
  {
    if frames != [] {
      var (s1, cmd) := Step(s, frames[0].hand, frames[0].now, instrument);
      var rest := frames[1..];
      if cmd.Some? {
        QuietWithinWindow(s1, rest, instrument);
      } else {
        AtMostOnePerWindow(s1, rest, instrument);
      }
    }
  }

  /** The player's state between frames, updated in place by each frame. */
  class Player {
    var lastPlayTime: int
    var lastPlayedNote: Option<Note>
    var isPlaying: bool
    var currentNote: string

    function State(): GateState
      reads this
    {
      GateState(lastPlayTime, lastPlayedNote, isPlaying, currentNote)
    }

    /**
     * The gate invariant on the fields. ProcessFrame keeps it; its equation
     * with Step does not depend on it, so it documents what the fields can
     * hold (an idle player shows nothing, the text is a note or a chord label).
     */
    predicate Valid()
      reads this
    {
      GateInvariant(State())
    }

    constructor ()
      ensures Valid() && State() == Initial
    {
      lastPlayTime := 0;
      lastPlayedNote := None;
      isPlaying := false;
      currentNote := "";
    }

    /**
     * onResults: classify the hand, map pitch and volume, then pass the
     * debounce gate. Returns the command sent to the audio backend, if any.
     */
    method ProcessFrame(hand: Option<Landmarks>, now: int, instrument: Instrument) returns (cmd: Option<Command>)
      requires Valid() && ValidInput(hand)
      modifies this
      ensures Valid()
      ensures (State(), cmd) == Step(old(State()), hand, now, instrument)
    {
      ghost var before := State();
      cmd := None;
      if hand.Some? {
        var lm := hand.value;
        var fingerStates := CalculateFingerState(lm);
        var gesture := DetectGesture(lm, fingerStates);
        var note := NoteFor(lm[Palm].y);
        var volume := Volume(lm[Palm].z);
        if now - lastPlayTime > DebounceMs {
          if gesture.isThumbUp && gesture.raisedFingers >= 3 {
            var chordNotes := ChordFor(note);
            cmd := Some(Command(instrument, Triad(chordNotes), Duration, volume));
            currentNote := [note[0]] + " chord";
          } else if gesture.raisedFingers > 0 {
            cmd := Some(Command(instrument, SingleNote(note), Duration, volume));
            currentNote := note;
          }
          lastPlayedNote := Some(note);
          lastPlayTime := now;
          isPlaying := true;
        }
      } else {
        isPlaying := false;
        currentNote := "";
      }
      StepKeepsInvariant(before, hand, now, instrument);
    }
  }

  /** Two hand frames 100 ms apart, both with a finger raised: only the first plays. */
  method DebounceExample(lm: Landmarks, t: int)
    requires ValidFrame(lm) && t > 150 && GestureOf(lm).raisedFingers > 0
  {
    var player := new Player();
    var first := player.ProcessFrame(Some(lm), t, Piano);
    assert first.Some?;
    var second := player.ProcessFrame(Some(lm), t + 100, Piano);
    assert second.None?;
    var gone := player.ProcessFrame(None, t + 120, Piano);
    var third := player.ProcessFrame(Some(lm), t + 140, Piano);
    assert gone.None? && third.None?;
    var fourth := player.ProcessFrame(Some(lm), t + 151, Piano);
    assert fourth.Some?;
  }
}
