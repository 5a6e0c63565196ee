/**
 * The audio store's note lists: the notes sounding or highlighted now
 * (`activeNotes`) and the notes played since the last clear
 * (`recordedNotes`). The audio engine itself is outside the model; where
 * an action waits for it, its outcome is a parameter.
 */
module AudioStore {
  import opened Text

  datatype AudioState = AudioState(
    isReady: bool,
    isPlaying: bool,
    activeNotes: seq<string>,
    recordedNotes: seq<string>,
    timeSignature: string)

  const INITIAL := AudioState(false, false, [], [], "4/4")

  /** `isPlaying` says whether any note is active. */
  predicate PlayingMatches(s: AudioState)
  {
    s.isPlaying <==> s.activeNotes != []
  }

  /** `initializeAudio`: ready once the engine has started; a failure leaves the state as it was. */
  function AudioInitialized(s: AudioState, engineStarted: bool): (r: AudioState)
    ensures r.isReady == (s.isReady || engineStarted)
    ensures r.(isReady := s.isReady) == s
  {
    if engineStarted then s.(isReady := true) else s
  }

  /** `startNote`: the note is sounded and recorded, each list keeping what it had before. */
  function NoteStarted(s: AudioState, note: string): (r: AudioState)
    ensures r.activeNotes == s.activeNotes + [note] && r.recordedNotes == s.recordedNotes + [note]
    ensures r.isPlaying && PlayingMatches(r)
    ensures r.isReady == s.isReady && r.timeSignature == s.timeSignature
  {
    s.(activeNotes := s.activeNotes + [note], recordedNotes := s.recordedNotes + [note], isPlaying := true)
  }

  /**
   * `stopNote` and `releaseNote` (they change the state alike): every copy of
   * the note leaves the active list, and the recording is untouched.
   */
  function NoteStopped(s: AudioState, note: string): (r: AudioState)
    ensures note !in r.activeNotes
    ensures forall n :: n != note ==> (n in r.activeNotes <==> n in s.activeNotes)
    ensures PlayingMatches(r)
    ensures r.recordedNotes == s.recordedNotes && r.isReady == s.isReady && r.timeSignature == s.timeSignature
  {
    var active := Without(s.activeNotes, note);
    s.(activeNotes := active, isPlaying := |active| > 0)
  }

  /** Stopping a note keeps the other active notes in their order, each as often as before. */
  lemma StopKeepsOtherNotes(s: AudioState, note: string)
    ensures NoteStopped(s, note).activeNotes == Filter(Differs(note), s.activeNotes)
    ensures multiset(NoteStopped(s, note).activeNotes) == multiset(s.activeNotes)[note := 0]
  {
    WithoutCounts(s.activeNotes, note);
  }

  /** `playNote`: the note becomes active (once) without being recorded. */
  function NotePlayed(s: AudioState, note: string): (r: AudioState)
    ensures note in r.activeNotes && r.isPlaying && PlayingMatches(r)
    ensures note in s.activeNotes ==> r.activeNotes == s.activeNotes
    ensures note !in s.activeNotes ==> r.activeNotes == s.activeNotes + [note]
    ensures r.recordedNotes == s.recordedNotes && r.isReady == s.isReady && r.timeSignature == s.timeSignature
  {
    s.(activeNotes := if note in s.activeNotes then s.activeNotes else s.activeNotes + [note], isPlaying := true)
  }

  /** `highlightNote`: like `playNote` for the lists, but `isPlaying` is left alone. */
  function NoteHighlighted(s: AudioState, note: string): (r: AudioState)
    ensures note in r.activeNotes
    ensures r == NotePlayed(s, note).(isPlaying := s.isPlaying)
  {
    s.(activeNotes := if note in s.activeNotes then s.activeNotes else s.activeNotes + [note])
  }

  /** `unhighlightNote`: every copy of the note leaves the active list; `isPlaying` is left alone. */
  function NoteUnhighlighted(s: AudioState, note: string): (r: AudioState)
    ensures r == NoteStopped(s, note).(isPlaying := s.isPlaying)
  {
    s.(activeNotes := Without(s.activeNotes, note))
  }

  /** `clearHighlights`, and the timeout that `highlightNote` arms: no note is active. */
  function HighlightsCleared(s: AudioState): (r: AudioState)
    ensures r.activeNotes == [] && r.(activeNotes := s.activeNotes) == s
  {
    s.(activeNotes := [])
  }

  /** `clearRecordedNotes`: the recording is emptied and the active notes stay. */
  function RecordingCleared(s: AudioState): (r: AudioState)
    ensures r.recordedNotes == [] && r.activeNotes == s.activeNotes && r.(recordedNotes := s.recordedNotes) == s
  {
    s.(recordedNotes := [])
  }

  /** `setTimeSignature` */
  function TimeSignatureSet(s: AudioState, signature: string): (r: AudioState)
    ensures r.timeSignature == signature && r.(timeSignature := s.timeSignature) == s
  {
    s.(timeSignature := signature)
  }

  /** Removing a note from a list it was just appended to removes the appended copy too. */
  lemma WithoutAppended(a: seq<string>, note: string)
    ensures Without(a + [note], note) == Without(a, note)
  {
    FilterAppend(Differs(note), a, [note]);
    assert Filter(Differs(note), [note]) == [];
  }

  /** Removing a note that is not in the list leaves the list as it is. */
  lemma WithoutAbsent(a: seq<string>, note: string)
    requires note !in a
    ensures Without(a, note) == a
  {
    FilterKeepsAll(Differs(note), a);
  }

  /**
   * Starting and then stopping a note leaves the active list as if every copy
   * of the note had been stopped, while the recording keeps the note.
   */
  lemma StartThenStop(s: AudioState, note: string)
    ensures NoteStopped(NoteStarted(s, note), note).activeNotes == Without(s.activeNotes, note)
    ensures NoteStopped(NoteStarted(s, note), note).recordedNotes == s.recordedNotes + [note]
  {
    WithoutAppended(s.activeNotes, note);
  }

  /** Playing a note that was not active and then stopping it gives back the state, when `isPlaying` was in step. */
  lemma PlayThenStop(s: AudioState, note: string)
    requires note !in s.activeNotes && PlayingMatches(s)
    ensures NoteStopped(NotePlayed(s, note), note) == s
  {
    WithoutAppended(s.activeNotes, note);
    WithoutAbsent(s.activeNotes, note);
  }

  /** Playing the same note twice is playing it once. */
  lemma PlayTwice(s: AudioState, note: string)
    ensures NotePlayed(NotePlayed(s, note), note) == NotePlayed(s, note)
  {
  }

  /**
   * Highlighting does not keep `isPlaying` in step with the active list: from
   * the initial state, a highlighted note is active while `isPlaying` stays false.
   */
  lemma HighlightCanLeavePlayingStale()
    ensures var r := NoteHighlighted(INITIAL, "C4");
      PlayingMatches(INITIAL) && !PlayingMatches(r) && r.activeNotes == ["C4"] && !r.isPlaying
  {
  }

  /** The audio store. */
  class AudioStore {
    var isReady: bool
    var isPlaying: bool
    var activeNotes: seq<string>
    var recordedNotes: seq<string>
    var timeSignature: string

    function State(): AudioState
      reads this
    {
      AudioState(isReady, isPlaying, activeNotes, recordedNotes, timeSignature)
    }

    constructor ()
      ensures State() == INITIAL
    {
      isReady, isPlaying, activeNotes, recordedNotes, timeSignature := false, false, [], [], "4/4";
    }

    method InitializeAudio(engineStarted: bool)
      modifies this
      ensures State() == AudioInitialized(old(State()), engineStarted)
    {
      if engineStarted {
        isReady := true;
      }
    }

    method StartNote(note: string)
      modifies this
      ensures State() == NoteStarted(old(State()), note)
    {
      activeNotes := activeNotes + [note];
      recordedNotes := recordedNotes + [note];
      isPlaying := true;
    }

    method StopNote(note: string)
      modifies this
      ensures State() == NoteStopped(old(State()), note)
    {
      var newActiveNotes := Without(activeNotes, note);
      activeNotes := newActiveNotes;
      isPlaying := |newActiveNotes| > 0;
    }

    method PlayNote(note: string)
      modifies this
      ensures State() == NotePlayed(old(State()), note)
    {
      if note !in activeNotes {
        activeNotes := activeNotes + [note];
      }
      isPlaying := true;
    }

    method ReleaseNote(note: string)
      modifies this
      ensures State() == NoteStopped(old(State()), note)
    {
      var newActiveNotes := Without(activeNotes, note);
      activeNotes := newActiveNotes;
      isPlaying := |newActiveNotes| > 0;
    }

    method HighlightNote(note: string)
      modifies this
      ensures State() == NoteHighlighted(old(State()), note)
    {
      if note !in activeNotes {
        activeNotes := activeNotes + [note];
      }
    }

    method UnhighlightNote(note: string)
      modifies this
      ensures State() == NoteUnhighlighted(old(State()), note)
    {
      activeNotes := Without(activeNotes, note);
    }

    method ClearHighlights()
      modifies this
      ensures State() == HighlightsCleared(old(State()))
    {
      activeNotes := [];
    }

    method ClearRecordedNotes()
      modifies this
      ensures State() == RecordingCleared(old(State()))
    {
      recordedNotes := [];
    }

    method SetTimeSignature(signature: string)
      modifies this
      ensures State() == TimeSignatureSet(old(State()), signature)
    {
      timeSignature := signature;
    }
  }
}
