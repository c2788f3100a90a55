/**
  The voice-note button (src/components/VoiceRecorder.tsx). One button
  starts or stops recording depending on `isRecording`. Start awaits the
  provider's connect and then marks recording. Stop disconnects, clears
  the flag, and then saves the transcript as a note if there is any text.

  The note store is outside: each `addDocument('notes', …)` call is
  appended to `notes`. The timestamp is not modelled.
 */
module VoiceRecorder {
  import Deepgram

  const NotesCollection: string := "notes"

  datatype Note = Note(collection: string, text: string, userId: string)

  datatype RecorderView = RecorderView(isRecording: bool, dg: Deepgram.DgState, notes: seq<Note>)

  /** handleStartRecording: whatever connect ends in, recording is marked. */
  function Start(v: RecorderView, media: Deepgram.MediaOutcome, envKey: string, fetched: Deepgram.FetchOutcome): (r: RecorderView)
    ensures r.isRecording && r.notes == v.notes
    ensures r.dg == Deepgram.Connect(v.dg, media, envKey, fetched)
  {
    v.(dg := Deepgram.Connect(v.dg, media, envKey, fetched), isRecording := true)
  }

  /**
    handleStopRecording. The transcript saved is the one rendered with the
    handler, read before the disconnect; the disconnect does not change it.
   */
  function Stop(v: RecorderView, userId: string): (r: RecorderView)
    ensures !r.isRecording && r.dg == Deepgram.Disconnect(v.dg)
    ensures v.dg.realtimeTranscript != "" ==>
      r.notes == v.notes + [Note(NotesCollection, v.dg.realtimeTranscript, userId)]
    ensures v.dg.realtimeTranscript == "" ==> r.notes == v.notes
  {
    var transcript := v.dg.realtimeTranscript;
    var v1 := v.(dg := Deepgram.Disconnect(v.dg), isRecording := false);
    if transcript != "" then v1.(notes := v1.notes + [Note(NotesCollection, transcript, userId)]) else v1
  }

  /** The button's onClick. */
  function Press(v: RecorderView, userId: string, media: Deepgram.MediaOutcome, envKey: string, fetched: Deepgram.FetchOutcome): (r: RecorderView)
    ensures r.isRecording == !v.isRecording
    ensures v.isRecording ==> r.dg == Deepgram.Disconnect(v.dg)
    ensures !v.isRecording ==> r.dg == Deepgram.Connect(v.dg, media, envKey, fetched) && r.notes == v.notes
    ensures v.isRecording ==> r == Stop(v, userId)
  {
    if v.isRecording then Stop(v, userId) else Start(v, media, envKey, fetched)
  }

  // ---------------------------------------------------------------------
  // Properties
  // ---------------------------------------------------------------------

  /** Each press flips the flag, so two presses restore it. */
  lemma PressTwiceRestores(v: RecorderView, userId: string,
                           media1: Deepgram.MediaOutcome, envKey1: string, fetched1: Deepgram.FetchOutcome,
                           media2: Deepgram.MediaOutcome, envKey2: string, fetched2: Deepgram.FetchOutcome)
    ensures Press(v, userId, media1, envKey1, fetched1).isRecording == !v.isRecording
    ensures Press(Press(v, userId, media1, envKey1, fetched1), userId, media2, envKey2, fetched2).isRecording == v.isRecording
  {
  }

  /** A note is written only by stopping, and only when there is text. */
  lemma NoteOnlyWithText(v: RecorderView, userId: string, media: Deepgram.MediaOutcome, envKey: string, fetched: Deepgram.FetchOutcome)
    ensures |Press(v, userId, media, envKey, fetched).notes| == |v.notes| + (if v.isRecording && v.dg.realtimeTranscript != "" then 1 else 0)
  {
  }

  /**
    A whole session: start (whether or not the connection comes up),
    receive messages, stop.
    The saved note is the text held before the session, followed by the
    session's non-empty pieces joined by spaces; nothing is saved for a
    session that heard nothing over an empty transcript. Since no step
    clears the transcript, a second session's note repeats the first one's
    text.
   */
  lemma Session(v: RecorderView, userId: string, envKey: string, fetched: Deepgram.FetchOutcome, ms: seq<Deepgram.Message>)
    requires !v.isRecording
    ensures var started := Press(v, userId, Deepgram.MediaGranted, envKey, fetched);
      var heard := started.(dg := Deepgram.Run(started.dg, Deepgram.MessageEvents(ms)));
      var text := Deepgram.MergeAll(v.dg.realtimeTranscript, Deepgram.Pieces(ms));
      var stopped := Press(heard, userId, Deepgram.MediaGranted, envKey, fetched);
      !stopped.isRecording
      && stopped.dg.connectionState == Deepgram.Disconnected
      && stopped.notes == v.notes + (if text != "" then [Note(NotesCollection, text, userId)] else [])
  {
    var started := Press(v, userId, Deepgram.MediaGranted, envKey, fetched);
    Deepgram.MessagesAccumulate(started.dg, ms);
  }

  /** So the text of the note extends whatever was there before the session. */
  lemma SessionNoteExtendsPrevious(prev: string, ms: seq<Deepgram.Message>)
    requires prev != ""
    ensures Deepgram.MergeAll(prev, Deepgram.Pieces(ms)) == prev + Deepgram.Spaced(Deepgram.NonEmpty(Deepgram.Pieces(ms)))
  {
    Deepgram.MergeAllJoins(prev, Deepgram.Pieces(ms));
  }

  // ---------------------------------------------------------------------
  // The component
  // ---------------------------------------------------------------------

  class Recorder {
    const userId: string
    const dg: Deepgram.DeepgramProvider
    var isRecording: bool
    /** The documents passed to addDocument, oldest first. */
    var notes: seq<Note>

    function View(): RecorderView
      reads this, dg
    {
      RecorderView(isRecording, dg.State(), notes)
    }

    ghost predicate Valid()
      reads this, dg
    {
      dg.Valid()
    }

    constructor (userId: string, dg: Deepgram.DeepgramProvider)
      requires dg.Valid()
      ensures Valid() && !isRecording && notes == []
      ensures this.userId == userId && this.dg == dg
    {
      this.userId := userId;
      this.dg := dg;
      isRecording := false;
      notes := [];
    }

    method HandleStartRecording(media: Deepgram.MediaOutcome, envKey: string, fetched: Deepgram.FetchOutcome)
      requires Valid()
      modifies this, dg
      ensures Valid() && View() == Start(old(View()), media, envKey, fetched)
    {
      dg.ConnectToDeepgram(media, envKey, fetched);
      isRecording := true;
    }

    method HandleStopRecording()
      requires Valid()
      modifies this, dg
      ensures Valid() && View() == Stop(old(View()), userId)
    {
      var realtimeTranscript := dg.realtimeTranscript;
      dg.DisconnectFromDeepgram();
      isRecording := false;
      if realtimeTranscript != "" {
        notes := notes + [Note(NotesCollection, realtimeTranscript, userId)];
      }
    }

    method OnButtonClick(media: Deepgram.MediaOutcome, envKey: string, fetched: Deepgram.FetchOutcome)
      requires Valid()
      modifies this, dg
      ensures Valid() && View() == Press(old(View()), userId, media, envKey, fetched)
    {
      if isRecording {
        HandleStopRecording();
      } else {
        HandleStartRecording(media, envKey, fetched);
      }
    }
  }
}
