/**
  The speech-to-text connection (src/lib/contexts/DeepgramContext.tsx):
  `connectionState`, `error` and `realtimeTranscript`, the two refs that
  hold the WebSocket and the MediaRecorder, and the handlers that move
  them: connect, the socket's open, message, error and close callbacks,
  the recorder's data callback, and disconnect.

  Every handler is one atomic step. The microphone request, the key fetch
  and the socket are outside: their outcomes are parameters, and what the
  provider asks of them (open a socket, start or stop the recorder, send a
  chunk, close the socket) is appended to `effects`. A socket event is taken
  to come from the socket the ref holds; events may arrive in any order.
 */
module Deepgram {
  import opened JsRuntime

  datatype ConnectionState = Disconnected | Connecting | Connected | Error

  /** The readyState of the socket held in socketRef. */
  datatype ReadyState = SocketConnecting | SocketOpen | SocketClosed

  /** The state of the MediaRecorder held in audioRef. */
  datatype RecorderState = Inactive | Recording

  datatype Effect =
    | RequestMicrophone
    | OpenSocket(apiKey: string)
    | StartRecorder(timesliceMs: nat)
    | SendChunk(size: nat)
    | CloseSocket
    | StopRecorder

  /** How `getUserMedia({ audio: true })` settles. */
  datatype MediaOutcome = MediaGranted | MediaDenied(reason: string)

  /** How `fetch('/api/deepgram')` and `response.json()` settle; apiKey is the field read. */
  datatype FetchOutcome = FetchFailed(reason: string) | FetchOk(apiKey: Option<string>)

  /** What getApiKey resolves to, or the text of what it throws. */
  datatype KeyResult = Key(key: string) | KeyError(thrown: string)

  /** The part of a streamed result that the message handler looks at. */
  datatype Alternative = Alternative(transcript: Option<string>)
  datatype Channel = Channel(alternatives: Option<seq<Alternative>>)
  datatype Message = Message(channel: Option<Channel>)

  datatype DgState = DgState(
    connectionState: ConnectionState,
    realtimeTranscript: string,
    error: Option<string>,
    socket: Option<ReadyState>,
    recorder: Option<RecorderState>,
    effects: seq<Effect>)

  const SocketErrorText: string := "WebSocket error occurred"
  const ConnectErrorPrefix: string := "Error connecting to Deepgram: "
  const KeyErrorText: string := "Failed to get Deepgram API key"
  /** `String(new Error('API key not found'))` */
  const KeyMissingThrown: string := "Error: API key not found"
  const TimesliceMs: nat := 1000

  function Initial(): (s: DgState)
    ensures s.connectionState == Disconnected && s.realtimeTranscript == "" && s.error == None
  {
    DgState(Disconnected, "", None, None, None, [])
  }

  // ---------------------------------------------------------------------
  // The pure pieces
  // ---------------------------------------------------------------------

  /** getApiKey: a non-empty environment key wins; otherwise the fetched field, if truthy. */
  function ApiKeyChoice(envKey: string, fetched: FetchOutcome): (r: KeyResult)
    ensures envKey != "" ==> r == Key(envKey)
    ensures envKey == "" && fetched.FetchFailed? ==> r == KeyError(fetched.reason)
    ensures envKey == "" && fetched.FetchOk? ==>
      (if fetched.apiKey.Some? && fetched.apiKey.value != "" then r == Key(fetched.apiKey.value)
       else r == KeyError(KeyMissingThrown))
    ensures r.Key? ==> r.key != ""
  {
    if envKey != "" then Key(envKey)
    else match fetched
      case FetchFailed(reason) => KeyError(reason)
      case FetchOk(k) => if k.Some? && k.value != "" then Key(k.value) else KeyError(KeyMissingThrown)
  }

  /** `data.channel?.alternatives?.[0]?.transcript || ""` */
  function TranscriptOf(m: Message): (t: string)
    ensures t != "" ==>
      (m.channel.Some? && m.channel.value.alternatives.Some?
       && |m.channel.value.alternatives.value| > 0
       && m.channel.value.alternatives.value[0].transcript == Some(t))
    ensures (m.channel.Some? && m.channel.value.alternatives.Some?
             && |m.channel.value.alternatives.value| > 0
             && m.channel.value.alternatives.value[0].transcript.Some?) ==>
      t == m.channel.value.alternatives.value[0].transcript.value
    ensures (m.channel.None? || m.channel.value.alternatives.None?
             || |m.channel.value.alternatives.value| == 0
             || m.channel.value.alternatives.value[0].transcript.None?) ==>
      t == ""
  {
    match m.channel
    case None => ""
    case Some(c) =>
      match c.alternatives
      case None => ""
      case Some(alts) =>
        if |alts| == 0 then "" else
        match alts[0].transcript
        case None => ""
        case Some(t) => t
  }

  /** The message handler's update: an empty piece is dropped, pieces are joined by one space. */
  function MergeTranscript(prev: string, incoming: string): (r: string)
    ensures incoming == "" ==> r == prev
    ensures |prev| <= |r| && r[..|prev|] == prev
    ensures incoming != "" ==> |incoming| <= |r| && r[|r| - |incoming|..] == incoming
    ensures incoming != "" ==> |r| == |prev| + (if prev == "" then 0 else 1) + |incoming|
    ensures prev != "" && incoming != "" ==> r == prev + " " + incoming
  {
    if incoming == "" then prev
    else if prev != "" then prev + " " + incoming
    else incoming
  }

  /** Whether the data callback forwards a chunk of this size. */
  predicate ShouldForward(socket: Option<ReadyState>, size: nat) {
    socket == Some(SocketOpen) && size > 0
  }

  // ---------------------------------------------------------------------
  // Transitions
  // ---------------------------------------------------------------------

  /** connectToDeepgram with the given outcomes of its asynchronous steps. */
  function Connect(s: DgState, media: MediaOutcome, envKey: string, fetched: FetchOutcome): (r: DgState)
    ensures s.connectionState == Connected || s.connectionState == Connecting ==> r == s
    ensures s.connectionState == Disconnected || s.connectionState == Error ==>
      (r.connectionState == Connecting <==> media.MediaGranted? && ApiKeyChoice(envKey, fetched).Key?)
      && (r.connectionState == Connecting ==>
            (r.error == None && r.socket == Some(SocketConnecting) && r.recorder == Some(Inactive)
             && r.effects == s.effects + [RequestMicrophone, OpenSocket(ApiKeyChoice(envKey, fetched).key)]))
      && (r.connectionState != Connecting ==>
            (r.connectionState == Error && r.error.Some?
             && |r.error.value| >= |ConnectErrorPrefix|
             && r.error.value[..|ConnectErrorPrefix|] == ConnectErrorPrefix))
    ensures (s.connectionState == Disconnected || s.connectionState == Error) && media.MediaDenied? ==>
      r == s.(connectionState := Error, error := Some(ConnectErrorPrefix + media.reason),
              effects := s.effects + [RequestMicrophone])
    ensures (s.connectionState == Disconnected || s.connectionState == Error) && media.MediaGranted?
            && ApiKeyChoice(envKey, fetched).KeyError? ==>
      r == s.(connectionState := Error, error := Some(ConnectErrorPrefix + ApiKeyChoice(envKey, fetched).thrown),
              recorder := Some(Inactive), effects := s.effects + [RequestMicrophone])
    ensures (s.connectionState == Disconnected || s.connectionState == Error) && media.MediaGranted?
            && ApiKeyChoice(envKey, fetched).Key? ==>
      r == s.(connectionState := Connecting, error := None, recorder := Some(Inactive),
              socket := Some(SocketConnecting),
              effects := s.effects + [RequestMicrophone, OpenSocket(ApiKeyChoice(envKey, fetched).key)])
    ensures r.realtimeTranscript == s.realtimeTranscript
  {
    if s.connectionState == Connected || s.connectionState == Connecting then s
    else
      var s1 := s.(connectionState := Connecting, error := None, effects := s.effects + [RequestMicrophone]);
      match media
      case MediaDenied(reason) =>
        s1.(error := Some(ConnectErrorPrefix + reason), connectionState := Error)
      case MediaGranted =>
        var s2 := s1.(recorder := Some(Inactive));
        match ApiKeyChoice(envKey, fetched)
        case KeyError(thrown) => s2.(error := Some(ConnectErrorPrefix + thrown), connectionState := Error)
        case Key(k) => s2.(socket := Some(SocketConnecting), effects := s2.effects + [OpenSocket(k)])
  }

  /** onopen: connected; a recorder that is not yet running is started with a 1000 ms timeslice. */
  function Open(s: DgState): (r: DgState)
    ensures r.connectionState == Connected
    ensures r.error == s.error && r.realtimeTranscript == s.realtimeTranscript
    ensures s.recorder == Some(Inactive) ==>
      (r.recorder == Some(Recording) && r.effects == s.effects + [StartRecorder(TimesliceMs)])
    ensures s.recorder != Some(Inactive) ==> r.recorder == s.recorder && r.effects == s.effects
    ensures r.socket == (if s.socket.Some? then Some(SocketOpen) else None)
  {
    var s1 := s.(connectionState := Connected, socket := if s.socket.Some? then Some(SocketOpen) else None);
    if s1.recorder == Some(Inactive) then
      s1.(recorder := Some(Recording), effects := s1.effects + [StartRecorder(TimesliceMs)])
    else s1
  }

  /** onmessage; None stands for data that JSON.parse rejects, which throws before any update. */
  function Receive(s: DgState, m: Option<Message>): (r: DgState)
    ensures r == s.(realtimeTranscript := r.realtimeTranscript)
    ensures m.None? ==> r == s
  {
    match m
    case None => s
    case Some(msg) => s.(realtimeTranscript := MergeTranscript(s.realtimeTranscript, TranscriptOf(msg)))
  }

  /** A message whose first alternative carries text appends that text, after one space if needed. */
  lemma ReceiveAppendsText(s: DgState, text: string, others: seq<Alternative>)
    requires text != ""
    ensures var r := Receive(s, Some(Message(Some(Channel(Some([Alternative(Some(text))] + others))))));
      r.realtimeTranscript == (if s.realtimeTranscript == "" then text else s.realtimeTranscript + " " + text)
      && r == s.(realtimeTranscript := r.realtimeTranscript)
  {
    var alts := [Alternative(Some(text))] + others;
    assert alts[0] == Alternative(Some(text));
  }

  /** disconnectFromDeepgram: close and drop the socket, stop and drop the recorder. */
  function Disconnect(s: DgState): (r: DgState)
    ensures r.connectionState == Disconnected && r.socket == None && r.recorder == None
    ensures r.error == s.error && r.realtimeTranscript == s.realtimeTranscript
    ensures r.effects == s.effects + (if s.socket.Some? then [CloseSocket] else [])
                                   + (if s.recorder.Some? then [StopRecorder] else [])
  {
    var s1 := if s.socket.Some? then s.(socket := None, effects := s.effects + [CloseSocket]) else s;
    var s2 := if s1.recorder.Some? then s1.(recorder := None, effects := s1.effects + [StopRecorder]) else s1;
    s2.(connectionState := Disconnected)
  }

  /** onerror: record the error, then disconnect. */
  function Fail(s: DgState): (r: DgState)
    ensures r.connectionState == Disconnected && r.socket == None && r.recorder == None
    ensures r.error == Some(SocketErrorText) && r.realtimeTranscript == s.realtimeTranscript
    ensures r == Disconnect(s).(error := Some(SocketErrorText))
  {
    Disconnect(s.(error := Some(SocketErrorText), connectionState := Error))
  }

  /** onclose */
  function Close(s: DgState): (r: DgState)
    ensures r.connectionState == Disconnected && r.error == s.error
    ensures r.recorder == s.recorder && r.effects == s.effects
    ensures r.realtimeTranscript == s.realtimeTranscript
    ensures r.socket == (if s.socket.Some? then Some(SocketClosed) else None)
  {
    s.(connectionState := Disconnected, socket := if s.socket.Some? then Some(SocketClosed) else None)
  }

  /** The recorder's dataavailable listener. */
  function Chunk(s: DgState, size: nat): (r: DgState)
    ensures r.effects == s.effects + [SendChunk(size)] <==> ShouldForward(s.socket, size)
    ensures !ShouldForward(s.socket, size) ==> r == s
    ensures ShouldForward(s.socket, size) ==> r == s.(effects := s.effects + [SendChunk(size)])
  {
    if ShouldForward(s.socket, size) then s.(effects := s.effects + [SendChunk(size)]) else s
  }

  datatype DgEvent =
    | ConnectRequested(media: MediaOutcome, envKey: string, fetched: FetchOutcome)
    | Opened
    | MessageReceived(m: Option<Message>)
    | Errored
    | Closed
    | ChunkReady(size: nat)
    | DisconnectRequested

  function Step(s: DgState, e: DgEvent): DgState {
    match e
    case ConnectRequested(media, envKey, fetched) => Connect(s, media, envKey, fetched)
    case Opened => Open(s)
    case MessageReceived(m) => Receive(s, m)
    case Errored => Fail(s)
    case Closed => Close(s)
    case ChunkReady(size) => Chunk(s, size)
    case DisconnectRequested => Disconnect(s)
  }

  function Run(s: DgState, events: seq<DgEvent>): DgState
    decreases |events|
  {
    if events == [] then s else Run(Step(s, events[0]), events[1..])
  }

  /**
    What every reachable state satisfies: a socket is only ever opened after
    the recorder was created, and a connection attempt in progress carries no
    error.
   */
  predicate Inv(s: DgState) {
    (s.socket.Some? ==> s.recorder.Some?) && (s.connectionState == Connecting ==> s.error == None)
  }

  // ---------------------------------------------------------------------
  // Properties
  // ---------------------------------------------------------------------

  lemma StepKeepsInv(s: DgState, e: DgEvent)
    requires Inv(s)
    ensures Inv(Step(s, e))
  {
  }

  lemma {:induction false} RunKeepsInv(s: DgState, events: seq<DgEvent>)
    requires Inv(s)
    ensures Inv(Run(s, events))
    decreases |events|
  {
    if events != [] {
      StepKeepsInv(s, events[0]);
      RunKeepsInv(Step(s, events[0]), events[1..]);
    }
  }

  lemma ReachableStatesKeepInv(events: seq<DgEvent>)
    ensures Inv(Run(Initial(), events))
  {
    RunKeepsInv(Initial(), events);
  }

  /** Disconnecting twice is disconnecting once: nothing further is closed or stopped. */
  lemma DisconnectIdempotent(s: DgState)
    ensures Disconnect(Disconnect(s)) == Disconnect(s)
  {
  }

  /**
    A connect whose microphone and key both succeed, followed by the socket
    opening, leaves the provider connected, with an open socket, a running
    recorder and no error.
   */
  lemma ConnectThenOpen(s: DgState, envKey: string, fetched: FetchOutcome)
    requires s.connectionState == Disconnected || s.connectionState == Error
    requires ApiKeyChoice(envKey, fetched).Key?
    ensures Open(Connect(s, MediaGranted, envKey, fetched)).connectionState == Connected
    ensures Open(Connect(s, MediaGranted, envKey, fetched)).socket == Some(SocketOpen)
    ensures Open(Connect(s, MediaGranted, envKey, fetched)).recorder == Some(Recording)
    ensures Open(Connect(s, MediaGranted, envKey, fetched)).error == None
  {
  }

  /** Neither connecting nor disconnecting ever resets the transcript. */
  lemma {:induction false} TranscriptOnlyGrows(s: DgState, events: seq<DgEvent>)
    ensures |Run(s, events).realtimeTranscript| >= |s.realtimeTranscript|
    ensures Run(s, events).realtimeTranscript[..|s.realtimeTranscript|] == s.realtimeTranscript
    decreases |events|
  {
    if events != [] {
      var s1 := Step(s, events[0]);
      assert |s1.realtimeTranscript| >= |s.realtimeTranscript|
        && s1.realtimeTranscript[..|s.realtimeTranscript|] == s.realtimeTranscript;
      TranscriptOnlyGrows(s1, events[1..]);
    }
  }

  // The transcript, put as the words it is made of.

  function NonEmpty(pieces: seq<string>): (r: seq<string>)
    ensures forall k :: 0 <= k < |r| ==> r[k] != ""
  {
    if pieces == [] then []
    else if pieces[0] == "" then NonEmpty(pieces[1..])
    else [pieces[0]] + NonEmpty(pieces[1..])
  }

  /** Each piece preceded by one space. */
  function Spaced(words: seq<string>): string {
    if words == [] then "" else " " + words[0] + Spaced(words[1..])
  }

  /** The transcript after messages carrying the given pieces, in order. */
  function MergeAll(prev: string, pieces: seq<string>): string
    decreases |pieces|
  {
    if pieces == [] then prev else MergeAll(MergeTranscript(prev, pieces[0]), pieces[1..])
  }

  /**
    The accumulated transcript is the non-empty pieces, in arrival order,
    separated by single spaces, after what was there before.
   */
  lemma {:induction false} MergeAllJoins(prev: string, pieces: seq<string>)
    ensures prev != "" ==> MergeAll(prev, pieces) == prev + Spaced(NonEmpty(pieces))
    ensures prev == "" && NonEmpty(pieces) == [] ==> MergeAll(prev, pieces) == ""
    ensures prev == "" && NonEmpty(pieces) != [] ==> " " + MergeAll(prev, pieces) == Spaced(NonEmpty(pieces))
    decreases |pieces|
  {
    if pieces != [] {
      var p, rest := pieces[0], pieces[1..];
      MergeAllJoins(MergeTranscript(prev, p), rest);
      if p != "" {
        assert NonEmpty(pieces) == [p] + NonEmpty(rest);
        assert Spaced(NonEmpty(pieces)) == " " + p + Spaced(NonEmpty(rest));
      }
    }
  }

  function MessageEvents(ms: seq<Message>): (es: seq<DgEvent>)
    ensures |es| == |ms|
  {
    if ms == [] then [] else [MessageReceived(Some(ms[0]))] + MessageEvents(ms[1..])
  }

  function Pieces(ms: seq<Message>): (ps: seq<string>)
    ensures |ps| == |ms|
  {
    if ms == [] then [] else [TranscriptOf(ms[0])] + Pieces(ms[1..])
  }

  /** A run of messages changes only the transcript, and folds their pieces into it. */
  lemma {:induction false} MessagesAccumulate(s: DgState, ms: seq<Message>)
    ensures Run(s, MessageEvents(ms)) == s.(realtimeTranscript := MergeAll(s.realtimeTranscript, Pieces(ms)))
    decreases |ms|
  {
    if ms != [] {
      var s1 := Receive(s, Some(ms[0]));
      assert MessageEvents(ms)[1..] == MessageEvents(ms[1..]);
      MessagesAccumulate(s1, ms[1..]);
    }
  }

  // ---------------------------------------------------------------------
  // The provider
  // ---------------------------------------------------------------------

  class DeepgramProvider {
    var connectionState: ConnectionState
    var realtimeTranscript: string
    var error: Option<string>
    var socketRef: Option<ReadyState>
    var audioRef: Option<RecorderState>
    var effects: seq<Effect>

    function State(): DgState
      reads this
    {
      DgState(connectionState, realtimeTranscript, error, socketRef, audioRef, effects)
    }

    ghost predicate Valid()
      reads this
    {
      Inv(State())
    }

    constructor ()
      ensures Valid() && State() == Initial()
    {
      connectionState := Disconnected;
      realtimeTranscript := "";
      error := None;
      socketRef := None;
      audioRef := None;
      effects := [];
    }

    method GetApiKey(envKey: string, fetched: FetchOutcome) returns (r: KeyResult)
      modifies this
      ensures r == ApiKeyChoice(envKey, fetched)
      ensures State() == old(State()).(error := if r.KeyError? then Some(KeyErrorText) else old(error))
    {
      if envKey != "" {
        return Key(envKey);
      }
      match fetched {
        case FetchFailed(reason) =>
          r := KeyError(reason);
        case FetchOk(apiKey) =>
          if apiKey.None? || apiKey.value == "" {
            r := KeyError(KeyMissingThrown);
          } else {
            r := Key(apiKey.value);
          }
      }
      if r.KeyError? {
        error := Some(KeyErrorText);
      }
    }

    method ConnectToDeepgram(media: MediaOutcome, envKey: string, fetched: FetchOutcome)
      requires Valid()
      modifies this
      ensures Valid() && State() == Connect(old(State()), media, envKey, fetched)
    {
      if connectionState == Connected || connectionState == Connecting {
        return;
      }
      connectionState := Connecting;
      error := None;
      effects := effects + [RequestMicrophone];
      if media.MediaDenied? {
        error := Some(ConnectErrorPrefix + media.reason);
        connectionState := Error;
        return;
      }
      audioRef := Some(Inactive);
      var key := GetApiKey(envKey, fetched);
      if key.KeyError? {
        error := Some(ConnectErrorPrefix + key.thrown);
        connectionState := Error;
        return;
      }
      socketRef := Some(SocketConnecting);
      effects := effects + [OpenSocket(key.key)];
    }

    method OnOpen()
      requires Valid()
      modifies this
      ensures Valid() && State() == Open(old(State()))
    {
      connectionState := Connected;
      if socketRef.Some? {
        socketRef := Some(SocketOpen);
      }
      if audioRef == Some(Inactive) {
        audioRef := Some(Recording);
        effects := effects + [StartRecorder(TimesliceMs)];
      }
    }

    method OnMessage(m: Option<Message>)
      requires Valid()
      modifies this
      ensures Valid() && State() == Receive(old(State()), m)
    {
      if m.Some? {
        var transcript := TranscriptOf(m.value);
        if transcript != "" {
          realtimeTranscript := if realtimeTranscript != "" then realtimeTranscript + " " + transcript else transcript;
        }
      }
    }

    method OnError()
      requires Valid()
      modifies this
      ensures Valid() && State() == Fail(old(State()))
    {
      error := Some(SocketErrorText);
      connectionState := Error;
      DisconnectFromDeepgram();
    }

    method OnClose()
      requires Valid()
      modifies this
      ensures Valid() && State() == Close(old(State()))
    {
      connectionState := Disconnected;
      if socketRef.Some? {
        socketRef := Some(SocketClosed);
      }
    }

    method OnDataAvailable(size: nat)
      requires Valid()
      modifies this
      ensures Valid() && State() == Chunk(old(State()), size)
    {
      if socketRef == Some(SocketOpen) && size > 0 {
        effects := effects + [SendChunk(size)];
      }
    }

    method DisconnectFromDeepgram()
      requires Valid()
      modifies this
      ensures Valid() && State() == Disconnect(old(State()))
    {
      if socketRef.Some? {
        effects := effects + [CloseSocket];
        socketRef := None;
      }
      if audioRef.Some? {
        effects := effects + [StopRecorder];
        audioRef := None;
      }
      connectionState := Disconnected;
    }

    /** The cleanup of the mount effect: unmounting the provider disconnects. */
    method Unmount()
      requires Valid()
      modifies this
      ensures Valid() && State() == Disconnect(old(State()))
    {
      DisconnectFromDeepgram();
    }
  }
}
