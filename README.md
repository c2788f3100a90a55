# IQOS-TABLET showcase: the state machines behind the screens

This project models the logic in the product-showcase web app. The app is
mostly React glue over a 3D renderer, a camera feed, a hosted
speech-to-text socket and hosted storage. Five small state machines sit
inside its components. Each one is modelled the same way:

- a datatype of state;
- pure transition functions, one per handler or callback, which act as the
  specification;
- a `class` whose fields are the component's state, and whose methods
  follow the handler's statements in order. Each method ensures
  `State() == Transition(old(State()), …)`.

Lemmas about the pure functions state what the component promises.

- **Carousel** (`ModelCarousel`, model_carousel.dfy). A circular index over
  three model paths, starting at 1. Previous and next are ignored while a
  transition lock is held. The 1500 ms timer releases the lock. The timer
  is a discrete event. `timerArmed` records whether the effect keyed on
  `currentIndex` has a timeout pending. The module also covers the slide
  position given to the viewer, the one-based heading, and the
  `/modelo-destaque?modelo=<index>` link.
- **Featured model page** (`ModeloDestaque`, modelo_destaque.dfy). The
  `modelo` query parameter defaults to `"0"` when absent or empty. It is
  parsed with `parseInt` and adopted only if it lies in [0, 3).
  `SelectRoundTrip` links this page to the carousel: the carousel's link,
  looked up as `URLSearchParams.get` does and parsed back, selects the same
  index and the same model path.
- **Speech connection** (`Deepgram`, deepgram_context.dfy). The connection
  states are disconnected, connecting, connected and error. The model also
  holds the error text, the refs to the socket and the recorder, and the
  accumulated transcript. The microphone, the key fetch and the socket are
  outside the model: their outcomes are parameters, and the requests made
  of them are recorded in an `effects` trace.
- **Upload form** (`UploadModel`, upload_model.dfy). It covers the `.glb`
  check, the no-file and no-user guards in that order, the resets when an
  upload starts, and the upload task's progress, error and completion callbacks.
  It also covers the `folder + "/" + name` storage path and the two
  disabled conditions.
- **Voice recorder** (`VoiceRecorder`, voice_recorder.dfy). One button
  toggles `isRecording`. Start awaits connect. Stop disconnects, then saves
  the transcript as a note in collection `notes` when it is non-empty.
- **JavaScript built-ins** (`JsRuntime`, js_runtime.dfy). This module gives
  `parseInt` without a radix: white space, a sign, the `0x` prefix,
  leading digits, otherwise NaN. It also gives `${n}` for integers 0 ≤ n < 10^21 (all the components print
  are 0 to 3),
  JavaScript's truncating `%`, `endsWith`, and the `URLSearchParams.get`
  lookup.

Each handler and callback is one atomic step. The carousel has one viewer,
which receives a `slidePosition` string.

One consequence shows up in the proofs: no step clears the transcript. So
the note saved at the end of a session begins with the text of every
earlier session (`VoiceRecorder.Session`,
`VoiceRecorder.SessionNoteExtendsPrevious`).

## Model

| member | source | states |
|---|---|---|
| JsRuntime.JsRem | src/components/ModelCarousel.tsx:25 | JavaScript `%` with a positive divisor truncates: Dafny's `%` for a non-negative dividend; for a negative one the magnitude is (-a) mod n and the sign is the dividend's, a result in (-n, 0] |
| JsRuntime.ShowNat | src/components/ModelCarousel.tsx:19 | `${n}` for 0 ≤ n < 10^21 is non-empty, all decimal digits, with no leading zero, and starts with '0' only for 0 |
| JsRuntime.DigitsValueOfShowNat | src/components/ModelCarousel.tsx:19 | reading the decimal text of n gives n back |
| JsRuntime.ParseInt | src/app/modelo-destaque/page.tsx:18 | no ensures of its own: `parseInt` without a radix, specified by ParseIntShowNat, ParseIntOfShowNat, ParseIntZero, ParseIntNegative, ParseIntNaN and ParseIntHex |
| JsRuntime.ParseIntShowNat | src/app/modelo-destaque/page.tsx:18 | parseInt reads back the decimal text of n, ignoring a trailing part that starts with neither a digit nor 'x' |
| JsRuntime.ParseIntOfShowNat | src/app/modelo-destaque/page.tsx:18 | parseInt reads back the bare decimal text of every n |
| JsRuntime.ParseIntZero | src/app/modelo-destaque/page.tsx:18 | the fallback text "0" parses to 0 |
| JsRuntime.ParseIntNegative | src/app/modelo-destaque/page.tsx:18 | leading white space is skipped and a '-' sign negates the value |
| JsRuntime.ParseIntNaN | src/app/modelo-destaque/page.tsx:18 | text starting with neither white space, a sign nor a digit is NaN |
| JsRuntime.ParseIntHex | src/app/modelo-destaque/page.tsx:18 | "0x" followed by hex digits reads in radix 16 |
| JsRuntime.SearchParam | src/app/modelo-destaque/page.tsx:18 | `URLSearchParams.get`: a returned value never contains '&'; the lookups themselves are SearchParamSingle and ModeloDestaque.SelectValue |
| JsRuntime.QueryOf | src/app/modelo-destaque/page.tsx:18 | no ensures of its own: the query part of a URL between '?' and '#'; ModeloDestaque.SelectQuery states it for the carousel's link |
| JsRuntime.SearchParamSingle | src/app/modelo-destaque/page.tsx:18 | `get(name)` on the query "name=value" returns value |
| JsRuntime.EndsWith | src/components/UploadModel.tsx:31 | no ensures of its own: `endsWith`; EndsWithAppend, UploadModel.GlbSuffixCaseSensitive and UploadModel.ShortNameRejected state its behaviour |
| JsRuntime.EndsWithAppend | src/components/UploadModel.tsx:31 | every string with the suffix appended ends with it |
| ModelCarousel.Initial | src/components/ModelCarousel.tsx:10-16 | the first state has index 1 (the second model), no lock and the mount effect's timer pending, and satisfies the invariant |
| ModelCarousel.Prev | src/components/ModelCarousel.tsx:22-27 | under the lock nothing changes; otherwise the index moves back one, wrapping from 0 to 2 (what (i - 1 + 3) % 3 computes), and the lock is set |
| ModelCarousel.Next | src/components/ModelCarousel.tsx:29-34 | under the lock nothing changes; otherwise the index moves forward one, wrapping from 2 to 0 (what (i + 1) % 3 computes), and the lock is set |
| ModelCarousel.Timer | src/components/ModelCarousel.tsx:36-41 | a pending timer releases the lock; the index never changes |
| ModelCarousel.Slide | src/components/ModelCarousel.tsx:43-48 | 'toCenter' exactly when transitioning, 'center' exactly when not |
| ModelCarousel.SelectUrl | src/components/ModelCarousel.tsx:19 | no ensures of its own: the pushed link; ModeloDestaque.SelectValue and ModeloDestaque.SelectRoundTrip state what the featured page reads from it |
| ModelCarousel.Heading | src/components/ModelCarousel.tsx:66 | no ensures of its own: the heading text; HeadingIsOneBased states it |
| ModelCarousel.StepKeepsInv | src/components/ModelCarousel.tsx:22-41 | each click or timer event keeps the index in [0, 3) and keeps a timer pending while the lock is held |
| ModelCarousel.RunKeepsInv | src/components/ModelCarousel.tsx:10-41 | after any sequence of events the invariant holds and `models[currentIndex]` is defined |
| ModelCarousel.ReachableIndexInBounds | src/components/ModelCarousel.tsx:10-41 | from the first render, every reachable index is in [0, 3) |
| ModelCarousel.LockedClicksIgnored | src/components/ModelCarousel.tsx:22-34 | while transitioning, any number of prev/next clicks leaves the whole state unchanged |
| ModelCarousel.LockIsReleased | src/components/ModelCarousel.tsx:36-41 | whenever the lock is held a timer is pending, and it clears the lock without moving the index |
| ModelCarousel.NextThenPrev | src/components/ModelCarousel.tsx:22-41 | next, timer, prev returns to the starting index |
| ModelCarousel.PrevThenNext | src/components/ModelCarousel.tsx:22-41 | prev, timer, next returns to the starting index |
| ModelCarousel.FullCircle | src/components/ModelCarousel.tsx:29-41 | three nexts, each released by its timer, return to the starting state |
| ModelCarousel.RunAppend | src/components/ModelCarousel.tsx:22-41 | handling one event sequence and then another is the same as handling their concatenation |
| ModelCarousel.HeadingIsOneBased | src/components/ModelCarousel.tsx:66 | the heading is "Modelo " followed by currentIndex + 1, a number from 1 to 3 |
| ModelCarousel.Carousel.constructor | src/components/ModelCarousel.tsx:10-16 | fields start at the initial state with the three model paths |
| ModelCarousel.Carousel.HandlePrev | src/components/ModelCarousel.tsx:22-27 | the new state is `Prev` of the old one |
| ModelCarousel.Carousel.HandleNext | src/components/ModelCarousel.tsx:29-34 | the new state is `Next` of the old one |
| ModelCarousel.Carousel.TimerFires | src/components/ModelCarousel.tsx:36-41 | the new state is `Timer` of the old one |
| ModelCarousel.Carousel.SlidePosition | src/components/ModelCarousel.tsx:43-48 | 'toCenter' exactly while `isTransitioning` |
| ModelCarousel.Carousel.ModelPath | src/components/ModelCarousel.tsx:57 | the viewer gets `models[currentIndex]`, always one of the three model paths |
| ModelCarousel.Carousel.HandleSelectModel | src/components/ModelCarousel.tsx:18-20 | pushes "/modelo-destaque?modelo=" plus the zero-based index; nothing else changes |
| ModeloDestaque.ParamText | src/app/modelo-destaque/page.tsx:18 | an absent or empty parameter reads as "0"; any other value is kept |
| ModeloDestaque.Accept | src/app/modelo-destaque/page.tsx:19-20 | no ensures of its own: the effect's range guard; AdoptInRange and AdoptIgnores state both outcomes |
| ModeloDestaque.Adopt | src/app/modelo-destaque/page.tsx:17-22 | no ensures of its own: the effect as a whole; AbsentSelectsFirst, AdoptKeepsInRange, TrailingTextIgnored, NegativeIgnored and SelectRoundTrip state it |
| ModeloDestaque.Heading | src/app/modelo-destaque/page.tsx:44 | no ensures of its own: the heading text; HeadingIsOneBased states it |
| ModeloDestaque.AbsentSelectsFirst | src/app/modelo-destaque/page.tsx:18 | with no parameter, or an empty one, the first model is selected |
| ModeloDestaque.AdoptInRange | src/app/modelo-destaque/page.tsx:19-20 | a parsed value p with 0 ≤ p < 3 passes the guard and becomes `modeloAtual` |
| ModeloDestaque.AdoptIgnores | src/app/modelo-destaque/page.tsx:19 | NaN, a negative value or one ≥ 3 fails the guard and leaves `modeloAtual` unchanged |
| ModeloDestaque.AdoptKeepsInRange | src/app/modelo-destaque/page.tsx:10-22 | `modeloAtual` stays in [0, 3) whatever the query says |
| ModeloDestaque.TrailingTextIgnored | src/app/modelo-destaque/page.tsx:18-20 | an index followed by text that starts with neither a digit nor 'x'/'X' is still adopted; text starting with 'x' (such as "2xyz", which JavaScript also adopts) is not covered |
| ModeloDestaque.NegativeIgnored | src/app/modelo-destaque/page.tsx:18-19 | a negative number is parsed but rejected by the range check |
| ModeloDestaque.HeadingIsOneBased | src/app/modelo-destaque/page.tsx:44 | the heading shows `modeloAtual + 1` |
| ModeloDestaque.SelectQuery | src/components/ModelCarousel.tsx:19 | the query of the carousel's link is "modelo=" followed by the index |
| ModeloDestaque.SelectValue | src/components/ModelCarousel.tsx:18-20 | `get('modelo')` on the carousel's link returns the index in decimal |
| ModeloDestaque.SameModels | src/app/modelo-destaque/page.tsx:11-15 | the page lists the same three model paths as the carousel, in the same order |
| ModeloDestaque.SelectRoundTrip | src/app/modelo-destaque/page.tsx:11-20 | the carousel's link yields the carousel's index as `modelo`; the page adopts it and shows the same model path, since both lists agree |
| ModeloDestaque.FeaturedPage.constructor | src/app/modelo-destaque/page.tsx:10-15 | the page starts at index 0 with the three model paths |
| ModeloDestaque.FeaturedPage.ApplySearchParams | src/app/modelo-destaque/page.tsx:17-22 | the new index is `Adopt` of the old index and the parameter, and stays valid |
| ModeloDestaque.FeaturedPage.ModelPath | src/app/modelo-destaque/page.tsx:31 | the viewer gets `modelos[modeloAtual]`, always defined |
| Deepgram.Initial | src/lib/contexts/DeepgramContext.tsx:20-22 | 'disconnected', an empty transcript, no error |
| Deepgram.ApiKeyChoice | src/lib/contexts/DeepgramContext.tsx:32-54 | a non-empty environment key wins; otherwise a failed fetch, or a response without a truthy `apiKey`, is an error; a returned key is never empty |
| Deepgram.TranscriptOf | src/lib/contexts/DeepgramContext.tsx:94 | when the channel, its alternatives, the first alternative and its transcript are all present the result is that transcript, otherwise "" |
| Deepgram.MergeTranscript | src/lib/contexts/DeepgramContext.tsx:97-99 | an empty piece changes nothing; onto non-empty old text a non-empty piece is appended after exactly one space; onto empty text it replaces it; the old text is always a prefix and the piece ends the result |
| Deepgram.ShouldForward | src/lib/contexts/DeepgramContext.tsx:83 | no ensures of its own: the data callback's test; Chunk states that a chunk is sent exactly when it holds |
| Deepgram.Connect | src/lib/contexts/DeepgramContext.tsx:56-119 | no-op when connected or connecting; otherwise it ends 'connecting' (error cleared, recorder and socket created) exactly when media and key succeed, else 'error' with the "Error connecting to Deepgram: " message; the whole new state is given for each of the three outcomes (media denied: only the microphone request is recorded; key failure: the recorder also exists; success: recorder and CONNECTING socket, both effects), and the transcript is untouched |
| Deepgram.Open | src/lib/contexts/DeepgramContext.tsx:77-90 | the state becomes 'connected', an existing socket is OPEN, and an idle recorder is started with a 1000 ms timeslice; any other recorder and the effects are left as they were |
| Deepgram.Receive | src/lib/contexts/DeepgramContext.tsx:92-101 | only the transcript can change; unparsable data changes nothing |
| Deepgram.ReceiveAppendsText | src/lib/contexts/DeepgramContext.tsx:92-101 | a message whose first alternative carries non-empty text appends that text, after a space when the transcript was non-empty, and changes nothing else |
| Deepgram.Disconnect | src/lib/contexts/DeepgramContext.tsx:121-134 | state 'disconnected' and both refs null; the socket is closed and the recorder stopped only if present; error and transcript are kept |
| Deepgram.Fail | src/lib/contexts/DeepgramContext.tsx:103-108 | the error becomes "WebSocket error occurred" and the final state is 'disconnected' with both refs null: exactly `Disconnect` with that error |
| Deepgram.Close | src/lib/contexts/DeepgramContext.tsx:110-113 | the state becomes 'disconnected' and an existing socket CLOSED (so no chunk is forwarded afterwards); recorder, error, transcript and effects are unchanged |
| Deepgram.Chunk | src/lib/contexts/DeepgramContext.tsx:82-86 | a chunk is sent exactly when the socket is OPEN and the size is positive; then only the send is added, otherwise nothing changes |
| Deepgram.StepKeepsInv | src/lib/contexts/DeepgramContext.tsx:56-134 | each event keeps the invariant: a socket implies a recorder, and 'connecting' implies no error |
| Deepgram.RunKeepsInv | src/lib/contexts/DeepgramContext.tsx:56-134 | any sequence of events keeps the invariant |
| Deepgram.ReachableStatesKeepInv | src/lib/contexts/DeepgramContext.tsx:20-134 | every state reachable from the initial one satisfies the invariant |
| Deepgram.DisconnectIdempotent | src/lib/contexts/DeepgramContext.tsx:121-134 | disconnecting twice equals disconnecting once |
| Deepgram.ConnectThenOpen | src/lib/contexts/DeepgramContext.tsx:56-90 | connect with working media and key, then open, gives 'connected' with an open socket, a running recorder and no error |
| Deepgram.TranscriptOnlyGrows | src/lib/contexts/DeepgramContext.tsx:56-134 | no sequence of events shortens or rewrites the transcript; it is only extended |
| Deepgram.MergeAllJoins | src/lib/contexts/DeepgramContext.tsx:94-99 | the accumulated transcript is the earlier text followed by the non-empty pieces, in order, joined by single spaces |
| Deepgram.MessagesAccumulate | src/lib/contexts/DeepgramContext.tsx:92-101 | a run of messages changes only the transcript, folding their pieces into it |
| Deepgram.DeepgramProvider.constructor | src/lib/contexts/DeepgramContext.tsx:20-24 | fields start at the initial state with both refs null |
| Deepgram.DeepgramProvider.GetApiKey | src/lib/contexts/DeepgramContext.tsx:32-54 | returns `ApiKeyChoice`; on failure it sets "Failed to get Deepgram API key", and nothing else changes |
| Deepgram.DeepgramProvider.ConnectToDeepgram | src/lib/contexts/DeepgramContext.tsx:56-119 | the new state is `Connect` of the old one |
| Deepgram.DeepgramProvider.OnOpen | src/lib/contexts/DeepgramContext.tsx:77-90 | the new state is `Open` of the old one |
| Deepgram.DeepgramProvider.OnMessage | src/lib/contexts/DeepgramContext.tsx:92-101 | the new state is `Receive` of the old one |
| Deepgram.DeepgramProvider.OnError | src/lib/contexts/DeepgramContext.tsx:103-108 | the new state is `Fail` of the old one |
| Deepgram.DeepgramProvider.OnClose | src/lib/contexts/DeepgramContext.tsx:110-113 | the new state is `Close` of the old one |
| Deepgram.DeepgramProvider.OnDataAvailable | src/lib/contexts/DeepgramContext.tsx:82-86 | the new state is `Chunk` of the old one |
| Deepgram.DeepgramProvider.DisconnectFromDeepgram | src/lib/contexts/DeepgramContext.tsx:121-134 | the new state is `Disconnect` of the old one |
| Deepgram.DeepgramProvider.Unmount | src/lib/contexts/DeepgramContext.tsx:26-30 | unmounting disconnects |
| UploadModel.Initial | src/components/UploadModel.tsx:21-25 | no file, progress 0, not uploading, no error, no success |
| UploadModel.FolderProp | src/components/UploadModel.tsx:18 | the folder defaults to "models" only when the prop is absent |
| UploadModel.IsGlb | src/components/UploadModel.tsx:31 | no ensures of its own: the `.glb` test; GlbSuffixCaseSensitive, ShortNameRejected and SelectFiles state its effect |
| UploadModel.StoragePath | src/components/UploadModel.tsx:60 | no ensures of its own: `${folder}/${file.name}`; StoragePathSplits and DefaultFolderPath state it |
| UploadModel.SelectFiles | src/components/UploadModel.tsx:27-39 | an empty list changes nothing; a ".glb" name selects the file and clears the error; any other name drops the file and sets the selection error |
| UploadModel.Upload | src/components/UploadModel.tsx:41-91 | without a file only the no-file error is set; with a file and no user only the authentication error; otherwise progress 0, success false and `uploading` true, and the upload task starts at folder/name, or a synchronous failure sets "Erro ao fazer upload: " + message and `uploading` false, keeping the previous task and effects |
| UploadModel.Progress | src/components/UploadModel.tsx:66-72 | only `progress` changes, to the reported value while a task exists; without a task nothing changes |
| UploadModel.TaskFailed | src/components/UploadModel.tsx:73-76 | the error becomes "Erro ao fazer upload: " + message and `uploading` false; `success` is untouched |
| UploadModel.TaskCompleted | src/components/UploadModel.tsx:77-85 | `success` true and `uploading` false, with file, error, progress and task kept; the callback, if given, gets the URL and the upload task's file name; without a task or a URL nothing changes |
| UploadModel.UploadDisabled | src/components/UploadModel.tsx:146 | no ensures of its own: the button's disabled condition; EnabledButtonPassesFileGuard and UploadForm.ButtonDisabled state it |
| UploadModel.InputDisabled | src/components/UploadModel.tsx:111 | no ensures of its own: the file input's disabled condition; UploadForm.FileInputDisabled states it |
| UploadModel.RunKeepsInv | src/components/UploadModel.tsx:27-91 | after any sequence of events the form is never both uploading and successful, and an upload in progress has a task |
| UploadModel.GlbSuffixCaseSensitive | src/components/UploadModel.tsx:31 | "x.glb" is accepted and "x.GLB" is not |
| UploadModel.ShortNameRejected | src/components/UploadModel.tsx:31 | a name shorter than ".glb" is rejected |
| UploadModel.StoragePathSplits | src/components/UploadModel.tsx:59-60 | for a folder without '/', the storage path splits back into the folder and the file name |
| UploadModel.DefaultFolderPath | src/components/UploadModel.tsx:18 | with no folder prop, files go under "models/" |
| UploadModel.FileGuardFirst | src/components/UploadModel.tsx:42-50 | with no file, the file error is set whatever the user, and no upload starts |
| UploadModel.EnabledButtonPassesFileGuard | src/components/UploadModel.tsx:146 | while the button is enabled, pressing it never yields the no-file error |
| UploadModel.UploadThenComplete | src/components/UploadModel.tsx:53-84 | start then completion: success, not uploading, no error; the upload task stores folder/name and the callback receives the URL and the same name |
| UploadModel.UploadThenFail | src/components/UploadModel.tsx:73-76 | start then failure: not uploading, no success, and the storage message is shown |
| UploadModel.InputLockedDuringUpload | src/components/UploadModel.tsx:41-91 | a started task locks the file input and the button; its error or completion unlocks the input |
| UploadModel.InputFreeAfterStartError | src/components/UploadModel.tsx:87-90 | a start that throws leaves the input and the button enabled |
| UploadModel.UploadForm.constructor | src/components/UploadModel.tsx:16-25 | the props are stored (folder defaulted) and the fields start at the initial state |
| UploadModel.UploadForm.HandleFileChange | src/components/UploadModel.tsx:27-39 | the new state is `SelectFiles` of the old one |
| UploadModel.UploadForm.HandleUpload | src/components/UploadModel.tsx:41-91 | the new state is `Upload` of the old one |
| UploadModel.UploadForm.OnProgress | src/components/UploadModel.tsx:66-72 | the new state is `Progress` of the old one |
| UploadModel.UploadForm.OnUploadError | src/components/UploadModel.tsx:73-76 | the new state is `TaskFailed` of the old one |
| UploadModel.UploadForm.OnUploadComplete | src/components/UploadModel.tsx:77-85 | the new state is `TaskCompleted` of the old one |
| UploadModel.UploadForm.ButtonDisabled | src/components/UploadModel.tsx:146 | disabled exactly when there is no file or an upload is running |
| UploadModel.UploadForm.FileInputDisabled | src/components/UploadModel.tsx:111 | disabled exactly while uploading |
| VoiceRecorder.Start | src/components/VoiceRecorder.tsx:16-19 | connect runs, then `isRecording` becomes true whatever the outcome; no note is saved |
| VoiceRecorder.Stop | src/components/VoiceRecorder.tsx:21-33 | disconnect and `isRecording` false; a note {collection 'notes', the transcript, the user id} is saved exactly when the transcript is non-empty |
| VoiceRecorder.Press | src/components/VoiceRecorder.tsx:38 | each press flips `isRecording`; pressing while recording is exactly `Stop` (disconnect, then save the transcript), otherwise it connects and saves nothing |
| VoiceRecorder.PressTwiceRestores | src/components/VoiceRecorder.tsx:38 | each press flips `isRecording`, so two presses restore it |
| VoiceRecorder.NoteOnlyWithText | src/components/VoiceRecorder.tsx:26 | a press adds one note when it stops with text, and none otherwise |
| VoiceRecorder.Session | src/components/VoiceRecorder.tsx:16-33 | start, messages, stop: the saved note is the earlier text extended with the session's pieces, and nothing is saved when that is empty |
| VoiceRecorder.SessionNoteExtendsPrevious | src/components/VoiceRecorder.tsx:26-31 | a note following earlier text begins with that text |
| VoiceRecorder.Recorder.constructor | src/components/VoiceRecorder.tsx:12-14 | not recording, no notes, bound to the provider and the user id |
| VoiceRecorder.Recorder.HandleStartRecording | src/components/VoiceRecorder.tsx:16-19 | the new view is `Start` of the old one |
| VoiceRecorder.Recorder.HandleStopRecording | src/components/VoiceRecorder.tsx:21-33 | the new view is `Stop` of the old one |
| VoiceRecorder.Recorder.OnButtonClick | src/components/VoiceRecorder.tsx:38 | stop when recording, start otherwise |

## Left out

- Rendering is not modelled: JSX, CSS classes, the framer-motion pulse, the three.js / react-spring scene, and the file-size text in megabytes. None of it holds state beyond the flags above.
- src/components/ModelThreeViewer.tsx, src/components/Model3DViewer.tsx, src/components/CameraBackground.tsx, src/lib/firebase/firebase.ts, the layouts, src/app/page.tsx, src/app/modelos/page.tsx and src/app/carrossel/page.tsx are not modelled. They hold floating-point animation, media capture, configuration, a redirect and static data.
- Time is not modelled. The carousel's 1500 ms `setTimeout` is the `TimerFires` event. React batching and event-loop interleavings are not modelled either: every handler and callback, including the whole of the asynchronous `connectToDeepgram`, is one atomic step.
- Deepgram.Connect: the guard reads the current state. The source reads the `connectionState` captured when the handler was rendered.
- Deepgram: every socket event is taken to come from the socket in `socketRef`. A socket that `disconnect` has already dropped does not keep a state of its own. Events may arrive in any order, which over-approximates the socket's lifecycle.
- Deepgram: the `dataavailable` listener that each `onopen` adds is not counted, so repeated opens do not send a chunk twice. A throwing `WebSocket` constructor is not modelled. `new MediaRecorder(...)` is not modelled to throw.
- Deepgram.Open: a recorder that is already recording is left as it is. In the source, `start` then throws inside the callback. The state update happens first, so the outcome is the same.
- The socket URL and protocol list are not recorded. `OpenSocket` keeps only the key.
- `console.log` and `console.error` are not modelled.
- `useDeepgram` throwing outside its provider is not modelled.
- UploadModel.Progress: the percentage `Math.round(bytesTransferred / totalBytes * 100)` is floating-point, so it enters as an opaque integer.
- src/lib/hooks/useAuth is not part of this model. The signed-in user is a parameter of the upload.
- src/lib/firebase/firebaseUtils is not part of this model. `addDocument` is recorded as a `Note`, without its timestamp and without the possibility that it rejects.
- uploadBytesResumable: only the upload task started last is tracked, with the file name its callbacks captured.
- JsRuntime.ParseInt: `parseInt("-0")` is -0 in JavaScript and 0 here. Both select the first model and the heading "1", so nothing observable differs.
- JsRuntime.ParseInt: results are exact integers, not doubles. This does not change the range check against 3.
- JsRuntime.ShowNat: prints every decimal digit for every n. JavaScript switches to exponent form from 10^21 and is exact only up to 2^53. The components print only 0 to 3.
- JsRuntime.SearchParam: percent-decoding and '+' as space are not modelled. Neither appears in the links the carousel produces.
