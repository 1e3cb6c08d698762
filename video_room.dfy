/**
 * The live session room (components/VideoRoom.tsx): local media, the relay socket, a single-shot
 * SDP offer/answer exchange (the offer/answer model of RFC 3264, without any ICE candidate
 * exchange) and a recorder whose chunks are concatenated and sent for analysis.
 *
 * The room's state is described twice: as a value, `RoomState`, with one step function per
 * handler (`...Step`), and as the class `VideoRoom`, whose fields are the component's state
 * variables and refs and whose methods are proved to perform exactly those steps. The
 * properties of the room are lemmas about the step functions.
 *
 * Browser objects are abstract: a media stream is its first audio and first video track, a
 * peer connection records how many tracks were added and which descriptions were applied,
 * the socket records whether it was disconnected, and everything emitted on it is kept in an
 * outbox in order. What the browser produces (granted devices, SDP text, recorded bytes, the
 * HTTP outcome of the upload) arrives as parameters.
 */
module VideoSession {
  import opened Wrappers
  import opened Types
  import Collections
  import AnalysisApi

  datatype TrackState = TrackState(enabled: bool, stopped: bool)

  /** `getAudioTracks()[0]` and `getVideoTracks()[0]`; either may be missing. */
  datatype MediaStream = MediaStream(audio: Option<TrackState>, video: Option<TrackState>)

  /** What `getUserMedia` granted: whether an audio and a video track came back. */
  datatype DeviceGrant = DeviceGrant(hasAudio: bool, hasVideo: bool)

  datatype SessionDescription = SessionDescription(sdp: string)

  datatype PeerConnection = PeerConnection(
    tracks: nat,
    localDescription: Option<SessionDescription>,
    remoteDescription: Option<SessionDescription>,
    closed: bool)

  datatype SocketHandle = SocketHandle(disconnected: bool)

  /** A recorder that is capturing, one whose `stop()` was called and whose `onstop` is pending, or one that has stopped. */
  datatype RecorderPhase = Capturing | Stopping | Finished

  /** The two messages the room emits on the relay; there is no message for ICE candidates. */
  datatype RelayMessage =
    | CallUserMsg(userToCall: string, signalData: SessionDescription, from: string, name: string)
    | AnswerCallMsg(signal: SessionDescription, to: string)

  /** One `dataavailable` payload. */
  type Chunk = seq<bv8>

  const WebmType := "video/webm"

  datatype RoomState = RoomState(
    stream: Option<MediaStream>,
    recording: bool,
    analyzing: bool,
    micOn: bool,
    cameraOn: bool,
    me: string,
    idToCall: string,
    callAccepted: bool,
    callEnded: bool,
    receivingCall: bool,
    caller: string,
    callerSignal: Option<SessionDescription>,
    socketConnected: bool,
    connection: Option<PeerConnection>,
    socket: Option<SocketHandle>,
    recorder: Option<RecorderPhase>,
    chunks: seq<Chunk>,
    recordedBlob: Option<Blob>,
    outbox: seq<RelayMessage>,
    completed: seq<AnalysisResult>)

  /**
   * What the room keeps true: each existing track's `enabled` agrees with its UI flag, an
   * incoming call always has a stored signal, a recording always has a capturing recorder,
   * there is a socket exactly when devices were granted, and the call never ends.
   */
  predicate ValidRoom(s: RoomState) {
    && (s.stream.Some? && s.stream.value.audio.Some? ==> s.stream.value.audio.value.enabled == s.micOn)
    && (s.stream.Some? && s.stream.value.video.Some? ==> s.stream.value.video.value.enabled == s.cameraOn)
    && (s.receivingCall ==> s.callerSignal.Some?)
    && (s.recording ==> s.recorder == Some(Capturing))
    && (s.stream.Some? <==> s.socket.Some?)
    && !s.callEnded
  }

  /** A freshly granted track is live and enabled. */
  function FreshTrack(present: bool): Option<TrackState> {
    if present then Some(TrackState(true, false)) else None
  }

  function TrackCount(stream: Option<MediaStream>): nat {
    match stream
    case None => 0
    case Some(m) => (if m.audio.Some? then 1 else 0) + (if m.video.Some? then 1 else 0)
  }

  /**
   * The first render followed by the mount effect: the stream and the socket are set only when
   * the devices were granted, because the socket is created after the awaited `getUserMedia` in
   * the same `try`.
   */
  function Mounted(devices: Option<DeviceGrant>): RoomState {
    var stream := if devices.Some? then Some(MediaStream(FreshTrack(devices.value.hasAudio), FreshTrack(devices.value.hasVideo))) else None;
    RoomState(stream, false, false, true, true, "", "", false, false, false, "", None, false,
              None, if devices.Some? then Some(SocketHandle(false)) else None, None, [], None, [], [])
  }

  // ---------------------------------------------------------------- relay events

  function OnConnectStep(s: RoomState): RoomState {
    s.(socketConnected := true)
  }

  function OnMeStep(s: RoomState, id: string): RoomState {
    s.(me := id)
  }

  function OnCallUserStep(s: RoomState, from: string, signal: SessionDescription): RoomState {
    s.(receivingCall := true, caller := from, callerSignal := Some(signal))
  }

  /** `connectionRef.current?.setRemoteDescription(...)`: only an existing connection is touched. */
  function OnCallAcceptedStep(s: RoomState, signal: SessionDescription): RoomState {
    s.(callAccepted := true,
       connection := if s.connection.Some? then Some(s.connection.value.(remoteDescription := Some(signal))) else None)
  }

  // ---------------------------------------------------------------- call setup

  function EditIdToCallStep(s: RoomState, text: string): RoomState {
    s.(idToCall := text)
  }

  /** `socket.current?.emit(...)`: a message leaves only when a socket exists. */
  function Emit(s: RoomState, m: RelayMessage): seq<RelayMessage> {
    if s.socket.Some? then s.outbox + [m] else s.outbox
  }

  /**
   * `callUser(id)`: a new peer connection replaces whatever `connectionRef` held, carries the
   * local tracks and the offer as its local description, and the offer goes out addressed to `id`.
   */
  function CallUserStep(s: RoomState, id: string, offer: SessionDescription): RoomState {
    s.(connection := Some(PeerConnection(TrackCount(s.stream), Some(offer), None, false)),
       outbox := Emit(s, CallUserMsg(id, offer, s.me, "User")))
  }

  /** `answerCall`: the stored caller signal becomes the remote description and the answer goes back to the caller. */
  function AnswerCallStep(s: RoomState, answer: SessionDescription): RoomState {
    s.(callAccepted := true,
       connection := Some(PeerConnection(TrackCount(s.stream), Some(answer), s.callerSignal, false)),
       outbox := Emit(s, AnswerCallMsg(answer, s.caller)))
  }

  // ---------------------------------------------------------------- device toggles

  function ToggleMicStep(s: RoomState): RoomState {
    if s.stream.Some? && s.stream.value.audio.Some? then
      var track := s.stream.value.audio.value;
      s.(stream := Some(s.stream.value.(audio := Some(track.(enabled := !s.micOn)))), micOn := !s.micOn)
    else s
  }

  function ToggleCameraStep(s: RoomState): RoomState {
    if s.stream.Some? && s.stream.value.video.Some? then
      var track := s.stream.value.video.value;
      s.(stream := Some(s.stream.value.(video := Some(track.(enabled := !s.cameraOn)))), cameraOn := !s.cameraOn)
    else s
  }

  // ---------------------------------------------------------------- recording

  function StartRecordingStep(s: RoomState): RoomState {
    if s.stream.None? then s
    else s.(recorder := Some(Capturing), chunks := [], recording := true, recordedBlob := None)
  }

  predicate NonEmpty(c: Chunk) {
    |c| > 0
  }

  /** `ondataavailable`: empty payloads are dropped, the others are appended in arrival order. */
  function OnDataAvailableStep(s: RoomState, data: Chunk): RoomState {
    if NonEmpty(data) then s.(chunks := s.chunks + [data]) else s
  }

  /** `stop()` on a recorder that already stopped raises no further `stop` event. */
  function StopRecordingStep(s: RoomState): RoomState {
    if s.recorder.None? then s
    else s.(recording := false, analyzing := true,
            recorder := if s.recorder.value == Capturing then Some(Stopping) else s.recorder)
  }

  /** The bytes of `new Blob(chunks)`: the chunks laid end to end in order. */
  function Flatten(chunks: seq<Chunk>): seq<bv8> {
    if chunks == [] then [] else chunks[0] + Flatten(chunks[1..])
  }

  function TotalSize(chunks: seq<Chunk>): nat {
    if chunks == [] then 0 else |chunks[0]| + TotalSize(chunks[1..])
  }

  /**
   * The recorder's `onstop`: the blob is built and kept, the upload resolves to `result` (it
   * never rejects), and `onAnalysisComplete` is called with that result; only when that callback
   * throws does `analyzing` go back to false.
   */
  function RecorderStoppedStep(s: RoomState, result: AnalysisResult, callbackThrows: bool): RoomState {
    s.(recorder := Some(Finished),
       recordedBlob := Some(Blob(Flatten(s.chunks), WebmType)),
       completed := s.completed + [result],
       analyzing := if callbackThrows then false else s.analyzing)
  }

  // ---------------------------------------------------------------- unmount

  /** The effect cleanup as written: the `stream` it reads is the first render's, which is null. */
  function CleanupAsWrittenStep(s: RoomState): RoomState {
    s.(socket := if s.socket.Some? then Some(SocketHandle(true)) else None,
       connection := if s.connection.Some? then Some(s.connection.value.(closed := true)) else None)
  }

  function StopTrack(t: Option<TrackState>): Option<TrackState> {
    if t.Some? then Some(t.value.(stopped := true)) else None
  }

  /** The cleanup as intended: the current stream's tracks are stopped as well. */
  function CleanupStep(s: RoomState): RoomState {
    var t := CleanupAsWrittenStep(s);
    t.(stream := if s.stream.Some? then Some(MediaStream(StopTrack(s.stream.value.audio), StopTrack(s.stream.value.video))) else None)
  }

  // ---------------------------------------------------------------- events

  /** Everything that can happen to a mounted room, one handler invocation each. */
  datatype Event =
    | Connect
    | AssignedId(id: string)
    | IncomingCall(from: string, signal: SessionDescription)
    | CallAccepted(acceptSignal: SessionDescription)
    | EditIdToCall(text: string)
    | Dial(target: string, offer: SessionDescription)
    | Answer(answer: SessionDescription)
    | MicToggle
    | CameraToggle
    | Record
    | DataAvailable(data: Chunk)
    | StopAndAnalyze
    | RecorderStop(result: AnalysisResult, callbackThrows: bool)

  /**
   * Whether an event can occur: relay events need a socket, the Answer button is only shown
   * while a call is incoming, and recorder events need a recorder that has not finished.
   */
  predicate Enabled(s: RoomState, e: Event) {
    match e
    case Connect => s.socket.Some?
    case AssignedId(_) => s.socket.Some?
    case IncomingCall(_, _) => s.socket.Some?
    case CallAccepted(_) => s.socket.Some?
    case Answer(_) => s.receivingCall
    case DataAvailable(_) => s.recorder.Some? && s.recorder.value != Finished
    case RecorderStop(_, _) => s.recorder == Some(Stopping)
    case _ => true
  }

  /** One event; an event that cannot occur in `s` leaves it unchanged. */
  function Apply(s: RoomState, e: Event): RoomState {
    if !Enabled(s, e) then s
    else match e
      case Connect => OnConnectStep(s)
      case AssignedId(id) => OnMeStep(s, id)
      case IncomingCall(from, signal) => OnCallUserStep(s, from, signal)
      case CallAccepted(signal) => OnCallAcceptedStep(s, signal)
      case EditIdToCall(text) => EditIdToCallStep(s, text)
      case Dial(id, offer) => CallUserStep(s, id, offer)
      case Answer(answer) => AnswerCallStep(s, answer)
      case MicToggle => ToggleMicStep(s)
      case CameraToggle => ToggleCameraStep(s)
      case Record => StartRecordingStep(s)
      case DataAvailable(data) => OnDataAvailableStep(s, data)
      case StopAndAnalyze => StopRecordingStep(s)
      case RecorderStop(result, throws) => RecorderStoppedStep(s, result, throws)
  }

  function Run(s: RoomState, es: seq<Event>): RoomState
    decreases |es|
  {
    if es == [] then s else Run(Apply(s, es[0]), es[1..])
  }

  // ---------------------------------------------------------------- properties

  /** The initial flags, and a failed device request leaves neither a stream nor a socket. */
  lemma MountedState(devices: Option<DeviceGrant>)
    ensures var s := Mounted(devices);
      && ValidRoom(s)
      && s.micOn && s.cameraOn && !s.callAccepted && !s.callEnded && !s.receivingCall && !s.socketConnected
      && s.me == "" && !s.recording && !s.analyzing
      && (devices.None? ==> s.stream.None? && s.socket.None?)
      && (devices.Some? ==> s.socket == Some(SocketHandle(false)) && TrackCount(s.stream) <= 2)
  {
  }

  /** Every event keeps the room's invariant. */
  lemma ApplyKeepsValid(s: RoomState, e: Event)
    requires ValidRoom(s)
    ensures ValidRoom(Apply(s, e))
  {
    if Enabled(s, e) {
      match e
      case MicToggle => ToggleMicFlipsTogether(s);
      case CameraToggle => ToggleCameraFlipsTogether(s);
      case RecorderStop(result, throws) => RecorderStopKeepsValid(s, result, throws);
      case _ =>
    }
  }

  lemma RecorderStopKeepsValid(s: RoomState, result: AnalysisResult, callbackThrows: bool)
    requires ValidRoom(s) && s.recorder == Some(Stopping)
    ensures ValidRoom(RecorderStoppedStep(s, result, callbackThrows))
  {
  }

  lemma {:induction false} RunKeepsValid(s: RoomState, es: seq<Event>)
    requires ValidRoom(s)
    ensures ValidRoom(Run(s, es))
    decreases |es|
  {
    if es != [] {
      ApplyKeepsValid(s, es[0]);
      RunKeepsValid(Apply(s, es[0]), es[1..]);
    }
  }

  /** `callEnded` is declared but nothing sets it: whatever happens after mounting, the call has not ended. */
  lemma CallNeverEnds(devices: Option<DeviceGrant>, es: seq<Event>)
    ensures !Run(Mounted(devices), es).callEnded
  {
    MountedState(devices);
    RunKeepsValid(Mounted(devices), es);
  }

  /** An incoming call is stored, not answered: no flag is accepted, nothing is sent, no connection is made. */
  lemma IncomingCallIsOnlyRecorded(s: RoomState, from: string, signal: SessionDescription)
    ensures var t := OnCallUserStep(s, from, signal);
      && t.receivingCall && t.caller == from && t.callerSignal == Some(signal)
      && t.callAccepted == s.callAccepted && t.outbox == s.outbox && t.connection == s.connection
  {
  }

  /**
   * Dialling sends exactly one message, the offer addressed to the target from `me` under the
   * name "User", and changes no call flag.
   */
  lemma DialSendsOneOffer(s: RoomState, id: string, offer: SessionDescription)
    requires s.socket.Some?
    ensures var t := CallUserStep(s, id, offer);
      && |t.outbox| == |s.outbox| + 1 && t.outbox[..|s.outbox|] == s.outbox
      && t.outbox[|s.outbox|] == CallUserMsg(id, offer, s.me, "User")
      && t.callAccepted == s.callAccepted && t.receivingCall == s.receivingCall && t.callEnded == s.callEnded
      && t.connection == Some(PeerConnection(TrackCount(s.stream), Some(offer), None, false))
  {
  }

  /** Nothing stops a second dial: the second connection silently replaces the first, which is never closed. */
  lemma DialTwiceReplacesConnection(s: RoomState, id1: string, offer1: SessionDescription, id2: string, offer2: SessionDescription)
    requires s.socket.Some?
    ensures var t := CallUserStep(CallUserStep(s, id1, offer1), id2, offer2);
      && t.connection == Some(PeerConnection(TrackCount(s.stream), Some(offer2), None, false))
      && t.outbox == s.outbox + [CallUserMsg(id1, offer1, s.me, "User"), CallUserMsg(id2, offer2, s.me, "User")]
  {
  }

  /** Answering accepts the call, applies the stored caller signal and sends the answer back to the caller. */
  lemma AnswerAppliesCallerSignal(s: RoomState, answer: SessionDescription)
    requires ValidRoom(s) && s.receivingCall && s.socket.Some?
    ensures var t := AnswerCallStep(s, answer);
      && t.callAccepted
      && t.connection.Some? && t.connection.value.remoteDescription == s.callerSignal
      && t.connection.value.localDescription == Some(answer)
      && t.outbox == s.outbox + [AnswerCallMsg(answer, s.caller)]
  {
  }

  /** The caller learns of acceptance from the relay; its own connection gets the answer. */
  lemma AcceptedSetsRemote(s: RoomState, signal: SessionDescription)
    ensures var t := OnCallAcceptedStep(s, signal);
      && t.callAccepted
      && (s.connection.Some? ==> t.connection == Some(s.connection.value.(remoteDescription := Some(signal))))
      && (s.connection.None? ==> t.connection.None?)
  {
  }

  /**
   * A toggle flips the UI flag and the track together when the track exists and otherwise
   * changes nothing; it never touches the connection, and toggling twice restores the room.
   */
  lemma ToggleMicFlipsTogether(s: RoomState)
    requires ValidRoom(s)
    ensures var t := ToggleMicStep(s);
      && (s.stream.Some? && s.stream.value.audio.Some? ==>
            t.micOn == !s.micOn && t.stream.value.audio.value.enabled == t.micOn)
      && (s.stream.None? || s.stream.value.audio.None? ==> t == s)
      && t.connection == s.connection
      && ToggleMicStep(t) == s
  {
  }

  lemma ToggleCameraFlipsTogether(s: RoomState)
    requires ValidRoom(s)
    ensures var t := ToggleCameraStep(s);
      && (s.stream.Some? && s.stream.value.video.Some? ==>
            t.cameraOn == !s.cameraOn && t.stream.value.video.value.enabled == t.cameraOn)
      && (s.stream.None? || s.stream.value.video.None? ==> t == s)
      && t.connection == s.connection
      && ToggleCameraStep(t) == s
  {
  }

  /** The blob's size is the sum of the chunk sizes. */
  lemma {:induction false} FlattenSize(chunks: seq<Chunk>)
    ensures |Flatten(chunks)| == TotalSize(chunks)
  {
    if chunks != [] {
      FlattenSize(chunks[1..]);
    }
  }

  /** Concatenation respects order: the bytes of two runs of chunks are the two byte runs, in order. */
  lemma {:induction false} FlattenAppend(a: seq<Chunk>, b: seq<Chunk>)
    ensures Flatten(a + b) == Flatten(a) + Flatten(b)
  {
    if a == [] {
      assert a + b == b;
    } else {
      assert (a + b)[1..] == a[1..] + b;
      FlattenAppend(a[1..], b);
    }
  }

  /** A run of `dataavailable` events. */
  function Feed(s: RoomState, ds: seq<Chunk>): RoomState
    decreases |ds|
  {
    if ds == [] then s else Feed(OnDataAvailableStep(s, ds[0]), ds[1..])
  }

  /** Feeding payloads appends exactly the non-empty ones, in arrival order, and changes nothing else. */
  lemma {:induction false} FeedKeepsNonEmptyInOrder(s: RoomState, ds: seq<Chunk>)
    ensures Feed(s, ds) == s.(chunks := s.chunks + Collections.Filter(ds, NonEmpty))
    decreases |ds|
  {
    if ds == [] {
      assert s.chunks + [] == s.chunks;
    } else {
      var s1 := OnDataAvailableStep(s, ds[0]);
      FeedKeepsNonEmptyInOrder(s1, ds[1..]);
      Collections.FilterAppend([ds[0]], ds[1..], NonEmpty);
      assert [ds[0]] + ds[1..] == ds;
      if NonEmpty(ds[0]) {
        assert Collections.Filter([ds[0]], NonEmpty) == [ds[0]];
        assert s1.chunks + Collections.Filter(ds[1..], NonEmpty) == s.chunks + ([ds[0]] + Collections.Filter(ds[1..], NonEmpty));
      } else {
        assert Collections.Filter([ds[0]], NonEmpty) == [];
      }
    }
  }

  /** The events of `ds` as `dataavailable` events. */
  function DataEvents(ds: seq<Chunk>): (es: seq<Event>)
    ensures |es| == |ds|
    ensures forall i :: 0 <= i < |ds| ==> es[i] == DataAvailable(ds[i])
  {
    if ds == [] then [] else [DataAvailable(ds[0])] + DataEvents(ds[1..])
  }

  /** While a recorder is live, `dataavailable` events are exactly a feed. */
  lemma {:induction false} DataEventsFeed(s: RoomState, ds: seq<Chunk>)
    requires s.recorder.Some? && s.recorder.value != Finished
    ensures Run(s, DataEvents(ds)) == Feed(s, ds)
    decreases |ds|
  {
    if ds != [] {
      assert DataEvents(ds)[1..] == DataEvents(ds[1..]);
      DataEventsFeed(OnDataAvailableStep(s, ds[0]), ds[1..]);
    }
  }

  /**
   * A whole recording: start, payloads `ds`, Stop & Analyze and the recorder's `onstop` with the
   * upload's result. The blob is the non-empty payloads concatenated in arrival order and typed
   * video/webm, its size is the sum of their sizes, the callback receives the result once, and
   * `analyzing` is still true unless the callback threw.
   */
  lemma {:induction false} RecordingRoundTrip(s: RoomState, ds: seq<Chunk>, result: AnalysisResult, callbackThrows: bool)
    requires s.stream.Some?
    ensures var w := Run(s, [Record] + DataEvents(ds) + [StopAndAnalyze, RecorderStop(result, callbackThrows)]);
      var kept := Collections.Filter(ds, NonEmpty);
      && w.recordedBlob == Some(Blob(Flatten(kept), WebmType))
      && |w.recordedBlob.value.bytes| == TotalSize(kept)
      && w.completed == s.completed + [result]
      && w.analyzing == !callbackThrows
      && !w.recording
  {
    RecordingRun(s, ds, result, callbackThrows);
    var kept := Collections.Filter(ds, NonEmpty);
    var u := Feed(StartRecordingStep(s), ds);
    FeedKeepsNonEmptyInOrder(StartRecordingStep(s), ds);
    assert u.chunks == kept by {
      assert [] + kept == kept;
    }
    assert u.recorder == Some(Capturing);
    FlattenSize(kept);
  }

  /** The recording's events, as the composition of the steps they trigger. */
  lemma RecordingRun(s: RoomState, ds: seq<Chunk>, result: AnalysisResult, callbackThrows: bool)
    requires s.stream.Some?
    ensures Run(s, [Record] + DataEvents(ds) + [StopAndAnalyze, RecorderStop(result, callbackThrows)])
         == RecorderStoppedStep(StopRecordingStep(Feed(StartRecordingStep(s), ds)), result, callbackThrows)
  {
    var t := StartRecordingStep(s);
    var u := Feed(t, ds);
    var tail := [StopAndAnalyze, RecorderStop(result, callbackThrows)];
    var rest := DataEvents(ds) + tail;
    assert Run(s, [Record] + DataEvents(ds) + tail) == Run(t, rest) by {
      assert [Record] + DataEvents(ds) + tail == [Record] + rest;
      RunCons(s, Record, rest);
    }
    assert Run(t, rest) == Run(u, tail) by {
      RunAppend(t, DataEvents(ds), tail);
      DataEventsFeed(t, ds);
    }
    assert u.recorder == Some(Capturing) by {
      FeedKeepsNonEmptyInOrder(t, ds);
    }
    StopThenStopped(u, result, callbackThrows);
  }

  lemma RunCons(s: RoomState, e: Event, rest: seq<Event>)
    ensures Run(s, [e] + rest) == Run(Apply(s, e), rest)
  {
    assert ([e] + rest)[1..] == rest;
  }

  /** Stop & Analyze on a capturing recorder, then its `onstop`. */
  lemma StopThenStopped(u: RoomState, result: AnalysisResult, callbackThrows: bool)
    requires u.recorder == Some(Capturing)
    ensures Run(u, [StopAndAnalyze, RecorderStop(result, callbackThrows)])
         == RecorderStoppedStep(StopRecordingStep(u), result, callbackThrows)
  {
    var v := StopRecordingStep(u);
    assert Apply(u, StopAndAnalyze) == v;
    assert v.recorder == Some(Stopping);
    assert Apply(v, RecorderStop(result, callbackThrows)) == RecorderStoppedStep(v, result, callbackThrows);
    RunTwo(u, StopAndAnalyze, RecorderStop(result, callbackThrows));
  }

  lemma RunOne(s: RoomState, e: Event)
    ensures Run(s, [e]) == Apply(s, e)
  {
    assert [e][1..] == [];
  }

  lemma RunTwo(s: RoomState, e1: Event, e2: Event)
    ensures Run(s, [e1, e2]) == Apply(Apply(s, e1), e2)
  {
    assert [e1, e2][1..] == [e2];
    RunOne(Apply(s, e1), e2);
  }

  lemma {:induction false} RunAppend(s: RoomState, a: seq<Event>, b: seq<Event>)
    ensures Run(s, a + b) == Run(Run(s, a), b)
    decreases |a|
  {
    if a == [] {
      assert a + b == b;
    } else {
      assert (a + b)[1..] == a[1..] + b;
      RunAppend(Apply(s, a[0]), a[1..], b);
    }
  }

  /** Only a throwing analysis callback clears `analyzing`; no other event does. */
  lemma OnlyCallbackFailureClearsAnalyzing(s: RoomState, e: Event)
    requires s.analyzing && !Apply(s, e).analyzing
    ensures e.RecorderStop? && e.callbackThrows
  {
  }

  /** The cleanup as written stops no device track: a live track stays live after unmount. */
  lemma CleanupAsWrittenLeavesTracksLive(s: RoomState)
    ensures CleanupAsWrittenStep(s).stream == s.stream
    ensures CleanupAsWrittenStep(s).socket.Some? ==> CleanupAsWrittenStep(s).socket.value.disconnected
  {
  }

  /** Concretely: mount with both devices granted, unmount, and the microphone is still live. */
  lemma CleanupAsWrittenCounterexample()
    ensures var t := CleanupAsWrittenStep(Mounted(Some(DeviceGrant(true, true))));
      t.stream.Some? && t.stream.value.audio == Some(TrackState(true, false))
  {
  }

  /** The intended cleanup releases every device track, disconnects the socket and closes the connection. */
  lemma CleanupReleasesDevices(s: RoomState)
    ensures var t := CleanupStep(s);
      && (t.stream.Some? && t.stream.value.audio.Some? ==> t.stream.value.audio.value.stopped)
      && (t.stream.Some? && t.stream.value.video.Some? ==> t.stream.value.video.value.stopped)
      && (t.socket.Some? ==> t.socket.value.disconnected)
      && (t.connection.Some? ==> t.connection.value.closed)
      && TrackCount(t.stream) == TrackCount(s.stream)
  {
  }

  // ---------------------------------------------------------------- the component

  /** The component instance: its state variables and refs, updated in place by its handlers. */
  class VideoRoom {
    var stream: Option<MediaStream>
    var recording: bool
    var analyzing: bool
    var micOn: bool
    var cameraOn: bool
    var me: string
    var idToCall: string
    var callAccepted: bool
    var callEnded: bool
    var receivingCall: bool
    var caller: string
    var callerSignal: Option<SessionDescription>
    var socketConnected: bool
    var connection: Option<PeerConnection>
    var socket: Option<SocketHandle>
    var recorder: Option<RecorderPhase>
    var chunks: seq<Chunk>
    var recordedBlob: Option<Blob>
    var outbox: seq<RelayMessage>
    var completed: seq<AnalysisResult>

    function State(): RoomState
      reads this
    {
      RoomState(stream, recording, analyzing, micOn, cameraOn, me, idToCall, callAccepted, callEnded,
                receivingCall, caller, callerSignal, socketConnected, connection, socket, recorder,
                chunks, recordedBlob, outbox, completed)
    }

    predicate Valid()
      reads this
    {
      ValidRoom(State())
    }

    /** Mount and run the init effect with the outcome of the device request. */
    constructor (devices: Option<DeviceGrant>)
      ensures Valid()
      ensures State() == Mounted(devices)
    {
      stream, recording, analyzing, micOn, cameraOn := None, false, false, true, true;
      me, idToCall, callAccepted, callEnded, receivingCall := "", "", false, false, false;
      caller, callerSignal, socketConnected := "", None, false;
      connection, socket, recorder, chunks, recordedBlob := None, None, None, [], None;
      outbox, completed := [], [];
      if devices.Some? {
        stream := Some(MediaStream(FreshTrack(devices.value.hasAudio), FreshTrack(devices.value.hasVideo)));
        socket := Some(SocketHandle(false));
      }
    }

    method OnConnect()
      requires Valid() && socket.Some?
      modifies this
      ensures Valid() && State() == OnConnectStep(old(State()))
    {
      socketConnected := true;
    }

    method OnMe(id: string)
      requires Valid() && socket.Some?
      modifies this
      ensures Valid() && State() == OnMeStep(old(State()), id)
    {
      me := id;
    }

    method OnCallUser(from: string, signal: SessionDescription)
      requires Valid() && socket.Some?
      modifies this
      ensures Valid() && State() == OnCallUserStep(old(State()), from, signal)
    {
      receivingCall := true;
      caller := from;
      callerSignal := Some(signal);
    }

    method OnCallAccepted(signal: SessionDescription)
      requires Valid() && socket.Some?
      modifies this
      ensures Valid() && State() == OnCallAcceptedStep(old(State()), signal)
    {
      callAccepted := true;
      if connection.Some? {
        connection := Some(connection.value.(remoteDescription := Some(signal)));
      }
    }

    method EditIdToCall(text: string)
      requires Valid()
      modifies this
      ensures Valid() && State() == EditIdToCallStep(old(State()), text)
    {
      idToCall := text;
    }

    /** `offer` is what `createOffer` resolved to. */
    method CallUser(id: string, offer: SessionDescription)
      requires Valid()
      modifies this
      ensures Valid() && State() == CallUserStep(old(State()), id, offer)
    {
      connection := Some(PeerConnection(TrackCount(stream), None, None, false));
      connection := Some(connection.value.(localDescription := Some(offer)));
      if socket.Some? {
        outbox := outbox + [CallUserMsg(id, offer, me, "User")];
      }
    }

    /** `answer` is what `createAnswer` resolved to. */
    method AnswerCall(answer: SessionDescription)
      requires Valid() && receivingCall
      modifies this
      ensures Valid() && State() == AnswerCallStep(old(State()), answer)
    {
      callAccepted := true;
      connection := Some(PeerConnection(TrackCount(stream), None, None, false));
      connection := Some(connection.value.(remoteDescription := callerSignal));
      connection := Some(connection.value.(localDescription := Some(answer)));
      if socket.Some? {
        outbox := outbox + [AnswerCallMsg(answer, caller)];
      }
    }

    method ToggleMic()
      requires Valid()
      modifies this
      ensures Valid() && State() == ToggleMicStep(old(State()))
    {
      if stream.Some? {
        var audioTrack := stream.value.audio;
        if audioTrack.Some? {
          stream := Some(stream.value.(audio := Some(audioTrack.value.(enabled := !micOn))));
          micOn := !micOn;
        }
      }
    }

    method ToggleCamera()
      requires Valid()
      modifies this
      ensures Valid() && State() == ToggleCameraStep(old(State()))
    {
      if stream.Some? {
        var videoTrack := stream.value.video;
        if videoTrack.Some? {
          stream := Some(stream.value.(video := Some(videoTrack.value.(enabled := !cameraOn))));
          cameraOn := !cameraOn;
        }
      }
    }

    method StartRecording()
      requires Valid()
      modifies this
      ensures Valid() && State() == StartRecordingStep(old(State()))
    {
      if stream.None? {
        return;
      }
      recorder := Some(Capturing);
      chunks := [];
      recording := true;
      recordedBlob := None;
    }

    method OnDataAvailable(data: Chunk)
      requires Valid() && recorder.Some? && recorder.value != Finished
      modifies this
      ensures Valid() && State() == OnDataAvailableStep(old(State()), data)
    {
      if |data| > 0 {
        chunks := chunks + [data];
      }
    }

    method StopRecordingAndAnalyze()
      requires Valid()
      modifies this
      ensures Valid() && State() == StopRecordingStep(old(State()))
    {
      if recorder.None? {
        return;
      }
      recording := false;
      analyzing := true;
      if recorder.value == Capturing {
        recorder := Some(Stopping);
      }
    }

    /**
     * The recorder's `onstop`, once `uploadVideoForAnalysis(blob)` has resolved to `result`
     * (`AnalysisApi.UploadVideoForAnalysis` says which value that is); `callbackThrows` says
     * whether `onAnalysisComplete` threw.
     */
    method RecorderStopped(result: AnalysisResult, callbackThrows: bool)
      requires Valid() && recorder == Some(Stopping)
      modifies this
      ensures Valid()
      ensures State() == RecorderStoppedStep(old(State()), result, callbackThrows)
    {
      recorder := Some(Finished);
      recordedBlob := Some(Blob(Flatten(chunks), WebmType));
      completed := completed + [result];
      if callbackThrows {
        analyzing := false;
      }
    }

    /**
     * Unmount as written: the cleanup sees the first render's `stream`, which is null, so it
     * disconnects the socket and closes the connection but stops no track.
     */
    method Unmount()
      requires Valid()
      modifies this
      ensures Valid()
      ensures State() == CleanupAsWrittenStep(old(State()))
    {
      if socket.Some? {
        socket := Some(SocketHandle(true));
      }
      if connection.Some? {
        connection := Some(connection.value.(closed := true));
      }
    }

    /** Unmount with the intended cleanup: the current stream's tracks are stopped too. */
    method UnmountIntended()
      requires Valid()
      modifies this
      ensures Valid()
      ensures State() == CleanupStep(old(State()))
    {
      if stream.Some? {
        stream := Some(MediaStream(StopTrack(stream.value.audio), StopTrack(stream.value.video)));
      }
      if socket.Some? {
        socket := Some(SocketHandle(true));
      }
      if connection.Some? {
        connection := Some(connection.value.(closed := true));
      }
    }
  }
}
