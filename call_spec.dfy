/** The call controller's behaviour as functions over its whole state: the
    store's fields, the module-level peer connection and polling timer, and
    logs of what the controller did to the outside (signal posts, negotiation
    steps that succeeded, connections closed, streams stopped, media
    requested, polls issued). Browser media and WebRTC objects are opaque
    tokens; each awaited call that can fail is a parameter saying how far the
    chain got. */
module CallSpec {
  import opened Json
  import opened Signals

  datatype CallMode = Audio | Video

  function ModeValue(m: CallMode): Value {
    match m
    case Audio => Str("audio")
    case Video => Str("video")
  }

  datatype Status = Idle | Calling | Ringing | Connected

  /** `mode` is kept as the raw value: for an incoming offer it is the
      offer's `type` field, never checked to be audio or video. */
  datatype CallSession = CallSession(peerId: string, mode: Value, status: Status)

  /** An `RTCPeerConnection`, a `MediaStream`, an interval timer. */
  datatype Connection = Connection(id: nat)
  datatype Stream = Stream(id: nat)
  datatype Timer = Timer(id: nat)

  /** One `sendSignal` call: a POST to the signal route. */
  datatype Outgoing = Outgoing(toId: string, kind: string, payload: Value)

  /** A negotiation step that the peer connection accepted. */
  datatype Applied =
    | RemoteDescription(pc: Connection, description: Value)
    | IceCandidate(pc: Connection, candidate: Value)

  const StartFailed: string := "Gagal memulai panggilan"
  const AcceptFailed: string := "Gagal menerima panggilan"
  const HangupPayload: Value := Obj(map[])

  /** What the controller has done to the world outside its own fields:
      signal posts issued, negotiation steps the connection accepted,
      connections closed, streams stopped, media requested, the peer each
      connection's `onicecandidate` handler sends to, the connections with a
      state-change handler, and the polls issued. */
  datatype World = World(
    sent: seq<Outgoing>,
    applied: seq<Applied>,
    closedConnections: seq<Connection>,
    stoppedStreams: seq<Stream>,
    mediaRequests: seq<CallMode>,
    candidateTargets: map<Connection, string>,
    watched: set<Connection>,
    polls: nat)

  /** The store's fields, the module-level connection and timer, and the
      world. */
  datatype CallState = CallState(
    session: Option<CallSession>,
    localStream: Option<Stream>,
    remoteStream: Option<Stream>,
    incomingOffer: Option<Signal>,
    errors: Option<string>,
    peerConnection: Option<Connection>,
    pollingTimer: Option<Timer>,
    world: World)

  function Initial(): CallState {
    CallState(None, None, None, None, None, None, None, World([], [], [], [], [], map[], {}, 0))
  }

  /** `payload?.type ?? 'audio'`: the session mode an offer announces. */
  function OfferMode(payload: Value): Value {
    OrElse(Prop(payload, "type"), Str("audio"))
  }

  /** `payload?.type === 'video' ? 'video' : 'audio'`: the media requested
      when accepting. */
  function MediaMode(payload: Value): CallMode {
    if Prop(payload, "type") == Str("video") then Video else Audio
  }

  /** The body of the offer `startCall` sends: `{ offer, type: mode }`. */
  function OfferPayload(description: Value, mode: CallMode): Value {
    Obj(map["offer" := description, "type" := ModeValue(mode)])
  }

  /** `setupConnection`: the new connection replaces the module-level one
      before anything is awaited (the old one is not closed); its
      `onicecandidate` handler will send candidates to `peerId`; then media
      of `mode` is requested. */
  function SetupConnection(s: CallState, peerId: string, mode: CallMode, pc: Connection): CallState {
    s.(peerConnection := Some(pc),
       world := s.world.(candidateTargets := s.world.candidateTargets[pc := peerId],
                         mediaRequests := s.world.mediaRequests + [mode]))
  }

  /** One `sendSignal` call. */
  function Send(s: CallState, message: Outgoing): CallState {
    s.(world := s.world.(sent := s.world.sent + [message]))
  }

  /** The `onconnectionstatechange` handler `startCall` installs on `pc`. */
  function Watch(s: CallState, pc: Connection): CallState {
    s.(world := s.world.(watched := s.world.watched + {pc}))
  }

  /** A negotiation step the connection accepted. */
  function Record(s: CallState, step: Applied): CallState {
    s.(world := s.world.(applied := s.world.applied + [step]))
  }

  function ReportError(s: CallState, message: string): CallState {
    s.(errors := Some(message))
  }

  function MarkConnected(session: Option<CallSession>): Option<CallSession> {
    match session
    case Some(c) => Some(c.(status := Connected))
    case None => None
  }

  function StreamsOf(stream: Option<Stream>): seq<Stream> {
    if stream.Some? then [stream.value] else []
  }

  /** How far `startCall`'s chain of awaits got. */
  datatype StartStep = StartMediaFails | CreateOfferFails | SetOfferFails | SendOfferFails | StartSucceeds

  /** `startCall(peerId, mode)` with connection `pc`, local media `stream`
      and local description `offer`. */
  function StartCall(s: CallState, peerId: string, mode: CallMode, pc: Connection, stream: Stream,
                     offer: Value, step: StartStep): CallState
  {
    var t := SetupConnection(s, peerId, mode, pc);
    if step == StartMediaFails then ReportError(t, StartFailed)
    else
      var w := Watch(t, pc);
      if step == CreateOfferFails || step == SetOfferFails then ReportError(w, StartFailed)
      else
        var o := Send(w, Outgoing(peerId, "offer", OfferPayload(offer, mode)));
        if step == SendOfferFails then ReportError(o, StartFailed)
        else o.(session := Some(CallSession(peerId, ModeValue(mode), Calling)),
                localStream := Some(stream), errors := None)
  }

  /** How far `acceptCall`'s chain of awaits got. */
  datatype AcceptStep =
    | AcceptMediaFails | RemoteOfferFails | CreateAnswerFails | SetAnswerFails | SendAnswerFails | AcceptSucceeds

  /** `acceptCall()` with connection `pc`, local media `stream` and local
      description `answer`. A nullish offer payload makes `payload.offer`
      throw once the media is acquired. */
  function AcceptCall(s: CallState, pc: Connection, stream: Stream, answer: Value, step: AcceptStep): CallState {
    match s.incomingOffer
    case None => s
    case Some(offer) =>
      var peerId := offer.fromId;
      var payload := offer.payload;
      var t := SetupConnection(s, peerId, MediaMode(payload), pc);
      if step == AcceptMediaFails || Nullish(payload) || step == RemoteOfferFails then
        ReportError(t, AcceptFailed)
      else
        var d := Record(t, RemoteDescription(pc, Prop(payload, "offer")));
        if step == CreateAnswerFails || step == SetAnswerFails then ReportError(d, AcceptFailed)
        else
          var a := Send(d, Outgoing(peerId, "answer", answer));
          if step == SendAnswerFails then ReportError(a, AcceptFailed)
          else a.(session := Some(CallSession(peerId, OfferMode(payload), Connected)),
                  localStream := Some(stream), incomingOffer := None, errors := None)
  }

  /** `declineCall()`. */
  function DeclineCall(s: CallState): CallState {
    var t := if s.incomingOffer.Some? then Send(s, Outgoing(s.incomingOffer.value.fromId, "hangup", HangupPayload)) else s;
    t.(incomingOffer := None, errors := None, session := None)
  }

  /** `endCall`'s first step: tell the session's peer, if there is one. */
  function HangUp(s: CallState): CallState {
    if s.session.Some? then Send(s, Outgoing(s.session.value.peerId, "hangup", HangupPayload)) else s
  }

  /** Close the current connection, if any, and forget it. */
  function CloseConnection(s: CallState): CallState {
    var closing := if s.peerConnection.Some? then [s.peerConnection.value] else [];
    s.(peerConnection := None, world := s.world.(closedConnections := s.world.closedConnections + closing))
  }

  /** Stop the tracks of the local, then the remote stream. */
  function StopStreams(s: CallState): CallState {
    s.(world := s.world.(stoppedStreams := s.world.stoppedStreams + StreamsOf(s.localStream) + StreamsOf(s.remoteStream)))
  }

  function ClearCall(s: CallState): CallState {
    s.(session := None, localStream := None, remoteStream := None, incomingOffer := None, errors := None)
  }

  /** `endCall()`. */
  function EndCall(s: CallState): CallState {
    ClearCall(StopStreams(CloseConnection(HangUp(s))))
  }

  /** `handleSignal(signal)`; `ok` says whether the awaited
      `setRemoteDescription` or `addIceCandidate` succeeded. A failed remote
      description rejects the handler's promise and changes nothing; a
      failed candidate is caught and changes nothing. */
  function HandleSignal(s: CallState, signal: Signal, ok: bool): CallState {
    if signal.kind == Str("offer") then
      s.(incomingOffer := Some(signal),
         session := Some(CallSession(signal.fromId, OfferMode(signal.payload), Ringing)))
    else if signal.kind == Str("answer") then
      if s.peerConnection.None? || !ok then s
      else Record(s, RemoteDescription(s.peerConnection.value, signal.payload)).(session := MarkConnected(s.session))
    else if signal.kind == Str("candidate") then
      if s.peerConnection.None? || !ok then s
      else Record(s, IceCandidate(s.peerConnection.value, signal.payload))
    else if signal.kind == Str("hangup") then EndCall(s)
    else s
  }

  /** The polled signals handled one after another in array order. */
  function Dispatch(s: CallState, signals: seq<Signal>, oks: seq<bool>): CallState
    requires |oks| == |signals|
  {
    if signals == [] then s
    else
      var n := |signals| - 1;
      HandleSignal(Dispatch(s, signals[..n], oks[..n]), signals[n], oks[n])
  }

  /** How one poll's request ended. */
  datatype PollResult = PollThrew | PollNotOk | PollSignals(signals: seq<Signal>)

  /** A poll's answer arrives: only an ok answer's signals are handled. */
  function PollCompleted(s: CallState, result: PollResult, oks: seq<bool>): CallState
    requires result.PollSignals? ==> |oks| == |result.signals|
  {
    match result
    case PollSignals(signals) => Dispatch(s, signals, oks)
    case _ => s
  }

  /** `startSignalPolling()`: with no timer, one poll at once and a new
      timer. */
  function StartPolling(s: CallState, timer: Timer): CallState {
    if s.pollingTimer.Some? then s else s.(pollingTimer := Some(timer), world := s.world.(polls := s.world.polls + 1))
  }

  /** The interval timer fires: one more poll. */
  function TimerFires(s: CallState): CallState
    requires s.pollingTimer.Some?
  {
    s.(world := s.world.(polls := s.world.polls + 1))
  }

  /** `stopSignalPolling()`. */
  function StopPolling(s: CallState): CallState {
    s.(pollingTimer := None)
  }

  /** `ontrack`: the stream becomes the remote stream. */
  function OnTrack(s: CallState, stream: Stream): CallState {
    s.(remoteStream := Some(stream))
  }

  /** `onicecandidate` of connection `pc`: a truthy candidate is sent to the
      peer `pc` was set up for. */
  function OnIceCandidate(s: CallState, pc: Connection, candidate: Value): CallState
    requires pc in s.world.candidateTargets
  {
    if !Truthy(candidate) then s
    else Send(s, Outgoing(s.world.candidateTargets[pc], "candidate", candidate))
  }

  /** `onconnectionstatechange` of a connection `startCall` made; it looks at
      the CURRENT module-level connection: `currentConnected` is whether
      that one's state is `connected`. */
  function OnConnectionStateChange(s: CallState, pc: Connection, currentConnected: bool): CallState
    requires pc in s.world.watched
  {
    if s.peerConnection.Some? && currentConnected then s.(session := MarkConnected(s.session)) else s
  }

  /** Everything that can happen to the controller. */
  datatype Event =
    | Start(peerId: string, mode: CallMode, pc: Connection, stream: Stream, offer: Value, startStep: StartStep)
    | Accept(acceptPc: Connection, acceptStream: Stream, answer: Value, acceptStep: AcceptStep)
    | Decline
    | End
    | Received(signal: Signal, ok: bool)
    | Polled(result: PollResult, oks: seq<bool>)
    | StartPollingEvent(timer: Timer)
    | Tick
    | StopPollingEvent
    | Track(track: Stream)
    | Candidate(source: Connection, candidate: Value)
    | StateChange(changed: Connection, currentConnected: bool)

  /** The events the environment can deliver in state `s`. */
  predicate Enabled(s: CallState, e: Event) {
    match e
    case Polled(result, oks) => result.PollSignals? ==> |oks| == |result.signals|
    case Tick => s.pollingTimer.Some?
    case Candidate(pc, _) => pc in s.world.candidateTargets
    case StateChange(pc, _) => pc in s.world.watched
    case _ => true
  }

  function Step(s: CallState, e: Event): CallState
    requires Enabled(s, e)
  {
    match e
    case Start(peerId, mode, pc, stream, offer, step) => StartCall(s, peerId, mode, pc, stream, offer, step)
    case Accept(pc, stream, answer, step) => AcceptCall(s, pc, stream, answer, step)
    case Decline => DeclineCall(s)
    case End => EndCall(s)
    case Received(signal, ok) => HandleSignal(s, signal, ok)
    case Polled(result, oks) => PollCompleted(s, result, oks)
    case StartPollingEvent(timer) => StartPolling(s, timer)
    case Tick => TimerFires(s)
    case StopPollingEvent => StopPolling(s)
    case Track(stream) => OnTrack(s, stream)
    case Candidate(pc, candidate) => OnIceCandidate(s, pc, candidate)
    case StateChange(pc, connected) => OnConnectionStateChange(s, pc, connected)
  }

  /** A run of events from `s`, each applied if the environment can deliver
      it at that point. */
  function Run(s: CallState, events: seq<Event>): CallState {
    if events == [] then s
    else
      var t := Run(s, events[..|events| - 1]);
      var e := events[|events| - 1];
      if Enabled(t, e) then Step(t, e) else t
  }

  /** A `calling` or `connected` session always has a connection to talk
      over: every write of those statuses follows `setupConnection`, and
      `endCall`, the only place that drops the connection, drops the
      session with it. */
  predicate LiveCallHasConnection(s: CallState) {
    s.session.Some? && s.session.value.status in {Calling, Connected} ==> s.peerConnection.Some?
  }

  /** A `ringing` session is the one the stored offer announced: its sender
      and the mode it asked for. */
  predicate RingingMatchesOffer(s: CallState) {
    s.session.Some? && s.session.value.status == Ringing ==>
      && s.incomingOffer.Some?
      && s.session.value.peerId == s.incomingOffer.value.fromId
      && s.session.value.mode == OfferMode(s.incomingOffer.value.payload)
  }

  /** What holds in every state the controller reaches: a live session is
      never `idle` (idle is the absent session), a `calling` or `connected`
      one has a connection, a `ringing` one matches the stored offer, a
      stored offer comes with a session, the stored signal is an offer, the
      only error texts are the two failure messages, the current connection
      was made by `setupConnection`, and so was every connection with a
      state-change handler. */
  predicate Inv(s: CallState) {
    && (s.session.Some? ==> s.session.value.status != Idle)
    && LiveCallHasConnection(s)
    && RingingMatchesOffer(s)
    && (s.incomingOffer.Some? ==> s.session.Some?)
    && (s.incomingOffer.Some? ==> s.incomingOffer.value.kind == Str("offer"))
    && (s.errors.Some? ==> s.errors.value in {StartFailed, AcceptFailed})
    && (s.peerConnection.Some? ==> s.peerConnection.value in s.world.candidateTargets)
    && s.world.watched <= s.world.candidateTargets.Keys
  }

  /** Handling a signal keeps the invariant. */
  lemma HandleSignalPreservesInv(s: CallState, signal: Signal, ok: bool)
    requires Inv(s)
    ensures Inv(HandleSignal(s, signal, ok))
  {
  }

  /** Handling a whole poll's signals keeps the invariant. */
  lemma {:induction false} DispatchPreservesInv(s: CallState, signals: seq<Signal>, oks: seq<bool>)
    requires Inv(s) && |oks| == |signals|
    ensures Inv(Dispatch(s, signals, oks))
  {
    if signals != [] {
      var n := |signals| - 1;
      DispatchPreservesInv(s, signals[..n], oks[..n]);
      HandleSignalPreservesInv(Dispatch(s, signals[..n], oks[..n]), signals[n], oks[n]);
    }
  }

  /** Every event the environment can deliver keeps the invariant. */
  lemma StepPreservesInv(s: CallState, e: Event)
    requires Inv(s) && Enabled(s, e)
    ensures Inv(Step(s, e))
  {
    match e
    case Start(peerId, mode, pc, stream, offer, step) =>
      StartCallPreservesInv(s, peerId, mode, pc, stream, offer, step);
    case Accept(pc, stream, answer, step) =>
      AcceptCallPreservesInv(s, pc, stream, answer, step);
    case Decline =>
    case End =>
    case Received(signal, ok) =>
      HandleSignalPreservesInv(s, signal, ok);
    case Polled(result, oks) =>
      if result.PollSignals? {
        DispatchPreservesInv(s, result.signals, oks);
      }
    case StartPollingEvent(timer) =>
    case Tick =>
    case StopPollingEvent =>
    case Track(stream) =>
    case Candidate(pc, candidate) =>
    case StateChange(pc, connected) =>
  }

  lemma StartCallPreservesInv(s: CallState, peerId: string, mode: CallMode, pc: Connection, stream: Stream,
                              offer: Value, step: StartStep)
    requires Inv(s)
    ensures Inv(StartCall(s, peerId, mode, pc, stream, offer, step))
  {
  }

  lemma AcceptCallPreservesInv(s: CallState, pc: Connection, stream: Stream, answer: Value, step: AcceptStep)
    requires Inv(s)
    ensures Inv(AcceptCall(s, pc, stream, answer, step))
  {
  }

  /** The invariant holds in every state the controller reaches from the
      store's initial state. */
  lemma {:induction false} RunPreservesInv(s: CallState, events: seq<Event>)
    requires Inv(s)
    ensures Inv(Run(s, events))
  {
    if events != [] {
      var t := Run(s, events[..|events| - 1]);
      RunPreservesInv(s, events[..|events| - 1]);
      if Enabled(t, events[|events| - 1]) {
        StepPreservesInv(t, events[|events| - 1]);
      }
    }
  }

  lemma Reachable(events: seq<Event>)
    ensures Inv(Run(Initial(), events))
  {
    RunPreservesInv(Initial(), events);
  }

  /** Handling two polls' signals is handling them as one batch. */
  lemma {:induction false} DispatchAppend(s: CallState, a: seq<Signal>, oa: seq<bool>, b: seq<Signal>, ob: seq<bool>)
    requires |oa| == |a| && |ob| == |b|
    ensures Dispatch(s, a + b, oa + ob) == Dispatch(Dispatch(s, a, oa), b, ob)
  {
    if b == [] {
      assert a + b == a && oa + ob == oa;
    } else {
      var n := |b| - 1;
      DispatchAppend(s, a, oa, b[..n], ob[..n]);
      var signals, oks := a + b, oa + ob;
      assert signals[..|signals| - 1] == a + b[..n] && signals[|signals| - 1] == b[n];
      assert oks[..|oks| - 1] == oa + ob[..n] && oks[|oks| - 1] == ob[n];
      assert Dispatch(s, signals, oks)
          == HandleSignal(Dispatch(s, a + b[..n], oa + ob[..n]), b[n], ob[n]);
    }
  }

  /** `endCall` tells the peer exactly when there was a session, closes the
      current connection, stops both streams and clears the call. */
  lemma EndCallEffects(s: CallState)
    ensures var t := EndCall(s);
      && (s.session.Some? ==> t.world.sent == s.world.sent + [Outgoing(s.session.value.peerId, "hangup", HangupPayload)])
      && (s.session.None? ==> t.world.sent == s.world.sent)
      && (s.peerConnection.Some? ==> t.world.closedConnections == s.world.closedConnections + [s.peerConnection.value])
      && t.peerConnection.None? && t.session.None? && t.incomingOffer.None? && t.errors.None?
      && t.localStream.None? && t.remoteStream.None?
      && t.world.applied == s.world.applied && t.pollingTimer == s.pollingTimer
  {
  }

  /** Ending twice is ending once: the second call sends, closes and stops
      nothing. */
  lemma EndCallIdempotent(s: CallState)
    ensures EndCall(EndCall(s)) == EndCall(s)
  {
  }

  /** A received hangup is a local `endCall`: it echoes a hangup, addressed
      to the session's peer whoever sent it, and tears the call down. */
  lemma HangupIsEndCall(s: CallState, signal: Signal, ok: bool)
    requires signal.kind == Str("hangup")
    ensures HandleSignal(s, signal, ok) == EndCall(s)
    ensures s.session.Some? ==>
      HandleSignal(s, signal, ok).world.sent == s.world.sent + [Outgoing(s.session.value.peerId, "hangup", HangupPayload)]
  {
  }

  /** The echo stops after one round: once a side has ended, a hangup it
      receives sends nothing more. */
  lemma HangupEchoStops(s: CallState, signal: Signal, ok: bool)
    requires signal.kind == Str("hangup")
    ensures HandleSignal(EndCall(s), signal, ok).world.sent == EndCall(s).world.sent
  {
  }

  /** After the call ended, nothing but an offer has any effect: answers and
      candidates find no connection and hangups find nothing to end. */
  lemma {:induction false} LateSignalsIgnored(s: CallState, signals: seq<Signal>, oks: seq<bool>)
    requires |oks| == |signals|
    requires forall i :: 0 <= i < |signals| ==> signals[i].kind != Str("offer")
    ensures Dispatch(EndCall(s), signals, oks) == EndCall(s)
  {
    if signals != [] {
      var n := |signals| - 1;
      LateSignalsIgnored(s, signals[..n], oks[..n]);
      assert signals[n].kind != Str("offer");
    }
  }

  /** Candidates and answers that arrive while there is no connection (the
      callee has not accepted yet) are dropped, not buffered: the state,
      including the negotiation log, is as before. */
  lemma {:induction false} DroppedWithoutConnection(s: CallState, signals: seq<Signal>, oks: seq<bool>)
    requires |oks| == |signals| && s.peerConnection.None?
    requires forall i :: 0 <= i < |signals| ==> signals[i].kind in {Str("answer"), Str("candidate")}
    ensures Dispatch(s, signals, oks) == s
  {
    if signals != [] {
      var n := |signals| - 1;
      DroppedWithoutConnection(s, signals[..n], oks[..n]);
      assert signals[n].kind in {Str("answer"), Str("candidate")};
    }
  }

  /** A candidate the connection rejects is swallowed: nothing changes and
      nothing is reported. */
  lemma FailedCandidateSwallowed(s: CallState, signal: Signal)
    requires signal.kind == Str("candidate")
    ensures HandleSignal(s, signal, false) == s
  {
  }

  /** An answer is applied to the current connection and connects the
      session whoever sent it: the sender is not compared with the peer. */
  lemma AnswerFromAnySender(s: CallState, signal: Signal)
    requires signal.kind == Str("answer") && s.peerConnection.Some? && s.session.Some?
    ensures var t := HandleSignal(s, signal, true);
      && t.session == Some(CallSession(s.session.value.peerId, s.session.value.mode, Connected))
      && t.world.applied == s.world.applied + [RemoteDescription(s.peerConnection.value, signal.payload)]
  {
  }

  /** An offer always rings, even in the middle of a call: the session is
      replaced by one with the new sender and the old call's connection and
      streams are left as they were. */
  lemma OfferReplacesSession(s: CallState, signal: Signal, ok: bool)
    requires signal.kind == Str("offer")
    ensures var t := HandleSignal(s, signal, ok);
      && t.session == Some(CallSession(signal.fromId, OfferMode(signal.payload), Ringing))
      && t.incomingOffer == Some(signal)
      && t.peerConnection == s.peerConnection && t.localStream == s.localStream
      && t.world.closedConnections == s.world.closedConnections && t.world.sent == s.world.sent
  {
  }

  /** The second of two offers wins. */
  lemma SecondOfferWins(s: CallState, first: Signal, second: Signal, ok1: bool, ok2: bool)
    requires first.kind == Str("offer") && second.kind == Str("offer")
    ensures HandleSignal(HandleSignal(s, first, ok1), second, ok2) == HandleSignal(s, second, ok2)
  {
  }

  /** The mode a caller announces is the mode the callee rings with and the
      media it requests on accepting. */
  lemma OfferModeRoundTrip(s: CallState, from: string, to: Value, description: Value, mode: CallMode, at: int, ok: bool)
    ensures var signal := Signal(from, to, Str("offer"), OfferPayload(description, mode), at);
      && HandleSignal(s, signal, ok).session == Some(CallSession(from, ModeValue(mode), Ringing))
      && MediaMode(signal.payload) == mode
      && Prop(signal.payload, "offer") == description
  {
  }

  /** `startCall` is not refused while busy: the current connection is
      replaced without being closed, whatever the outcome. */
  lemma StartWhileBusy(s: CallState, peerId: string, mode: CallMode, pc: Connection, stream: Stream,
                       offer: Value, step: StartStep)
    requires s.peerConnection.Some? && s.session.Some?
    ensures var t := StartCall(s, peerId, mode, pc, stream, offer, step);
      && t.peerConnection == Some(pc)
      && t.world.closedConnections == s.world.closedConnections
      && t.world.stoppedStreams == s.world.stoppedStreams
  {
  }

  /** What `startCall` leaves behind for each way its chain can end: only
      full success starts a `calling` session and clears the error; the
      offer is posted exactly when the local description was set; a
      failure keeps the session as it was. */
  lemma StartCallOutcomes(s: CallState, peerId: string, mode: CallMode, pc: Connection, stream: Stream,
                          offer: Value, step: StartStep)
    ensures var t := StartCall(s, peerId, mode, pc, stream, offer, step);
      && (t.errors.None? <==> step == StartSucceeds)
      && (step == StartSucceeds ==>
            t.session == Some(CallSession(peerId, ModeValue(mode), Calling)) && t.localStream == Some(stream))
      && (step != StartSucceeds ==>
            t.errors == Some(StartFailed) && t.session == s.session && t.localStream == s.localStream)
      && (step in {SendOfferFails, StartSucceeds} <==> t.world.sent == s.world.sent + [Outgoing(peerId, "offer", OfferPayload(offer, mode))])
      && (step !in {SendOfferFails, StartSucceeds} ==> t.world.sent == s.world.sent)
      && t.world.mediaRequests == s.world.mediaRequests + [mode]
      && (pc in t.world.watched <==> pc in s.world.watched || step != StartMediaFails)
  {
  }

  /** What `acceptCall` leaves behind: with no offer nothing happens; only
      full success with a non-null payload answers the caller, connects and
      drops the offer; every failure keeps the offer and the ringing session,
      so the call can be accepted again. */
  lemma AcceptCallOutcomes(s: CallState, pc: Connection, stream: Stream, answer: Value, step: AcceptStep)
    ensures s.incomingOffer.None? ==> AcceptCall(s, pc, stream, answer, step) == s
    ensures s.incomingOffer.Some? ==>
      var offer := s.incomingOffer.value;
      var t := AcceptCall(s, pc, stream, answer, step);
      var succeeds := step == AcceptSucceeds && !Nullish(offer.payload);
      && (t.errors.None? <==> succeeds)
      && (succeeds ==>
            && t.session == Some(CallSession(offer.fromId, OfferMode(offer.payload), Connected))
            && t.incomingOffer.None? && t.localStream == Some(stream)
            && t.world.sent == s.world.sent + [Outgoing(offer.fromId, "answer", answer)])
      && (!succeeds ==>
            t.errors == Some(AcceptFailed) && t.session == s.session && t.incomingOffer == s.incomingOffer)
      && t.peerConnection == Some(pc) && t.world.mediaRequests == s.world.mediaRequests + [MediaMode(offer.payload)]
  {
  }

  /** `declineCall` tells the caller exactly when an offer is waiting, and
      leaves the connection alone. */
  lemma DeclineEffects(s: CallState)
    ensures var t := DeclineCall(s);
      && (s.incomingOffer.Some? ==> t.world.sent == s.world.sent + [Outgoing(s.incomingOffer.value.fromId, "hangup", HangupPayload)])
      && (s.incomingOffer.None? ==> t.world.sent == s.world.sent)
      && t.session.None? && t.incomingOffer.None? && t.errors.None?
      && t.peerConnection == s.peerConnection && t.world.closedConnections == s.world.closedConnections
  {
  }

  /** Starting polling twice starts it once: one immediate poll and one
      timer. */
  lemma StartPollingOnce(s: CallState, first: Timer, second: Timer)
    requires s.pollingTimer.None?
    ensures StartPolling(StartPolling(s, first), second) == StartPolling(s, first)
    ensures StartPolling(s, first).world.polls == s.world.polls + 1
    ensures StartPolling(s, first).pollingTimer == Some(first)
  {
  }

  /** Stopping then starting again gives a fresh timer and an immediate poll. */
  lemma StopThenStart(s: CallState, timer: Timer)
    ensures var t := StartPolling(StopPolling(s), timer);
      t.pollingTimer == Some(timer) && t.world.polls == s.world.polls + 1
  {
  }

  /** A poll that failed or answered not-ok handles nothing. */
  lemma FailedPollChangesNothing(s: CallState, oks: seq<bool>)
    ensures PollCompleted(s, PollThrew, oks) == s && PollCompleted(s, PollNotOk, oks) == s
  {
  }

  /** A candidate found locally goes to the peer its connection was set up
      for, even after a newer call replaced that connection. */
  lemma CandidateGoesToSetupPeer(s: CallState, peerId: string, mode: CallMode, pc: Connection, stream: Stream,
                                 offer: Value, step: StartStep, later: Connection, peer2: string, mode2: CallMode,
                                 candidate: Value)
    requires Truthy(candidate) && later != pc
    ensures var t := SetupConnection(StartCall(s, peerId, mode, pc, stream, offer, step), peer2, mode2, later);
      && pc in t.world.candidateTargets
      && OnIceCandidate(t, pc, candidate).world.sent == t.world.sent + [Outgoing(peerId, "candidate", candidate)]
  {
  }

  /** Stopping is idempotent: a second stop finds no timer and changes
      nothing. */
  lemma StopPollingIdempotent(s: CallState)
    ensures StopPolling(StopPolling(s)) == StopPolling(s)
    ensures StopPolling(s).pollingTimer.None?
  {
  }

  /** While a timer runs, starting again does nothing at all: no poll, no
      second timer. */
  lemma StartWhilePolling(s: CallState, timer: Timer)
    requires s.pollingTimer.Some?
    ensures StartPolling(s, timer) == s
  {
  }

  /** An answer never creates a session: with none, there is still none
      afterwards, whether or not the description was applied. */
  lemma AnswerWithoutSession(s: CallState, signal: Signal, ok: bool)
    requires signal.kind == Str("answer") && s.session.None?
    ensures HandleSignal(s, signal, ok).session.None?
  {
  }

  /** In a reachable state, accepting a ringing call with every step
      succeeding connects to exactly the peer and the mode the ringing
      session shows, and answers that peer; a nullish offer payload fails
      and leaves the ringing session. */
  lemma AcceptConnectsRingingPeer(s: CallState, pc: Connection, stream: Stream, answer: Value)
    requires Inv(s) && s.session.Some? && s.session.value.status == Ringing
    ensures s.incomingOffer.Some?
    ensures var t := AcceptCall(s, pc, stream, answer, AcceptSucceeds);
      if Nullish(s.incomingOffer.value.payload) then
        t.session == s.session && t.errors == Some(AcceptFailed)
      else
        && t.session == Some(s.session.value.(status := Connected))
        && t.world.sent == s.world.sent + [Outgoing(s.session.value.peerId, "answer", answer)]
  {
    assert RingingMatchesOffer(s);
  }

  /** In a reachable state, ending a call that is `calling` or `connected`
      always closes a connection: the one the call runs over. */
  lemma EndingLiveCallClosesConnection(s: CallState)
    requires Inv(s) && s.session.Some? && s.session.value.status in {Calling, Connected}
    ensures s.peerConnection.Some?
    ensures EndCall(s).world.closedConnections == s.world.closedConnections + [s.peerConnection.value]
  {
    assert LiveCallHasConnection(s);
  }

  /** The two facts above for every state reached from the initial store. */
  lemma {:induction false} ReachableCallsAreConsistent(events: seq<Event>)
    ensures var s := Run(Initial(), events);
      && (s.session.Some? && s.session.value.status in {Calling, Connected} ==> s.peerConnection.Some?)
      && (s.session.Some? && s.session.value.status == Ringing ==>
            s.incomingOffer.Some? && s.session.value.peerId == s.incomingOffer.value.fromId)
  {
    Reachable(events);
  }
}
