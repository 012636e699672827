/** The call store as an object: the zustand state fields together with the
    module-level `peerConnection` and `pollingTimer` and the logs of what it
    did to the outside. Every method leaves exactly the state the matching
    `CallSpec` function describes, so the properties proved there are
    properties of these methods. */
module CallStore {
  import opened Json
  import opened Signals
  import opened CallSpec

  class CallController {
    var session: Option<CallSession>
    var localStream: Option<Stream>
    var remoteStream: Option<Stream>
    var incomingOffer: Option<Signal>
    var errors: Option<string>
    var peerConnection: Option<Connection>
    var pollingTimer: Option<Timer>
    var world: World

    function State(): CallState
      reads this
    {
      CallState(session, localStream, remoteStream, incomingOffer, errors, peerConnection, pollingTimer, world)
    }

    constructor ()
      ensures State() == Initial()
    {
      session, localStream, remoteStream, incomingOffer, errors := None, None, None, None, None;
      peerConnection, pollingTimer := None, None;
      world := World([], [], [], [], [], map[], {}, 0);
    }

    /** `sendSignal`: one POST to the signal route, whether or not it is
        awaited. */
    method SendSignal(toId: string, kind: string, payload: Value)
      modifies this
      ensures State() == Send(old(State()), Outgoing(toId, kind, payload))
    {
      world := world.(sent := world.sent + [Outgoing(toId, kind, payload)]);
    }

    method SetupConnection(peerId: string, mode: CallMode, pc: Connection)
      modifies this
      ensures State() == CallSpec.SetupConnection(old(State()), peerId, mode, pc)
    {
      peerConnection := Some(pc);
      world := world.(candidateTargets := world.candidateTargets[pc := peerId],
                      mediaRequests := world.mediaRequests + [mode]);
    }

    method ReportError(message: string)
      modifies this
      ensures State() == CallSpec.ReportError(old(State()), message)
    {
      errors := Some(message);
    }

    method StartCall(peerId: string, mode: CallMode, pc: Connection, stream: Stream, offer: Value, step: StartStep)
      modifies this
      ensures State() == CallSpec.StartCall(old(State()), peerId, mode, pc, stream, offer, step)
    {
      SetupConnection(peerId, mode, pc);
      if step == StartMediaFails {
        ReportError(StartFailed);
        return;
      }
      world := world.(watched := world.watched + {pc});
      if step == CreateOfferFails || step == SetOfferFails {
        ReportError(StartFailed);
        return;
      }
      SendSignal(peerId, "offer", OfferPayload(offer, mode));
      if step == SendOfferFails {
        ReportError(StartFailed);
        return;
      }
      session, localStream, errors := Some(CallSession(peerId, ModeValue(mode), Calling)), Some(stream), None;
    }

    method AcceptCall(pc: Connection, stream: Stream, answer: Value, step: AcceptStep)
      modifies this
      ensures State() == CallSpec.AcceptCall(old(State()), pc, stream, answer, step)
    {
      if incomingOffer.None? {
        return;
      }
      var offer := incomingOffer.value;
      var peerId := offer.fromId;
      var payload := offer.payload;
      SetupConnection(peerId, MediaMode(payload), pc);
      if step == AcceptMediaFails || Nullish(payload) || step == RemoteOfferFails {
        ReportError(AcceptFailed);
        return;
      }
      world := world.(applied := world.applied + [RemoteDescription(pc, Prop(payload, "offer"))]);
      if step == CreateAnswerFails || step == SetAnswerFails {
        ReportError(AcceptFailed);
        return;
      }
      SendSignal(peerId, "answer", answer);
      if step == SendAnswerFails {
        ReportError(AcceptFailed);
        return;
      }
      session, localStream := Some(CallSession(peerId, OfferMode(payload), Connected)), Some(stream);
      incomingOffer, errors := None, None;
    }

    method DeclineCall()
      modifies this
      ensures State() == CallSpec.DeclineCall(old(State()))
    {
      if incomingOffer.Some? {
        SendSignal(incomingOffer.value.fromId, "hangup", HangupPayload);
      }
      incomingOffer, errors, session := None, None, None;
    }

    method ClosePeerConnection()
      modifies this
      ensures State() == CloseConnection(old(State()))
    {
      if peerConnection.Some? {
        world := world.(closedConnections := world.closedConnections + [peerConnection.value]);
      }
      peerConnection := None;
    }

    method StopStreams()
      modifies this
      ensures State() == CallSpec.StopStreams(old(State()))
    {
      world := world.(stoppedStreams := world.stoppedStreams + StreamsOf(localStream) + StreamsOf(remoteStream));
    }

    method EndCall()
      modifies this
      ensures State() == CallSpec.EndCall(old(State()))
    {
      if session.Some? {
        SendSignal(session.value.peerId, "hangup", HangupPayload);
      }
      ClosePeerConnection();
      StopStreams();
      session, localStream, remoteStream, incomingOffer, errors := None, None, None, None, None;
    }

    method HandleSignal(signal: Signal, ok: bool)
      modifies this
      ensures State() == CallSpec.HandleSignal(old(State()), signal, ok)
    {
      if signal.kind == Str("offer") {
        incomingOffer := Some(signal);
        session := Some(CallSession(signal.fromId, OfferMode(signal.payload), Ringing));
      } else if signal.kind == Str("answer") {
        if peerConnection.None? || !ok {
          return;
        }
        world := world.(applied := world.applied + [RemoteDescription(peerConnection.value, signal.payload)]);
        session := MarkConnected(session);
      } else if signal.kind == Str("candidate") {
        if peerConnection.None? || !ok {
          return;
        }
        world := world.(applied := world.applied + [IceCandidate(peerConnection.value, signal.payload)]);
      } else if signal.kind == Str("hangup") {
        EndCall();
      }
    }

    /** One poll's answer: the signals of an ok answer handled in order. */
    method Poll(result: PollResult, oks: seq<bool>)
      requires result.PollSignals? ==> |oks| == |result.signals|
      modifies this
      ensures State() == PollCompleted(old(State()), result, oks)
    {
      if !result.PollSignals? {
        return;
      }
      var signals := result.signals;
      var i := 0;
      while i < |signals|
        invariant 0 <= i <= |signals|
        invariant State() == Dispatch(old(State()), signals[..i], oks[..i])
      {
        HandleSignal(signals[i], oks[i]);
        assert signals[..i + 1][..i] == signals[..i];
        assert oks[..i + 1][..i] == oks[..i];
        i := i + 1;
      }
      assert signals[..i] == signals && oks[..i] == oks;
    }

    method StartSignalPolling(timer: Timer)
      modifies this
      ensures State() == StartPolling(old(State()), timer)
    {
      if pollingTimer.Some? {
        return;
      }
      world := world.(polls := world.polls + 1);
      pollingTimer := Some(timer);
    }

    method TimerFires()
      requires pollingTimer.Some?
      modifies this
      ensures State() == CallSpec.TimerFires(old(State()))
    {
      world := world.(polls := world.polls + 1);
    }

    method StopSignalPolling()
      modifies this
      ensures State() == StopPolling(old(State()))
    {
      pollingTimer := None;
    }

    method OnTrack(stream: Stream)
      modifies this
      ensures State() == CallSpec.OnTrack(old(State()), stream)
    {
      remoteStream := Some(stream);
    }

    method OnIceCandidate(pc: Connection, candidate: Value)
      requires pc in world.candidateTargets
      modifies this
      ensures State() == CallSpec.OnIceCandidate(old(State()), pc, candidate)
    {
      if Truthy(candidate) {
        SendSignal(world.candidateTargets[pc], "candidate", candidate);
      }
    }

    method OnConnectionStateChange(pc: Connection, currentConnected: bool)
      requires pc in world.watched
      modifies this
      ensures State() == CallSpec.OnConnectionStateChange(old(State()), pc, currentConnected)
    {
      if peerConnection.Some? && currentConnected {
        session := MarkConnected(session);
      }
    }
  }
}
