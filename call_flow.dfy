/** Two call controllers talking through the signal and pending routes: what
    one side posts is what the other side's next poll hands to
    `handleSignal`. */
module CallFlow {
  import opened Json
  import opened Accounts
  import opened Signals
  import opened CallSpec
  import SignalRoute
  import PendingRoute

  /** The JSON body `sendSignal` posts for one outgoing signal. A key whose
      value is `undefined` is dropped by `JSON.stringify`, which `Prop` reads
      back as `Undefined` all the same. */
  function Body(o: Outgoing): Value {
    Obj(map["toId" := Str(o.toId), "kind" := Str(o.kind), "payload" := o.payload])
  }

  /** Post `o` as `from`, then let `to` poll: the signals that poll returns
      and the mailbox left behind. */
  function Deliver(from: UserRecord, to: UserRecord, o: Outgoing, now: int, m: Mailbox): (seq<Signal>, Mailbox) {
    var m1 := SignalRoute.Post(Returned(from), Returned(Body(o)), now, m).1;
    var (response, m2) := PendingRoute.Get(Returned(to), m1);
    (if response.body.Payload? then response.body.value else [], m2)
  }

  /** A signal addressed to the polling user, with nothing else waiting,
      arrives alone, stamped with the sender's id and the body's kind and
      payload. */
  lemma {:induction false} DeliverOne(from: UserRecord, to: UserRecord, o: Outgoing, now: int, m: Mailbox)
    requires o.toId == to.id && o.toId != "" && o.kind != ""
    requires Pending(m, Str(to.id)) == []
    ensures Deliver(from, to, o, now, m).0 == [Signal(from.id, Str(to.id), Str(o.kind), o.payload, now)]
    ensures Pending(Deliver(from, to, o, now, m).1, Str(to.id)) == []
  {
    var b := Body(o);
    assert Prop(b, "toId") == Str(o.toId) && Prop(b, "kind") == Str(o.kind) && Prop(b, "payload") == o.payload;
    assert SignalRoute.Accepted(Returned(from), Returned(b));
    var m1 := SignalRoute.Post(Returned(from), Returned(b), now, m).1;
    assert Pending(m1, Str(to.id)) == [SignalRoute.SignalOf(from, b, now)];
  }

  /** A poll's signals handled with every negotiation step succeeding. */
  function Receive(s: CallState, signals: seq<Signal>): CallState {
    Dispatch(s, signals, seq(|signals|, i => true))
  }

  lemma {:induction false} ReceiveOne(s: CallState, signal: Signal)
    ensures Receive(s, [signal]) == HandleSignal(s, signal, true)
  {
    var oks := seq(1, i => true);
    assert oks == [true];
    assert [signal][..0] == [] && oks[..0] == [];
    assert Dispatch(s, [signal], oks) == HandleSignal(Dispatch(s, [], []), signal, true);
  }

  /** A successful `startCall` to `callee` makes the callee's next poll ring:
      the callee's session is a ringing call from the caller in the mode the
      caller chose, and the offer waits to be accepted. */
  lemma {:induction false} OfferRings(caller: UserRecord, callee: UserRecord, a: CallState, b: CallState,
                                      mode: CallMode, pc: Connection, stream: Stream, offer: Value,
                                      now: int, m: Mailbox)
    requires callee.id != "" && Pending(m, Str(callee.id)) == []
    ensures var a1 := StartCall(a, callee.id, mode, pc, stream, offer, StartSucceeds);
      var o := Outgoing(callee.id, "offer", OfferPayload(offer, mode));
      var b1 := Receive(b, Deliver(caller, callee, o, now, m).0);
      && a1.world.sent == a.world.sent + [o]
      && a1.session == Some(CallSession(callee.id, ModeValue(mode), Calling))
      && b1.session == Some(CallSession(caller.id, ModeValue(mode), Ringing))
      && b1.incomingOffer.Some? && b1.incomingOffer.value.fromId == caller.id
      && Prop(b1.incomingOffer.value.payload, "offer") == offer
      && MediaMode(b1.incomingOffer.value.payload) == mode
  {
    var o := Outgoing(callee.id, "offer", OfferPayload(offer, mode));
    DeliverOne(caller, callee, o, now, m);
    var sig := Signal(caller.id, Str(callee.id), Str("offer"), OfferPayload(offer, mode), now);
    ReceiveOne(b, sig);
    OfferModeRoundTrip(b, caller.id, Str(callee.id), offer, mode, now, true);
  }

  /** The callee accepting the caller's offer, and the caller receiving the
      answer on a connection that takes it, leaves both sides connected to
      each other. */
  lemma {:induction false} AnswerConnects(caller: UserRecord, callee: UserRecord, a: CallState, b: CallState,
                                          pc: Connection, stream: Stream, answer: Value, now: int, m: Mailbox)
    requires caller.id != ""
    requires a.session.Some? && a.session.value.peerId == callee.id && a.peerConnection.Some?
    requires b.incomingOffer.Some? && b.incomingOffer.value.fromId == caller.id
    requires !Nullish(b.incomingOffer.value.payload)
    requires Pending(m, Str(caller.id)) == []
    ensures var b1 := AcceptCall(b, pc, stream, answer, AcceptSucceeds);
      var o := Outgoing(caller.id, "answer", answer);
      var a1 := Receive(a, Deliver(callee, caller, o, now, m).0);
      && b1.world.sent == b.world.sent + [o]
      && b1.session.Some? && b1.session.value.peerId == caller.id && b1.session.value.status == Connected
      && a1.session == Some(CallSession(callee.id, a.session.value.mode, Connected))
      && a1.world.applied == a.world.applied + [RemoteDescription(a.peerConnection.value, answer)]
  {
    var o := Outgoing(caller.id, "answer", answer);
    DeliverOne(callee, caller, o, now, m);
    ReceiveOne(a, Signal(callee.id, Str(caller.id), Str("answer"), answer, now));
  }

  /** Ending a call on one side ends it on the other, and the hangup the
      other side echoes back ends nothing more: the exchange stops after one
      hangup each way. */
  lemma {:induction false} HangupEndsBoth(caller: UserRecord, callee: UserRecord, a: CallState, b: CallState,
                                          now: int, later: int, m: Mailbox)
    requires caller.id != "" && callee.id != "" && caller.id != callee.id
    requires a.session.Some? && a.session.value.peerId == callee.id
    requires b.session.Some? && b.session.value.peerId == caller.id
    requires Pending(m, Str(callee.id)) == [] && Pending(m, Str(caller.id)) == []
    ensures var toCallee := Outgoing(callee.id, "hangup", HangupPayload);
      var toCaller := Outgoing(caller.id, "hangup", HangupPayload);
      var a1 := EndCall(a);
      var (first, m1) := Deliver(caller, callee, toCallee, now, m);
      var b1 := Receive(b, first);
      var a2 := Receive(a1, Deliver(callee, caller, toCaller, later, m1).0);
      && a1.world.sent == a.world.sent + [toCallee]
      && b1 == EndCall(b) && b1.session.None? && b1.peerConnection.None?
      && b1.world.sent == b.world.sent + [toCaller]
      && a2 == a1
  {
    var toCallee := Outgoing(callee.id, "hangup", HangupPayload);
    var toCaller := Outgoing(caller.id, "hangup", HangupPayload);
    EndCallEffects(a);
    EndCallEffects(b);
    DeliverOne(caller, callee, toCallee, now, m);
    var (first, m1) := Deliver(caller, callee, toCallee, now, m);
    ReceiveOne(b, Signal(caller.id, Str(callee.id), Str("hangup"), HangupPayload, now));
    assert Pending(m1, Str(caller.id)) == [] by {
      var posted := SignalRoute.Post(Returned(caller), Returned(Body(toCallee)), now, m).1;
      assert Prop(Body(toCallee), "toId") == Str(callee.id);
      assert SignalRoute.Accepted(Returned(caller), Returned(Body(toCallee)));
      assert Pending(posted, Str(caller.id)) == [];
    }
    DeliverOne(callee, caller, toCaller, later, m1);
    ReceiveOne(EndCall(a), Signal(callee.id, Str(caller.id), Str("hangup"), HangupPayload, later));
    EndCallIdempotent(a);
  }
}
