/** `POST /api/call/signal`: authenticate, read `{ toId, kind, payload }`,
    enqueue a signal whose sender is the caller. */
module SignalRoute {
  import opened Json
  import opened Accounts
  import opened Signals

  const Incomplete: string := "Data sinyal tidak lengkap"
  const Delivered: string := "Sinyal terkirim"
  const SendFailed: string := "Gagal mengirim sinyal"

  /** What the route enqueues for caller `from` given the parsed body. */
  function SignalOf(from: UserRecord, body: Value, now: int): Signal {
    Signal(from.id, Prop(body, "toId"), Prop(body, "kind"), Prop(body, "payload"), now)
  }

  /** The request reaches `enqueueSignal`: the caller is known, the body
      parsed, and `toId` and `kind` are both truthy. */
  predicate Accepted(auth: Attempt<UserRecord>, body: Attempt<Value>) {
    auth.Returned? && body.Returned?
    && Truthy(Prop(body.value, "toId")) && Truthy(Prop(body.value, "kind"))
  }

  /** The handler: its response, and the mailbox after it ran. `auth` is what
      `requireUser` gave, `body` what `request.json()` gave, `now` the
      `createdAt` stamp. */
  function Post(auth: Attempt<UserRecord>, body: Attempt<Value>, now: int, m: Mailbox)
    : (r: (Response<string>, Mailbox))
    ensures Accepted(auth, body) <==> r.0 == Ok(Delivered)
    ensures Accepted(auth, body) ==>
      var s := SignalOf(auth.value, body.value, now);
      && s.fromId == auth.value.id
      && Pending(r.1, s.toId) == Pending(m, s.toId) + [s]
      && forall k :: k != s.toId ==> Pending(r.1, k) == Pending(m, k)
    ensures !Accepted(auth, body) ==> r.1 == m
    ensures auth.Returned? && body.Returned? && !Accepted(auth, body) ==> r.0 == Fail(400, Incomplete)
    ensures auth.Threw? ==> r.0 == Caught(auth.message, 400, SendFailed)
    ensures auth.Returned? && body.Threw? ==> r.0 == Caught(body.message, 400, SendFailed)
    ensures r.0.status != 401 || r.0 == Denied()
    ensures r.0.body.ErrorBody? && r.0.status == 400 ==>
      r.0.body.error in {Incomplete, SendFailed}
  {
    match auth
    case Threw(msg) => (Caught(msg, 400, SendFailed), m)
    case Returned(user) =>
      match body
      case Threw(msg) => (Caught(msg, 400, SendFailed), m)
      case Returned(b) =>
        if !Truthy(Prop(b, "toId")) || !Truthy(Prop(b, "kind")) then
          (Fail(400, Incomplete), m)
        else
          (Ok(Delivered), Enqueue(m, SignalOf(user, b, now)))
  }

  /** The route does not restrict `kind` to offer/answer/candidate/hangup:
      any truthy kind with a truthy `toId` is enqueued. */
  lemma AnyKindEnqueued(user: UserRecord, to: string, kind: string, payload: Value, now: int, m: Mailbox)
    requires to != "" && kind != ""
    requires kind !in {"offer", "answer", "candidate", "hangup"}
    ensures var b := Obj(map["toId" := Str(to), "kind" := Str(kind), "payload" := payload]);
      var r := Post(Returned(user), Returned(b), now, m);
      r.0 == Ok(Delivered) && Pending(r.1, Str(to)) == Pending(m, Str(to)) + [Signal(user.id, Str(to), Str(kind), payload, now)]
  {
    var b := Obj(map["toId" := Str(to), "kind" := Str(kind), "payload" := payload]);
    assert Prop(b, "toId") == Str(to) && Prop(b, "kind") == Str(kind) && Prop(b, "payload") == payload;
  }
}

/** `GET /api/call/pending`: authenticate, then drain the caller's queue. */
module PendingRoute {
  import opened Json
  import opened Accounts
  import opened Signals

  const LoadFailed: string := "Gagal memuat sinyal"

  /** The handler: its response `{ signals }` and the mailbox after it ran. */
  function Get(auth: Attempt<UserRecord>, m: Mailbox): (r: (Response<seq<Signal>>, Mailbox))
    ensures auth.Returned? ==>
      && r.0 == Ok(Pending(m, Str(auth.value.id)))
      && Pending(r.1, Str(auth.value.id)) == []
      && forall k :: k != Str(auth.value.id) ==> Pending(r.1, k) == Pending(m, k)
    ensures auth.Threw? ==> r.1 == m
    ensures auth.Threw? ==> r.0 == if auth.message == Unauthorized then Denied() else Fail(500, LoadFailed)
  {
    match auth
    case Threw(msg) => (Caught(msg, 500, LoadFailed), m)
    case Returned(user) =>
      var (signals, m') := Drain(m, Str(user.id));
      (Ok(signals), m')
  }

  /** Drain-once: a second poll straight after the first returns nothing. */
  lemma SecondPollEmpty(user: UserRecord, m: Mailbox)
    ensures Get(Returned(user), Get(Returned(user), m).1).0 == Ok([])
  {
  }
}

/** How the two call routes compose over one mailbox. */
module CallRoutes {
  import opened Json
  import opened Accounts
  import opened Signals
  import SignalRoute
  import PendingRoute

  /** A signal posted by `from` to the id of `to` is what `to`'s next poll
      returns, after the signals already waiting, and the poll after that
      returns nothing. */
  lemma {:induction false} PostThenPoll(from: UserRecord, to: UserRecord, body: Value, now: int, m: Mailbox)
    requires SignalRoute.Accepted(Returned(from), Returned(body))
    requires Prop(body, "toId") == Str(to.id)
    ensures var m1 := SignalRoute.Post(Returned(from), Returned(body), now, m).1;
      var (first, m2) := PendingRoute.Get(Returned(to), m1);
      && first == Ok(Pending(m, Str(to.id)) + [SignalRoute.SignalOf(from, body, now)])
      && PendingRoute.Get(Returned(to), m2).0 == Ok([])
  {
    var m1 := SignalRoute.Post(Returned(from), Returned(body), now, m).1;
    assert Pending(m1, Str(to.id)) == Pending(m, Str(to.id)) + [SignalRoute.SignalOf(from, body, now)];
  }

  /** No cross-talk: a signal posted to someone else leaves `other`'s poll
      result as it was. */
  lemma {:induction false} PostDoesNotReachOthers(from: UserRecord, other: UserRecord, auth: Attempt<UserRecord>,
                                                  body: Attempt<Value>, now: int, m: Mailbox)
    requires auth == Returned(from)
    requires body.Returned? ==> Prop(body.value, "toId") != Str(other.id)
    ensures PendingRoute.Get(Returned(other), SignalRoute.Post(auth, body, now, m).1).0
         == PendingRoute.Get(Returned(other), m).0
  {
    var m1 := SignalRoute.Post(auth, body, now, m).1;
    assert Pending(m1, Str(other.id)) == Pending(m, Str(other.id));
  }
}
