/** The notification client: one event-stream subscription, a connected flag,
    a newest-first log of at most 25 events, and a reconnect that fires five
    seconds after each stream error. */
module NotificationStore {
  import opened Json

  const Capacity: nat := 25

  /** An `EventSource` the client opened. */
  datatype Source = Source(id: nat)

  /** `[data, ...events].slice(0, 25)`. */
  function Prepend(data: Value, events: seq<Value>): (r: seq<Value>)
    ensures 1 <= |r| <= Capacity
    ensures r[0] == data
    ensures r[1..] == events[..if |events| < Capacity - 1 then |events| else Capacity - 1]
  {
    var all := [data] + events;
    all[..if |all| < Capacity then |all| else Capacity]
  }

  /** The `Capacity` newest entries of `s`. */
  function Newest(s: seq<Value>): seq<Value> {
    s[..if |s| < Capacity then |s| else Capacity]
  }

  function Reverse(s: seq<Value>): seq<Value> {
    if s == [] then [] else Reverse(s[1..]) + [s[0]]
  }

  /** The payloads that parsed, in arrival order; `None` is a payload that
      `JSON.parse` rejected. */
  function Parsed(arrivals: seq<Option<Value>>): seq<Value> {
    if arrivals == [] then []
    else Parsed(arrivals[..|arrivals| - 1])
         + (if arrivals[|arrivals| - 1].Some? then [arrivals[|arrivals| - 1].value] else [])
  }

  /** The log after a run of `onmessage` calls: each parsed payload is
      prepended, each rejected one leaves the log as it was. */
  function ReceiveAll(events: seq<Value>, arrivals: seq<Option<Value>>): seq<Value> {
    if arrivals == [] then events
    else
      var before := ReceiveAll(events, arrivals[..|arrivals| - 1]);
      match arrivals[|arrivals| - 1]
      case Some(data) => Prepend(data, before)
      case None => before
  }

  lemma {:induction false} NewestOfNewest(x: Value, s: seq<Value>)
    ensures Newest([x] + Newest(s)) == Newest([x] + s)
  {
  }

  lemma PrependIsNewest(x: Value, s: seq<Value>)
    ensures Prepend(x, s) == Newest([x] + s)
  {
  }

  /** Whatever the log held and however many events arrive, the log is the
      25 newest of: the parsed arrivals, newest first, then the old log. */
  lemma {:induction false} ReceiveAllNewestFirst(events: seq<Value>, arrivals: seq<Option<Value>>)
    requires |events| <= Capacity
    ensures ReceiveAll(events, arrivals) == Newest(Reverse(Parsed(arrivals)) + events)
    ensures |ReceiveAll(events, arrivals)| <= Capacity
  {
    if arrivals == [] {
      assert Reverse(Parsed(arrivals)) + events == events;
    } else {
      var init := arrivals[..|arrivals| - 1];
      var last := arrivals[|arrivals| - 1];
      ReceiveAllNewestFirst(events, init);
      var before := ReceiveAll(events, init);
      var rest := Reverse(Parsed(init)) + events;
      assert before == Newest(rest);
      if last.Some? {
        var data := last.value;
        assert ReceiveAll(events, arrivals) == Prepend(data, before);
        assert Parsed(arrivals) == Parsed(init) + [data];
        ReverseSnoc(Parsed(init), data);
        assert Reverse(Parsed(arrivals)) + events == [data] + rest;
        PrependIsNewest(data, before);
        NewestOfNewest(data, rest);
      } else {
        assert ReceiveAll(events, arrivals) == before;
        assert Parsed(arrivals) == Parsed(init);
      }
    }
  }

  lemma {:induction false} ReverseSnoc(s: seq<Value>, x: Value)
    ensures Reverse(s + [x]) == [x] + Reverse(s)
  {
    if s != [] {
      assert (s + [x])[1..] == s[1..] + [x];
      ReverseSnoc(s[1..], x);
    }
  }

  /** The store's fields together with the module-level `eventSource`, the
      reconnect timers still pending, and the sources it opened and closed. */
  datatype NotificationState = NotificationState(
    events: seq<Value>,
    connected: bool,
    eventSource: Option<Source>,
    pendingReconnects: nat,
    sources: seq<Source>,
    closedSources: seq<Source>)

  function Initial(): NotificationState {
    NotificationState([], false, None, 0, [], [])
  }

  /** `connect`: nothing without a window or with a source already open;
      otherwise `src` is opened. */
  function Connect(s: NotificationState, hasWindow: bool, src: Source): NotificationState {
    if !hasWindow || s.eventSource.Some? then s
    else s.(eventSource := Some(src), sources := s.sources + [src])
  }

  function OnOpen(s: NotificationState): NotificationState {
    s.(connected := true)
  }

  /** Closing the current source, if any, and forgetting it. */
  function Close(s: NotificationState): NotificationState {
    match s.eventSource
    case Some(src) => s.(closedSources := s.closedSources + [src], eventSource := None)
    case None => s
  }

  /** `onerror`: close, mark disconnected, schedule one reconnect. */
  function OnError(s: NotificationState): NotificationState {
    Close(s).(connected := false, pendingReconnects := s.pendingReconnects + 1)
  }

  /** A pending reconnect timer fires: it reconnects only if the flag says
      disconnected at that moment. */
  function ReconnectFires(s: NotificationState, hasWindow: bool, src: Source): NotificationState
    requires s.pendingReconnects > 0
  {
    var t := s.(pendingReconnects := s.pendingReconnects - 1);
    if !t.connected then Connect(t, hasWindow, src) else t
  }

  /** `onmessage`: `None` is a payload `JSON.parse` rejected. */
  function OnMessage(s: NotificationState, data: Option<Value>): NotificationState {
    match data
    case Some(d) => s.(events := Prepend(d, s.events))
    case None => s
  }

  /** `disconnect`: close, mark disconnected. Pending reconnects stay. */
  function Disconnect(s: NotificationState): NotificationState {
    Close(s).(connected := false)
  }

  function Clear(s: NotificationState): NotificationState {
    s.(events := [])
  }

  /** `onerror` schedules exactly one reconnect and leaves no source open. */
  lemma ErrorSchedulesOneReconnect(s: NotificationState)
    ensures OnError(s).pendingReconnects == s.pendingReconnects + 1
    ensures OnError(s).eventSource.None? && !OnError(s).connected
    ensures OnError(s).events == s.events
  {
  }

  /** A reconnect that fires while connected opens nothing; one that fires
      while disconnected, with a window and no source, opens exactly one. */
  lemma ReconnectOnlyWhenDisconnected(s: NotificationState, hasWindow: bool, src: Source)
    requires s.pendingReconnects > 0
    ensures s.connected ==> ReconnectFires(s, hasWindow, src).sources == s.sources
    ensures !s.connected && hasWindow && s.eventSource.None? ==>
      ReconnectFires(s, hasWindow, src).sources == s.sources + [src]
  {
  }

  /** The reconnect path is not told apart from a deliberate disconnect: a
      stream error followed by `disconnect` still reconnects when the timer
      fires. */
  lemma DisconnectDoesNotCancelReconnect(s: NotificationState, src: Source)
    ensures var t := Disconnect(OnError(s));
      t.pendingReconnects > 0 && ReconnectFires(t, true, src).eventSource == Some(src)
  {
  }
}

/** The store itself: the fields `set` updates, plus the module-level
    `eventSource`. */
module NotificationClient {
  import opened Json
  import opened NotificationStore

  class Client {
    var events: seq<Value>
    var connected: bool
    var eventSource: Option<Source>
    var pendingReconnects: nat
    var sources: seq<Source>
    var closedSources: seq<Source>

    function State(): NotificationState
      reads this
    {
      NotificationState(events, connected, eventSource, pendingReconnects, sources, closedSources)
    }

    constructor ()
      ensures State() == Initial()
    {
      events, connected, eventSource := [], false, None;
      pendingReconnects, sources, closedSources := 0, [], [];
    }

    method Connect(hasWindow: bool, src: Source)
      modifies this
      ensures State() == NotificationStore.Connect(old(State()), hasWindow, src)
    {
      if !hasWindow { return; }
      if eventSource.Some? { return; }
      eventSource := Some(src);
      sources := sources + [src];
    }

    method OnOpen()
      modifies this
      ensures State() == NotificationStore.OnOpen(old(State()))
    {
      connected := true;
    }

    method CloseSource()
      modifies this
      ensures State() == NotificationStore.Close(old(State()))
    {
      if eventSource.Some? {
        closedSources := closedSources + [eventSource.value];
      }
      eventSource := None;
    }

    method OnError()
      modifies this
      ensures State() == NotificationStore.OnError(old(State()))
    {
      CloseSource();
      connected := false;
      pendingReconnects := pendingReconnects + 1;
    }

    method ReconnectFires(hasWindow: bool, src: Source)
      requires pendingReconnects > 0
      modifies this
      ensures State() == NotificationStore.ReconnectFires(old(State()), hasWindow, src)
    {
      pendingReconnects := pendingReconnects - 1;
      if !connected {
        Connect(hasWindow, src);
      }
    }

    method OnMessage(data: Option<Value>)
      modifies this
      ensures State() == NotificationStore.OnMessage(old(State()), data)
    {
      if data.Some? {
        events := Prepend(data.value, events);
      }
    }

    method Disconnect()
      modifies this
      ensures State() == NotificationStore.Disconnect(old(State()))
    {
      CloseSource();
      connected := false;
    }

    method Clear()
      modifies this
      ensures State() == NotificationStore.Clear(old(State()))
    {
      events := [];
    }
  }
}
