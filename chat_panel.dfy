/** The chat panel's own logic: the conversation list it builds, which
    notification events concern the open conversation, and what it posts
    when the user sends. */
module ChatPanel {
  import opened Json
  import ChatSendRoute
  import NotificationStore

  datatype ConversationType = Private | Group

  function TypeName(t: ConversationType): string {
    match t
    case Private => "private"
    case Group => "group"
  }

  /** An entry of the conversation list; `caption` is its `label`. */
  datatype Target = Target(id: string, caption: string, kind: ConversationType)

  /** A friend as `/api/friends` lists them, and a group as the group list
      does; only the fields the panel reads. */
  datatype Friend = Friend(id: string, name: string)
  datatype GroupInfo = GroupInfo(id: string, name: string)

  function FriendTarget(f: Friend): Target {
    Target(f.id, f.name + " (" + f.id + ")", Private)
  }

  function GroupTarget(g: GroupInfo): Target {
    Target(g.id, "#" + g.name, Group)
  }

  function FriendTargets(friends: seq<Friend>): (r: seq<Target>)
    ensures |r| == |friends|
    ensures forall i :: 0 <= i < |friends| ==> r[i] == FriendTarget(friends[i])
  {
    if friends == [] then [] else [FriendTarget(friends[0])] + FriendTargets(friends[1..])
  }

  function GroupTargets(groups: seq<GroupInfo>): (r: seq<Target>)
    ensures |r| == |groups|
    ensures forall i :: 0 <= i < |groups| ==> r[i] == GroupTarget(groups[i])
  {
    if groups == [] then [] else [GroupTarget(groups[0])] + GroupTargets(groups[1..])
  }

  /** The list `loadTargets` sets: every friend as a private conversation,
      then every group, each in the order it was listed. */
  function Targets(friends: seq<Friend>, groups: seq<GroupInfo>): (r: seq<Target>)
    ensures |r| == |friends| + |groups|
    ensures forall i :: 0 <= i < |friends| ==>
      r[i].kind == Private && r[i].id == friends[i].id && r[i].caption == friends[i].name + " (" + friends[i].id + ")"
    ensures forall j :: 0 <= j < |groups| ==>
      r[|friends| + j].kind == Group && r[|friends| + j].id == groups[j].id && r[|friends| + j].caption == "#" + groups[j].name
  {
    FriendTargets(friends) + GroupTargets(groups)
  }

  /** A chat message as the panel reads it. `createdAt` is the instant the
      timestamp string denotes. */
  datatype LoadedMessage = LoadedMessage(id: string, senderId: string, recipientId: string,
                                         conversationType: ConversationType, messageType: string,
                                         content: string, createdAt: int)

  /** A message as it travels in a notification's `data.message`. */
  function MessageValue(m: LoadedMessage): Value {
    Obj(map["id" := Str(m.id), "senderId" := Str(m.senderId), "recipientId" := Str(m.recipientId),
            "conversationType" := Str(TypeName(m.conversationType)),
            "messageType" := Str(m.messageType), "content" := Str(m.content)])
  }

  /** The notification the server pushes for a new message. */
  function MessageEvent(m: LoadedMessage): Value {
    Obj(map["type" := Str("message"), "data" := Obj(map["message" := MessageValue(m)])])
  }

  /** Which conversation a message belongs to: a private message to the
      conversation with either party, a group message to its group. */
  predicate Concerns(m: LoadedMessage, t: Target) {
    match t.kind
    case Private => m.conversationType == Private && (m.senderId == t.id || m.recipientId == t.id)
    case Group => m.conversationType == Group && m.recipientId == t.id
  }

  /** `isEventForTarget(event, target)` on the raw event. `data` must be a
      truthy object (an array is one too, but has no `message`), and its
      `message` truthy. */
  predicate IsEventForTarget(event: Value, target: Target) {
    var data := Prop(event, "data");
    if !Truthy(data) || !(data.Obj? || data.Arr?) then false
    else
      var message := Prop(data, "message");
      if !Truthy(message) then false
      else if target.kind == Private then
        Prop(message, "conversationType") == Str("private")
        && (Prop(message, "senderId") == Str(target.id) || Prop(message, "recipientId") == Str(target.id))
      else
        Prop(message, "conversationType") == Str("group") && Prop(message, "recipientId") == Str(target.id)
  }

  /** On well-formed message notifications the predicate is exactly
      `Concerns`. */
  lemma EventForTargetIffConcerns(m: LoadedMessage, t: Target)
    ensures IsEventForTarget(MessageEvent(m), t) <==> Concerns(m, t)
  {
    var message := MessageValue(m);
    assert Prop(MessageEvent(m), "data") == Obj(map["message" := message]);
    assert Prop(Obj(map["message" := message]), "message") == message;
    assert Prop(message, "conversationType") == Str(TypeName(m.conversationType));
    assert Prop(message, "senderId") == Str(m.senderId);
    assert Prop(message, "recipientId") == Str(m.recipientId);
  }

  /** Events without a data object, or whose data has no message, concern no
      conversation. */
  lemma MalformedEventsIgnored(event: Value, t: Target)
    requires !Prop(event, "data").Obj? || !Truthy(Prop(Prop(event, "data"), "message"))
    ensures !IsEventForTarget(event, t)
  {
  }

  /** One entry the reload effect's `find` accepts: a `message` event that
      concerns the open conversation. */
  predicate ReloadMatch(event: Value, t: Target) {
    Prop(event, "type") == Str("message") && IsEventForTarget(event, t)
  }

  /** How the reload effect's `events.find` ends. */
  datatype Search = Found | NotFound | Throws

  /** `events.find` with the reload test, newest entry first. The test reads
      `event.type` with a plain `.`, so the search throws at a `null` or
      `undefined` entry it reaches before any match. */
  function FindReload(events: seq<Value>, t: Target): Search {
    if events == [] then NotFound
    else if Nullish(events[0]) then Throws
    else if ReloadMatch(events[0], t) then Found
    else FindReload(events[1..], t)
  }

  /** The panel reloads the conversation when the search finds an entry. */
  predicate ReloadNeeded(events: seq<Value>, t: Target) {
    FindReload(events, t) == Found
  }

  /** Entry `i` matches and no entry before it is nullish. */
  predicate FoundAt(events: seq<Value>, t: Target, i: int) {
    0 <= i < |events| && ReloadMatch(events[i], t)
    && forall k :: 0 <= k < i ==> !Nullish(events[k])
  }

  /** Entry `i` is nullish and no entry before it is nullish or matches. */
  predicate ThrowsAt(events: seq<Value>, t: Target, i: int) {
    0 <= i < |events| && Nullish(events[i])
    && forall k :: 0 <= k < i ==> !Nullish(events[k]) && !ReloadMatch(events[k], t)
  }

  /** The search finds an entry exactly when some entry matches with no
      nullish entry ahead of it, and throws exactly when a nullish entry
      comes before every match. */
  lemma {:induction false} FindReloadSpec(events: seq<Value>, t: Target)
    ensures FindReload(events, t) == Found <==> exists i :: FoundAt(events, t, i)
    ensures FindReload(events, t) == Throws <==> exists i :: ThrowsAt(events, t, i)
  {
    if events == [] {
    } else if Nullish(events[0]) {
      assert ThrowsAt(events, t, 0);
    } else if ReloadMatch(events[0], t) {
      assert FoundAt(events, t, 0);
    } else {
      var rest := events[1..];
      FindReloadSpec(rest, t);
      forall j | FoundAt(rest, t, j) ensures FoundAt(events, t, j + 1) {
        assert events[j + 1] == rest[j];
        forall k | 0 < k < j + 1 ensures !Nullish(events[k]) {
          assert events[k] == rest[k - 1];
        }
      }
      forall i | FoundAt(events, t, i) ensures FoundAt(rest, t, i - 1) {
        assert i != 0;
        forall k | 0 <= k < i - 1 ensures !Nullish(rest[k]) {
          assert rest[k] == events[k + 1];
        }
      }
      forall j | ThrowsAt(rest, t, j) ensures ThrowsAt(events, t, j + 1) {
        assert events[j + 1] == rest[j];
        forall k | 0 < k < j + 1 ensures !Nullish(events[k]) && !ReloadMatch(events[k], t) {
          assert events[k] == rest[k - 1];
        }
      }
      forall i | ThrowsAt(events, t, i) ensures ThrowsAt(rest, t, i - 1) {
        assert i != 0;
        forall k | 0 <= k < i - 1 ensures !Nullish(rest[k]) && !ReloadMatch(rest[k], t) {
          assert rest[k] == events[k + 1];
        }
      }
    }
  }

  /** A new message for the open conversation, pushed into the notification
      log, makes the panel reload it. */
  lemma NewMessageTriggersReload(m: LoadedMessage, t: Target, events: seq<Value>)
    requires Concerns(m, t)
    ensures ReloadNeeded(NotificationStore.Prepend(MessageEvent(m), events), t)
  {
    EventForTargetIffConcerns(m, t);
    var log := NotificationStore.Prepend(MessageEvent(m), events);
    assert log[0] == MessageEvent(m);
    assert Prop(MessageEvent(m), "type") == Str("message");
  }

  /** A match among the 24 newest entries with no nullish entry ahead of it
      is still found after the next notification, as long as that one is
      not nullish: it moves one place down and is kept. */
  lemma ReloadStaysNeeded(events: seq<Value>, i: nat, next: Value, t: Target)
    requires i < NotificationStore.Capacity - 1 && FoundAt(events, t, i)
    requires !Nullish(next)
    ensures ReloadNeeded(NotificationStore.Prepend(next, events), t)
  {
    var log := NotificationStore.Prepend(next, events);
    assert log[1..][i] == events[i];
    assert log[i + 1] == events[i];
    forall k | 0 < k < i + 1 ensures !Nullish(log[k]) {
      assert log[1..][k - 1] == events[k - 1];
    }
    assert FoundAt(log, t, i + 1);
    FindReloadSpec(log, t);
  }

  /** A file the user picked, read as a data URL. */
  datatype FileKind = Image | Document
  datatype PendingFile = PendingFile(kind: FileKind, name: string, content: string)

  function FileKindName(k: FileKind): string {
    match k
    case Image => "image"
    case Document => "file"
  }

  const NoTarget: string := "Pilih teman atau grup terlebih dahulu"
  const NoContent: string := "Tidak ada konten untuk dikirim"
  const SendFailed: string := "Gagal mengirim pesan"
  const LoadFailed: string := "Gagal memuat percakapan"

  datatype Compose = Rejected(error: string) | Request(payload: Value)

  /** The guards and the body of `onSendMessage`. An absent file name is
      `undefined`, which `JSON.stringify` leaves out. */
  function ComposeMessage(selected: Option<Target>, text: string, file: Option<PendingFile>): Compose {
    match selected
    case None => Rejected(NoTarget)
    case Some(t) =>
      if text == "" && file.None? then Rejected(NoContent)
      else
        Request(Obj(map[
          "conversationType" := Str(TypeName(t.kind)),
          "recipientId" := Str(t.id),
          "messageType" := if file.Some? then Str(FileKindName(file.value.kind)) else Str("text"),
          "content" := if file.Some? then Str(file.value.content) else Str(text),
          "fileName" := if file.Some? then Str(file.value.name) else Undefined]))
  }

  /** No conversation selected: an error and no request. With one selected
      but neither text nor file: the other error and no request. Otherwise a
      request to the selected conversation in which a pending file decides
      both the type and the content. */
  lemma ComposeGuards(selected: Option<Target>, text: string, file: Option<PendingFile>)
    ensures selected.None? ==> ComposeMessage(selected, text, file) == Rejected(NoTarget)
    ensures selected.Some? && text == "" && file.None? ==> ComposeMessage(selected, text, file) == Rejected(NoContent)
    ensures ComposeMessage(selected, text, file).Request? <==> selected.Some? && (text != "" || file.Some?)
    ensures ComposeMessage(selected, text, file).Request? ==>
      var p := ComposeMessage(selected, text, file).payload;
      && Prop(p, "conversationType") == Str(TypeName(selected.value.kind))
      && Prop(p, "recipientId") == Str(selected.value.id)
      && (file.Some? ==> Prop(p, "messageType") == Str(FileKindName(file.value.kind))
                         && Prop(p, "content") == Str(file.value.content)
                         && Prop(p, "fileName") == Str(file.value.name))
      && (file.None? ==> Prop(p, "messageType") == Str("text") && Prop(p, "content") == Str(text)
                         && Prop(p, "fileName") == Undefined)
  {
  }

  /** What the panel posts passes the server's checks whenever the
      conversation id is non-empty and the content that is sent is. */
  lemma ComposedPassesServer(t: Target, text: string, file: Option<PendingFile>)
    requires t.id != ""
    requires file.Some? ==> file.value.content != ""
    requires file.None? ==> text != ""
    ensures ComposeMessage(Some(t), text, file).Request?
    ensures ChatSendRoute.Validate(ComposeMessage(Some(t), text, file).payload) == None
  {
    var p := ComposeMessage(Some(t), text, file).payload;
    assert Prop(p, "conversationType") == Str(TypeName(t.kind));
    assert Prop(p, "recipientId") == Str(t.id);
    assert Prop(p, "content") == if file.Some? then Str(file.value.content) else Str(text);
  }

  /** The panel's guard checks only that a file is pending, not its
      content: a pending file whose content is the empty string passes the
      guard, and the server then answers "Konten pesan kosong". The file
      reader stores a data URL, which is never empty, so this content comes
      only from a caller other than the panel's own file reader. */
  lemma EmptyFileReachesServerAndFails(t: Target, text: string, kind: FileKind, name: string)
    requires t.id != ""
    ensures var c := ComposeMessage(Some(t), text, Some(PendingFile(kind, name, "")));
      c.Request? && ChatSendRoute.Validate(c.payload) == Some(ChatSendRoute.EmptyContent)
  {
    var p := ComposeMessage(Some(t), text, Some(PendingFile(kind, name, ""))).payload;
    assert Prop(p, "conversationType") == Str(TypeName(t.kind));
    assert Prop(p, "recipientId") == Str(t.id);
    assert Prop(p, "messageType") == Str(FileKindName(kind));
    assert Prop(p, "content") == Str("");
  }

  /** Ascending `createdAt`. */
  predicate SortedByTime(s: seq<LoadedMessage>) {
    forall a, b :: 0 <= a < b < |s| ==> s[a].createdAt <= s[b].createdAt
  }
}

/** The panel's component state as an object. `messages` is an array
    because `currentMessages` sorts the state array in place. */
module ChatPanelView {
  import opened Json
  import opened ChatPanel

  /** How `loadTargets`' two requests ended. A response that is not ok, or
      lacks its list, already counts as the empty list. */
  datatype TargetsOutcome = TargetsThrew | TargetsLoaded(friends: seq<Friend>, groups: seq<GroupInfo>)

  /** How `loadMessages`' request ended: it threw with a message; it
      answered not-ok with an optional `error`; it answered with an optional
      `messages` list. */
  datatype HistoryOutcome =
    | HistoryThrew(message: string)
    | HistoryRejected(error: Option<string>)
    | HistoryLoaded(messages: Option<seq<LoadedMessage>>)

  /** How the send request ended, when one was made. */
  datatype SendOutcome =
    | SendThrew(message: string)
    | SendRejected(error: Option<string>)
    | SendAccepted(stored: LoadedMessage)

  /** The error `loadMessages` leaves for an outcome, if any. */
  function LoadError(outcome: HistoryOutcome): Option<string> {
    match outcome
    case HistoryThrew(message) => Some(message)
    case HistoryRejected(error) => Some(if error.Some? then error.value else LoadFailed)
    case HistoryLoaded(_) => None
  }

  class ChatView {
    var targets: seq<Target>
    var selected: Option<Target>
    var messages: array<LoadedMessage>
    var loading: bool
    var draft: string
    var pendingFile: Option<PendingFile>
    var error: Option<string>
    /** The bodies posted to the send route, in order. */
    var requests: seq<Value>

    constructor ()
      ensures targets == [] && selected.None? && messages.Length == 0 && !loading
      ensures draft == "" && pendingFile.None? && error.None? && requests == []
    {
      targets, selected := [], None;
      messages := new LoadedMessage[0];
      loading, draft, pendingFile, error, requests := false, "", None, None, [];
    }

    method LoadTargets(outcome: TargetsOutcome)
      modifies this
      ensures outcome.TargetsLoaded? ==> targets == Targets(outcome.friends, outcome.groups)
      ensures outcome.TargetsThrew? ==> targets == old(targets)
      ensures selected == old(selected) && messages == old(messages) && error == old(error)
      ensures draft == old(draft) && pendingFile == old(pendingFile) && requests == old(requests)
      ensures loading == old(loading)
    {
      if outcome.TargetsLoaded? {
        targets := FriendTargets(outcome.friends) + GroupTargets(outcome.groups);
      }
    }

    method SelectTarget(t: Target)
      modifies this
      ensures selected == Some(t) && targets == old(targets) && messages == old(messages)
      ensures error == old(error) && draft == old(draft) && pendingFile == old(pendingFile)
      ensures requests == old(requests) && loading == old(loading)
    {
      selected := Some(t);
    }

    /** `loadMessages`: loading and error are reset first, the list is
        replaced only by a successful load, and loading ends false whatever
        happened. */
    method LoadMessages(outcome: HistoryOutcome)
      modifies this
      ensures !loading
      ensures error == LoadError(outcome)
      ensures outcome.HistoryLoaded? ==>
        fresh(messages) && messages[..] == (if outcome.messages.Some? then outcome.messages.value else [])
      ensures !outcome.HistoryLoaded? ==> messages == old(messages)
      ensures targets == old(targets) && selected == old(selected) && draft == old(draft)
      ensures pendingFile == old(pendingFile) && requests == old(requests)
    {
      loading := true;
      error := None;
      match outcome {
        case HistoryThrew(message) =>
          error := Some(message);
        case HistoryRejected(e) =>
          error := Some(if e.Some? then e.value else LoadFailed);
        case HistoryLoaded(list) =>
          var loaded := if list.Some? then list.value else [];
          messages := new LoadedMessage[|loaded|](i requires 0 <= i < |loaded| => loaded[i]);
      }
      loading := false;
    }

    /** `onSendMessage`: the guards, the request, then the outcome. A
        success appends the stored message and clears the draft and the file
        but leaves an earlier error in place. */
    method SendMessage(outcome: SendOutcome)
      modifies this
      ensures var c := ComposeMessage(old(selected), old(draft), old(pendingFile));
        && (c.Rejected? ==> error == Some(c.error) && requests == old(requests) && messages == old(messages)
                            && draft == old(draft) && pendingFile == old(pendingFile))
        && (c.Request? ==> requests == old(requests) + [c.payload])
        && (c.Request? && outcome.SendAccepted? ==>
              fresh(messages) && messages[..] == old(messages[..]) + [outcome.stored]
              && draft == "" && pendingFile.None? && error == old(error))
        && (c.Request? && outcome.SendThrew? ==> error == Some(outcome.message))
        && (c.Request? && outcome.SendRejected? ==>
              error == Some(if outcome.error.Some? then outcome.error.value else SendFailed))
        && (c.Request? && !outcome.SendAccepted? ==>
              messages == old(messages) && draft == old(draft) && pendingFile == old(pendingFile))
      ensures targets == old(targets) && selected == old(selected) && loading == old(loading)
    {
      if selected.None? {
        error := Some(NoTarget);
        return;
      }
      if draft == "" && pendingFile.None? {
        error := Some(NoContent);
        return;
      }
      var payload := ComposeMessage(selected, draft, pendingFile).payload;
      requests := requests + [payload];
      match outcome
      case SendThrew(message) =>
        error := Some(message);
      case SendRejected(e) =>
        error := Some(if e.Some? then e.value else SendFailed);
      case SendAccepted(stored) =>
        var grown := messages[..] + [stored];
        messages := new LoadedMessage[|grown|](i requires 0 <= i < |grown| => grown[i]);
        draft := "";
        pendingFile := None;
    }

    /** `currentMessages`: `messages.sort` by ascending `createdAt`, in place
        on the state array. */
    method SortMessages()
      modifies messages
      ensures SortedByTime(messages[..])
      ensures multiset(messages[..]) == multiset(old(messages[..]))
    {
      SortByTime(messages);
    }
  }

  /** Insertion sort by `createdAt`: the array ends ordered and holds the
      same messages. */
  method SortByTime(a: array<LoadedMessage>)
    modifies a
    ensures SortedByTime(a[..])
    ensures multiset(a[..]) == multiset(old(a[..]))
  {
    var i := 0;
    while i < a.Length
      invariant 0 <= i <= a.Length
      invariant SortedByTime(a[..i])
      invariant multiset(a[..]) == multiset(old(a[..]))
    {
      Sink(a, i);
      i := i + 1;
    }
    assert a[..i] == a[..];
  }

  /** One step of the sort: the message at `i` moves left past every
      later-stamped one before it, so the first `i + 1` are ordered. */
  method Sink(a: array<LoadedMessage>, i: int)
    requires 0 <= i < a.Length
    requires SortedByTime(a[..i])
    modifies a
    ensures SortedByTime(a[..i + 1])
    ensures multiset(a[..]) == multiset(old(a[..]))
  {
    var j := i;
    while j > 0 && a[j - 1].createdAt > a[j].createdAt
      invariant 0 <= j <= i
      invariant forall p, q :: 0 <= p < q <= i && p != j && q != j ==> a[p].createdAt <= a[q].createdAt
      invariant forall q :: j < q <= i ==> a[j].createdAt < a[q].createdAt
      invariant 0 < j < i ==> a[j - 1].createdAt <= a[j + 1].createdAt
      invariant multiset(a[..]) == multiset(old(a[..]))
    {
      Swap(a, j - 1, j);
      j := j - 1;
    }
  }

  /** Exchange two messages. */
  method Swap(a: array<LoadedMessage>, p: int, q: int)
    requires 0 <= p < q < a.Length
    modifies a
    ensures a[p] == old(a[q]) && a[q] == old(a[p])
    ensures forall k :: 0 <= k < a.Length && k != p && k != q ==> a[k] == old(a[k])
    ensures multiset(a[..]) == multiset(old(a[..]))
  {
    a[p], a[q] := a[q], a[p];
  }
}
