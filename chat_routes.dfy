/** `POST /api/chat/send`: authenticate, check the body in four steps, hand
    the message to the store's `sendMessage`. */
module ChatSendRoute {
  import opened Json
  import opened Accounts

  /** The four checks, in the order the handler runs them. */
  datatype Rejection = BadConversation | MissingRecipient | BadMessageType | EmptyContent

  function ErrorText(r: Rejection): string {
    match r
    case BadConversation => "Jenis percakapan tidak valid"
    case MissingRecipient => "ID tujuan wajib diisi"
    case BadMessageType => "Jenis pesan tidak valid"
    case EmptyContent => "Konten pesan kosong"
  }

  predicate ConversationOk(b: Value) {
    Prop(b, "conversationType") in {Str("private"), Str("group")}
  }
  predicate RecipientOk(b: Value) { Truthy(Prop(b, "recipientId")) }
  predicate MessageTypeOk(b: Value) {
    Prop(b, "messageType") in {Str("text"), Str("image"), Str("file")}
  }
  predicate ContentOk(b: Value) { Truthy(Prop(b, "content")) }

  /** The validation chain: the first failing check names the rejection. */
  function Validate(b: Value): (r: Option<Rejection>)
    ensures r == None <==> ConversationOk(b) && RecipientOk(b) && MessageTypeOk(b) && ContentOk(b)
    ensures r == Some(BadConversation) <==> !ConversationOk(b)
    ensures r == Some(MissingRecipient) <==> ConversationOk(b) && !RecipientOk(b)
    ensures r == Some(BadMessageType) <==> ConversationOk(b) && RecipientOk(b) && !MessageTypeOk(b)
    ensures r == Some(EmptyContent) <==>
      ConversationOk(b) && RecipientOk(b) && MessageTypeOk(b) && !ContentOk(b)
  {
    var conversationType := Prop(b, "conversationType");
    if !Truthy(conversationType) || conversationType !in {Str("private"), Str("group")} then
      Some(BadConversation)
    else if !Truthy(Prop(b, "recipientId")) then Some(MissingRecipient)
    else if !Truthy(Prop(b, "messageType")) || Prop(b, "messageType") !in {Str("text"), Str("image"), Str("file")} then
      Some(BadMessageType)
    else if !Truthy(Prop(b, "content")) then Some(EmptyContent)
    else None
  }

  /** The arguments of one `sendMessage` call. Recipient, content and file
      name are passed on as the body held them: only their truthiness is
      checked, not that they are strings. */
  datatype SendArgs = SendArgs(senderId: string, conversationType: Value, recipientId: Value,
                               messageType: Value, content: Value, fileName: Value)

  function ArgsOf(user: UserRecord, b: Value): SendArgs {
    SendArgs(user.id, Prop(b, "conversationType"), Prop(b, "recipientId"),
             Prop(b, "messageType"), Prop(b, "content"), Prop(b, "fileName"))
  }

  /** The handler: its response and the `sendMessage` calls it made.
      `send` is the store call, which returns the stored message or throws. */
  function Post(auth: Attempt<UserRecord>, body: Attempt<Value>, send: SendArgs -> Attempt<Value>)
    : (r: (Response<(string, Value)>, seq<SendArgs>))
    ensures |r.1| <= 1
    ensures r.1 != [] <==> auth.Returned? && body.Returned? && Validate(body.value) == None
    ensures r.1 != [] ==> r.1 == [ArgsOf(auth.value, body.value)] && r.1[0].senderId == auth.value.id
    ensures auth.Returned? && body.Returned? && Validate(body.value).Some? ==>
      r.0 == Fail(400, ErrorText(Validate(body.value).value))
    ensures r.1 != [] ==>
      match send(r.1[0])
      case Returned(m) => r.0 == Ok(("Pesan terkirim", m))
      case Threw(msg) => r.0 == Caught(msg, 400, msg)
    ensures auth.Threw? ==> r.0 == Caught(auth.message, 400, auth.message)
    ensures auth.Returned? && body.Threw? ==> r.0 == Caught(body.message, 400, body.message)
  {
    match auth
    case Threw(msg) => (Caught(msg, 400, msg), [])
    case Returned(user) =>
      match body
      case Threw(msg) => (Caught(msg, 400, msg), [])
      case Returned(b) =>
        match Validate(b)
        case Some(rejection) => (Fail(400, ErrorText(rejection)), [])
        case None =>
          var args := ArgsOf(user, b);
          match send(args)
          case Returned(message) => (Ok(("Pesan terkirim", message)), [args])
          case Threw(msg) => (Caught(msg, 400, msg), [args])
  }
}

/** `GET /api/chat/history?type=..&peerId=..`: authenticate, check the two
    query parameters, read the conversation from the store. */
module ChatHistoryRoute {
  import opened Json
  import opened Accounts

  const InvalidParameters: string := "Parameter tidak valid"

  /** The arguments of one `getConversation` call. */
  datatype Query = Query(userId: string, conversationType: string, peerId: string)

  /** Both parameters present and non-empty, and `type` one of the two
      conversation kinds. `searchParams.get` gives `None` for an absent one. */
  predicate ValidParams(typ: Option<string>, peerId: Option<string>) {
    typ.Some? && typ.value in {"private", "group"} && peerId.Some? && peerId.value != ""
  }

  /** The handler: its response `{ messages }` and the store reads it made. */
  function Get(auth: Attempt<UserRecord>, typ: Option<string>, peerId: Option<string>,
               getConversation: Query -> Attempt<seq<Value>>)
    : (r: (Response<seq<Value>>, seq<Query>))
    ensures r.1 != [] <==> auth.Returned? && ValidParams(typ, peerId)
    ensures r.1 != [] ==> r.1 == [Query(auth.value.id, typ.value, peerId.value)]
    ensures auth.Returned? && !ValidParams(typ, peerId) ==> r.0 == Fail(400, InvalidParameters)
    ensures r.1 != [] ==>
      match getConversation(r.1[0])
      case Returned(messages) => r.0 == Ok(messages)
      case Threw(msg) => r.0 == Caught(msg, 400, msg)
    ensures auth.Threw? ==> r.0 == Caught(auth.message, 400, auth.message)
  {
    match auth
    case Threw(msg) => (Caught(msg, 400, msg), [])
    case Returned(user) =>
      if typ.None? || typ.value == "" || peerId.None? || peerId.value == ""
         || typ.value !in {"private", "group"} then
        (Fail(400, InvalidParameters), [])
      else
        var q := Query(user.id, typ.value, peerId.value);
        match getConversation(q)
        case Returned(messages) => (Ok(messages), [q])
        case Threw(msg) => (Caught(msg, 400, msg), [q])
  }
}
