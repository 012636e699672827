/** `PUT /api/profile/privacy`: authenticate, check the level, update it for
    the caller. */
module PrivacyRoute {
  import opened Json
  import opened Accounts

  const InvalidPrivacy: string := "Privasi tidak valid"
  const UpdateFailed: string := "Gagal memperbarui privasi"
  const Updated: string := "Privasi diperbarui"

  predicate ValidLevel(v: Value) {
    v in {Str("public"), Str("friends"), Str("private")}
  }

  /** The arguments of one `updatePrivacy` call. */
  datatype Update = Update(userId: string, privacy: Value)

  /** The handler: its response `{ message, user }` and the updates it made. */
  function Put(auth: Attempt<UserRecord>, body: Attempt<Value>, updatePrivacy: Update -> Attempt<Value>)
    : (r: (Response<(string, Value)>, seq<Update>))
    ensures r.1 != [] <==> auth.Returned? && body.Returned? && ValidLevel(Prop(body.value, "privacy"))
    ensures r.1 != [] ==> r.1 == [Update(auth.value.id, Prop(body.value, "privacy"))]
    ensures auth.Returned? && body.Returned? && !ValidLevel(Prop(body.value, "privacy")) ==>
      r.0 == Fail(400, InvalidPrivacy)
    ensures r.1 != [] ==>
      match updatePrivacy(r.1[0])
      case Returned(user) => r.0 == Ok((Updated, user))
      case Threw(msg) => r.0 == Caught(msg, 500, UpdateFailed)
    ensures auth.Threw? ==> r.0 == Caught(auth.message, 500, UpdateFailed)
    ensures auth.Returned? && body.Threw? ==> r.0 == Caught(body.message, 500, UpdateFailed)
    ensures r.0.status in {200, 400, 401, 500}
  {
    match auth
    case Threw(msg) => (Caught(msg, 500, UpdateFailed), [])
    case Returned(user) =>
      match body
      case Threw(msg) => (Caught(msg, 500, UpdateFailed), [])
      case Returned(b) =>
        var privacy := Prop(b, "privacy");
        if !Truthy(privacy) || privacy !in {Str("public"), Str("friends"), Str("private")} then
          (Fail(400, InvalidPrivacy), [])
        else
          var u := Update(user.id, privacy);
          match updatePrivacy(u)
          case Returned(updated) => (Ok((Updated, updated)), [u])
          case Threw(msg) => (Caught(msg, 500, UpdateFailed), [u])
  }
}
