/** The client's session store: the signed-in user, a loading flag and the
    last load error. */
module SessionStore {
  import opened Json

  const LoadFailed: string := "Gagal memuat sesi"

  /** How the request to the session route ended: it threw (the fetch or the
      body parse), or it answered with an ok flag and a parsed body. */
  datatype FetchOutcome = FetchThrew | Answered(ok: bool, data: Value)

  /** The outcome ends in the catch block: the request threw, or it
      answered ok with a `null` body, on which reading `data.authenticated`
      throws a `TypeError`. */
  predicate Fails(outcome: FetchOutcome) {
    outcome.FetchThrew? || (outcome.ok && outcome.data == Null)
  }

  /** The user `fetchSession` leaves behind: `data.user` for an ok answer
      whose `authenticated` is truthy, `null` for every other outcome. */
  function SignedInUser(outcome: FetchOutcome): (u: Value)
    ensures u != Null ==> outcome.Answered? && outcome.ok && Truthy(Prop(outcome.data, "authenticated"))
    ensures outcome.Answered? && outcome.ok && Truthy(Prop(outcome.data, "authenticated")) ==>
      u == Prop(outcome.data, "user")
    ensures Fails(outcome) || !outcome.ok ==> u == Null
  {
    match outcome
    case FetchThrew => Null
    case Answered(ok, data) =>
      if !ok then Null
      else if Truthy(Prop(data, "authenticated")) then Prop(data, "user")
      else Null
  }

  class Session {
    /** `null` is `Null`; otherwise the public profile object. */
    var user: Value
    var loading: bool
    var error: Option<string>

    constructor ()
      ensures user == Null && loading && error == None
    {
      user, loading, error := Null, true, None;
    }

    /** Every outcome ends with `loading` false; only an outcome that ends in
        the catch block sets the error, and nothing clears an earlier one. */
    method FetchSession(outcome: FetchOutcome)
      modifies this
      ensures !loading
      ensures user == SignedInUser(outcome)
      ensures error == if Fails(outcome) then Some(LoadFailed) else old(error)
    {
      match outcome
      case FetchThrew =>
        user, loading, error := Null, false, Some(LoadFailed);
      case Answered(ok, data) =>
        if !ok {
          user, loading := Null, false;
          return;
        }
        if data == Null {
          user, loading, error := Null, false, Some(LoadFailed);
          return;
        }
        if Truthy(Prop(data, "authenticated")) {
          user, loading := Prop(data, "user"), false;
        } else {
          user, loading := Null, false;
        }
    }

    method SetUser(u: Value)
      modifies this
      ensures user == u && loading == old(loading) && error == old(error)
    {
      user := u;
    }

    /** The user is cleared once the logout request resolves; a rejected
        request leaves the store as it was. */
    method Logout(requestResolved: bool)
      modifies this
      ensures user == if requestResolved then Null else old(user)
      ensures loading == old(loading) && error == old(error)
    {
      if requestResolved {
        user := Null;
      }
    }
  }
}
