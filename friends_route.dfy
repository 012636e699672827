/** `GET` and `POST /api/friends`: list the caller's friends, add a friend. */
module FriendsRoute {
  import opened Json
  import opened Accounts

  const LoadFailed: string := "Gagal memuat teman"
  const MissingFriend: string := "ID teman wajib diisi"
  const Added: string := "Teman berhasil ditambahkan"

  /** The `map`/`filter(Boolean)` pipeline: each friend id that `users`
      (`getUserInternal`) resolves becomes its sanitized profile; the others
      are dropped. */
  function Resolve(ids: seq<string>, users: map<string, UserRecord>, sanitize: UserRecord -> Profile)
    : seq<Profile>
  {
    if ids == [] then []
    else (if ids[0] in users then [sanitize(users[ids[0]])] else []) + Resolve(ids[1..], users, sanitize)
  }

  /** Resolving splits over a split of the id list: the profiles come out in
      the order of the ids, and an id contributes on its own. */
  lemma {:induction false} ResolveAppend(a: seq<string>, b: seq<string>, users: map<string, UserRecord>,
                                         sanitize: UserRecord -> Profile)
    ensures Resolve(a + b, users, sanitize) == Resolve(a, users, sanitize) + Resolve(b, users, sanitize)
  {
    if a != [] {
      assert (a + b)[1..] == a[1..] + b;
      ResolveAppend(a[1..], b, users, sanitize);
    } else {
      assert a + b == b;
    }
  }

  /** Every profile returned belongs to one of the ids that resolve, none is
      made up, and when every id resolves there is one profile per id at the
      same position. */
  lemma {:induction false} ResolveSound(ids: seq<string>, users: map<string, UserRecord>,
                                        sanitize: UserRecord -> Profile)
    ensures |Resolve(ids, users, sanitize)| <= |ids|
    ensures forall p :: p in Resolve(ids, users, sanitize) ==>
      exists i :: 0 <= i < |ids| && ids[i] in users && p == sanitize(users[ids[i]])
    ensures (forall i :: 0 <= i < |ids| ==> ids[i] in users) ==>
      |Resolve(ids, users, sanitize)| == |ids| &&
      forall i :: 0 <= i < |ids| ==> Resolve(ids, users, sanitize)[i] == sanitize(users[ids[i]])
  {
    if ids != [] {
      ResolveSound(ids[1..], users, sanitize);
      var rest := Resolve(ids[1..], users, sanitize);
      forall p | p in Resolve(ids, users, sanitize)
        ensures exists i :: 0 <= i < |ids| && ids[i] in users && p == sanitize(users[ids[i]])
      {
        if p in rest {
          var j :| 0 <= j < |ids[1..]| && ids[1..][j] in users && p == sanitize(users[ids[1..][j]]);
          assert ids[j + 1] == ids[1..][j];
        } else {
          assert ids[0] in users && p == sanitize(users[ids[0]]);
        }
      }
      if forall i :: 0 <= i < |ids| ==> ids[i] in users {
        assert forall i :: 0 <= i < |ids[1..]| ==> ids[1..][i] in users by {
          forall i | 0 <= i < |ids[1..]| ensures ids[1..][i] in users {
            assert ids[1..][i] == ids[i + 1];
          }
        }
      }
    }
  }

  /** An id the store does not know is dropped without a trace. */
  lemma UnknownIdDropped(ids: seq<string>, unknown: string, users: map<string, UserRecord>,
                         sanitize: UserRecord -> Profile)
    requires unknown !in users
    ensures Resolve(ids + [unknown], users, sanitize) == Resolve(ids, users, sanitize)
  {
    ResolveAppend(ids, [unknown], users, sanitize);
    assert Resolve([unknown], users, sanitize) == [];
  }

  /** `GET`: the caller's resolvable friends, 401 or 500 otherwise. */
  function Get(auth: Attempt<UserRecord>, users: map<string, UserRecord>, sanitize: UserRecord -> Profile)
    : (r: Response<seq<Profile>>)
    ensures auth.Returned? ==> r == Ok(Resolve(auth.value.friends, users, sanitize))
    ensures auth.Threw? ==> r == if auth.message == Unauthorized then Denied() else Fail(500, LoadFailed)
  {
    match auth
    case Threw(msg) => Caught(msg, 500, LoadFailed)
    case Returned(user) => Ok(Resolve(user.friends, users, sanitize))
  }

  /** The arguments of one `addFriend` call. */
  datatype AddFriend = AddFriend(userId: string, friendId: Value)

  /** `POST`: its response `{ message, data }` and the `addFriend` calls it
      made. */
  function Post(auth: Attempt<UserRecord>, body: Attempt<Value>, addFriend: AddFriend -> Attempt<Value>)
    : (r: (Response<(string, Value)>, seq<AddFriend>))
    ensures r.1 != [] <==> auth.Returned? && body.Returned? && Truthy(Prop(body.value, "friendId"))
    ensures r.1 != [] ==> r.1 == [AddFriend(auth.value.id, Prop(body.value, "friendId"))]
    ensures auth.Returned? && body.Returned? && !Truthy(Prop(body.value, "friendId")) ==>
      r.0 == Fail(400, MissingFriend)
    ensures r.1 != [] ==>
      match addFriend(r.1[0])
      case Returned(data) => r.0 == Ok((Added, data))
      case Threw(msg) => r.0 == Caught(msg, 400, msg)
    ensures auth.Threw? ==> r.0 == Caught(auth.message, 400, auth.message)
    ensures auth.Returned? && body.Threw? ==> r.0 == Caught(body.message, 400, body.message)
  {
    match auth
    case Threw(msg) => (Caught(msg, 400, msg), [])
    case Returned(user) =>
      match body
      case Threw(msg) => (Caught(msg, 400, msg), [])
      case Returned(b) =>
        var friendId := Prop(b, "friendId");
        if !Truthy(friendId) then (Fail(400, MissingFriend), [])
        else
          var call := AddFriend(user.id, friendId);
          match addFriend(call)
          case Returned(data) => (Ok((Added, data)), [call])
          case Threw(msg) => (Caught(msg, 400, msg), [call])
  }
}
