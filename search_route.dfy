/** `GET /api/users/search?query=..`: authenticate, upper-case the query, keep
    the users whose id or upper-cased name contains it. */
module SearchRoute {
  import opened Json
  import opened Accounts

  /** `toUpperCase` on one character, for the ASCII letters. */
  function UpperChar(c: char): char {
    if 'a' <= c <= 'z' then (c as int - 32) as char else c
  }

  /** Every lower-case ASCII letter becomes its capital and nothing else
      changes, so no lower-case letter is left. */
  function Upper(s: string): (r: string)
    ensures |r| == |s|
    ensures forall i :: 0 <= i < |r| ==> !('a' <= r[i] <= 'z')
    ensures forall i :: 0 <= i < |s| && !('a' <= s[i] <= 'z') ==> r[i] == s[i]
    ensures forall i :: 0 <= i < |s| && 'a' <= s[i] <= 'z' ==>
      'A' <= r[i] <= 'Z' && r[i] as int - 'A' as int == s[i] as int - 'a' as int
  {
    seq(|s|, i requires 0 <= i < |s| => UpperChar(s[i]))
  }

  /** `q` occurs in `s` starting at index `i`. */
  predicate OccursAt(s: string, q: string, i: int) {
    0 <= i <= |s| - |q| && s[i..i + |q|] == q
  }

  /** `s.includes(q)`. */
  predicate Contains(s: string, q: string) {
    exists i :: 0 <= i <= |s| - |q| && OccursAt(s, q, i)
  }

  /** The filter's test: the id is searched as it is, only the name is
      upper-cased. */
  predicate Matches(u: UserRecord, q: string) {
    Contains(u.id, q) || Contains(Upper(u.name), q)
  }

  function Filter(users: seq<UserRecord>, q: string): seq<UserRecord> {
    if users == [] then []
    else (if Matches(users[0], q) then [users[0]] else []) + Filter(users[1..], q)
  }

  /** The filter keeps exactly the matching users. */
  lemma {:induction false} FilterMembers(users: seq<UserRecord>, q: string)
    ensures forall u :: u in Filter(users, q) <==> u in users && Matches(u, q)
  {
    if users != [] {
      FilterMembers(users[1..], q);
      assert users == [users[0]] + users[1..];
    }
  }

  /** The filter keeps the list order: it distributes over a split of the
      list, so the results form a subsequence of `listUsers()`. */
  lemma {:induction false} FilterAppend(a: seq<UserRecord>, b: seq<UserRecord>, q: string)
    ensures Filter(a + b, q) == Filter(a, q) + Filter(b, q)
  {
    if a == [] {
      assert a + b == b;
    } else {
      var keep := if Matches(a[0], q) then [a[0]] else [];
      assert (a + b)[0] == a[0] && (a + b)[1..] == a[1..] + b;
      assert Filter(a + b, q) == keep + Filter(a[1..] + b, q);
      FilterAppend(a[1..], b, q);
      assert Filter(a, q) == keep + Filter(a[1..], q);
    }
  }

  /** The handler's `{ results }`. Any failure of `requireUser` is a 401,
      whatever its message; an absent query counts as the empty one. */
  function Get(auth: Attempt<UserRecord>, query: Option<string>, users: seq<UserRecord>)
    : (r: Response<seq<UserRecord>>)
    ensures auth.Threw? ==> r == Denied()
    ensures auth.Returned? && (query.None? || query.value == "") ==> r == Ok([])
    ensures auth.Returned? ==> r.status == 200 && r.body.Payload?
    ensures auth.Returned? && query.Some? && Upper(query.value) != "" ==> r == Ok(Filter(users, Upper(query.value)))
    ensures auth.Returned? && query.Some? ==>
      forall u :: u in r.body.value <==> u in users && query.value != "" && Matches(u, Upper(query.value))
  {
    match auth
    case Threw(_) => Denied()
    case Returned(_) =>
      var q := if query.Some? then Upper(query.value) else "";
      if q == "" then Ok([])
      else
        FilterMembers(users, q);
        Ok(Filter(users, q))
  }

  /** Names match whatever the case of the query: two queries that upper-case
      alike find the same users. */
  lemma SameUpperSameResults(auth: Attempt<UserRecord>, q1: string, q2: string, users: seq<UserRecord>)
    requires Upper(q1) == Upper(q2)
    ensures Get(auth, Some(q1), users) == Get(auth, Some(q2), users)
  {
  }

  /** Upper-casing twice is upper-casing once. */
  lemma UpperIdempotent(s: string)
    ensures Upper(Upper(s)) == Upper(s)
  {
    var r := Upper(s);
    assert forall i :: 0 <= i < |r| ==> Upper(r)[i] == r[i];
  }

  /** The query is upper-cased before the search, so an already upper-cased
      query finds the same users as the one it came from. */
  lemma UpperCasedQuerySameResults(auth: Attempt<UserRecord>, q: string, users: seq<UserRecord>)
    ensures Get(auth, Some(Upper(q)), users) == Get(auth, Some(q), users)
  {
    UpperIdempotent(q);
    SameUpperSameResults(auth, Upper(q), q, users);
  }

  /** The id is searched as it is, but the query has no lower-case letter
      left: a user whose id is written in lower-case letters is never found
      by its id, only by its upper-cased name. */
  lemma LowerCaseIdFoundOnlyByName(auth: UserRecord, q: string, users: seq<UserRecord>, u: UserRecord)
    requires q != ""
    requires forall i :: 0 <= i < |u.id| ==> 'a' <= u.id[i] <= 'z'
    ensures u in Get(Returned(auth), Some(q), users).body.value <==>
      u in users && Contains(Upper(u.name), Upper(q))
  {
    var query := Upper(q);
    assert !Contains(u.id, query) by {
      forall i | 0 <= i <= |u.id| - |query|
        ensures !OccursAt(u.id, query, i)
      {
        assert u.id[i..i + |query|][0] == u.id[i];
      }
    }
  }
}
