/** Reading the `privat-token` cookie out of a `Cookie` header with the
    pattern `privat-token=([^;]+)`, as the session and logout routes do. */
module AuthToken {
  import opened Json

  const Key: string := "privat-token="

  /** The pattern can match at index `i`: the key starts there (anywhere in
      the header, not only at a cookie boundary) and is followed by at least
      one character other than `;`. */
  predicate MatchAt(h: string, i: int) {
    0 <= i && i + |Key| < |h| && h[i..i + |Key|] == Key && h[i + |Key|] != ';'
  }

  /** `t` is the captured group of a match at `i`: a non-empty run without
      `;` right after the key, ending at a `;` or at the end of the header. */
  predicate CapturedAt(h: string, i: int, t: string) {
    var start := i + |Key|;
    0 <= i && start + |t| <= |h| && h[start..start + |t|] == t
    && t != "" && ';' !in t
    && (start + |t| == |h| || h[start + |t|] == ';')
  }

  /** `[^;]+` taken greedily. */
  function Run(s: string): string {
    if s == [] || s[0] == ';' then [] else [s[0]] + Run(s[1..])
  }

  /** The leftmost match at or after `i`. */
  function Scan(h: string, i: nat): Option<string>
    decreases |h| - i
  {
    if i + |Key| >= |h| then None
    else if MatchAt(h, i) then Some(Run(h[i + |Key|..]))
    else Scan(h, i + 1)
  }

  /** `request.headers.get('cookie')?.match(...)?.[1]`. */
  function Extract(cookie: Option<string>): Option<string> {
    match cookie
    case None => None
    case Some(h) => Scan(h, 0)
  }

  lemma {:induction false} RunSpec(s: string)
    ensures |Run(s)| <= |s| && Run(s) == s[..|Run(s)|]
    ensures ';' !in Run(s)
    ensures |Run(s)| == |s| || s[|Run(s)|] == ';'
  {
    if s != [] && s[0] != ';' {
      RunSpec(s[1..]);
    }
  }

  lemma {:induction false} ScanSpec(h: string, i: nat)
    ensures Scan(h, i).None? <==> forall j :: i <= j ==> !MatchAt(h, j)
    ensures Scan(h, i).Some? ==>
      exists j :: i <= j && MatchAt(h, j) && (forall k :: i <= k < j ==> !MatchAt(h, k))
                 && CapturedAt(h, j, Scan(h, i).value)
    decreases |h| - i
  {
    if i + |Key| >= |h| {
    } else if MatchAt(h, i) {
      var s := h[i + |Key|..];
      RunSpec(s);
      var t := Run(s);
      assert t != [] by { assert s[0] != ';'; }
      assert h[i + |Key|..i + |Key| + |t|] == s[..|t|];
      assert CapturedAt(h, i, t);
    } else {
      ScanSpec(h, i + 1);
      if Scan(h, i).Some? {
        var j :| i + 1 <= j && MatchAt(h, j) && (forall k :: i + 1 <= k < j ==> !MatchAt(h, k))
                 && CapturedAt(h, j, Scan(h, i).value);
        assert forall k :: i <= k < j ==> !MatchAt(h, k);
      }
    }
  }

  /** The token is the capture of the leftmost place where the pattern
      matches; there is none exactly when no place matches. A key followed
      directly by `;` or the end is passed over in favour of a later one. */
  lemma ExtractSpec(cookie: Option<string>)
    ensures Extract(cookie).None? <==> cookie.None? || forall j :: !MatchAt(cookie.value, j)
    ensures Extract(cookie).Some? ==>
      exists j :: MatchAt(cookie.value, j) && (forall k :: 0 <= k < j ==> !MatchAt(cookie.value, k))
                 && CapturedAt(cookie.value, j, Extract(cookie).value)
  {
    if cookie.Some? {
      ScanSpec(cookie.value, 0);
    }
  }
}

/** `GET /api/auth/session`: token, stored session, token signature, user;
    the first missing one answers "not authenticated". */
module SessionRoute {
  import opened Json
  import opened Accounts
  import opened AuthToken

  /** The store and token lookups the handler performs, in order. */
  datatype Lookup = SessionLookup(token: string) | TokenCheck(token: string) | UserLookup(userId: string)

  datatype SessionReply = SessionReply(authenticated: bool, user: Option<Profile>)

  /** `verifyAuthToken` answered with a truthy user id. */
  predicate Verified(verify: string -> Option<string>, t: string) {
    verify(t).Some? && verify(t).value != ""
  }

  /** Every check of the chain passes for this cookie header. */
  predicate Authenticates(cookie: Option<string>, sessions: set<string>, verify: string -> Option<string>,
                          users: map<string, UserRecord>) {
    var token := Extract(cookie);
    token.Some? && token.value in sessions && Verified(verify, token.value)
    && verify(token.value).value in users
  }

  /** The handler: its response and the lookups it made. `sessions` holds
      the tokens `getSession` knows, `verify` is `verifyAuthToken`, `users` is
      `getUserInternal`. */
  function Get(cookie: Option<string>, sessions: set<string>, verify: string -> Option<string>,
               users: map<string, UserRecord>, sanitize: UserRecord -> Profile)
    : (r: (Response<SessionReply>, seq<Lookup>))
    ensures r.0.status == 200 && r.0.body.Payload?
    ensures r.0.body.value.authenticated <==> Authenticates(cookie, sessions, verify, users)
    ensures r.0.body.value.authenticated ==>
      r.0.body.value.user == Some(sanitize(users[verify(Extract(cookie).value).value]))
    ensures !r.0.body.value.authenticated ==> r.0.body.value.user == None
    ensures Extract(cookie).None? ==> r.1 == []
    ensures Extract(cookie).Some? ==>
      var t := Extract(cookie).value;
      && 1 <= |r.1| <= 3 && r.1[0] == SessionLookup(t)
      && (|r.1| >= 2 <==> t in sessions)
      && (|r.1| >= 2 ==> r.1[1] == TokenCheck(t))
      && (|r.1| == 3 <==> t in sessions && Verified(verify, t))
      && (|r.1| == 3 ==> r.1[2] == UserLookup(verify(t).value))
  {
    var no := Ok(SessionReply(false, None));
    match Extract(cookie)
    case None => (no, [])
    case Some(token) =>
      if token !in sessions then (no, [SessionLookup(token)])
      else
        var checked := [SessionLookup(token), TokenCheck(token)];
        if !Verified(verify, token) then (no, checked)
        else
          var userId := verify(token).value;
          if userId !in users then (no, checked + [UserLookup(userId)])
          else (Ok(SessionReply(true, Some(sanitize(users[userId])))), checked + [UserLookup(userId)])
  }
}

/** `POST /api/auth/logout`: drop the session the cookie names, always clear
    the cookie. */
module LogoutRoute {
  import opened Json
  import opened AuthToken

  datatype CookieUpdate = CookieUpdate(name: string, value: string, path: string, maxAge: int)
  datatype LogoutReply = LogoutReply(message: string, cookie: CookieUpdate)

  /** The handler: its reply and the session tokens left in the store, with
      `removeSession` taken to delete the token it is given. */
  function Post(cookie: Option<string>, sessions: set<string>): (r: (LogoutReply, set<string>))
    ensures r.0 == LogoutReply("Logout berhasil", CookieUpdate("privat-token", "", "/", 0))
    ensures Extract(cookie).Some? ==> r.1 == sessions - {Extract(cookie).value}
    ensures Extract(cookie).None? ==> r.1 == sessions
  {
    var reply := LogoutReply("Logout berhasil", CookieUpdate("privat-token", "", "/", 0));
    match Extract(cookie)
    case Some(token) => (reply, sessions - {token})
    case None => (reply, sessions)
  }
}

/** How the two auth routes compose over one session store. */
module AuthRoutes {
  import opened Json
  import opened Accounts
  import opened AuthToken
  import SessionRoute
  import LogoutRoute

  /** After logging out with a cookie, the same cookie no longer
      authenticates, whatever the token, the signature check and the users. */
  lemma {:induction false} LogoutEndsSession(cookie: Option<string>, sessions: set<string>,
                                             verify: string -> Option<string>,
                                             users: map<string, UserRecord>, sanitize: UserRecord -> Profile)
    ensures var left := LogoutRoute.Post(cookie, sessions).1;
      SessionRoute.Get(cookie, left, verify, users, sanitize).0.body.value.authenticated == false
  {
    var left := LogoutRoute.Post(cookie, sessions).1;
    assert Extract(cookie).Some? ==> Extract(cookie).value !in left;
  }
}
