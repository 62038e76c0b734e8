/** Sessions: one row per token ever issued.  A refresh rotates the token: it revokes
    the row it was given and issues a new one in the same chain.  Tokens are fresh, so a
    token is the position of its row; times are milliseconds. */
module Sessions {
  import opened Wrappers

  type Token = nat
  type UserId = nat

  const SESSION_INACTIVITY_MS: int := 60 * 60 * 1000
  const SESSION_ABSOLUTE_MS: int := 30 * 24 * 60 * 60 * 1000
  const REUSE_GRACE_MS: int := 10_000

  datatype Session = Session(user: UserId, lastActiveAt: int, expiresAt: int, revokedAt: Option<int>)

  datatype Request =
    | Login(user: UserId)
    | Touch(token: Token)
    | Logout(token: Token)
    | ChangePassword(user: UserId, keep: Option<Token>)
    | ResetPassword(user: UserId)

  /** Rows of the user that are still live, except possibly one, get revoked. */
  function RevokedRow(s: Session, i: Token, user: UserId, keep: Option<Token>, now: int): Session {
    if s.user == user && s.revokedAt.None? && keep != Some(i) then s.(revokedAt := Some(now)) else s
  }

  function RevokeAll(sessions: seq<Session>, user: UserId, keep: Option<Token>, now: int): (r: seq<Session>)
    ensures |r| == |sessions|
  {
    seq(|sessions|, i requires 0 <= i < |sessions| => RevokedRow(sessions[i], i, user, keep, now))
  }

  function Revoke(sessions: seq<Session>, token: Token, now: int): (r: seq<Session>)
    requires token < |sessions|
    ensures |r| == |sessions|
  {
    sessions[token := sessions[token].(revokedAt := Some(now))]
  }

  /** A token is good for a refresh: known, not past its absolute end, never revoked, and
      used within the last hour. */
  predicate Acceptable(sessions: seq<Session>, token: Token, now: int) {
    && token < |sessions|
    && now <= sessions[token].expiresAt
    && sessions[token].revokedAt.None?
    && now - sessions[token].lastActiveAt <= SESSION_INACTIVITY_MS
  }

  /** A revoked token shows up before its absolute end, too late for a benign race. */
  predicate LateReuse(sessions: seq<Session>, token: Token, now: int) {
    && token < |sessions|
    && now <= sessions[token].expiresAt
    && sessions[token].revokedAt.Some?
    && now - sessions[token].revokedAt.value >= REUSE_GRACE_MS
  }

  predicate TooIdle(sessions: seq<Session>, token: Token, now: int) {
    && token < |sessions|
    && now <= sessions[token].expiresAt
    && sessions[token].revokedAt.None?
    && now - sessions[token].lastActiveAt > SESSION_INACTIVITY_MS
  }

  /** The rows after a request at time `now`. */
  function Serve(sessions: seq<Session>, request: Request, now: int): seq<Session> {
    match request
    case Login(user) => sessions + [Session(user, now, now + SESSION_ABSOLUTE_MS, None)]
    case Touch(t) =>
      if LateReuse(sessions, t, now) then RevokeAll(sessions, sessions[t].user, None, now)
      else if TooIdle(sessions, t, now) then Revoke(sessions, t, now)
      else if Acceptable(sessions, t, now)
      then Revoke(sessions, t, now) + [Session(sessions[t].user, now, sessions[t].expiresAt, None)]
      else sessions
    case Logout(t) => if t < |sessions| && sessions[t].revokedAt.None? then Revoke(sessions, t, now) else sessions
    case ChangePassword(user, keep) => RevokeAll(sessions, user, keep, now)
    case ResetPassword(user) => RevokeAll(sessions, user, None, now)
  }

  /** Every session of the user that was live ends now; nothing else changes. */
  ghost predicate SignedOut(before: seq<Session>, after: seq<Session>, user: UserId, now: int) {
    && |after| == |before|
    && forall i :: 0 <= i < |before| ==>
        after[i] == if before[i].user == user && before[i].revokedAt.None? then before[i].(revokedAt := Some(now))
                    else before[i]
  }

  class AuthService {
    var sessions: seq<Session>

    constructor ()
      ensures sessions == []
    {
      sessions := [];
    }

    /** A login: the new token is good within the hour of its last use until its absolute end,
        and nobody else's session changes. */
    method CreateSession(user: UserId, now: int) returns (token: Token)
      modifies this
      ensures sessions == Serve(old(sessions), Login(user), now)
      ensures token == |old(sessions)| && |sessions| == token + 1 && sessions[..token] == old(sessions)
      ensures sessions[token].user == user
      ensures forall later :: Acceptable(sessions, token, later) <==>
                later <= now + 2_592_000_000 && later <= now + 3_600_000
    {
      token := |sessions|;
      sessions := sessions + [Session(user, now, now + SESSION_ABSOLUTE_MS, None)];
    }

    /** Hands out a new token for a good one, and nothing for any other.  The old token ends
        now, and so does one that was idle for more than an hour; a token that ended ten
        seconds ago or more takes all live sessions of its user with it. */
    method TouchSession(token: Token, now: int) returns (issued: Option<Token>)
      modifies this
      ensures sessions == Serve(old(sessions), Touch(token), now)
      ensures issued == if Acceptable(old(sessions), token, now) then Some(|old(sessions)|) else None
      ensures token >= |old(sessions)| || now > old(sessions)[token].expiresAt ==>
                issued == None && sessions == old(sessions)
      ensures token < |old(sessions)| && now <= old(sessions)[token].expiresAt ==>
                var s := old(sessions)[token];
                if s.revokedAt.Some? && now - s.revokedAt.value < 10_000 then
                  issued == None && sessions == old(sessions)
                else if s.revokedAt.Some? then issued == None && SignedOut(old(sessions), sessions, s.user, now)
                else if now - s.lastActiveAt > 3_600_000 then
                  issued == None && sessions == old(sessions)[token := s.(revokedAt := Some(now))]
                else
                  && issued == Some(|old(sessions)|)
                  && sessions == old(sessions)[token := s.(revokedAt := Some(now))]
                                 + [Session(s.user, now, s.expiresAt, None)]
    {
      if token >= |sessions| || sessions[token].expiresAt < now {
        return None;
      }
      var session := sessions[token];
      if session.revokedAt.Some? {
        var revokedRecently := now - session.revokedAt.value < REUSE_GRACE_MS;
        if !revokedRecently {
          sessions := RevokeAll(sessions, session.user, None, now);
        }
        return None;
      }
      if now - session.lastActiveAt > SESSION_INACTIVITY_MS {
        sessions := sessions[token := session.(revokedAt := Some(now))];
        return None;
      }
      issued := Some(|sessions|);
      sessions := sessions[token := session.(revokedAt := Some(now))];
      sessions := sessions + [Session(session.user, now, session.expiresAt, None)];
    }

    /** The token ends now if it was live, and is good no more; every other session is as
        before. */
    method Logout(token: Token, now: int)
      modifies this
      ensures sessions == Serve(old(sessions), Request.Logout(token), now)
      ensures token < |sessions| ==>
                sessions[token] == if old(sessions)[token].revokedAt.None?
                                   then old(sessions)[token].(revokedAt := Some(now)) else old(sessions)[token]
      ensures |sessions| == |old(sessions)|
      ensures forall later :: !Acceptable(sessions, token, later)
      ensures forall i :: 0 <= i < |sessions| && i != token ==> sessions[i] == old(sessions)[i]
    {
      if token < |sessions| && sessions[token].revokedAt.None? {
        sessions := sessions[token := sessions[token].(revokedAt := Some(now))];
      }
    }

    /** After the passwords were checked: signs out every other session of the user.  The
        session that is kept and the sessions of all other users are as before. */
    method ChangePassword(user: UserId, keep: Option<Token>, now: int)
      modifies this
      ensures sessions == Serve(old(sessions), Request.ChangePassword(user, keep), now)
      ensures |sessions| == |old(sessions)|
      ensures forall i :: (0 <= i < |sessions| && old(sessions)[i].user == user && old(sessions)[i].revokedAt.None?
                           && keep != Some(i)) ==>
                sessions[i] == old(sessions)[i].(revokedAt := Some(now))
      ensures forall i, later :: 0 <= i < |sessions| && sessions[i].user == user && keep != Some(i) ==>
                !Acceptable(sessions, i, later)
      ensures forall i :: 0 <= i < |sessions| && (old(sessions)[i].user != user || keep == Some(i)) ==>
                sessions[i] == old(sessions)[i]
      ensures forall i :: 0 <= i < |sessions| && old(sessions)[i].revokedAt.Some? ==> sessions[i] == old(sessions)[i]
    {
      sessions := RevokeAll(sessions, user, keep, now);
    }

    /** The link was good: signs out every session of the user, and of nobody else. */
    method ResetPassword(user: UserId, now: int)
      modifies this
      ensures sessions == Serve(old(sessions), Request.ResetPassword(user), now)
      ensures SignedOut(old(sessions), sessions, user, now)
      ensures forall i, later :: 0 <= i < |sessions| && sessions[i].user == user ==> !Acceptable(sessions, i, later)
      ensures forall i :: 0 <= i < |sessions| && old(sessions)[i].user != user ==> sessions[i] == old(sessions)[i]
      ensures forall i :: 0 <= i < |sessions| && old(sessions)[i].revokedAt.Some? ==> sessions[i] == old(sessions)[i]
    {
      sessions := RevokeAll(sessions, user, None, now);
    }
  }

  // ---------------------------------------------------------------------
  // Runs
  // ---------------------------------------------------------------------

  datatype Event = Event(request: Request, now: int)

  /** The rows, and for each token the login its chain started with. */
  datatype Book = Book(sessions: seq<Session>, roots: seq<Token>)

  function Next(b: Book, e: Event): Book {
    var sessions := Serve(b.sessions, e.request, e.now);
    match e.request
    case Login(_) => Book(sessions, b.roots + [|b.sessions|])
    case Touch(t) =>
      Book(sessions, if Acceptable(b.sessions, t, e.now) && t < |b.roots| then b.roots + [b.roots[t]] else b.roots)
    case _ => Book(sessions, b.roots)
  }

  function After(b: Book, events: seq<Event>): Book {
    if events == [] then b
    else Next(After(b, events[..|events| - 1]), events[|events| - 1])
  }

  /** Time does not run backwards, and starts no earlier than `from`. */
  ghost predicate InOrder(events: seq<Event>, from: int) {
    && (forall i :: 0 <= i < |events| ==> from <= events[i].now)
    && (forall i, j :: 0 <= i < j < |events| ==> events[i].now <= events[j].now)
  }

  const Empty: Book := Book([], [])

  // ---------------------------------------------------------------------
  // Chains
  // ---------------------------------------------------------------------

  ghost predicate Rooted(b: Book) {
    && |b.roots| == |b.sessions|
    && forall i :: 0 <= i < |b.roots| ==>
        b.roots[i] <= i && b.roots[b.roots[i]] == b.roots[i] && b.sessions[b.roots[i]].user == b.sessions[i].user
  }

  /** Token `i` is the newest of its chain. */
  ghost predicate Newest(b: Book, i: Token)
    requires i < |b.roots|
  {
    forall j :: i < j < |b.roots| ==> b.roots[j] != b.roots[i]
  }

  /** Every session descended from a login ends 30 days after that login, and only the
      newest one of a chain can be live. */
  ghost predicate ChainOk(b: Book, i: Token)
    requires Rooted(b) && i < |b.roots|
  {
    && b.sessions[i].expiresAt == b.sessions[b.roots[i]].lastActiveAt + SESSION_ABSOLUTE_MS
    && (b.sessions[i].revokedAt.None? ==> Newest(b, i))
  }

  /** Token `j` was issued for token `i`, the one before it in their chain: in time. */
  ghost predicate IssuedFor(b: Book, i: Token, j: Token)
    requires i < |b.roots| && j < |b.roots| && |b.roots| == |b.sessions|
  {
    && i < j && b.roots[i] == b.roots[j]
    && (forall k :: i < k < j ==> b.roots[k] != b.roots[j])
    && 0 <= b.sessions[j].lastActiveAt - b.sessions[i].lastActiveAt <= 3_600_000
    && b.sessions[j].lastActiveAt <= b.sessions[j].expiresAt
  }

  ghost predicate RefreshOk(b: Book, j: Token)
    requires |b.roots| == |b.sessions| && j < |b.roots|
  {
    b.roots[j] == j || exists i :: 0 <= i < j && IssuedFor(b, i, j)
  }

  ghost predicate BookOk(b: Book, now: int) {
    && Rooted(b)
    && (forall i :: 0 <= i < |b.roots| ==> ChainOk(b, i))
    && (forall j :: 0 <= j < |b.roots| ==> RefreshOk(b, j))
    && (forall i :: 0 <= i < |b.roots| ==> b.sessions[i].lastActiveAt <= now)
  }

  /** Nothing but `revokedAt` of an existing row changes, and only from live to revoked. */
  ghost predicate Extends(b: Book, v: Book) {
    && |b.sessions| <= |v.sessions| && b.roots <= v.roots
    && forall i :: 0 <= i < |b.sessions| ==>
        && v.sessions[i].user == b.sessions[i].user
        && v.sessions[i].lastActiveAt == b.sessions[i].lastActiveAt
        && v.sessions[i].expiresAt == b.sessions[i].expiresAt
        && (b.sessions[i].revokedAt.Some? ==> v.sessions[i].revokedAt == b.sessions[i].revokedAt)
  }

  lemma NextExtends(b: Book, e: Event)
    requires |b.roots| == |b.sessions|
    ensures Extends(b, Next(b, e)) && |Next(b, e).roots| == |Next(b, e).sessions|
  {
  }

  lemma OldRefreshOk(b: Book, v: Book, j: Token)
    requires |b.roots| == |b.sessions| && |v.roots| == |v.sessions| && Extends(b, v)
    requires j < |b.roots| && RefreshOk(b, j)
    ensures RefreshOk(v, j)
  {
    if b.roots[j] != j {
      var i :| 0 <= i < j && IssuedFor(b, i, j);
      assert IssuedFor(v, i, j);
    }
  }

  /** An event that issues no token. */
  lemma QuietNext(b: Book, e: Event)
    requires BookOk(b, e.now) && |Next(b, e).sessions| == |b.sessions|
    ensures BookOk(Next(b, e), e.now)
  {
    var v := Next(b, e);
    NextExtends(b, e);
    forall i | 0 <= i < |v.roots| ensures ChainOk(v, i) && RefreshOk(v, i) {
      assert ChainOk(b, i);
      OldRefreshOk(b, v, i);
    }
  }

  lemma LoginNext(b: Book, e: Event)
    requires BookOk(b, e.now) && e.request.Login?
    ensures BookOk(Next(b, e), e.now)
  {
    var v := Next(b, e);
    NextExtends(b, e);
    forall i | 0 <= i < |v.roots| ensures ChainOk(v, i) && RefreshOk(v, i) {
      if i < |b.roots| {
        assert ChainOk(b, i);
        OldRefreshOk(b, v, i);
      }
    }
  }

  lemma RefreshNext(b: Book, e: Event)
    requires BookOk(b, e.now) && e.request.Touch? && Acceptable(b.sessions, e.request.token, e.now)
    ensures BookOk(Next(b, e), e.now)
    ensures IssuedFor(Next(b, e), e.request.token, |b.sessions|)
  {
    var v := Next(b, e);
    var t, n := e.request.token, |b.sessions|;
    NextExtends(b, e);
    assert ChainOk(b, t);
    assert Newest(b, t);
    assert v.roots[n] == b.roots[t];
    forall i | 0 <= i < |v.roots| ensures ChainOk(v, i) && RefreshOk(v, i) {
      if i < n {
        assert ChainOk(b, i);
        OldRefreshOk(b, v, i);
      } else {
        assert IssuedFor(v, t, n);
      }
    }
  }

  lemma NextOk(b: Book, e: Event)
    requires BookOk(b, e.now)
    ensures BookOk(Next(b, e), e.now)
  {
    if e.request.Login? {
      LoginNext(b, e);
    } else if e.request.Touch? && Acceptable(b.sessions, e.request.token, e.now) {
      RefreshNext(b, e);
    } else {
      QuietNext(b, e);
    }
  }

  lemma {:induction false} AfterOk(b: Book, from: int, events: seq<Event>)
    requires BookOk(b, from) && InOrder(events, from)
    ensures BookOk(After(b, events), if events == [] then from else events[|events| - 1].now)
    ensures Extends(b, After(b, events))
  {
    if events != [] {
      var before, e := events[..|events| - 1], events[|events| - 1];
      AfterOk(b, from, before);
      var u := After(b, before);
      assert BookOk(u, e.now);
      NextOk(u, e);
      NextExtends(u, e);
    }
  }

  /** All sessions descended from one login share its expiry 30 days after the login, and
      at most one of them is not revoked; every other token was issued for the one before
      it in its chain, no later than that expiry and at most one hour after it. */
  ghost predicate ChainsHold(b: Book) {
    && Rooted(b)
    && (forall i :: 0 <= i < |b.roots| ==>
          b.sessions[i].expiresAt == b.sessions[b.roots[i]].lastActiveAt + 2_592_000_000)
    && (forall i, j :: 0 <= i < j < |b.roots| && b.roots[i] == b.roots[j] ==>
          b.sessions[i].revokedAt.Some? || b.sessions[j].revokedAt.Some?)
    && (forall j :: 0 <= j < |b.roots| ==> b.roots[j] == j || exists i :: 0 <= i < j && IssuedFor(b, i, j))
  }

  lemma BookSays(b: Book, now: int)
    requires BookOk(b, now)
    ensures ChainsHold(b)
  {
    forall i | 0 <= i < |b.roots|
      ensures b.sessions[i].expiresAt == b.sessions[b.roots[i]].lastActiveAt + SESSION_ABSOLUTE_MS
      ensures b.sessions[i].revokedAt.None? ==> Newest(b, i)
    {
      assert ChainOk(b, i);
    }
    forall j | 0 <= j < |b.roots| ensures b.roots[j] == j || exists i :: 0 <= i < j && IssuedFor(b, i, j) {
      assert RefreshOk(b, j);
    }
  }

  /** Session chains, after any run. */
  lemma Chains(events: seq<Event>, from: int)
    requires InOrder(events, from)
    ensures ChainsHold(After(Empty, events))
  {
    AfterOk(Empty, from, events);
    BookSays(After(Empty, events), if events == [] then from else events[|events| - 1].now);
  }

  /** A refresh that is accepted at time t comes no later than the chain's expiry and at
      most one hour after the chain's newest token was issued. */
  lemma AcceptedInTime(events: seq<Event>, from: int, token: Token, now: int)
    requires InOrder(events + [Event(Touch(token), now)], from)
    requires Acceptable(After(Empty, events).sessions, token, now)
    ensures var b := After(Empty, events);
            && |b.roots| == |b.sessions|
            && (forall j :: token < j < |b.roots| ==> b.roots[j] != b.roots[token])
            && b.roots[token] <= token
            && now <= b.sessions[b.roots[token]].lastActiveAt + 2_592_000_000
            && 0 <= now - b.sessions[token].lastActiveAt <= 3_600_000
  {
    var all := events + [Event(Touch(token), now)];
    forall i | 0 <= i < |events| ensures events[i].now <= now && from <= events[i].now {
      assert all[i] == events[i] && all[|events|].now == now;
    }
    forall i, j | 0 <= i < j < |events| ensures events[i].now <= events[j].now {
      assert all[i] == events[i] && all[j] == events[j];
    }
    AfterOk(Empty, from, events);
    var b := After(Empty, events);
    assert ChainOk(b, token);
    assert from <= all[|events|].now;
  }

  // ---------------------------------------------------------------------
  // Revoked for good
  // ---------------------------------------------------------------------

  lemma {:induction false} StaysEnded(b: Book, events: seq<Event>, token: Token)
    requires |b.roots| == |b.sessions| && token < |b.sessions| && b.sessions[token].revokedAt.Some?
    ensures token < |After(b, events).sessions| && After(b, events).sessions[token] == b.sessions[token]
    ensures |After(b, events).roots| == |After(b, events).sessions|
  {
    if events != [] {
      StaysEnded(b, events[..|events| - 1], token);
      NextExtends(After(b, events[..|events| - 1]), events[|events| - 1]);
    }
  }

  /** A token is accepted at most once, whatever happens in between. */
  lemma AcceptedAtMostOnce(b: Book, events: seq<Event>, token: Token, first: int, later: int)
    requires |b.roots| == |b.sessions| && Acceptable(b.sessions, token, first)
    ensures !Acceptable(After(Next(b, Event(Touch(token), first)), events).sessions, token, later)
  {
    var v := Next(b, Event(Touch(token), first));
    NextExtends(b, Event(Touch(token), first));
    StaysEnded(v, events, token);
  }

  /** Late reuse ends everything: once a token that was revoked at least ten seconds ago
      is presented before its absolute end, no token issued to that user up to then is
      ever accepted again. */
  lemma LateReuseEndsEverything(b: Book, token: Token, now: int, events: seq<Event>, t: Token, later: int)
    requires |b.roots| == |b.sessions| && LateReuse(b.sessions, token, now)
    requires t < |b.sessions| && b.sessions[t].user == b.sessions[token].user
    ensures !Acceptable(After(Next(b, Event(Touch(token), now)), events).sessions, t, later)
  {
    var v := Next(b, Event(Touch(token), now));
    NextExtends(b, Event(Touch(token), now));
    assert v.sessions[t].revokedAt.Some?;
    StaysEnded(v, events, t);
  }

  /** A password reset does the same, and a password change spares one session only. */
  lemma PasswordChangeSignsOut(b: Book, user: UserId, keep: Option<Token>, now: int, events: seq<Event>, t: Token,
      later: int)
    requires |b.roots| == |b.sessions| && t < |b.sessions| && b.sessions[t].user == user && keep != Some(t)
    ensures !Acceptable(After(Next(b, Event(Request.ChangePassword(user, keep), now)), events).sessions, t, later)
    ensures !Acceptable(After(Next(b, Event(Request.ResetPassword(user), now)), events).sessions, t, later)
  {
    var v := Next(b, Event(Request.ChangePassword(user, keep), now));
    var w := Next(b, Event(Request.ResetPassword(user), now));
    NextExtends(b, Event(Request.ChangePassword(user, keep), now));
    NextExtends(b, Event(Request.ResetPassword(user), now));
    StaysEnded(v, events, t);
    StaysEnded(w, events, t);
  }

  // ---------------------------------------------------------------------
  // When a token ends, and what presenting it again does
  // ---------------------------------------------------------------------

  /** The request ends a live token: a refresh of it before its absolute end, accepted or
      refused as idle; its logout; a password change that does not spare it, or a reset; or the
      reuse of another token of its user ten seconds after that one ended, or later. */
  ghost predicate EndsToken(sessions: seq<Session>, request: Request, token: Token, now: int)
    requires token < |sessions|
  {
    && sessions[token].revokedAt.None?
    && match request
       case Login(_) => false
       case Touch(t) =>
         || (t == token && now <= sessions[token].expiresAt)
         || (t < |sessions| && sessions[t].user == sessions[token].user && now <= sessions[t].expiresAt
             && sessions[t].revokedAt.Some? && now - sessions[t].revokedAt.value >= 10_000)
       case Logout(t) => t == token
       case ChangePassword(user, keep) => sessions[token].user == user && keep != Some(token)
       case ResetPassword(user) => sessions[token].user == user
  }

  /** A token is marked as ended by exactly those requests, with their time. */
  lemma EndsExactly(sessions: seq<Session>, request: Request, token: Token, now: int)
    requires token < |sessions|
    ensures token < |Serve(sessions, request, now)|
    ensures Serve(sessions, request, now)[token] ==
              if EndsToken(sessions, request, token, now) then sessions[token].(revokedAt := Some(now))
              else sessions[token]
  {
  }

  /** In times of requests: a token that a request at `now` ended is presented again at
      `later`, whatever was served in between.  Within ten seconds, or after its absolute end,
      that changes nothing; otherwise it signs out every session of its user, including those
      started in between, and nobody else's. */
  lemma PresentedAgain(b: Book, e: Event, token: Token, events: seq<Event>, later: int)
    requires |b.roots| == |b.sessions| && token < |b.sessions| && EndsToken(b.sessions, e.request, token, e.now)
    ensures var v := After(Next(b, e), events).sessions;
            var w := Serve(v, Touch(token), later);
            && token < |v| && v[token] == b.sessions[token].(revokedAt := Some(e.now))
            && if later - e.now < 10_000 || later > b.sessions[token].expiresAt then w == v
               else SignedOut(v, w, b.sessions[token].user, later)
  {
    EndsExactly(b.sessions, e.request, token, e.now);
    NextExtends(b, e);
    StaysEnded(Next(b, e), events, token);
  }

  ghost predicate NeverEnded(b: Book, events: seq<Event>, token: Token)
    requires |b.roots| == |b.sessions| && token < |b.sessions|
  {
    forall n :: 0 <= n < |events| ==>
      var u := After(b, events[..n]).sessions;
      token < |u| && !EndsToken(u, events[n].request, token, events[n].now)
  }

  /** And the owner of a token stays signed in: as long as no request ends it, it is accepted
      within the hour and before its absolute end, whatever else is served. */
  lemma {:induction false} GoodUntilEnded(b: Book, events: seq<Event>, token: Token, later: int)
    requires |b.roots| == |b.sessions| && token < |b.sessions| && NeverEnded(b, events, token)
    ensures token < |After(b, events).sessions| && After(b, events).sessions[token] == b.sessions[token]
    ensures Acceptable(After(b, events).sessions, token, later) <==>
              b.sessions[token].revokedAt.None? && later <= b.sessions[token].expiresAt
              && later - b.sessions[token].lastActiveAt <= 3_600_000
  {
    if events != [] {
      var n := |events| - 1;
      forall m | 0 <= m < n
        ensures var u := After(b, events[..n][..m]).sessions;
                token < |u| && !EndsToken(u, events[..n][m].request, token, events[..n][m].now)
      {
        assert events[..n][..m] == events[..m] && events[..n][m] == events[m];
      }
      GoodUntilEnded(b, events[..n], token, later);
      EndsExactly(After(b, events[..n]).sessions, events[n].request, token, events[n].now);
    }
  }

  /** So a second tab that presents the token a refresh has just replaced does no harm. */
  lemma SecondTab(b: Book, token: Token, now: int, events: seq<Event>, later: int)
    requires |b.roots| == |b.sessions| && Acceptable(b.sessions, token, now)
    ensures var v := After(Next(b, Event(Touch(token), now)), events);
            && (later - now < 10_000 ==> Next(v, Event(Touch(token), later)).sessions == v.sessions)
            && (later - now >= 10_000 && later <= b.sessions[token].expiresAt ==>
                  forall t, at :: 0 <= t < |v.sessions| && v.sessions[t].user == b.sessions[token].user ==>
                    !Acceptable(Next(v, Event(Touch(token), later)).sessions, t, at))
  {
    PresentedAgain(b, Event(Touch(token), now), token, events, later);
  }

  // ---------------------------------------------------------------------
  // Whom a request concerns
  // ---------------------------------------------------------------------

  /** The user whose sessions a request can change; None when its token is unknown. */
  function Concerned(sessions: seq<Session>, request: Request): Option<UserId> {
    match request
    case Login(user) => Some(user)
    case Touch(t) => if t < |sessions| then Some(sessions[t].user) else None
    case Logout(t) => if t < |sessions| then Some(sessions[t].user) else None
    case ChangePassword(user, _) => Some(user)
    case ResetPassword(user) => Some(user)
  }

  /** No request changes a session of another user or starts one for another user, and
      within ten seconds of its revocation a token changes nothing at all. */
  lemma OnlyTheUserIsConcerned(sessions: seq<Session>, request: Request, now: int)
    ensures var after := Serve(sessions, request, now);
            && |sessions| <= |after|
            && (forall i :: 0 <= i < |sessions| && Concerned(sessions, request) != Some(sessions[i].user) ==>
              after[i] == sessions[i])
            && (forall i :: |sessions| <= i < |after| ==> Concerned(sessions, request) == Some(after[i].user))
    ensures (request.Touch? && request.token < |sessions| && sessions[request.token].revokedAt.Some?
             && now - sessions[request.token].revokedAt.value < 10_000) ==>
               Serve(sessions, request, now) == sessions
  {
  }

  /** The owner of a live chain who comes back in time gets in: right after a login or an
      accepted refresh the new token is accepted at any time within the hour and before
      the chain's end. */
  lemma NewTokenIsGood(sessions: seq<Session>, request: Request, now: int, later: int)
    requires request.Login? || (request.Touch? && Acceptable(sessions, request.token, now))
    requires now <= later <= now + 3_600_000
    ensures var after := Serve(sessions, request, now);
            && |after| == |sessions| + 1
            && (Acceptable(after, |sessions|, later) <==>
                  later <= if request.Login? then now + 2_592_000_000 else sessions[request.token].expiresAt)
  {
  }
}
