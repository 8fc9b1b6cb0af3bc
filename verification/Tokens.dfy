/** Refresh tokens, spent by use. */
module Tokens {
  import opened Wrappers

  // backend/src/services/auth.service.ts and backend/src/repositories/refreshToken.repository.ts:
  // families of tokens that die when a spent one comes back. A token is its place in the table; a raw
  // token nobody issued is a place past its end.

  datatype Token = Token(user: nat, family: nat, expiresAt: int, rotatedAt: Option<int>, revokedAt: Option<int>)

  datatype Auth = Auth(tokens: seq<Token>, families: nat, users: set<nat>)

  datatype Outcome = Unknown | Revoked | Theft | Expired | NoUser | Rotated(successor: nat)

  datatype Request =
    | Login(user: nat, passwordMatches: bool, expiresAt: int)
    | Refresh(token: nat, expiresAt: int, now: int)
    | Logout(presented: Option<nat>, now: int)
    | LogoutEverywhere(user: nat, now: int)
    | AddUser(user: nat)
    | RemoveUser(user: nat)

  // --- The repository ---

  function Revoke(token: Token, now: int): Token {
    if token.revokedAt.None? then token.(revokedAt := Some(now)) else token
  }

  function RevokeFamily(a: Auth, family: nat, now: int): Auth {
    a.(tokens := seq(|a.tokens|, i requires 0 <= i < |a.tokens| =>
      if a.tokens[i].family == family then Revoke(a.tokens[i], now) else a.tokens[i]))
  }

  function RevokeAllForUser(a: Auth, user: nat, now: int): Auth {
    a.(tokens := seq(|a.tokens|, i requires 0 <= i < |a.tokens| =>
      if a.tokens[i].user == user then Revoke(a.tokens[i], now) else a.tokens[i]))
  }

  /** The rotation transaction: the old token is stamped whatever it held, and the new one inserted. */
  function Rotate(a: Auth, t: nat, expiresAt: int, now: int): Auth
    requires t < |a.tokens|
  {
    var token := a.tokens[t];
    a.(tokens := a.tokens[t := token.(rotatedAt := Some(now))]
                 + [Token(token.user, token.family, expiresAt, None, None)])
  }

  // --- The service ---

  function OutcomeOf(a: Auth, t: nat, now: int): Outcome {
    if t >= |a.tokens| then Unknown
    else if a.tokens[t].revokedAt.Some? then Revoked
    else if a.tokens[t].rotatedAt.Some? then Theft
    else if a.tokens[t].expiresAt <= now then Expired
    else if a.tokens[t].user !in a.users then NoUser
    else Rotated(|a.tokens|)
  }

  function AfterRefresh(a: Auth, t: nat, expiresAt: int, now: int): Auth {
    match OutcomeOf(a, t, now)
    case Theft => RevokeFamily(a, a.tokens[t].family, now)
    case NoUser => RevokeFamily(a, a.tokens[t].family, now)
    case Rotated(_) => Rotate(a, t, expiresAt, now)
    case _ => a
  }

  function AfterLogin(a: Auth, user: nat, passwordMatches: bool, expiresAt: int): Auth {
    if user in a.users && passwordMatches then
      a.(tokens := a.tokens + [Token(user, a.families, expiresAt, None, None)], families := a.families + 1)
    else a
  }

  function AfterLogout(a: Auth, presented: Option<nat>, now: int): Auth {
    if presented.Some? && presented.value < |a.tokens|
    then RevokeFamily(a, a.tokens[presented.value].family, now)
    else a
  }

  function Handle(a: Auth, request: Request): Auth {
    match request
    case Login(user, passwordMatches, expiresAt) => AfterLogin(a, user, passwordMatches, expiresAt)
    case Refresh(token, expiresAt, now) => AfterRefresh(a, token, expiresAt, now)
    case Logout(presented, now) => AfterLogout(a, presented, now)
    case LogoutEverywhere(user, now) => RevokeAllForUser(a, user, now)
    case AddUser(user) => a.(users := a.users + {user})
    case RemoveUser(user) => a.(users := a.users - {user})
  }

  function HandleAll(a: Auth, requests: seq<Request>): Auth {
    if requests == [] then a
    else Handle(HandleAll(a, requests[..|requests| - 1]), requests[|requests| - 1])
  }

  const EMPTY := Auth([], 0, {})

  // --- What holds in every run, whoever sends the requests ---

  predicate Live(token: Token) {
    token.rotatedAt.None? && token.revokedAt.None?
  }

  /** One family: one user, revoked as a whole, and every token but the newest is spent. */
  predicate Related(older: Token, newer: Token) {
    older.family == newer.family ==>
      && older.user == newer.user
      && (older.revokedAt.Some? <==> newer.revokedAt.Some?)
      && older.rotatedAt.Some?
  }

  predicate HasSuccessor(a: Auth, t: nat)
    requires t < |a.tokens|
  {
    exists j :: t < j < |a.tokens| && a.tokens[j].family == a.tokens[t].family
  }

  predicate Sound(a: Auth) {
    && (forall i :: 0 <= i < |a.tokens| ==> a.tokens[i].family < a.families)
    && (forall i :: 0 <= i < |a.tokens| && a.tokens[i].rotatedAt.Some? ==> HasSuccessor(a, i))
    && (forall i, j :: 0 <= i < j < |a.tokens| ==> Related(a.tokens[i], a.tokens[j]))
  }

  predicate Dead(a: Auth, family: nat) {
    && family < a.families
    && forall i :: 0 <= i < |a.tokens| && a.tokens[i].family == family ==> a.tokens[i].revokedAt.Some?
  }

  predicate AtMostOneLive(a: Auth) {
    forall i, j :: 0 <= i < j < |a.tokens| && Live(a.tokens[i]) && Live(a.tokens[j]) ==>
      a.tokens[i].family != a.tokens[j].family
  }

  /** A stamp, once set, keeps its value. */
  predicate Keeps(before: Token, after: Token) {
    && after.user == before.user && after.family == before.family && after.expiresAt == before.expiresAt
    && (before.rotatedAt.Some? ==> after.rotatedAt == before.rotatedAt)
    && (before.revokedAt.Some? ==> after.revokedAt == before.revokedAt)
  }

  predicate Grows(before: Auth, after: Auth) {
    && |before.tokens| <= |after.tokens|
    && before.families <= after.families
    && forall i :: 0 <= i < |before.tokens| ==> Keeps(before.tokens[i], after.tokens[i])
  }

  lemma RevokingKeepsSound(a: Auth, b: Auth, chosen: nat -> bool, now: int)
    requires Sound(a) && b.families == a.families && |b.tokens| == |a.tokens|
    requires forall i :: 0 <= i < |a.tokens| ==>
               b.tokens[i] == if chosen(i) then Revoke(a.tokens[i], now) else a.tokens[i]
    requires forall i, j :: 0 <= i < j < |a.tokens| && a.tokens[i].family == a.tokens[j].family ==>
               chosen(i) == chosen(j)
    ensures Sound(b) && Grows(a, b)
  {
    forall i | 0 <= i < |b.tokens| && b.tokens[i].rotatedAt.Some?
      ensures HasSuccessor(b, i)
    {
      var j :| i < j < |a.tokens| && a.tokens[j].family == a.tokens[i].family;
      assert b.tokens[j].family == b.tokens[i].family;
    }
  }

  lemma RevokeFamilyKeepsSound(a: Auth, family: nat, now: int)
    requires Sound(a)
    ensures Sound(RevokeFamily(a, family, now)) && Grows(a, RevokeFamily(a, family, now))
  {
    RevokingKeepsSound(a, RevokeFamily(a, family, now),
                       i => 0 <= i < |a.tokens| && a.tokens[i].family == family, now);
  }

  lemma RevokeAllKeepsSound(a: Auth, user: nat, now: int)
    requires Sound(a)
    ensures Sound(RevokeAllForUser(a, user, now)) && Grows(a, RevokeAllForUser(a, user, now))
  {
    RevokingKeepsSound(a, RevokeAllForUser(a, user, now),
                       i => 0 <= i < |a.tokens| && a.tokens[i].user == user, now);
  }

  lemma {:induction false} NewestIsUnspent(a: Auth, t: nat)
    requires Sound(a) && t < |a.tokens|
    ensures exists j :: t <= j < |a.tokens| && a.tokens[j].family == a.tokens[t].family
              && a.tokens[j].rotatedAt.None?
    decreases |a.tokens| - t
  {
    if a.tokens[t].rotatedAt.Some? {
      var j :| t < j < |a.tokens| && a.tokens[j].family == a.tokens[t].family;
      NewestIsUnspent(a, j);
    }
  }

  /** A family that is not dead has a live token: an honest holder is never locked out. */
  lemma UnrevokedHasLive(a: Auth, t: nat)
    requires Sound(a) && t < |a.tokens| && a.tokens[t].revokedAt.None?
    ensures exists j :: t <= j < |a.tokens| && a.tokens[j].family == a.tokens[t].family && Live(a.tokens[j])
  {
    NewestIsUnspent(a, t);
    var j :| t <= j < |a.tokens| && a.tokens[j].family == a.tokens[t].family && a.tokens[j].rotatedAt.None?;
    assert t < j ==> Related(a.tokens[t], a.tokens[j]);
    assert Live(a.tokens[j]);
  }

  lemma RotateKeepsSound(a: Auth, t: nat, expiresAt: int, now: int)
    requires Sound(a) && t < |a.tokens| && Live(a.tokens[t])
    ensures Sound(Rotate(a, t, expiresAt, now)) && Grows(a, Rotate(a, t, expiresAt, now))
  {
    var b, n := Rotate(a, t, expiresAt, now), |a.tokens|;
    forall i | 0 <= i < |b.tokens| && b.tokens[i].rotatedAt.Some?
      ensures HasSuccessor(b, i)
    {
      if i == t {
        assert b.tokens[n].family == b.tokens[i].family;
      } else {
        var j :| i < j < |a.tokens| && a.tokens[j].family == a.tokens[i].family;
        assert b.tokens[j].family == b.tokens[i].family;
      }
    }
    forall i, j | 0 <= i < j < |b.tokens|
      ensures Related(b.tokens[i], b.tokens[j])
    {
      RotateRelates(a, t, expiresAt, now, i, j);
    }
  }

  lemma RotateRelates(a: Auth, t: nat, expiresAt: int, now: int, i: nat, j: nat)
    requires Sound(a) && t < |a.tokens| && Live(a.tokens[t]) && i < j <= |a.tokens|
    ensures Related(Rotate(a, t, expiresAt, now).tokens[i], Rotate(a, t, expiresAt, now).tokens[j])
  {
    if j < |a.tokens| {
      assert Related(a.tokens[i], a.tokens[j]);
    } else if i < t {
      assert Related(a.tokens[i], a.tokens[t]);
    } else if t < i {
      assert Related(a.tokens[t], a.tokens[i]);
    }
  }

  /** The rotation writes its stamp without looking, and its insert without asking whether the family
      is still alive. Run on whatever the token has become since the lookup, it keeps the family rules
      exactly when the token is still live, which is why a refresh has to be one atomic step. */
  lemma RotationNeedsALiveToken(a: Auth, t: nat, expiresAt: int, now: int)
    requires Sound(a) && t < |a.tokens|
    ensures Sound(Rotate(a, t, expiresAt, now)) <==> Live(a.tokens[t])
  {
    var b, n := Rotate(a, t, expiresAt, now), |a.tokens|;
    if Live(a.tokens[t]) {
      RotateKeepsSound(a, t, expiresAt, now);
    } else if a.tokens[t].revokedAt.Some? {
      assert !Related(b.tokens[t], b.tokens[n]);
    } else {
      UnrevokedHasLive(a, t);
      var j :| t <= j < n && a.tokens[j].family == a.tokens[t].family && Live(a.tokens[j]);
      assert !Related(b.tokens[j], b.tokens[n]);
    }
  }

  /** A token spent since the lookup: the write leaves two live tokens. On any other it leaves one. */
  lemma RotationDoublesIff(a: Auth, t: nat, expiresAt: int, now: int)
    requires Sound(a) && t < |a.tokens|
    ensures AtMostOneLive(Rotate(a, t, expiresAt, now))
       <==> !(a.tokens[t].rotatedAt.Some? && a.tokens[t].revokedAt.None?)
  {
    var b, n := Rotate(a, t, expiresAt, now), |a.tokens|;
    if Live(a.tokens[t]) {
      RotateKeepsSound(a, t, expiresAt, now);
    } else if a.tokens[t].revokedAt.Some? {
      forall i | 0 <= i < n && a.tokens[i].family == a.tokens[t].family
        ensures !Live(b.tokens[i])
      {
        assert i < t ==> Related(a.tokens[i], a.tokens[t]);
        assert t < i ==> Related(a.tokens[t], a.tokens[i]);
      }
      AddingKeepsOneLive(a, b, t);
    } else {
      UnrevokedHasLive(a, t);
      var j :| t <= j < n && a.tokens[j].family == a.tokens[t].family && Live(a.tokens[j]);
      assert Live(b.tokens[j]) && Live(b.tokens[n]);
    }
  }

  lemma AddingKeepsOneLive(a: Auth, b: Auth, t: nat)
    requires Sound(a) && t < |a.tokens| && |b.tokens| == |a.tokens| + 1
    requires b.tokens[|a.tokens|].family == a.tokens[t].family
    requires forall i :: 0 <= i < |a.tokens| ==>
               b.tokens[i].family == a.tokens[i].family && (Live(b.tokens[i]) ==> Live(a.tokens[i]))
    requires forall i :: 0 <= i < |a.tokens| && a.tokens[i].family == a.tokens[t].family ==> !Live(b.tokens[i])
    ensures AtMostOneLive(b)
  {
    forall i, j | 0 <= i < j < |b.tokens| && Live(b.tokens[i]) && Live(b.tokens[j])
      ensures b.tokens[i].family != b.tokens[j].family
    {
      if j < |a.tokens| {
        assert !Related(a.tokens[i], a.tokens[j]) || a.tokens[i].family != a.tokens[j].family;
      }
    }
  }

  /** A family revoked since the lookup: the write brings it back to life. */
  lemma RotationRevivesADeadFamily(a: Auth, t: nat, expiresAt: int, now: int)
    requires t < |a.tokens| && Dead(a, a.tokens[t].family)
    ensures var b := Rotate(a, t, expiresAt, now);
      && !Dead(b, a.tokens[t].family)
      && Live(b.tokens[|a.tokens|]) && b.tokens[|a.tokens|].family == a.tokens[t].family
  {
    var b := Rotate(a, t, expiresAt, now);
    assert b.tokens[|a.tokens|].revokedAt.None?;
  }

  lemma LoginKeepsSound(a: Auth, user: nat, passwordMatches: bool, expiresAt: int)
    requires Sound(a)
    ensures var b := AfterLogin(a, user, passwordMatches, expiresAt); Sound(b) && Grows(a, b)
  {
    var b := AfterLogin(a, user, passwordMatches, expiresAt);
    forall i | 0 <= i < |b.tokens| && b.tokens[i].rotatedAt.Some?
      ensures HasSuccessor(b, i)
    {
      var j :| i < j < |a.tokens| && a.tokens[j].family == a.tokens[i].family;
      assert b.tokens[j].family == b.tokens[i].family;
    }
  }

  lemma HandleKeepsSound(a: Auth, request: Request)
    requires Sound(a)
    ensures Sound(Handle(a, request)) && Grows(a, Handle(a, request))
  {
    match request
    case Login(user, passwordMatches, expiresAt) =>
      LoginKeepsSound(a, user, passwordMatches, expiresAt);
    case Refresh(t, expiresAt, now) =>
      match OutcomeOf(a, t, now) {
        case Theft => RevokeFamilyKeepsSound(a, a.tokens[t].family, now);
        case NoUser => RevokeFamilyKeepsSound(a, a.tokens[t].family, now);
        case Rotated(_) => RotateKeepsSound(a, t, expiresAt, now);
        case _ =>
      }
    case Logout(presented, now) =>
      if presented.Some? && presented.value < |a.tokens| {
        RevokeFamilyKeepsSound(a, a.tokens[presented.value].family, now);
      }
    case LogoutEverywhere(user, now) => RevokeAllKeepsSound(a, user, now);
    case AddUser(user) => SameTokens(a, Handle(a, request));
    case RemoveUser(user) => SameTokens(a, Handle(a, request));
  }

  lemma SameTokens(a: Auth, b: Auth)
    requires Sound(a) && b.tokens == a.tokens && b.families == a.families
    ensures Sound(b) && Grows(a, b)
  {
    assert forall i :: 0 <= i < |a.tokens| && HasSuccessor(a, i) ==> HasSuccessor(b, i);
  }

  lemma HandleKeepsDead(a: Auth, family: nat, request: Request)
    requires Dead(a, family)
    ensures Dead(Handle(a, request), family)
  {
  }

  lemma {:induction false} RunsAreSound(a: Auth, requests: seq<Request>)
    requires Sound(a)
    ensures Sound(HandleAll(a, requests)) && AtMostOneLive(HandleAll(a, requests))
    ensures Grows(a, HandleAll(a, requests))
  {
    if requests != [] {
      var before := requests[..|requests| - 1];
      RunsAreSound(a, before);
      HandleKeepsSound(HandleAll(a, before), requests[|requests| - 1]);
    }
  }

  lemma {:induction false} DeadStaysDead(a: Auth, family: nat, requests: seq<Request>)
    requires Dead(a, family)
    ensures Dead(HandleAll(a, requests), family)
  {
    if requests != [] {
      DeadStaysDead(a, family, requests[..|requests| - 1]);
      HandleKeepsDead(HandleAll(a, requests[..|requests| - 1]), family, requests[|requests| - 1]);
    }
  }

  /** A refresh succeeds exactly on a live, unexpired token of a user who still exists; it then hands
      the login on to one new token, which is all that is left alive of it. */
  lemma RefreshHandsOn(a: Auth, t: nat, expiresAt: int, now: int)
    requires Sound(a)
    ensures OutcomeOf(a, t, now).Rotated? <==>
              && t < |a.tokens|
              && Live(a.tokens[t])
              && now < a.tokens[t].expiresAt
              && a.tokens[t].user in a.users
    ensures OutcomeOf(a, t, now).Rotated? ==>
              var b, n := AfterRefresh(a, t, expiresAt, now), OutcomeOf(a, t, now).successor;
              && n == |a.tokens| == |b.tokens| - 1
              && b.tokens[n] == Token(a.tokens[t].user, a.tokens[t].family, expiresAt, None, None)
              && forall i :: 0 <= i < n && b.tokens[i].family == b.tokens[n].family ==> !Live(b.tokens[i])
  {
    if OutcomeOf(a, t, now).Rotated? {
      RotateKeepsSound(a, t, expiresAt, now);
      var b, n := AfterRefresh(a, t, expiresAt, now), |a.tokens|;
      assert forall i :: 0 <= i < n ==> Related(b.tokens[i], b.tokens[n]);
    }
  }

  /** Which refreshes leave every token as it was: those with a token nobody knows, a revoked one, or an
      unspent one that has expired. All others spend a token or end a login. */
  lemma RefreshChangesNothingIff(a: Auth, t: nat, expiresAt: int, now: int)
    ensures AfterRefresh(a, t, expiresAt, now) == a <==>
              || t >= |a.tokens|
              || a.tokens[t].revokedAt.Some?
              || (a.tokens[t].rotatedAt.None? && a.tokens[t].expiresAt <= now)
  {
    var b := AfterRefresh(a, t, expiresAt, now);
    if t < |a.tokens| && a.tokens[t].revokedAt.None? {
      assert b != a ==> a.tokens[t].rotatedAt.Some? || now < a.tokens[t].expiresAt;
      assert OutcomeOf(a, t, now).Rotated? ==> |b.tokens| == |a.tokens| + 1;
      assert OutcomeOf(a, t, now) in {Theft, NoUser} ==> b.tokens[t].revokedAt.Some?;
    }
  }

  /** Whoever has been removed gets nothing for a token that would have been good, and loses the login. */
  lemma RemovedUserIsOut(a: Auth, t: nat, expiresAt: int, now: int)
    requires Sound(a) && OutcomeOf(a, t, now).Rotated?
    ensures var removed := Handle(a, RemoveUser(a.tokens[t].user));
      && OutcomeOf(removed, t, now) == NoUser
      && Dead(AfterRefresh(removed, t, expiresAt, now), a.tokens[t].family)
  {
    var removed := Handle(a, RemoveUser(a.tokens[t].user));
    SameTokens(a, removed);
    RefusedMeansDead(removed, t, expiresAt, now);
  }

  /** A token is good for one exchange. Whoever presents it a second time, thief or victim, gets
      nothing, and from then on nobody gets anything out of that login again. */
  lemma SecondUseEndsTheFamily(start: seq<Request>, t: nat, between: seq<Request>, after: seq<Request>,
                               e1: int, now1: int, e2: int, now2: int)
    requires OutcomeOf(HandleAll(EMPTY, start), t, now1).Rotated?
    ensures var first := AfterRefresh(HandleAll(EMPTY, start), t, e1, now1);
            var replayed := HandleAll(first, between);
            && OutcomeOf(replayed, t, now2) in {Theft, Revoked}
            && Dead(HandleAll(AfterRefresh(replayed, t, e2, now2), after), first.tokens[t].family)
  {
    RunsAreSound(EMPTY, start);
    var a := HandleAll(EMPTY, start);
    var first := AfterRefresh(a, t, e1, now1);
    HandleKeepsSound(a, Refresh(t, e1, now1));
    RunsAreSound(first, between);
    var replayed := HandleAll(first, between);
    RefusedMeansDead(replayed, t, e2, now2);
    DeadStaysDead(AfterRefresh(replayed, t, e2, now2), first.tokens[t].family, after);
  }

  lemma RefusedMeansDead(a: Auth, t: nat, expiresAt: int, now: int)
    requires Sound(a) && t < |a.tokens| && OutcomeOf(a, t, now) in {Theft, Revoked, NoUser}
    ensures Dead(AfterRefresh(a, t, expiresAt, now), a.tokens[t].family)
  {
  }

  /** Logging out with any token of the chain, even one long spent, ends the whole chain for good. */
  lemma LogoutIsForEver(a: Auth, t: nat, now: int, after: seq<Request>)
    requires Sound(a) && t < |a.tokens|
    ensures Dead(HandleAll(AfterLogout(a, Some(t), now), after), a.tokens[t].family)
  {
    DeadStaysDead(AfterLogout(a, Some(t), now), a.tokens[t].family, after);
  }

  /** A dead family gains no token, and every token it ever had is refused, without another alarm and
      without a change, after any requests whatever. */
  lemma {:induction false} DeadIsRefusedQuietly(a: Auth, family: nat, requests: seq<Request>)
    requires Dead(a, family)
    ensures var b := HandleAll(a, requests);
      && |a.tokens| <= |b.tokens|
      && (forall t :: |a.tokens| <= t < |b.tokens| ==> b.tokens[t].family != family)
      && (forall t, now :: 0 <= t < |b.tokens| && b.tokens[t].family == family ==> OutcomeOf(b, t, now) == Revoked)
      && (forall t, e, now :: 0 <= t < |b.tokens| && b.tokens[t].family == family ==> AfterRefresh(b, t, e, now) == b)
  {
    if requests != [] {
      var before, last := HandleAll(a, requests[..|requests| - 1]), requests[|requests| - 1];
      DeadIsRefusedQuietly(a, family, requests[..|requests| - 1]);
      DeadStaysDead(a, family, requests[..|requests| - 1]);
      HandleKeepsDead(before, family, last);
      DeadGainsNothing(before, family, last);
    }
  }

  lemma DeadGainsNothing(a: Auth, family: nat, request: Request)
    requires Dead(a, family)
    ensures var b := Handle(a, request);
      && |a.tokens| <= |b.tokens|
      && (forall t :: 0 <= t < |a.tokens| ==> b.tokens[t].family == a.tokens[t].family)
      && (forall t :: |a.tokens| <= t < |b.tokens| ==> b.tokens[t].family != family)
  {
  }

  // --- A refresh cut between its lookup and its write ---

  lemma {:induction false} TokensStay(a: Auth, requests: seq<Request>)
    ensures |a.tokens| <= |HandleAll(a, requests).tokens|
  {
    if requests != [] {
      TokensStay(a, requests[..|requests| - 1]);
    }
  }

  /** A lookup that granted the token, anything at all, and then the write: the family rules hold if
      and only if the token is still live, that is, if nothing in between spent or revoked it. */
  lemma LateWriteIsSafeIff(start: seq<Request>, t: nat, seen: int, between: seq<Request>, expiresAt: int, now: int)
    requires OutcomeOf(HandleAll(EMPTY, start), t, seen).Rotated?
    ensures var later := HandleAll(HandleAll(EMPTY, start), between);
      t < |later.tokens| && (Sound(Rotate(later, t, expiresAt, now)) <==> Live(later.tokens[t]))
  {
    var a := HandleAll(EMPTY, start);
    RunsAreSound(EMPTY, start);
    RunsAreSound(a, between);
    TokensStay(a, between);
    RotationNeedsALiveToken(HandleAll(a, between), t, expiresAt, now);
  }

  /** Somebody logs in. */
  function LoggedIn(user: nat, expiresAt: int): Auth {
    HandleAll(EMPTY, [AddUser(user), Login(user, true, expiresAt)])
  }

  lemma LoggedInState(user: nat, expiresAt: int)
    ensures LoggedIn(user, expiresAt) == Auth([Token(user, 0, expiresAt, None, None)], 1, {user})
  {
    var requests := [AddUser(user), Login(user, true, expiresAt)];
    assert requests[..1] == [AddUser(user)] && requests[..1][..0] == [];
    assert HandleAll(EMPTY, requests[..1]) == Handle(EMPTY, AddUser(user));
  }

  /** Two refreshes of a fresh login, both past their lookups: the second write doubles the live token. */
  lemma TwoWritesDouble(user: nat, expiresAt: int, now: int, first: int, second: int)
    requires now < expiresAt
    ensures var a := LoggedIn(user, expiresAt);
      && OutcomeOf(a, 0, now).Rotated?
      && !AtMostOneLive(Rotate(AfterRefresh(a, 0, first, now), 0, second, now))
  {
    LoggedInState(user, expiresAt);
    var b := Rotate(AfterRefresh(LoggedIn(user, expiresAt), 0, first, now), 0, second, now);
    assert Live(b.tokens[1]) && Live(b.tokens[2]) && b.tokens[1].family == b.tokens[2].family;
  }

  /** A logout between lookup and write: the write brings the login back. */
  lemma LogoutIsUndone(user: nat, expiresAt: int, now: int, renewed: int)
    requires now < expiresAt
    ensures var a := LoggedIn(user, expiresAt);
      var out := AfterLogout(a, Some(0), now);
      && OutcomeOf(a, 0, now).Rotated?
      && Dead(out, a.tokens[0].family)
      && !Dead(Rotate(out, 0, renewed, now), a.tokens[0].family)
  {
    LoggedInState(user, expiresAt);
    RotationRevivesADeadFamily(AfterLogout(LoggedIn(user, expiresAt), Some(0), now), 0, renewed, now);
  }

  // --- The same, as the code runs it ---

  class AuthService {
    var tokens: seq<Token>
    var families: nat
    var users: set<nat>

    ghost function View(): Auth
      reads this
    {
      Auth(tokens, families, users)
    }

    constructor ()
      ensures View() == EMPTY
    {
      tokens, families, users := [], 0, {};
    }

    method CreateRefreshToken(user: nat, family: nat, expiresAt: int, rotating: Option<nat>, now: int)
      returns (token: nat)
      requires rotating.Some? ==> rotating.value < |tokens|
      modifies this`tokens
      ensures token == |old(tokens)| && |tokens| == token + 1
      ensures tokens[token] == Token(user, family, expiresAt, None, None)
      ensures forall i :: 0 <= i < token ==>
                tokens[i] == if rotating == Some(i) then old(tokens[i]).(rotatedAt := Some(now)) else old(tokens[i])
    {
      if rotating.Some? {
        tokens := tokens[rotating.value := tokens[rotating.value].(rotatedAt := Some(now))];
      }
      token := |tokens|;
      tokens := tokens + [Token(user, family, expiresAt, None, None)];
    }

    /** Every token of the family is revoked, by the stamp it had or by a new one; the others are as
        they were, and the family is dead. */
    method RevokeFamilyOf(family: nat, now: int)
      modifies this`tokens
      ensures |tokens| == |old(tokens)|
      ensures forall i :: 0 <= i < |tokens| && old(tokens[i].family) != family ==> tokens[i] == old(tokens[i])
      ensures forall i :: 0 <= i < |tokens| && old(tokens[i].family) == family ==>
                tokens[i] == old(tokens[i]).(revokedAt :=
                  if old(tokens[i].revokedAt).Some? then old(tokens[i].revokedAt) else Some(now))
      ensures family < families ==> Dead(View(), family)
    {
      tokens := seq(|tokens|, i requires 0 <= i < |tokens| reads this =>
        if tokens[i].family == family then Revoke(tokens[i], now) else tokens[i]);
    }

    /** Returns the new token, or nothing where the service throws UnauthenticatedError. */
    method RefreshWith(t: nat, expiresAt: int, now: int) returns (successor: Option<nat>)
      modifies this`tokens
      ensures View() == Handle(old(View()), Refresh(t, expiresAt, now))
      ensures successor.Some? <==> OutcomeOf(old(View()), t, now).Rotated?
      ensures successor.Some? ==> OutcomeOf(old(View()), t, now) == Rotated(successor.value)
    {
      if t >= |tokens| {
        return None;
      }
      var stored := tokens[t];
      if stored.revokedAt.Some? {
        return None;
      }
      if stored.rotatedAt.Some? {
        RevokeFamilyOf(stored.family, now);
        return None;
      }
      if stored.expiresAt <= now {
        return None;
      }
      if stored.user !in users {
        RevokeFamilyOf(stored.family, now);
        return None;
      }
      var token := CreateRefreshToken(stored.user, stored.family, expiresAt, Some(t), now);
      successor := Some(token);
    }

    method LoginAs(user: nat, passwordMatches: bool, expiresAt: int, now: int) returns (token: Option<nat>)
      modifies this`tokens, this`families
      ensures View() == Handle(old(View()), Login(user, passwordMatches, expiresAt))
      ensures token == if user in users && passwordMatches then Some(|old(tokens)|) else None
    {
      if user !in users || !passwordMatches {
        return None;
      }
      var family := families;
      families := families + 1;
      var t := CreateRefreshToken(user, family, expiresAt, None, now);
      token := Some(t);
    }

    /** Returns whom the LOGOUT row names, if one is written. */
    method LogoutWith(presented: Option<nat>, claims: Option<nat>, now: int)
      returns (userId: Option<nat>, familyId: Option<nat>)
      modifies this`tokens
      ensures View() == Handle(old(View()), Logout(presented, now))
      ensures familyId.Some? <==> presented.Some? && presented.value < |old(tokens)|
      ensures familyId.Some? ==> userId == Some(old(tokens)[presented.value].user)
      ensures familyId.Some? ==> familyId == Some(old(tokens)[presented.value].family)
      ensures familyId.None? ==> userId == claims
    {
      userId, familyId := None, None;
      if presented.Some? && presented.value < |tokens| {
        var stored := tokens[presented.value];
        RevokeFamilyOf(stored.family, now);
        userId, familyId := Some(stored.user), Some(stored.family);
      }
      if claims.Some? && userId.None? {
        userId := claims;
      }
    }

    /** The same for every token of the user: each of the user's logins is over for good. */
    method RevokeAll(user: nat, now: int)
      modifies this`tokens
      ensures View() == Handle(old(View()), LogoutEverywhere(user, now))
      ensures forall i :: 0 <= i < |tokens| && old(tokens[i].user) != user ==> tokens[i] == old(tokens[i])
      ensures forall i :: 0 <= i < |tokens| && old(tokens[i].user) == user ==>
                tokens[i] == old(tokens[i]).(revokedAt :=
                  if old(tokens[i].revokedAt).Some? then old(tokens[i].revokedAt) else Some(now))
      ensures old(Sound(View())) ==>
                forall i :: 0 <= i < |tokens| && tokens[i].user == user ==> Dead(View(), tokens[i].family)
    {
      tokens := seq(|tokens|, i requires 0 <= i < |tokens| reads this =>
        if tokens[i].user == user then Revoke(tokens[i], now) else tokens[i]);
    }
  }
}
