/** Refresh families over any interleaving of the transactions of all users. */
module RefreshFamilies {
  import opened Wrappers
  import opened Identity

  // The version of a session is what the login read in an earlier transaction; versions only
  // rise, so it is any version up to the present one.
  datatype Step =
    | StepCreateUser(name: string, passwordLength: nat)
    | StepOpenSession(user: UserId, version: nat)
    | StepRefresh(refresh: Secret, csrf: Secret)
    | StepLogout(session: SessionId)
    | StepRevokeAll(user: UserId)

  datatype Timed = At(now: int, step: Step)

  function Apply(settings: Settings, s: Tables, t: Timed): (after: Tables)
    requires Closed(s)
    ensures Closed(after)
  {
    match t.step
    case StepCreateUser(name, length) => CreateUser(s, name, length).tables
    case StepOpenSession(user, version) =>
      if user < |s.users| && version <= s.users[user].version then OpenSession(settings, s, t.now, user, version).0 else s
    case StepRefresh(refresh, csrf) => Refresh(settings, s, t.now, refresh, csrf).tables
    case StepLogout(session) => Logout(s, t.now, session)
    case StepRevokeAll(user) => RevokeAllSessions(s, t.now, user)
  }

  function Run(settings: Settings, s: Tables, trace: seq<Timed>): (after: Tables)
    requires Closed(s)
    ensures Closed(after)
    decreases |trace|
  {
    if trace == [] then s else Run(settings, Apply(settings, s, trace[0]), trace[1..])
  }

  // ------------------------------------------------------------------ invariant

  /** Each session has a family of its own, shared by exactly its tokens. */
  ghost predicate FamiliesOwned(s: Tables)
    requires Closed(s)
  {
    && (forall i :: 0 <= i < |s.sessions| ==> s.sessions[i].family < s.nextSecret)
    && (forall i, j :: 0 <= i < j < |s.sessions| ==> s.sessions[i].family != s.sessions[j].family)
    && (forall t :: 0 <= t < |s.tokens| ==> s.tokens[t].family == s.sessions[s.tokens[t].session].family)
  }

  ghost predicate TokensDrawn(s: Tables) {
    && (forall t :: 0 <= t < |s.tokens| ==> s.tokens[t].hash.preimage < s.nextSecret)
    && (forall t, u :: 0 <= t < u < |s.tokens| ==> s.tokens[t].hash != s.tokens[u].hash)
  }

  /** Token t is the token session i can be refreshed with. */
  predicate Redeemable(s: Tables, i: SessionId, t: TokenId) {
    t < |s.tokens| && s.tokens[t].session == i && s.tokens[t].status == Active
  }

  /** A session is active exactly while it has an active token, and it has at most one. */
  ghost predicate OneActive(s: Tables)
    requires Closed(s)
  {
    && (forall i: SessionId, t: TokenId :: i < |s.sessions| && Redeemable(s, i, t) ==> s.sessions[i].active)
    && (forall i: SessionId, t: TokenId, u: TokenId :: Redeemable(s, i, t) && Redeemable(s, i, u) ==> t == u)
    && (forall i: SessionId :: i < |s.sessions| && s.sessions[i].active ==>
          exists t: TokenId :: Redeemable(s, i, t))
  }

  ghost predicate Sound(s: Tables) {
    Closed(s) && FamiliesOwned(s) && TokensDrawn(s) && OneActive(s)
  }

  lemma RevokeFamilySound(s: Tables, family: Secret, now: int)
    requires Sound(s)
    ensures Sound(RevokeFamily(s, family, now))
  {
    var r := RevokeFamily(s, family, now);
    forall i: SessionId | i < |r.sessions| && r.sessions[i].active
      ensures exists t: TokenId :: Redeemable(r, i, t)
    {
      var t: TokenId :| Redeemable(s, i, t);
      assert Redeemable(r, i, t);
    }
    assert forall i: SessionId, t: TokenId :: Redeemable(r, i, t) ==> Redeemable(s, i, t);
  }

  /** Logout first deactivates its own session, which its family covers anyway. */
  lemma LogoutRevokesFamily(s: Tables, now: int, session: SessionId)
    requires Closed(s) && session < |s.sessions|
    ensures Logout(s, now, session) == RevokeFamily(s, s.sessions[session].family, now)
  {
    assert Logout(s, now, session).sessions == RevokeFamily(s, s.sessions[session].family, now).sessions;
  }

  lemma RevokeUserSound(s: Tables, user: UserId, now: int)
    requires Sound(s)
    ensures Sound(RevokeUser(s, user, now))
  {
    var r := RevokeUser(s, user, now);
    assert FamiliesOwned(r) && TokensDrawn(r);
    RevokedTokensOnly(s, r, user);
  }

  /** Revoking the active tokens of exactly the sessions deactivated keeps OneActive. */
  lemma RevokedTokensOnly(s: Tables, r: Tables, user: UserId)
    requires Closed(s) && OneActive(s) && Closed(r)
    requires |r.sessions| == |s.sessions| && |r.tokens| == |s.tokens|
    requires forall i :: 0 <= i < |s.sessions| ==>
               (r.sessions[i].active <==> s.sessions[i].active && s.sessions[i].user != user)
    requires forall t: TokenId :: t < |s.tokens| ==> r.tokens[t].session == s.tokens[t].session
    requires forall t: TokenId :: t < |s.tokens| ==>
               (r.tokens[t].status == Active <==>
                  s.tokens[t].status == Active && s.sessions[s.tokens[t].session].user != user)
    ensures OneActive(r)
  {
    forall i: SessionId | i < |r.sessions| && r.sessions[i].active
      ensures exists t: TokenId :: Redeemable(r, i, t)
    {
      var t: TokenId :| Redeemable(s, i, t);
      assert Redeemable(r, i, t);
    }
    assert forall i: SessionId, t: TokenId :: Redeemable(r, i, t) ==> Redeemable(s, i, t);
  }

  lemma BumpSound(s: Tables, user: UserId)
    requires Sound(s)
    ensures Sound(BumpVersion(s, user))
  {
    var r := BumpVersion(s, user);
    assert forall i: SessionId, t: TokenId :: Redeemable(r, i, t) <==> Redeemable(s, i, t);
  }

  lemma RevokeAllSound(s: Tables, now: int, user: UserId)
    requires Sound(s)
    ensures Sound(RevokeAllSessions(s, now, user))
  {
    RevokeUserSound(s, user, now);
    BumpSound(RevokeUser(s, user, now), user);
  }

  lemma OpenSessionSound(settings: Settings, s: Tables, now: int, user: UserId, version: nat)
    requires Sound(s) && user < |s.users|
    ensures Sound(OpenSession(settings, s, now, user, version).0)
  {
    var r := OpenSession(settings, s, now, user, version).0;
    assert Redeemable(r, |s.sessions|, |s.tokens|);
    assert forall i: SessionId, t: TokenId :: t < |s.tokens| ==> (Redeemable(r, i, t) <==> Redeemable(s, i, t));
  }

  /** Spending the active token of a session and issuing the next one. */
  lemma RotationSound(settings: Settings, s: Tables, now: int, t: TokenId, version: nat)
    requires Sound(s) && t < |s.tokens| && s.tokens[t].status == Active && s.sessions[s.tokens[t].session].active
    ensures var spent := s.(tokens := s.tokens[t := s.tokens[t].(status := Used, usedAt := Some(now))]);
            Sound(IssueTokens(settings, spent, s.tokens[t].session, version, now, None).0)
  {
    var i := s.tokens[t].session;
    var spent := s.(tokens := s.tokens[t := s.tokens[t].(status := Used, usedAt := Some(now))]);
    var r := IssueTokens(settings, spent, i, version, now, None).0;
    assert FamiliesOwned(r) && TokensDrawn(r);
    assert Redeemable(s, i, t);
    assert Redeemable(r, i, |s.tokens|) && !Redeemable(r, i, t);
    assert forall k: SessionId, u: TokenId :: u < |s.tokens| && u != t ==>
        (Redeemable(r, k, u) <==> Redeemable(s, k, u));
  }

  lemma RefreshSound(settings: Settings, s: Tables, now: int, refresh: Secret, csrf: Secret)
    requires Sound(s)
    ensures Sound(Refresh(settings, s, now, refresh, csrf).tables)
  {
    var found := FindToken(s.tokens, Sha256(refresh));
    if found.Some? {
      var t := found.value;
      if s.tokens[t].status == Used {
        RevokeFamilySound(s, s.tokens[t].family, now);
      } else if Refresh(settings, s, now, refresh, csrf).result.Ok? {
        RotationSound(settings, s, now, t, s.users[s.sessions[s.tokens[t].session].user].version);
      }
    }
  }

  lemma ApplySound(settings: Settings, s: Tables, t: Timed)
    requires Sound(s)
    ensures Sound(Apply(settings, s, t))
  {
    match t.step
    case StepCreateUser(_, _) =>
      assert forall i: SessionId, u: TokenId :: Redeemable(Apply(settings, s, t), i, u) <==> Redeemable(s, i, u);
    case StepOpenSession(user, version) =>
      if user < |s.users| && version <= s.users[user].version {
        OpenSessionSound(settings, s, t.now, user, version);
      }
    case StepRefresh(refresh, csrf) => RefreshSound(settings, s, t.now, refresh, csrf);
    case StepLogout(session) =>
      if session < |s.sessions| {
        LogoutRevokesFamily(s, t.now, session);
        RevokeFamilySound(s, s.sessions[session].family, t.now);
      }
    case StepRevokeAll(user) => RevokeAllSound(s, t.now, user);
  }

  // ------------------------------------------------------------ what a step keeps

  /** Rows are never lost or moved; revocation, use and version changes are never undone. */
  ghost predicate Kept(s: Tables, after: Tables) {
    && |s.users| <= |after.users| && |s.sessions| <= |after.sessions| && |s.tokens| <= |after.tokens|
    && (forall u :: 0 <= u < |s.users| ==>
          s.users[u].version <= after.users[u].version && after.users[u].active == s.users[u].active)
    && (forall i :: 0 <= i < |s.sessions| ==>
          && after.sessions[i].user == s.sessions[i].user && after.sessions[i].family == s.sessions[i].family
          && (after.sessions[i].active ==> s.sessions[i].active))
    && (forall t :: 0 <= t < |s.tokens| ==>
          && after.tokens[t].session == s.tokens[t].session && after.tokens[t].hash == s.tokens[t].hash
          && (s.tokens[t].status == Revoked ==> after.tokens[t].status == Revoked)
          && (after.tokens[t].status == Active ==> s.tokens[t].status == Active))
  }

  lemma ApplyKeeps(settings: Settings, s: Tables, t: Timed)
    requires Closed(s)
    ensures Kept(s, Apply(settings, s, t))
  {
    if t.step.StepRefresh? {
      RefreshKeeps(settings, s, t.now, t.step.refresh, t.step.csrf);
    }
  }

  lemma RefreshKeeps(settings: Settings, s: Tables, now: int, refresh: Secret, csrf: Secret)
    requires Closed(s)
    ensures Kept(s, Refresh(settings, s, now, refresh, csrf).tables)
  {
  }

  lemma {:induction false} RunKeeps(settings: Settings, s: Tables, trace: seq<Timed>)
    requires Sound(s)
    ensures Sound(Run(settings, s, trace)) && Kept(s, Run(settings, s, trace))
    decreases |trace|
  {
    if trace != [] {
      ApplySound(settings, s, trace[0]);
      ApplyKeeps(settings, s, trace[0]);
      RunKeeps(settings, Apply(settings, s, trace[0]), trace[1..]);
    }
  }

  // ------------------------------------------------------------------- theorems

  lemma OneActiveInFamily(s: Tables, t: TokenId, u: TokenId)
    requires Sound(s) && t < |s.tokens| && u < |s.tokens| && s.tokens[t].family == s.tokens[u].family
    requires s.tokens[t].status == Active
    ensures s.sessions[s.tokens[t].session].active && (s.tokens[u].status == Active ==> t == u)
  {
    assert Redeemable(s, s.tokens[t].session, t);
    assert s.tokens[u].status == Active ==> Redeemable(s, s.tokens[u].session, u);
  }

  /** In every state reached from the empty tables, a family has at most one active token,
      and its session is active exactly while there is one. */
  lemma AtMostOneActive(settings: Settings, trace: seq<Timed>, t: TokenId, u: TokenId)
    ensures var s := Run(settings, NoUsers, trace);
            t < |s.tokens| && u < |s.tokens| && s.tokens[t].family == s.tokens[u].family
            && s.tokens[t].status == Active ==>
              s.sessions[s.tokens[t].session].active && (s.tokens[u].status == Active ==> t == u)
  {
    RunKeeps(settings, NoUsers, trace);
    var s := Run(settings, NoUsers, trace);
    if t < |s.tokens| && u < |s.tokens| && s.tokens[t].family == s.tokens[u].family && s.tokens[t].status == Active {
      OneActiveInFamily(s, t, u);
    }
  }

  /** When a refresh succeeds: the session check adds nothing to the token check. */
  lemma RefreshAcceptedIff(settings: Settings, s: Tables, now: int, refresh: Secret, csrf: Secret)
    requires Sound(s)
    ensures Refresh(settings, s, now, refresh, csrf).result.Ok?
            <==> exists t: TokenId ::
                   && t < |s.tokens| && s.tokens[t].hash == Sha256(refresh)
                   && s.tokens[t].status == Active && now < s.tokens[t].expiresAt
                   && s.sessions[s.tokens[t].session].csrf == Sha256(csrf)
                   && s.users[s.sessions[s.tokens[t].session].user].active
  {
    forall t: TokenId | t < |s.tokens| && s.tokens[t].hash == Sha256(refresh) && s.tokens[t].status == Active
      ensures FindToken(s.tokens, Sha256(refresh)) == Some(t) && s.sessions[s.tokens[t].session].active
    {
      assert Redeemable(s, s.tokens[t].session, t);
    }
  }

  /** The number of times the run redeems a refresh token. */
  function Redemptions(settings: Settings, s: Tables, trace: seq<Timed>, refresh: Secret): nat
    requires Closed(s)
    decreases |trace|
  {
    if trace == [] then 0
    else
      var t := trace[0];
      (if t.step.StepRefresh? && t.step.refresh == refresh
          && Refresh(settings, s, t.now, refresh, t.step.csrf).result.Ok? then 1 else 0)
      + Redemptions(settings, Apply(settings, s, t), trace[1..], refresh)
  }

  predicate Spent(s: Tables, refresh: Secret) {
    exists t: TokenId :: t < |s.tokens| && s.tokens[t].hash == Sha256(refresh) && s.tokens[t].status != Active
  }

  lemma RedeemingSpends(settings: Settings, s: Tables, now: int, refresh: Secret, csrf: Secret)
    requires Sound(s)
    ensures Spent(s, refresh) ==> Refresh(settings, s, now, refresh, csrf).result.Err?
    ensures Refresh(settings, s, now, refresh, csrf).result.Ok? ==>
              Spent(Refresh(settings, s, now, refresh, csrf).tables, refresh)
  {
    var o := Refresh(settings, s, now, refresh, csrf);
    if o.result.Ok? {
      var t := FindToken(s.tokens, Sha256(refresh)).value;
      assert o.tables.tokens[t].hash == Sha256(refresh) && o.tables.tokens[t].status == Used;
    }
  }

  /** Each refresh token redeems at most once in any run. */
  lemma {:induction false} RedeemedOnce(settings: Settings, s: Tables, trace: seq<Timed>, refresh: Secret)
    requires Sound(s)
    ensures Redemptions(settings, s, trace, refresh) <= if Spent(s, refresh) then 0 else 1
    decreases |trace|
  {
    if trace != [] {
      var t := trace[0];
      var next := Apply(settings, s, t);
      ApplySound(settings, s, t);
      ApplyKeeps(settings, s, t);
      if t.step.StepRefresh? && t.step.refresh == refresh {
        RedeemingSpends(settings, s, t.now, refresh, t.step.csrf);
      }
      assert Spent(s, refresh) ==> Spent(next, refresh) by {
        if Spent(s, refresh) {
          var k: TokenId :| k < |s.tokens| && s.tokens[k].hash == Sha256(refresh) && s.tokens[k].status != Active;
          assert next.tokens[k].hash == Sha256(refresh) && next.tokens[k].status != Active;
        }
      }
      RedeemedOnce(settings, next, trace[1..], refresh);
    }
  }

  /** Session i is over: no refresh in its family and no access token of it is accepted. */
  ghost predicate Over(settings: Settings, s: Tables, i: SessionId)
    requires Closed(s)
  {
    && (forall now: int, token: AccessToken :: token.payload.sid == i ==>
          VerifyAccess(settings, s, now, token).Err?)
    && (forall now: int, refresh: Secret, csrf: Secret ::
          var found := FindToken(s.tokens, Sha256(refresh));
          found.Some? && s.tokens[found.value].session == i ==>
            Refresh(settings, s, now, refresh, csrf).result.Err?)
  }

  /** A revoked session is over in every later state. */
  lemma RevokedIsOver(settings: Settings, s: Tables, trace: seq<Timed>, i: SessionId)
    requires Sound(s) && i < |s.sessions| && !s.sessions[i].active
    ensures Over(settings, Run(settings, s, trace), i)
  {
    RunKeeps(settings, s, trace);
  }

  /** Replay: presenting a token that was already redeemed is refused, and from then on
      its whole family and its session are over, in every later state. */
  lemma ReplayEndsFamily(settings: Settings, s: Tables, now: int, t: TokenId, csrf: Secret, trace: seq<Timed>)
    requires Sound(s) && t < |s.tokens| && s.tokens[t].status == Used
    ensures var o := Refresh(settings, s, now, s.tokens[t].hash.preimage, csrf);
            o.result == Err(RefreshReuseDetected) && Over(settings, Run(settings, o.tables, trace), s.tokens[t].session)
  {
    var o := Refresh(settings, s, now, s.tokens[t].hash.preimage, csrf);
    assert FindToken(s.tokens, s.tokens[t].hash) == Some(t);
    RevokeFamilySound(s, s.tokens[t].family, now);
    RevokedIsOver(settings, o.tables, trace, s.tokens[t].session);
  }

  /** After a logout the session is over; after a password change or a revocation of all
      sessions, every session the user had is over. */
  lemma RevocationEndsSessions(settings: Settings, s: Tables, now: int, i: SessionId, trace: seq<Timed>)
    requires Sound(s) && i < |s.sessions|
    ensures Over(settings, Run(settings, Logout(s, now, i), trace), i)
    ensures Over(settings, Run(settings, RevokeAllSessions(s, now, s.sessions[i].user), trace), i)
  {
    LogoutRevokesFamily(s, now, i);
    RevokeFamilySound(s, s.sessions[i].family, now);
    RevokedIsOver(settings, Logout(s, now, i), trace, i);
    RevokeAllSound(s, now, s.sessions[i].user);
    RevokedIsOver(settings, RevokeAllSessions(s, now, s.sessions[i].user), trace, i);
  }

  /** What a step issues, if it is a login or a refresh that succeeds. */
  function IssuedBy(settings: Settings, s: Tables, t: Timed): Option<SessionTokens>
    requires Closed(s)
  {
    match t.step
    case StepOpenSession(user, version) =>
      if user < |s.users| && version <= s.users[user].version then
        Some(OpenSession(settings, s, t.now, user, version).1)
      else None
    case StepRefresh(refresh, csrf) =>
      var o := Refresh(settings, s, t.now, refresh, csrf);
      if o.result.Ok? then Some(o.result.value) else None
    case _ => None
  }

  /** Every access token a run issues, in order. */
  function IssuedIn(settings: Settings, s: Tables, trace: seq<Timed>): seq<AccessToken>
    requires Closed(s)
    decreases |trace|
  {
    if trace == [] then []
    else
      var issued := IssuedBy(settings, s, trace[0]);
      (if issued.Some? then [issued.value.access] else []) + IssuedIn(settings, Apply(settings, s, trace[0]), trace[1..])
  }

  lemma IssuedUpToDate(settings: Settings, s: Tables, t: Timed)
    requires Closed(s) && IssuedBy(settings, s, t).Some?
    ensures var p, after := IssuedBy(settings, s, t).value.access.payload, Apply(settings, s, t);
            p.sub < |after.users| && p.ver <= after.users[p.sub].version
  {
  }

  /** A token issued in a run never has a version its user has not reached by the end. */
  lemma {:induction false} IssuedInUpToDate(settings: Settings, s: Tables, trace: seq<Timed>, k: nat)
    requires Sound(s) && k < |IssuedIn(settings, s, trace)|
    ensures var p, after := IssuedIn(settings, s, trace)[k].payload, Run(settings, s, trace);
            p.sub < |after.users| && p.ver <= after.users[p.sub].version
    decreases |trace|
  {
    var next := Apply(settings, s, trace[0]);
    ApplySound(settings, s, trace[0]);
    RunKeeps(settings, next, trace[1..]);
    if IssuedBy(settings, s, trace[0]).Some? {
      IssuedUpToDate(settings, s, trace[0]);
      if k > 0 {
        IssuedInUpToDate(settings, next, trace[1..], k - 1);
      }
    } else {
      IssuedInUpToDate(settings, next, trace[1..], k);
    }
  }

  /** A version bump: every access token issued to the user before it, in whatever session,
      is refused in every later state. */
  lemma OldVersionsRefused(settings: Settings, s: Tables, before: seq<Timed>, k: nat, now: int, after: seq<Timed>,
                           later: int)
    requires Sound(s) && k < |IssuedIn(settings, s, before)|
    ensures var token := IssuedIn(settings, s, before)[k];
            var bumped := RevokeAllSessions(Run(settings, s, before), now, token.payload.sub);
            VerifyAccess(settings, Run(settings, bumped, after), later, token).Err?
  {
    var token := IssuedIn(settings, s, before)[k];
    var at := Run(settings, s, before);
    RunKeeps(settings, s, before);
    IssuedInUpToDate(settings, s, before, k);
    RevokeAllSound(at, now, token.payload.sub);
    RunKeeps(settings, RevokeAllSessions(at, now, token.payload.sub), after);
  }

  /** A session opened with a version read before: its access token is accepted if and only if
      that version is still the present one, but its refresh token redeems in either case, and
      for an access token of the present version. */
  lemma StaleSession(settings: Settings, s: Tables, openedAt: int, user: UserId, version: nat, refreshed: int, later: int)
    requires Sound(s) && user < |s.users| && s.users[user].active && version <= s.users[user].version
    requires refreshed < openedAt + settings.refreshLifetime
    ensures var (signedIn, issued) := OpenSession(settings, s, openedAt, user, version);
            && (later < openedAt + settings.accessLifetime ==>
                  (VerifyAccess(settings, signedIn, later, issued.access).Ok? <==> version == s.users[user].version))
            && var o := Refresh(settings, signedIn, refreshed, issued.refresh, issued.csrf);
               o.result.Ok?
               && (later < refreshed + settings.accessLifetime ==>
                     VerifyAccess(settings, o.tables, later, o.result.value.access).Ok?)
  {
    var (signedIn, issued) := OpenSession(settings, s, openedAt, user, version);
    OpenSessionSound(settings, s, openedAt, user, version);
    var t := |s.tokens|;
    assert signedIn.tokens[t].hash == Sha256(issued.refresh) && signedIn.tokens[t].status == Active;
    RefreshAcceptedIff(settings, signedIn, refreshed, issued.refresh, issued.csrf);
  }

  /** A login in flight survives a revocation of all sessions: if it read the version before and
      opens its session after, the access token it was given is refused, but its refresh token
      redeems, and for an access token that is accepted. Had it opened its session before, that
      session would be over. */
  lemma LoginInFlightSurvives(settings: Settings, s: Tables, user: UserId, revoked: int, between: seq<Timed>,
                              openedAt: int, refreshed: int, later: int)
    requires Sound(s) && user < |s.users| && s.users[user].active
    requires refreshed < openedAt + settings.refreshLifetime
    requires later < openedAt + settings.accessLifetime && later < refreshed + settings.accessLifetime
    ensures var version := s.users[user].version;
            var at := Run(settings, RevokeAllSessions(s, revoked, user), between);
            && user < |at.users| && version < at.users[user].version
            && var (signedIn, issued) := OpenSession(settings, at, openedAt, user, version);
               && VerifyAccess(settings, signedIn, later, issued.access).Err?
               && var o := Refresh(settings, signedIn, refreshed, issued.refresh, issued.csrf);
                  o.result.Ok? && VerifyAccess(settings, o.tables, later, o.result.value.access).Ok?
    ensures var (signedIn, issued) := OpenSession(settings, s, openedAt, user, s.users[user].version);
            Over(settings, Run(settings, RevokeAllSessions(signedIn, revoked, user), between), issued.session)
  {
    var version := s.users[user].version;
    var revocation := RevokeAllSessions(s, revoked, user);
    RevokeAllSound(s, revoked, user);
    RunKeeps(settings, revocation, between);
    StaleSession(settings, Run(settings, revocation, between), openedAt, user, version, refreshed, later);
    var (signedIn, issued) := OpenSession(settings, s, openedAt, user, version);
    OpenSessionSound(settings, s, openedAt, user, version);
    RevocationEndsSessions(settings, signedIn, revoked, issued.session, between);
  }

  /** A step that leaves session i alone: it neither refreshes in its family nor revokes it. */
  predicate LeavesAlone(s: Tables, t: Timed, i: SessionId)
    requires i < |s.sessions|
  {
    match t.step
    case StepCreateUser(_, _) => true
    case StepOpenSession(_, _) => true
    case StepRefresh(refresh, _) =>
      forall u :: 0 <= u < |s.tokens| && s.tokens[u].session == i ==> s.tokens[u].hash != Sha256(refresh)
    case StepLogout(session) => session != i
    case StepRevokeAll(user) => user != s.sessions[i].user
  }

  ghost predicate AllLeaveAlone(settings: Settings, s: Tables, trace: seq<Timed>, i: SessionId)
    requires Closed(s) && i < |s.sessions|
    decreases |trace|
  {
    trace == []
    || (LeavesAlone(s, trace[0], i)
        && i < |Apply(settings, s, trace[0]).sessions|
        && AllLeaveAlone(settings, Apply(settings, s, trace[0]), trace[1..], i))
  }

  lemma LeftAlone(settings: Settings, s: Tables, t: Timed, i: SessionId, k: TokenId)
    requires Sound(s) && i < |s.sessions| && LeavesAlone(s, t, i)
    requires k < |s.tokens| && s.tokens[k].session == i
    ensures var after := Apply(settings, s, t);
            && i < |after.sessions| && after.sessions[i] == s.sessions[i]
            && k < |after.tokens| && after.tokens[k] == s.tokens[k]
            && s.sessions[i].user < |after.users| && after.users[s.sessions[i].user] == s.users[s.sessions[i].user]
  {
  }

  lemma {:induction false} RunLeftAlone(settings: Settings, s: Tables, trace: seq<Timed>, i: SessionId, k: TokenId)
    requires Sound(s) && i < |s.sessions| && AllLeaveAlone(settings, s, trace, i)
    requires k < |s.tokens| && s.tokens[k].session == i
    ensures var after := Run(settings, s, trace);
            && i < |after.sessions| && after.sessions[i] == s.sessions[i]
            && k < |after.tokens| && after.tokens[k] == s.tokens[k]
            && s.sessions[i].user < |after.users| && after.users[s.sessions[i].user] == s.users[s.sessions[i].user]
    decreases |trace|
  {
    if trace != [] {
      LeftAlone(settings, s, trace[0], i, k);
      ApplySound(settings, s, trace[0]);
      RunLeftAlone(settings, Apply(settings, s, trace[0]), trace[1..], i, k);
    }
  }

  /** What a session was issued works until it is used or revoked, whatever the other
      sessions do: the access token verifies and the refresh token redeems until they expire. */
  lemma IssuedTokensWork(settings: Settings, s: Tables, now: int, user: UserId, trace: seq<Timed>, later: int)
    requires Sound(s) && user < |s.users| && s.users[user].active
    requires var (signedIn, issued) := OpenSession(settings, s, now, user, s.users[user].version);
             AllLeaveAlone(settings, signedIn, trace, issued.session)
    ensures var (signedIn, issued) := OpenSession(settings, s, now, user, s.users[user].version);
            var at := Run(settings, signedIn, trace);
            && (later < now + settings.accessLifetime ==>
                  VerifyAccess(settings, at, later, issued.access) == Ok(issued.access.payload))
            && (later < now + settings.refreshLifetime ==>
                  Refresh(settings, at, later, issued.refresh, issued.csrf).result.Ok?)
  {
    var (signedIn, issued) := OpenSession(settings, s, now, user, s.users[user].version);
    OpenSessionSound(settings, s, now, user, s.users[user].version);
    RunLeftAlone(settings, signedIn, trace, issued.session, |s.tokens|);
    RunKeeps(settings, signedIn, trace);
    var at := Run(settings, signedIn, trace);
    assert at.tokens[|s.tokens|].hash == Sha256(issued.refresh);
    RefreshAcceptedIff(settings, at, later, issued.refresh, issued.csrf);
  }

  // The calls are built from the steps: each leaves the tables as a run of at most two
  // steps does, so the theorems speak of every interleaving of calls.

  lemma LoginIsRun(settings: Settings, s: Tables, now: int, name: string, passwordMatches: bool)
    requires Closed(s)
    ensures exists trace :: |trace| <= 1 && Login(settings, s, now, name, passwordMatches).tables == Run(settings, s, trace)
  {
    var known := FindUser(s.users, name);
    var step := if known.Some? then StepOpenSession(known.value, s.users[known.value].version) else StepLogout(0);
    RunShort(settings, s, At(now, step), At(now, step));
  }

  lemma LocalSessionIsRun(settings: Settings, s: Tables, now: int, name: string)
    requires Closed(s)
    ensures exists trace :: |trace| <= 2 && CreateLocalSession(settings, s, now, name).tables == Run(settings, s, trace)
  {
    var known := FindUser(s.users, name);
    if known.Some? {
      var step := At(now, StepOpenSession(known.value, s.users[known.value].version));
      RunShort(settings, s, step, step);
    } else {
      RunShort(settings, s, At(now, StepCreateUser(name, 12)), At(now, StepOpenSession(|s.users|, 1)));
    }
  }

  lemma ChangePasswordIsRun(settings: Settings, s: Tables, now: int, user: UserId, passwordMatches: bool, newLength: nat)
    requires Closed(s)
    ensures exists trace :: |trace| <= 1
              && ChangePassword(s, now, user, passwordMatches, newLength).tables == Run(settings, s, trace)
  {
    RunShort(settings, s, At(now, StepRevokeAll(user)), At(now, StepRevokeAll(user)));
  }

  lemma RevokeSessionIsRun(settings: Settings, s: Tables, now: int, user: UserId, session: SessionId)
    requires Closed(s)
    ensures exists trace :: |trace| <= 1 && RevokeSession(s, now, user, session).tables == Run(settings, s, trace)
  {
    RunShort(settings, s, At(now, StepLogout(session)), At(now, StepLogout(session)));
  }

  lemma RunShort(settings: Settings, s: Tables, t: Timed, u: Timed)
    requires Closed(s)
    ensures Run(settings, s, []) == s
    ensures Run(settings, s, [t]) == Apply(settings, s, t)
    ensures Run(settings, s, [t, u]) == Apply(settings, Apply(settings, s, t), u)
  {
    assert [t][1..] == [] && [t, u][1..] == [u] && [u][1..] == [];
    assert Run(settings, Apply(settings, s, t), [u]) == Apply(settings, Apply(settings, s, t), u);
  }
}
