/** Who gets a session, who loses one, and which tokens open what. */
module SessionAccess {
  import opened Wrappers
  import opened Identity
  import opened RefreshFamilies

  // -------------------------------------------------------------------- accounts

  ghost predicate NamesUnique(s: Tables) {
    forall u, v :: 0 <= u < v < |s.users| ==> s.users[u].name != s.users[v].name
  }

  lemma StepNames(settings: Settings, s: Tables, t: Timed)
    requires Closed(s) && NamesUnique(s)
    ensures NamesUnique(Apply(settings, s, t))
  {
  }

  lemma {:induction false} RunNames(settings: Settings, s: Tables, trace: seq<Timed>)
    requires Sound(s) && NamesUnique(s)
    ensures NamesUnique(Run(settings, s, trace)) && Sound(Run(settings, s, trace))
    decreases |trace|
  {
    if trace != [] {
      StepNames(settings, s, trace[0]);
      ApplySound(settings, s, trace[0]);
      RunNames(settings, Apply(settings, s, trace[0]), trace[1..]);
    }
  }

  lemma NameFindsUser(s: Tables, u: UserId)
    requires NamesUnique(s) && u < |s.users|
    ensures FindUser(s.users, s.users[u].name) == Some(u)
  {
    var found := FindUser(s.users, s.users[u].name);
    assert found.Some? && !(found.value < u) && !(u < found.value);
  }

  /** An account is created exactly for a name of at least three letters that is not taken, with
      a password of at least twelve, and nothing else changes. */
  lemma RegistrationIff(s: Tables, name: string, passwordLength: nat)
    ensures var o := CreateUser(s, name, passwordLength);
            && (o.result.Ok? <==> |name| >= 3 && passwordLength >= 12 && forall u :: 0 <= u < |s.users| ==> s.users[u].name != name)
            && (o.result.Ok? ==> && |o.tables.users| == |s.users| + 1 && o.result.value == |s.users|
                                 && o.tables == s.(users := o.tables.users) && o.tables.users[..|s.users|] == s.users
                                 && o.tables.users[|s.users|] == User(name, 1, true))
            && (o.result.Err? ==> o == Outcome(s, Err(InvalidRegistration)))
  {
  }

  // -------------------------------------------------------------------- sessions

  /** Every row of before is still there unchanged, and there is one session and one token more. */
  ghost predicate OneMoreSession(s: Tables, after: Tables) {
    && after.users == s.users
    && |after.sessions| == |s.sessions| + 1 && after.sessions[..|s.sessions|] == s.sessions
    && |after.tokens| == |s.tokens| + 1 && after.tokens[..|s.tokens|] == s.tokens
  }

  /** What was issued opens a session of a user: its access token is accepted and its refresh
      token redeems until they expire. */
  ghost predicate Opens(settings: Settings, after: Tables, issued: SessionTokens, user: UserId, now: int)
    requires Closed(after)
  {
    && issued.session < |after.sessions| && after.sessions[issued.session].user == user
    && issued.access.payload.sub == user && issued.access.payload.sid == issued.session
    && (forall later: int :: VerifyAccess(settings, after, later, issued.access).Ok?
                             <==> later < now + settings.accessLifetime)
    && (forall later: int :: Refresh(settings, after, later, issued.refresh, issued.csrf).result.Ok?
                             <==> later < now + settings.refreshLifetime)
  }

  lemma OpenedSessionOpens(settings: Settings, s: Tables, now: int, user: UserId)
    requires Sound(s) && user < |s.users| && s.users[user].active
    ensures var (after, issued) := OpenSession(settings, s, now, user, s.users[user].version);
            && Sound(after) && OneMoreSession(s, after) && Opens(settings, after, issued, user, now)
            && issued.session == |s.sessions| && after.sessions[|s.sessions|].expiresAt == now + settings.refreshLifetime
            && after.tokens[|s.tokens|].expiresAt == now + settings.refreshLifetime
  {
    var (after, issued) := OpenSession(settings, s, now, user, s.users[user].version);
    OpenSessionSound(settings, s, now, user, s.users[user].version);
    assert after.tokens[|s.tokens|].hash == Sha256(issued.refresh);
    forall later: int
      ensures Refresh(settings, after, later, issued.refresh, issued.csrf).result.Ok?
              <==> later < now + settings.refreshLifetime
    {
      RefreshAcceptedIff(settings, after, later, issued.refresh, issued.csrf);
    }
  }

  /** A login succeeds if and only if there is an active user of that name and the password
      matched. Otherwise it changes nothing and fails with the same error in every case. */
  lemma LoginAcceptedIff(settings: Settings, s: Tables, now: int, name: string, passwordMatches: bool)
    requires Sound(s) && NamesUnique(s)
    ensures var o := Login(settings, s, now, name, passwordMatches);
            && (o.result.Ok? <==> passwordMatches && exists u :: 0 <= u < |s.users| && s.users[u].name == name
                                                                 && s.users[u].active)
            && (o.result.Err? ==> o == Outcome(s, Err(AuthenticationFailed)))
  {
    if u :| 0 <= u < |s.users| && s.users[u].name == name && s.users[u].active {
      NameFindsUser(s, u);
    }
  }

  /** A login that succeeds opens one session, of that user, and changes nothing else. */
  lemma LoginOpensOne(settings: Settings, s: Tables, now: int, name: string, passwordMatches: bool)
    requires Sound(s) && Login(settings, s, now, name, passwordMatches).result.Ok?
    ensures var o := Login(settings, s, now, name, passwordMatches);
            && Sound(o.tables) && OneMoreSession(s, o.tables)
            && exists u :: 0 <= u < |s.users| && s.users[u].name == name
                           && Opens(settings, o.tables, o.result.value, u, now)
  {
    var u := FindUser(s.users, name).value;
    OpenedSessionOpens(settings, s, now, u);
  }

  /** A local session is opened for every name of three letters or more but that of an inactive
      user, whom it creates if there was none of that name. */
  lemma LocalSessionIff(settings: Settings, s: Tables, now: int, name: string)
    requires Sound(s) && NamesUnique(s)
    ensures var o := CreateLocalSession(settings, s, now, name);
            && (o.result.Ok? <==> |name| >= 3 && forall u :: 0 <= u < |s.users| && s.users[u].name == name ==>
                                                   s.users[u].active)
            && (o.result.Err? ==>
                  o == Outcome(s, Err(if |name| < 3 then InvalidRegistration else AuthenticationFailed)))
  {
    if u :| 0 <= u < |s.users| && s.users[u].name == name {
      NameFindsUser(s, u);
    }
  }

  lemma LocalSessionOpensOne(settings: Settings, s: Tables, now: int, name: string)
    requires Sound(s) && CreateLocalSession(settings, s, now, name).result.Ok?
    ensures var o := CreateLocalSession(settings, s, now, name);
            var (user, issued) := o.result.value;
            var known := CreateUser(s, name, 12).tables;
            && Sound(o.tables) && OneMoreSession(known, o.tables)
            && user < |known.users| && known.users[user].name == name && Opens(settings, o.tables, issued, user, now)
  {
    var found, known := FindUser(s.users, name), CreateUser(s, name, 12).tables;
    if found.Some? {
      OpenedSessionOpens(settings, s, now, found.value);
    } else {
      assert Sound(known) by {
        ApplySound(settings, s, At(now, StepCreateUser(name, 12)));
      }
      OpenedSessionOpens(settings, known, now, |s.users|);
    }
  }

  // ------------------------------------------------------------------- revocation

  /** Exactly the sessions in `ended` are over; no other session and no token of another session
      changes, and no token of an ended session is active any more. */
  ghost predicate EndsExactly(s: Tables, after: Tables, ended: SessionId -> bool) {
    && |after.sessions| == |s.sessions| && |after.tokens| == |s.tokens| && after.nextSecret == s.nextSecret
    && (forall i :: 0 <= i < |s.sessions| ==>
          after.sessions[i] == if ended(i) then s.sessions[i].(active := false) else s.sessions[i])
    && (forall t :: 0 <= t < |s.tokens| ==>
          && after.tokens[t].session == s.tokens[t].session && after.tokens[t].hash == s.tokens[t].hash
          && (if ended(s.tokens[t].session) then after.tokens[t].status != Active else after.tokens[t] == s.tokens[t]))
  }

  /** A logout revokes every token of its session, the used ones too. */
  lemma FamilyEndsOne(s: Tables, now: int, i: SessionId)
    requires Sound(s) && i < |s.sessions|
    ensures EndsExactly(s, Logout(s, now, i), k => k == i) && Logout(s, now, i).users == s.users
    ensures forall t :: 0 <= t < |s.tokens| && s.tokens[t].session == i ==>
              Logout(s, now, i).tokens[t] == s.tokens[t].(status := Revoked, revokedAt :=
                if s.tokens[t].status == Revoked then s.tokens[t].revokedAt else Some(now))
  {
    LogoutRevokesFamily(s, now, i);
  }

  /** A revocation of all sessions revokes the active tokens only. */
  lemma AllEndsUser(s: Tables, now: int, user: UserId)
    requires Sound(s) && user < |s.users|
    ensures EndsExactly(s, RevokeAllSessions(s, now, user), k => 0 <= k < |s.sessions| && s.sessions[k].user == user)
    ensures forall t :: 0 <= t < |s.tokens| && s.sessions[s.tokens[t].session].user == user ==>
              RevokeAllSessions(s, now, user).tokens[t] == if s.tokens[t].status != Active then s.tokens[t]
                else s.tokens[t].(status := Revoked, revokedAt := Some(now))
    ensures RevokeAllSessions(s, now, user).users == s.users[user := s.users[user].(version := s.users[user].version + 1)]
  {
  }

  /** A password is changed if and only if the new one has twelve letters or more, the user is
      active and the old one matched. Then exactly the sessions of that user are over and his
      version is raised; otherwise nothing changes. */
  lemma PasswordChangedIff(s: Tables, now: int, user: UserId, passwordMatches: bool, newLength: nat)
    requires Sound(s)
    ensures var o := ChangePassword(s, now, user, passwordMatches, newLength);
            && (o.result.Ok? <==> newLength >= 12 && passwordMatches && user < |s.users| && s.users[user].active)
            && (o.result.Ok? ==>
                  && EndsExactly(s, o.tables, k => 0 <= k < |s.sessions| && s.sessions[k].user == user)
                  && o.tables.users == s.users[user := s.users[user].(version := s.users[user].version + 1)])
            && (o.result.Err? ==>
                  o == Outcome(s, Err(if newLength < 12 then InvalidPassword else AuthenticationFailed)))
  {
    if user < |s.users| {
      AllEndsUser(s, now, user);
    }
  }

  /** A session is revoked if and only if it is the user's own, and then exactly that session. */
  lemma SessionRevokedIff(s: Tables, now: int, user: UserId, i: SessionId)
    requires Sound(s)
    ensures var o := RevokeSession(s, now, user, i);
            && (o.result.Ok? <==> i < |s.sessions| && s.sessions[i].user == user)
            && (o.result.Ok? ==> EndsExactly(s, o.tables, k => k == i) && o.tables.users == s.users)
            && (o.result.Err? ==> o == Outcome(s, Err(SessionNotFound)))
  {
    if i < |s.sessions| {
      FamilyEndsOne(s, now, i);
    }
  }

  // ----------------------------------------------------------------------- tokens

  /** An access token is accepted if and only if it was signed with the key over the very claims
      it makes, has not expired, and names an active session of an active user at his present
      version. */
  lemma AccessAcceptedIff(settings: Settings, s: Tables, now: int, token: AccessToken)
    requires Closed(s)
    ensures var p := token.payload;
            VerifyAccess(settings, s, now, token)
            == if token == Sign(settings, p) && now < p.exp
                  && exists i: SessionId :: i < |s.sessions| && p.sid == i && s.sessions[i].active
                                            && s.sessions[i].user == p.sub && s.users[p.sub].active
                                            && s.users[p.sub].version == p.ver
               then Ok(p)
               else Err(if token != Sign(settings, p) then AccessInvalid
                        else if p.exp <= now then AccessExpired else AccessRevoked)
  {
  }

  /** A refresh that succeeds spends exactly the token presented, and hands out for the same
      session what opens it until it expires, at the present version of the user. */
  lemma RefreshRotates(settings: Settings, s: Tables, now: int, refresh: Secret, csrf: Secret)
    requires Sound(s) && Refresh(settings, s, now, refresh, csrf).result.Ok?
    ensures var o := Refresh(settings, s, now, refresh, csrf);
            && Sound(o.tables) && o.tables.users == s.users
            && |o.tables.sessions| == |s.sessions| && |o.tables.tokens| == |s.tokens| + 1
            && exists t: TokenId ::
                 && t < |s.tokens| && s.tokens[t].hash == Sha256(refresh)
                 && o.tables.tokens[..|s.tokens|] == s.tokens[t := s.tokens[t].(status := Used, usedAt := Some(now))]
                 && (forall i :: 0 <= i < |s.sessions| && i != s.tokens[t].session ==>
                       o.tables.sessions[i] == s.sessions[i])
                 && o.result.value.session == s.tokens[t].session
                 && Opens(settings, o.tables, o.result.value, s.sessions[s.tokens[t].session].user, now)
  {
    var t := FindToken(s.tokens, Sha256(refresh)).value;
    var o := Refresh(settings, s, now, refresh, csrf);
    RefreshSound(settings, s, now, refresh, csrf);
    assert o.tables.tokens[|s.tokens|].hash == Sha256(o.result.value.refresh);
    forall later: int
      ensures Refresh(settings, o.tables, later, o.result.value.refresh, o.result.value.csrf).result.Ok?
              <==> later < now + settings.refreshLifetime
    {
      RefreshAcceptedIff(settings, o.tables, later, o.result.value.refresh, o.result.value.csrf);
    }
    assert o.tables.tokens[..|s.tokens|] == s.tokens[t := s.tokens[t].(status := Used, usedAt := Some(now))];
  }

  /** A refresh that fails changes nothing, unless it presents a used token: then exactly the
      session of that token is over. */
  lemma RefreshRefused(settings: Settings, s: Tables, now: int, refresh: Secret, csrf: Secret)
    requires Sound(s) && Refresh(settings, s, now, refresh, csrf).result.Err?
    ensures var o := Refresh(settings, s, now, refresh, csrf);
            if exists t: TokenId :: t < |s.tokens| && s.tokens[t].hash == Sha256(refresh) && s.tokens[t].status == Used then
              && o.result.error == RefreshReuseDetected && o.tables.users == s.users
              && exists t: TokenId :: t < |s.tokens| && s.tokens[t].hash == Sha256(refresh)
                                      && EndsExactly(s, o.tables, k => k == s.tokens[t].session)
            else o == Outcome(s, Err(RefreshInvalid))
  {
    if t: TokenId :| t < |s.tokens| && s.tokens[t].hash == Sha256(refresh) && s.tokens[t].status == Used {
      assert FindToken(s.tokens, Sha256(refresh)) == Some(t);
      LogoutRevokesFamily(s, now, s.tokens[t].session);
      FamilyEndsOne(s, now, s.tokens[t].session);
    }
  }
}
