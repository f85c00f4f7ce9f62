/** The identity service as an object over mutable tables, each call proved to be its specification. */
module LocalIdentity {
  import opened Wrappers
  import opened Identity

  class LocalIdentityService {
    const settings: Settings
    var users: seq<User>
    var sessions: seq<Session>
    var tokens: seq<RefreshToken>
    var nextSecret: Secret

    ghost function Contents(): Tables
      reads this
    {
      Tables(users, sessions, tokens, nextSecret)
    }

    ghost predicate Valid()
      reads this
    {
      Closed(Contents())
    }

    constructor (settings: Settings)
      ensures Valid() && Contents() == NoUsers && this.settings == settings
    {
      this.settings := settings;
      users, sessions, tokens, nextSecret := [], [], [], 0;
    }

    method DrawSecret() returns (secret: Secret)
      modifies this`nextSecret
      ensures secret == old(nextSecret) && nextSecret == secret + 1
    {
      secret := nextSecret;
      nextSecret := nextSecret + 1;
    }

    method CreateUser(name: string, passwordLength: nat) returns (r: Result<UserId, AuthenticationError>)
      requires Valid()
      modifies this`users
      ensures Valid() && Identity.Outcome(Contents(), r) == Identity.CreateUser(old(Contents()), name, passwordLength)
    {
      if |name| < 3 || passwordLength < 12 || FindUser(users, name).Some? {
        return Err(InvalidRegistration);
      }
      users := users + [User(name, 1, true)];
      r := Ok(|users| - 1);
    }

    method IssueTokensIn(session: SessionId, version: nat, now: int, csrf: Option<Secret>)
      returns (issued: SessionTokens)
      requires Valid() && session < |sessions|
      modifies this
      ensures Valid()
      ensures (Contents(), issued) == IssueTokens(settings, old(Contents()), session, version, now, csrf)
    {
      var row := sessions[session];
      var refresh := DrawSecret();
      var csrfToken;
      if csrf.Some? {
        csrfToken := csrf.value;
      } else {
        csrfToken := DrawSecret();
      }
      tokens := tokens + [RefreshToken(row.family, session, Sha256(refresh), Active,
                                       now + settings.refreshLifetime, None, None)];
      sessions := sessions[session := row.(csrf := Sha256(csrfToken))];
      var access := Sign(settings, Payload(row.user, session, version, now + settings.accessLifetime));
      issued := SessionTokens(access, refresh, csrfToken, session, row.family);
    }

    method CreateSession(user: UserId, version: nat, now: int) returns (issued: SessionTokens)
      requires Valid() && user < |users|
      modifies this
      ensures Valid()
      ensures (Contents(), issued) == OpenSession(settings, old(Contents()), now, user, version)
    {
      var family := DrawSecret();
      var csrf := DrawSecret();
      sessions := sessions + [Session(user, family, Sha256(csrf), true, now + settings.refreshLifetime)];
      issued := IssueTokensIn(|sessions| - 1, version, now, Some(csrf));
    }

    method CreateLocalSession(name: string, now: int)
      returns (r: Result<(UserId, SessionTokens), AuthenticationError>)
      requires Valid()
      modifies this
      ensures Valid()
      ensures Identity.Outcome(Contents(), r) == Identity.CreateLocalSession(settings, old(Contents()), now, name)
    {
      if |name| < 3 {
        return Err(InvalidRegistration);
      }
      var found := FindUser(users, name);
      var user, version;
      if found.Some? {
        user := found.value;
        if !users[user].active {
          return Err(AuthenticationFailed);
        }
        version := users[user].version;
      } else {
        user, version := |users|, 1;
        users := users + [User(name, version, true)];
      }
      var issued := CreateSession(user, version, now);
      r := Ok((user, issued));
    }

    method Login(name: string, passwordMatches: bool, now: int)
      returns (r: Result<SessionTokens, AuthenticationError>)
      requires Valid()
      modifies this
      ensures Valid()
      ensures Identity.Outcome(Contents(), r)
           == Identity.Login(settings, old(Contents()), now, name, passwordMatches)
    {
      var found := FindUser(users, name);
      if found.None? || !users[found.value].active || !passwordMatches {
        return Err(AuthenticationFailed);
      }
      var issued := CreateSession(found.value, users[found.value].version, now);
      r := Ok(issued);
    }

    method RevokeFamilyIn(family: Secret, now: int)
      requires Valid()
      modifies this`tokens, this`sessions
      ensures Valid() && Contents() == RevokeFamily(old(Contents()), family, now)
    {
      var ts, ss := tokens, sessions;
      tokens := seq(|ts|, t requires 0 <= t < |ts| =>
        if ts[t].family == family && ts[t].status != Revoked
        then ts[t].(status := Revoked, revokedAt := Some(now)) else ts[t]);
      sessions := seq(|ss|, i requires 0 <= i < |ss| =>
        if ss[i].family == family then ss[i].(active := false) else ss[i]);
    }

    method Refresh(refresh: Secret, csrf: Secret, now: int)
      returns (r: Result<SessionTokens, AuthenticationError>)
      requires Valid()
      modifies this
      ensures Valid()
      ensures Identity.Outcome(Contents(), r)
           == Identity.Refresh(settings, old(Contents()), now, refresh, csrf)
    {
      var found := FindToken(tokens, Sha256(refresh));
      if found.None? {
        return Err(RefreshInvalid);
      }
      var token := tokens[found.value];
      var session := sessions[token.session];
      var user := users[session.user];
      if token.status == Used {
        RevokeFamilyIn(token.family, now);
        return Err(RefreshReuseDetected);
      }
      if token.status != Active || !session.active || !user.active || token.expiresAt <= now
         || session.csrf != Sha256(csrf) {
        return Err(RefreshInvalid);
      }
      tokens := tokens[found.value := token.(status := Used, usedAt := Some(now))];
      var issued := IssueTokensIn(token.session, user.version, now, None);
      r := Ok(issued);
    }

    method VerifyAccess(token: AccessToken, now: int) returns (r: Result<Payload, AuthenticationError>)
      requires Valid()
      ensures r == Identity.VerifyAccess(settings, Contents(), now, token)
    {
      var p := token.payload;
      if token.signature != Hmac(settings.signingKey, p) {
        return Err(AccessInvalid);
      }
      if p.exp <= now {
        return Err(AccessExpired);
      }
      if p.sid >= |sessions| || sessions[p.sid].user != p.sub {
        return Err(AccessRevoked);
      }
      if !sessions[p.sid].active || !users[p.sub].active || users[p.sub].version != p.ver {
        return Err(AccessRevoked);
      }
      r := Ok(p);
    }

    method Logout(session: SessionId, now: int)
      requires Valid()
      modifies this`tokens, this`sessions
      ensures Valid() && Contents() == Identity.Logout(old(Contents()), now, session)
    {
      if session < |sessions| {
        var family := sessions[session].family;
        sessions := sessions[session := sessions[session].(active := false)];
        RevokeFamilyIn(family, now);
      }
    }

    method RevokeSession(user: UserId, session: SessionId, now: int) returns (r: Result<(), AuthenticationError>)
      requires Valid()
      modifies this`tokens, this`sessions
      ensures Valid()
      ensures Identity.Outcome(Contents(), r) == Identity.RevokeSession(old(Contents()), now, user, session)
    {
      if session >= |sessions| || sessions[session].user != user {
        return Err(SessionNotFound);
      }
      Logout(session, now);
      r := Ok(());
    }

    method RevokeAllSessions(user: UserId, now: int)
      requires Valid()
      modifies this`users, this`sessions, this`tokens
      ensures Valid() && Contents() == Identity.RevokeAllSessions(old(Contents()), now, user)
    {
      var ts, ss := tokens, sessions;
      sessions := seq(|ss|, i requires 0 <= i < |ss| =>
        if ss[i].user == user then ss[i].(active := false) else ss[i]);
      tokens := seq(|ts|, t requires 0 <= t < |ts| && ts[t].session < |ss| =>
        if ss[ts[t].session].user == user && ts[t].status == Active
        then ts[t].(status := Revoked, revokedAt := Some(now)) else ts[t]);
      if user < |users| {
        users := users[user := users[user].(version := users[user].version + 1)];
      }
    }

    method ChangePassword(user: UserId, passwordMatches: bool, newLength: nat, now: int)
      returns (r: Result<(), AuthenticationError>)
      requires Valid()
      modifies this`users, this`sessions, this`tokens
      ensures Valid()
      ensures Identity.Outcome(Contents(), r)
           == Identity.ChangePassword(old(Contents()), now, user, passwordMatches, newLength)
    {
      if newLength < 12 {
        return Err(InvalidPassword);
      }
      if user >= |users| || !users[user].active || !passwordMatches {
        return Err(AuthenticationFailed);
      }
      RevokeAllSessions(user, now);
      r := Ok(());
    }
  }
}
