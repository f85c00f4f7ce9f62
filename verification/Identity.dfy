/**
 Sessions and rotating refresh tokens. As in the control plane store, a transaction is
 a function from the tables to new tables and a result; detecting a replayed token
 commits the revocation of its family and still fails.
 */
module Identity {
  import opened Wrappers

  type UserId = nat
  type SessionId = nat
  type TokenId = nat

  // Family ids, refresh tokens and CSRF tokens are draws from one counter.
  type Secret = nat

  datatype User = User(name: string, version: nat, active: bool)

  datatype Session = Session(user: UserId, family: Secret, csrf: Digest<Secret>, active: bool, expiresAt: int)

  datatype RefreshStatus = Active | Used | Revoked

  datatype RefreshToken = RefreshToken(
    family: Secret,
    session: SessionId,
    hash: Digest<Secret>,
    status: RefreshStatus,
    expiresAt: int,
    usedAt: Option<int>,
    revokedAt: Option<int>)

  datatype Tables = Tables(
    users: seq<User>,
    sessions: seq<Session>,
    tokens: seq<RefreshToken>,
    nextSecret: Secret)

  const NoUsers := Tables([], [], [], 0)

  datatype Settings = Settings(signingKey: string, accessLifetime: int, refreshLifetime: int)

  datatype Payload = Payload(sub: UserId, sid: SessionId, ver: nat, exp: int)

  /** HMAC-SHA-256 taken as injective in key and message. */
  datatype Signature = Hmac(key: string, payload: Payload)

  datatype AccessToken = AccessToken(payload: Payload, signature: Signature)

  datatype SessionTokens = SessionTokens(
    access: AccessToken,
    refresh: Secret,
    csrf: Secret,
    session: SessionId,
    family: Secret)

  datatype AuthenticationError =
    | InvalidRegistration | AuthenticationFailed | SessionNotFound | InvalidPassword
    | RefreshInvalid | RefreshReuseDetected
    | AccessInvalid | AccessExpired | AccessRevoked

  datatype Outcome<+T> = Outcome(tables: Tables, result: Result<T, AuthenticationError>)

  function Sign(settings: Settings, payload: Payload): AccessToken {
    AccessToken(payload, Hmac(settings.signingKey, payload))
  }

  /** Foreign keys hold. */
  ghost predicate Closed(s: Tables) {
    && (forall i :: 0 <= i < |s.sessions| ==> s.sessions[i].user < |s.users|)
    && (forall t :: 0 <= t < |s.tokens| ==> s.tokens[t].session < |s.sessions|)
  }

  function FindUser(users: seq<User>, name: string): (found: Option<UserId>)
    ensures found.Some? ==> found.value < |users| && users[found.value].name == name
    ensures found.None? ==> forall u :: 0 <= u < |users| ==> users[u].name != name
  {
    if |users| == 0 then None
    else
      var last := |users| - 1;
      if users[last].name == name then Some(last) else FindUser(users[..last], name)
  }

  function FindToken(tokens: seq<RefreshToken>, hash: Digest<Secret>): (found: Option<TokenId>)
    ensures found.Some? ==> found.value < |tokens| && tokens[found.value].hash == hash
    ensures found.None? ==> forall t :: 0 <= t < |tokens| ==> tokens[t].hash != hash
  {
    if |tokens| == 0 then None
    else
      var last := |tokens| - 1;
      if tokens[last].hash == hash then Some(last) else FindToken(tokens[..last], hash)
  }

  // ---------------------------------------------------------------- statements

  /** The two UPDATE statements that revoke a family. */
  function RevokeFamily(s: Tables, family: Secret, now: int): (r: Tables)
    ensures |r.sessions| == |s.sessions| && |r.tokens| == |s.tokens|
    ensures r.users == s.users && r.nextSecret == s.nextSecret
  {
    s.(tokens := seq(|s.tokens|, t requires 0 <= t < |s.tokens| =>
         if s.tokens[t].family == family && s.tokens[t].status != Revoked
         then s.tokens[t].(status := Revoked, revokedAt := Some(now)) else s.tokens[t]),
       sessions := seq(|s.sessions|, i requires 0 <= i < |s.sessions| =>
         if s.sessions[i].family == family then s.sessions[i].(active := false) else s.sessions[i]))
  }

  /** The statements that revoke every session of a user; only its active tokens are revoked. */
  function RevokeUser(s: Tables, user: UserId, now: int): (r: Tables)
    requires Closed(s)
    ensures |r.sessions| == |s.sessions| && |r.tokens| == |s.tokens|
    ensures r.users == s.users && r.nextSecret == s.nextSecret
  {
    s.(tokens := seq(|s.tokens|, t requires 0 <= t < |s.tokens| =>
         if s.sessions[s.tokens[t].session].user == user && s.tokens[t].status == Active
         then s.tokens[t].(status := Revoked, revokedAt := Some(now)) else s.tokens[t]),
       sessions := seq(|s.sessions|, i requires 0 <= i < |s.sessions| =>
         if s.sessions[i].user == user then s.sessions[i].(active := false) else s.sessions[i]))
  }

  function BumpVersion(s: Tables, user: UserId): Tables {
    if user >= |s.users| then s
    else s.(users := s.users[user := s.users[user].(version := s.users[user].version + 1)])
  }

  /** Inserts a refresh token and rotates the CSRF token of its session. */
  function IssueTokens(settings: Settings, s: Tables, session: SessionId, version: nat, now: int,
                       csrf: Option<Secret>): (r: (Tables, SessionTokens))
    requires Closed(s) && session < |s.sessions|
    ensures Closed(r.0)
  {
    var refresh := s.nextSecret;
    var csrfToken := if csrf.Some? then csrf.value else refresh + 1;
    var row := s.sessions[session];
    (s.(tokens := s.tokens + [RefreshToken(row.family, session, Sha256(refresh), Active,
                                           now + settings.refreshLifetime, None, None)],
        sessions := s.sessions[session := row.(csrf := Sha256(csrfToken))],
        nextSecret := if csrf.Some? then refresh + 1 else refresh + 2),
     SessionTokens(Sign(settings, Payload(row.user, session, version, now + settings.accessLifetime)),
                   refresh, csrfToken, session, row.family))
  }

  // -------------------------------------------------------------- transactions

  function CreateUser(s: Tables, name: string, passwordLength: nat): Outcome<UserId> {
    if |name| < 3 || passwordLength < 12 || FindUser(s.users, name).Some? then Outcome(s, Err(InvalidRegistration))
    else Outcome(s.(users := s.users + [User(name, 1, true)]), Ok(|s.users|))
  }

  /** Opens a session with a family of its own. The version was read by an earlier transaction. */
  function OpenSession(settings: Settings, s: Tables, now: int, user: UserId, version: nat)
    : (r: (Tables, SessionTokens))
    requires Closed(s) && user < |s.users|
    ensures Closed(r.0)
  {
    var family, csrf := s.nextSecret, s.nextSecret + 1;
    var inserted := s.(
      sessions := s.sessions + [Session(user, family, Sha256(csrf), true, now + settings.refreshLifetime)],
      nextSecret := s.nextSecret + 2);
    IssueTokens(settings, inserted, |s.sessions|, version, now, Some(csrf))
  }

  function Refresh(settings: Settings, s: Tables, now: int, refresh: Secret, csrf: Secret)
    : (o: Outcome<SessionTokens>)
    requires Closed(s)
    ensures Closed(o.tables)
  {
    match FindToken(s.tokens, Sha256(refresh))
    case None => Outcome(s, Err(RefreshInvalid))
    case Some(t) =>
      var token := s.tokens[t];
      var session := s.sessions[token.session];
      var user := s.users[session.user];
      if token.status == Used then Outcome(RevokeFamily(s, token.family, now), Err(RefreshReuseDetected))
      else if token.status != Active || !session.active || !user.active || token.expiresAt <= now
              || session.csrf != Sha256(csrf) then
        Outcome(s, Err(RefreshInvalid))
      else
        var spent := s.(tokens := s.tokens[t := token.(status := Used, usedAt := Some(now))]);
        var (tables, issued) := IssueTokens(settings, spent, token.session, user.version, now, None);
        Outcome(tables, Ok(issued))
  }

  function VerifyAccess(settings: Settings, s: Tables, now: int, token: AccessToken)
    : (r: Result<Payload, AuthenticationError>)
    requires Closed(s)
  {
    var p := token.payload;
    if token.signature != Hmac(settings.signingKey, p) then Err(AccessInvalid)
    else if p.exp <= now then Err(AccessExpired)
    else if p.sid >= |s.sessions| || s.sessions[p.sid].user != p.sub then Err(AccessRevoked)
    else if !s.sessions[p.sid].active || !s.users[p.sub].active || s.users[p.sub].version != p.ver then
      Err(AccessRevoked)
    else Ok(p)
  }

  function Logout(s: Tables, now: int, session: SessionId): (r: Tables)
    requires Closed(s)
    ensures Closed(r)
  {
    if session >= |s.sessions| then s
    else
      RevokeFamily(s.(sessions := s.sessions[session := s.sessions[session].(active := false)]),
                   s.sessions[session].family, now)
  }

  /** The writing transaction of change_password, and all of revoke_all_sessions. */
  function RevokeAllSessions(s: Tables, now: int, user: UserId): (r: Tables)
    requires Closed(s)
    ensures Closed(r)
  {
    BumpVersion(RevokeUser(s, user, now), user)
  }

  // --------------------------------------------------------------------- calls

  // Password hashing is foreign code: a call takes whether the password matched.

  function CreateLocalSession(settings: Settings, s: Tables, now: int, name: string)
    : (o: Outcome<(UserId, SessionTokens)>)
    requires Closed(s)
    ensures Closed(o.tables)
  {
    if |name| < 3 then Outcome(s, Err(InvalidRegistration))
    else
      match FindUser(s.users, name)
      case Some(user) =>
        if !s.users[user].active then Outcome(s, Err(AuthenticationFailed))
        else
          var (tables, issued) := OpenSession(settings, s, now, user, s.users[user].version);
          Outcome(tables, Ok((user, issued)))
      case None =>
        var user := |s.users|;
        var (tables, issued) :=
          OpenSession(settings, s.(users := s.users + [User(name, 1, true)]), now, user, 1);
        Outcome(tables, Ok((user, issued)))
  }

  function Login(settings: Settings, s: Tables, now: int, name: string, passwordMatches: bool)
    : (o: Outcome<SessionTokens>)
    requires Closed(s)
    ensures Closed(o.tables)
  {
    match FindUser(s.users, name)
    case None => Outcome(s, Err(AuthenticationFailed))
    case Some(user) =>
      if !s.users[user].active || !passwordMatches then Outcome(s, Err(AuthenticationFailed))
      else
        var (tables, issued) := OpenSession(settings, s, now, user, s.users[user].version);
        Outcome(tables, Ok(issued))
  }

  function ChangePassword(s: Tables, now: int, user: UserId, passwordMatches: bool, newLength: nat)
    : (o: Outcome<()>)
    requires Closed(s)
    ensures Closed(o.tables)
  {
    if newLength < 12 then Outcome(s, Err(InvalidPassword))
    else if user >= |s.users| || !s.users[user].active || !passwordMatches then
      Outcome(s, Err(AuthenticationFailed))
    else Outcome(RevokeAllSessions(s, now, user), Ok(()))
  }

  function RevokeSession(s: Tables, now: int, user: UserId, session: SessionId): (o: Outcome<()>)
    requires Closed(s)
    ensures Closed(o.tables)
  {
    if session >= |s.sessions| || s.sessions[session].user != user then Outcome(s, Err(SessionNotFound))
    else Outcome(Logout(s, now, session), Ok(()))
  }
}
