/** Revocation, rotation and access tokens over every run of identity calls. */
module SessionRuns {
  import opened Errors
  import opened Keycloak
  import opened Identity
  import opened IdentityLaws
  import opened IdentityRuns
  import Text

  // ---------- what time never undoes

  /** Sessions keep their user and are never active again once revoked. */
  ghost predicate SessionsLater(a: map<Id, Session>, b: map<Id, Session>) {
    forall k | k in a :: k in b && b[k].user == a[k].user && (b[k].active ==> a[k].active)
  }

  /** Users keep their principal, and credentials their subject. */
  ghost predicate AccountsLater(users: map<Id, User>, credentials: map<Id, Credential>,
                                users2: map<Id, User>, credentials2: map<Id, Credential>) {
    && (forall u | u in users ::
        u in users2 && users2[u].principal == users[u].principal && users2[u].email == users[u].email)
    && (forall u | u in users && users[u].principal in credentials ::
          users[u].principal in credentials2
          && credentials2[users[u].principal].subject == credentials[users[u].principal].subject)
  }

  ghost predicate RealmsLater(a: map<string, string>, b: map<string, string>) {
    forall r | r in a :: r in b && b[r] == a[r]
  }

  ghost predicate ResetsLater(a: map<Id, ResetToken>, b: map<Id, ResetToken>) {
    forall k | k in a :: k in b && b[k].user == a[k].user && (a[k].used ==> b[k].used)
  }

  ghost predicate Later(s: Store, t: Store) {
    && SessionsLater(s.sessions, t.sessions)
    && AccountsLater(s.users, s.credentials, t.users, t.credentials)
    && RealmsLater(s.realms, t.realms)
    && ResetsLater(s.resets, t.resets)
  }

  lemma LaterTrans(s: Store, t: Store, z: Store)
    requires Later(s, t) && Later(t, z)
    ensures Later(s, z)
  {
  }

  lemma LaterSame(s: Store, t: Store)
    requires s.sessions == t.sessions && s.users == t.users && s.credentials == t.credentials
    requires s.realms == t.realms && s.resets == t.resets
    ensures Later(s, t)
  {
  }

  lemma RevokesLater(a: map<Id, Session>, b: map<Id, Session>)
    requires OnlyRevokes(a, b)
    ensures SessionsLater(a, b)
  {
  }

  lemma IssueLater(s: Store, w: Store, u: Id, subject: Subject, issuer: string, now: Time)
    requires w == s.(idp := w.idp) && s.nextId !in s.sessions
    ensures Later(s, Issue(w, u, subject, issuer, now).0)
  {
  }

  lemma NoSessionYet(s: Store)
    requires Inv(s)
    ensures s.nextId !in s.sessions && s.nextId !in s.resets
    ensures forall u | u in s.users :: u < s.nextId && s.users[u].principal < s.nextId
  {
    assert s.nextId !in s.issued;
  }

  lemma LoginLater(s: Store, email: string, password: Password, hint: Option<string>, fault: Fault, now: Time)
    requires Inv(s)
    ensures Later(s, Login(s, email, password, hint, fault, now).0)
  {
    NoSessionYet(s);
    hide Inv, Login, Issue, Later;
    match UserByEmail(s.users, email)
    case None =>
      UnknownEmail(s, email, password, hint, fault, now);
      LaterSame(s, s);
    case Some(u) =>
      LoginShape(s, u, email, password, hint, fault, now);
      var subject, w := s.credentials[s.users[u].principal].subject, WithPassword(s, u, password);
      LaterSame(s, s);
      LaterSame(s, w);
      IssueLater(s, s, u, subject, s.realms[PLATFORM], now);
      IssueLater(s, w, u, subject, s.realms[PLATFORM], now);
  }

  lemma RefreshLater(s: Store, token: Id, sid: Id, now: Time)
    requires Inv(s)
    ensures Later(s, Refresh(s, token, sid, now).0)
  {
    RefreshExactly(s, token, sid, now);
    hide Inv, Refresh, Later;
    LaterSame(s, s);
    if sid in s.sessions && s.sessions[sid].active {
      OneSessionLater(s, Revoke(s, sid), sid);
      OneSessionLater(s, Rotated(s, sid, now), sid);
    }
  }

  lemma OneSessionLater(s: Store, t: Store, sid: Id)
    requires sid in s.sessions && s.sessions[sid].active && s.users == t.users && s.credentials == t.credentials
    requires s.realms == t.realms && s.resets == t.resets
    requires sid in t.sessions && t.sessions == s.sessions[sid := t.sessions[sid]]
        && t.sessions[sid].user == s.sessions[sid].user
    ensures Later(s, t)
  {
  }

  lemma ResetLater(s: Store, id: Id, secret: Id, password: Password, valid: bool, fault: Fault, now: Time)
    requires Inv(s)
    ensures Later(s, ResetPassword(s, id, secret, password, valid, fault, now).0)
  {
    ResetShape(s, id, secret, password, valid, fault, now);
    hide Inv, ResetPassword, PasswordSet, Later, SpendReset;
    LaterSame(s, s);
    if valid && ValidReset(s, id, secret, now) {
      var u, spent := s.resets[id].user, SpendReset(s, id);
      SpendLater(s, id);
      SpendFrame(s, id);
      LaterSame(spent, WithPassword(spent, u, password));
      LaterTrans(s, spent, WithPassword(spent, u, password));
      HashLater(WithPassword(spent, u, password), u, password);
      LaterTrans(s, WithPassword(spent, u, password), WithHash(WithPassword(spent, u, password), u, password));
    }
  }

  lemma SpendLater(s: Store, id: Id)
    requires id in s.resets
    ensures Later(s, SpendReset(s, id))
  {
  }

  lemma HashLater(s: Store, u: Id, password: Password)
    requires u in s.users && s.users[u].principal in s.credentials
    ensures Later(s, WithHash(s, u, password))
  {
  }

  lemma UserLater(s: Store, t: Store, principal: Id, u: Id, user: User, credential: Credential)
    requires u !in s.users && (forall v | v in s.users :: s.users[v].principal != principal)
    requires t.sessions == s.sessions && t.realms == s.realms && t.resets == s.resets
    requires t.users == s.users[u := user] && t.credentials == s.credentials[principal := credential]
    ensures Later(s, t)
  {
  }

  lemma RegisterLater(s: Store, email: string, password: Password, valid: bool, course: Course, otp: string, now: Time)
    requires Inv(s)
    ensures Later(s, Register(s, email, password, valid, course, otp, now).0)
  {
    NoSessionYet(s);
    RegisterShape(s, email, password, valid, course, otp, now);
    hide Inv, Later, Text.Lower, Register, Enrols;
    var t := Register(s, email, password, valid, course, otp, now).0;
    if Enrols(s, email, valid, course) {
      var user := User(s.nextId, Text.Lower(email), PendingVerification);
      UserLater(s, t, s.nextId, s.nextId + 1, user, Credential(PLATFORM, s.nextId + 2, Some(Digest(password))));
    } else {
      LaterSame(s, t);
    }
  }

  lemma SessionsOnlyLater(s: Store, sessions: map<Id, Session>)
    requires OnlyRevokes(s.sessions, sessions)
    ensures Later(s, s.(sessions := sessions))
  {
  }

  lemma StatusLater(s: Store, u: Id, status: UserStatus, principal: PrincipalStatus)
    requires u in s.users
    ensures Later(s, SetStatus(s, u, status, principal))
  {
  }

  lemma StatusStepLater(s: Store, cmd: Command)
    requires cmd.DoRevokeAccess? || cmd.DoSuspend? || cmd.DoReinstate? || cmd.DoBlock?
    ensures Later(s, Apply(s, cmd).0)
  {
    hide Later, SetStatus, RevokeAll;
    LaterSame(s, s);
    if cmd.user in s.users {
      ShutOutLater(s, cmd.user, Locked);
      ShutOutLater(s, cmd.user, Blocked);
      StatusLater(s, cmd.user, Active, PrincipalActive);
    }
  }

  lemma ShutOutLater(s: Store, u: Id, status: UserStatus)
    requires u in s.users
    ensures Later(s, ShutOut(s, u, status))
  {
    var t := SetStatus(s, u, status, PrincipalLocked);
    StatusLater(s, u, status, PrincipalLocked);
    RevokedMany(s.sessions, {u});
    assert t.sessions == s.sessions;
    hide Later, SetStatus, RevokeAll;
    SessionsOnlyLater(t, RevokeAll(s.sessions, {u}));
    LaterTrans(s, t, ShutOut(s, u, status));
  }

  lemma VerifyLater(s: Store, email: string, code: string, now: Time)
    ensures Later(s, VerifyEmail(s, email, code, now).0)
  {
    hide Later, SetStatus;
    LaterSame(s, s);
    match UserByEmail(s.users, email)
    case None =>
    case Some(u) => StatusLater(s, u, Active, PrincipalActive);
  }

  lemma RequestLater(s: Store, email: string, now: Time)
    requires Inv(s)
    ensures Later(s, RequestReset(s, email, now))
  {
    hide Inv, UserByEmail, Later;
    NoSessionYet(s);
    var t := RequestReset(s, email, now);
    if t != s {
      ResetAdded(s, t, t.resets[s.nextId]);
    } else {
      LaterSame(s, s);
    }
  }

  lemma ResetAdded(s: Store, t: Store, r: ResetToken)
    requires s.nextId !in s.resets && t.resets == s.resets[s.nextId := r]
    requires s.sessions == t.sessions && s.users == t.users && s.credentials == t.credentials && s.realms == t.realms
    ensures Later(s, t)
  {
  }

  lemma OtherLater(s: Store, cmd: Command)
    requires Inv(s) && IsOther(cmd)
    ensures Later(s, Apply(s, cmd).0)
  {
    hide Inv, Later, Login, Register, Refresh, ResetPassword, VerifyEmail, RequestReset, NewRealm,
         RevokePrincipalAccess, SuspendUser, ReinstateUser, BlockUser;
    match cmd
    case DoVerify(email, code, now) => VerifyLater(s, email, code, now);
    case DoRequestReset(email, now) => RequestLater(s, email, now);
    case AddRealm(name, issuer) => RealmLater(s, name, issuer);
    case IdpRestart => LaterSame(s, s.(idp := RESTARTED));
    case DoRevokeAccess(_, _) => StatusStepLater(s, cmd);
    case DoSuspend(_, _) => StatusStepLater(s, cmd);
    case DoReinstate(_, _) => StatusStepLater(s, cmd);
    case DoBlock(_, _) => StatusStepLater(s, cmd);
    case _ =>
      hide Apply;
      RevokeStep(s, cmd);
      SessionsOnlyLater(s, Apply(s, cmd).0.sessions);
  }

  lemma RealmLater(s: Store, name: string, issuer: string)
    ensures Later(s, NewRealm(s, name, issuer).0)
  {
    hide SessionsLater, AccountsLater, ResetsLater;
    LaterSame(s, s);
  }

  lemma StepLater(s: Store, cmd: Command)
    requires Inv(s)
    ensures Later(s, Apply(s, cmd).0)
  {
    hide Inv, Later, Login, Register, Refresh, ResetPassword;
    match cmd
    case DoRegister(email, password, valid, course, otp, now) =>
      RegisterLater(s, email, password, valid, course, otp, now);
    case DoLogin(email, password, hint, fault, now) => LoginLater(s, email, password, hint, fault, now);
    case DoRefresh(token, sid, now) => RefreshLater(s, token, sid, now);
    case DoReset(id, secret, password, valid, fault, now) => ResetLater(s, id, secret, password, valid, fault, now);
    case _ => OtherLater(s, cmd);
  }

  lemma {:induction false} RunLater(s: Store, cmds: seq<Command>)
    requires Inv(s)
    ensures Inv(Run(s, cmds)) && Later(s, Run(s, cmds))
    decreases |cmds|
  {
    RunKeeps(s, cmds);
    hide Inv, Later, Apply;
    if cmds == [] {
      LaterSame(s, s);
    } else {
      var prior := cmds[..|cmds| - 1];
      RunLater(s, prior);
      StepLater(Run(s, prior), Last(cmds));
      LaterTrans(s, Run(s, prior), Run(s, cmds));
    }
  }

  // ---------- revocation is final

  /** Neither the refresh token nor any access token of the session is good for anything. */
  ghost predicate Dead(s: Store, sid: Id) {
    && (forall token, now :: Refresh(s, token, sid, now) == (s, Failed(Unauthorized)))
    && (forall a: AccessToken, now, u | a.sid == sid :: !Resolves(s, a, now, u))
  }

  /** A revoked session is dead in every later state, whatever is reinstated in between. */
  lemma RevokedIsFinal(s: Store, sid: Id, cmds: seq<Command>)
    requires Inv(s) && sid in s.sessions && !s.sessions[sid].active
    ensures Dead(Run(s, cmds), sid)
  {
    RunLater(s, cmds);
    hide Inv;
  }

  /** The accepted calls that must end every session of a user. */
  ghost predicate Shuts(s: Store, cmd: Command, u: Id) {
    match cmd
    case DoRevokeAccess(permitted, v) => permitted && u == v && u in s.users
    case DoSuspend(operator, v) => operator && u == v && u in s.users && s.users[u].status != Blocked
    case DoBlock(operator, v) => operator && u == v && u in s.users
    case DoReset(id, secret, _, valid, _, now) => valid && ValidReset(s, id, secret, now) && s.resets[id].user == u
    case DoRevokeSessionsOf(users) => u in users
    case _ => false
  }

  lemma ShutStep(s: Store, cmd: Command, u: Id, sid: Id)
    requires Inv(s) && Shuts(s, cmd, u) && sid in s.sessions && s.sessions[sid].user == u
    ensures var t := Apply(s, cmd).0; sid in t.sessions && !t.sessions[sid].active
  {
    RevokedMany(s.sessions, {u});
    hide Login, Register, Refresh, UserByEmail;
    match cmd
    case DoReset(id, secret, password, valid, fault, now) =>
      ResetShape(s, id, secret, password, valid, fault, now);
      hide Inv, PasswordSet, ResetPassword;
    case _ => hide Inv, ResetPassword;
  }

  /** Locking, suspending or blocking a user, a password reset (even one that fails at the provider)
      and a tenant suspension end all of the user's sessions for good. */
  lemma ShutOutIsFinal(s: Store, cmd: Command, u: Id, sid: Id, cmds: seq<Command>)
    requires Inv(s) && Shuts(s, cmd, u) && sid in s.sessions && s.sessions[sid].user == u
    ensures Dead(Run(Apply(s, cmd).0, cmds), sid)
  {
    ShutStep(s, cmd, u, sid);
    StepKeeps(s, cmd);
    hide Inv, Apply, Shuts, Dead;
    RevokedIsFinal(Apply(s, cmd).0, sid, cmds);
  }

  /** In every reachable state a user is active exactly when the principal is, an active session belongs
      to an active user and holds a refresh digest, and a revoked one holds none. */
  lemma StatusesAgree(issuer: string, cmds: seq<Command>)
    ensures var z := Run(Start(issuer), cmds);
      && (forall u | u in z.users ::
            && z.users[u].principal in z.principals
            && (z.users[u].status == Active <==> z.principals[z.users[u].principal] == PrincipalActive))
      && (forall k | k in z.sessions ::
            && (z.sessions[k].active <==> z.sessions[k].refresh.Some?)
            && (z.sessions[k].active ==> z.sessions[k].user in z.users && z.users[z.sessions[k].user].status == Active))
  {
    StartOk(issuer);
    RunKeeps(Start(issuer), cmds);
    hide Run, Distinct, IdpOk, ChainsOk, IdsOk, ResetsOk, RealmsOk;
  }

  // ---------- rotation

  /** In every run, the refresh tokens that a session has accepted are the ones it was issued, in
      order and without repetition, all but the last; a session that was never opened has neither. */
  lemma RefreshChain(issuer: string, cmds: seq<Command>, sid: Id)
    ensures var issued, accepted := IssuedIn(Start(issuer), cmds, sid), AcceptedIn(Start(issuer), cmds, sid);
      && NoRepeats(issued)
      && (if sid in Run(Start(issuer), cmds).sessions then |issued| > 0 && accepted == issued[..|issued| - 1]
          else issued == [] && accepted == [])
  {
    StartOk(issuer);
    RunKeeps(Start(issuer), cmds);
    HistoryRun(issuer, cmds);
    Chain(Run(Start(issuer), cmds), sid);
    hide Inv, NoRepeats, Run, IssuedIn, AcceptedIn;
  }

  lemma Chain(s: Store, sid: Id)
    requires Inv(s)
    ensures sid in s.sessions <==> sid in s.issued
    ensures sid in s.sessions <==> sid in s.accepted
    ensures NoRepeats(At(s.issued, sid))
    ensures sid in s.sessions ==> |s.issued[sid]| > 0 && s.accepted[sid] == s.issued[sid][..|s.issued[sid]| - 1]
  {
  }

  /** Presenting a token that has already been rotated out kills its session for good. */
  lemma ReplayIsFatal(issuer: string, cmds: seq<Command>, sid: Id, i: nat, now: Time, more: seq<Command>)
    requires i + 1 < |IssuedIn(Start(issuer), cmds, sid)|
    ensures var z := Run(Start(issuer), cmds);
      var (y, reply) := Refresh(z, IssuedIn(Start(issuer), cmds, sid)[i], sid, now);
      reply == Failed(Unauthorized) && Dead(Run(y, more), sid)
  {
    StartOk(issuer);
    RunKeeps(Start(issuer), cmds);
    HistoryRun(issuer, cmds);
    var z := Run(Start(issuer), cmds);
    Chain(z, sid);
    var token := z.issued[sid][i];
    assert token != Last(z.issued[sid]);
    RefreshExactly(z, token, sid, now);
    RefreshKeeps(z, token, sid, now);
    hide Inv, Refresh, Dead;
    RevokedIsFinal(Refresh(z, token, sid, now).0, sid, more);
  }

  // ---------- access tokens

  /** A session in good standing: what the access token of the session depends on, besides time. */
  lemma TokenStands(s: Store, t: Store, a: AccessToken, u: Id, now: Time)
    requires Inv(s) && Inv(t) && Later(s, t)
    requires a.sid in s.sessions && s.sessions[a.sid].user == u && SessionUserOk(s, a.sid)
    requires a.sub == TokenFor(s, a.sid, now).sub && a.iss == TokenFor(s, a.sid, now).iss
    ensures a.sid in t.sessions
    ensures forall at, v :: Resolves(t, a, at, v) <==>
              v == u && at <= a.exp && t.sessions[a.sid].active && at <= t.sessions[a.sid].expiresAt
  {
    if t.sessions[a.sid].active {
      ActiveSession(t, a.sid);
    }
    hide Inv;
  }

  /** An access token from a login resolves, in every later state and to the user who logged in, as
      long as it and its session have not expired and the session has not been revoked. */
  lemma LoginTokenFate(s: Store, u: Id, email: string, password: Password, hint: Option<string>, now: Time,
                       cmds: seq<Command>)
    requires Inv(s) && HasEmail(s.users, u, email)
    ensures var (t, reply) := Login(s, email, password, hint, NoFault, now);
      reply.LoggedIn? ==>
        var z := Run(t, cmds);
        && reply.access.sid in z.sessions
        && forall at, v :: Resolves(z, reply.access, at, v) <==>
             v == u && at <= now + ACCESS_TTL && z.sessions[reply.access.sid].active
                 && at <= z.sessions[reply.access.sid].expiresAt
  {
    hide Inv, Later, Resolves, PasswordSet, Login;
    LoginShape(s, u, email, password, hint, NoFault, now);
    LoginKeeps(s, email, password, hint, NoFault, now);
    var (t, reply) := Login(s, email, password, hint, NoFault, now);
    if reply.LoggedIn? {
      var sid := reply.access.sid;
      assert sid in t.sessions && t.sessions[sid].active && t.sessions[sid].user == u;
      assert t.credentials == s.credentials && t.realms == s.realms && t.users == s.users;
      RunLater(t, cmds);
      ActiveSession(t, sid);
      TokenStands(t, Run(t, cmds), reply.access, u, now);
    }
  }

  /** The same for the access token that comes with a rotation. */
  lemma RefreshTokenFate(s: Store, token: Id, sid: Id, now: Time, cmds: seq<Command>)
    requires Inv(s)
    ensures var (t, reply) := Refresh(s, token, sid, now);
      reply.Refreshed? ==>
        var z := Run(t, cmds);
        && sid in s.sessions && sid in z.sessions
        && forall at, v :: Resolves(z, reply.newAccess, at, v) <==>
             v == s.sessions[sid].user && at <= now + ACCESS_TTL && z.sessions[sid].active
                 && at <= z.sessions[sid].expiresAt
  {
    RefreshExactly(s, token, sid, now);
    RefreshKeeps(s, token, sid, now);
    var (t, reply) := Refresh(s, token, sid, now);
    if reply.Refreshed? {
      hide Refresh, Inv, Later, Resolves;
      RunLater(t, cmds);
      ActiveSession(t, sid);
      assert TokenFor(t, sid, now) == reply.newAccess;
      TokenStands(t, Run(t, cmds), reply.newAccess, s.sessions[sid].user, now);
    }
  }

  // ---------- password resets

  /** A reset token works once: after any reset that spends it, it is refused in every later state. */
  lemma ResetTokenOnce(s: Store, id: Id, secret: Id, password: Password, valid: bool, fault: Fault, now: Time,
                       cmds: seq<Command>, password2: Password, valid2: bool, fault2: Fault, now2: Time)
    requires Inv(s) && valid && ValidReset(s, id, secret, now)
    ensures var z := Run(ResetPassword(s, id, secret, password, valid, fault, now).0, cmds);
      ResetPassword(z, id, secret, password2, valid2, fault2, now2) == (z, Failed(Validation))
  {
    ResetShape(s, id, secret, password, valid, fault, now);
    ResetKeeps(s, id, secret, password, valid, fault, now);
    var t := ResetPassword(s, id, secret, password, valid, fault, now).0;
    SpendFrame(s, id);
    assert SpendReset(s, id).resets[id].used;
    hide Inv, PasswordSet, SpendReset;
    RunLater(t, cmds);
  }

  /** Within its time a requested reset goes through, ends the user's sessions, and leaves the new
      password as the only one that opens a session. */
  lemma ResetRoundTrip(s: Store, u: Id, email: string, now: Time, password: Password, at: Time, sid: Id,
                       guess: Password, later: Time)
    requires Inv(s) && HasEmail(s.users, u, email) && s.users[u].status == Active
    ensures var (t, reply) := ResetPassword(RequestReset(s, email, now), s.nextId, s.nextId + 1, password, true,
                                            NoFault, at);
      && (reply == Fine <==> at <= now + RESET_TTL)
      && (reply == Fine ==>
            && (sid in s.sessions && s.sessions[sid].user == u ==> sid in t.sessions && !t.sessions[sid].active)
            && (Login(t, email, guess, None, NoFault, later).1.LoggedIn? <==> guess == password))
  {
    var asked := RequestReset(s, email, now);
    AskedReset(s, u, email, now, at);
    RequestResetKeeps(s, email, now);
    hide Inv, Login, ResetPassword, RequestReset, HasEmail, ValidReset, Text.Lower;
    if at <= now + RESET_TTL {
      ResetGoesThrough(asked, s.nextId, s.nextId + 1, password, at, sid, email, guess, later);
    } else {
      ResetShape(asked, s.nextId, s.nextId + 1, password, true, NoFault, at);
    }
  }

  lemma ResetGoesThrough(s: Store, id: Id, secret: Id, password: Password, at: Time, sid: Id, email: string,
                         guess: Password, later: Time)
    requires Inv(s) && ValidReset(s, id, secret, at) && s.resets[id].user in s.users
    requires HasEmail(s.users, s.resets[id].user, email) && s.users[s.resets[id].user].status == Active
    ensures var (t, reply) := ResetPassword(s, id, secret, password, true, NoFault, at);
      && reply == Fine
      && (sid in s.sessions && s.sessions[sid].user == s.resets[id].user ==>
          sid in t.sessions && !t.sessions[sid].active)
      && (Login(t, email, guess, None, NoFault, later).1.LoggedIn? <==> guess == password)
  {
    ResetShape(s, id, secret, password, true, NoFault, at);
    hide Inv, Login, ResetPassword, HasEmail, Text.Lower, WithHash, WithPassword, SpendReset;
    ResetLogin(s, id, secret, password, at, email, guess, later);
    if sid in s.sessions && s.sessions[sid].user == s.resets[id].user {
      ResetShuts(s, id, secret, password, at, sid);
    }
  }

  lemma ResetShuts(s: Store, id: Id, secret: Id, password: Password, at: Time, sid: Id)
    requires Inv(s) && ValidReset(s, id, secret, at) && sid in s.sessions && s.sessions[sid].user == s.resets[id].user
    ensures var t := ResetPassword(s, id, secret, password, true, NoFault, at).0;
      sid in t.sessions && !t.sessions[sid].active
  {
    ResetShape(s, id, secret, password, true, NoFault, at);
    RevokedMany(s.sessions, {s.resets[id].user});
    hide Inv, ResetPassword, PasswordSet;
  }

  lemma ResetLogin(s: Store, id: Id, secret: Id, password: Password, at: Time, email: string, guess: Password,
                   later: Time)
    requires Inv(s) && ValidReset(s, id, secret, at) && s.resets[id].user in s.users
    requires HasEmail(s.users, s.resets[id].user, email) && s.users[s.resets[id].user].status == Active
    ensures var t := ResetPassword(s, id, secret, password, true, NoFault, at).0;
      Login(t, email, guess, None, NoFault, later).1.LoggedIn? <==> guess == password
  {
    hide Inv, Login, ResetPassword, InSync, Text.Lower;
    ResetInSync(s, id, secret, password, at);
    InSyncLogin(ResetPassword(s, id, secret, password, true, NoFault, at).0, s.resets[id].user, email, guess, later);
  }

  lemma ResetInSync(s: Store, id: Id, secret: Id, password: Password, at: Time)
    requires Inv(s) && ValidReset(s, id, secret, at) && s.resets[id].user in s.users
    ensures var t, u := ResetPassword(s, id, secret, password, true, NoFault, at).0, s.resets[id].user;
      Inv(t) && InSync(t, u) && t.users == s.users && t.lastSet == s.lastSet[u := password]
  {
    ResetSynced(s, id, secret, password, at);
    ResetShape(s, id, secret, password, true, NoFault, at);
    ResetKeeps(s, id, secret, password, true, NoFault, at);
    SpendFrame(s, id);
    hide Inv, ResetPassword, SpendReset, PasswordSet, InSync, ValidReset;
  }

  lemma ResetSynced(s: Store, id: Id, secret: Id, password: Password, at: Time)
    requires Inv(s) && ValidReset(s, id, secret, at) && s.resets[id].user in s.users
    ensures InSync(ResetPassword(s, id, secret, password, true, NoFault, at).0, s.resets[id].user)
  {
    hide Inv, ResetPassword, InSync;
    ResetSync(s, s.resets[id].user, id, secret, password, true, NoFault, at);
  }

  lemma InSyncLogin(t: Store, u: Id, email: string, guess: Password, later: Time)
    requires Inv(t) && InSync(t, u) && HasEmail(t.users, u, email) && t.users[u].status == Active
    ensures Login(t, email, guess, None, NoFault, later).1.LoggedIn? <==> guess == t.lastSet[u]
  {
    hide Inv, Login, Text.Lower;
    LoginExactly(t, u, email, guess, None, later);
  }

  lemma AskedReset(s: Store, u: Id, email: string, now: Time, at: Time)
    requires Inv(s) && HasEmail(s.users, u, email) && s.users[u].status == Active
    ensures var t := RequestReset(s, email, now);
      && t.users == s.users && t.sessions == s.sessions && s.nextId in t.resets && t.resets[s.nextId].user == u
      && (ValidReset(t, s.nextId, s.nextId + 1, at) <==> at <= now + RESET_TTL)
  {
    FoundByEmail(s, u, email);
    hide Inv;
  }

  /** A registration that commits takes the address at once. Its user cannot log in until the code of the
      registration comes back in time; from then on the registered password opens a session and no other
      does. That is so too when the commit's answer was lost and the account deleted again. */
  lemma RegistrationRoundTrip(s: Store, email: string, password: Password, course: Course, otp: string, now: Time,
                              code: string, at: Time, guess: Password, later: Time, again: string)
    requires Inv(s) && Text.Lower(again) == Text.Lower(email) && Enrols(s, email, true, course)
    ensures var t := Register(s, email, password, true, course, otp, now).0;
      var (v, reply) := VerifyEmail(t, email, code, at);
      && Register(t, again, guess, true, SMOOTH, code, at) == (t, Failed(Conflict))
      && Login(t, email, guess, None, NoFault, later) == (t, Failed(Forbidden))
      && (reply == Fine <==> code == otp && at <= now + OTP_TTL)
      && (reply == Fine ==> (Login(v, email, guess, None, NoFault, later).1.LoggedIn? <==> guess == password))
  {
    hide Inv, Register, Text.Lower, Login, VerifyEmail, InSync, HasEmail, Enrols;
    var t, u := Register(s, email, password, true, course, otp, now).0, s.nextId + 1;
    NewAccount(s, email, password, course, otp, now);
    SameHolder(t, u, email, again);
    PendingAccount(t, u, email, otp, now + OTP_TTL, code, at);
    TakenAddress(t, u, again, guess, code, at);
    PendingLogin(t, u, email, guess, later);
    var (v, reply) := VerifyEmail(t, email, code, at);
    if reply == Fine {
      VerifyKeeps(t, email, code, at);
      InSyncLogin(v, u, email, guess, later);
    }
  }

  lemma TakenAddress(t: Store, u: Id, again: string, password: Password, code: string, at: Time)
    requires HasEmail(t.users, u, again)
    ensures Register(t, again, password, true, SMOOTH, code, at) == (t, Failed(Conflict))
  {
    assert UserByEmail(t.users, again).Some?;
  }

  lemma PendingLogin(t: Store, u: Id, email: string, guess: Password, later: Time)
    requires Inv(t) && HasEmail(t.users, u, email) && t.users[u].status == PendingVerification
    ensures Login(t, email, guess, None, NoFault, later) == (t, Failed(Forbidden))
  {
    FoundByEmail(t, u, email);
    OnlyPlatform(t, u);
    hide Inv;
  }

  lemma PendingAccount(t: Store, u: Id, email: string, otp: string, until: Time, code: string, at: Time)
    requires Inv(t) && HasEmail(t.users, u, email) && t.users[u].status == PendingVerification
    requires u in t.otps && t.otps[u] == Otp(Digest(otp), until)
    ensures var (v, reply) := VerifyEmail(t, email, code, at);
      && (reply == Fine <==> code == otp && at <= until)
      && (reply == Fine ==> HasEmail(v.users, u, email) && v.users[u].status == Active)
      && v.lastSet == t.lastSet && (InSync(t, u) ==> InSync(v, u))
  {
    FoundByEmail(t, u, email);
    hide Inv, Text.Lower, UserByEmail;
  }

  lemma SameHolder(t: Store, u: Id, one: string, other: string)
    requires HasEmail(t.users, u, one) && Text.Lower(one) == Text.Lower(other)
    ensures HasEmail(t.users, u, other)
  {
  }

  /** The rows of a user who has yet to verify the address. */
  predicate Unverified(t: Store, u: Id, email: string, otp: string, until: Time, password: Password) {
    && HasEmail(t.users, u, email) && t.users[u].status == PendingVerification
    && u in t.otps && t.otps[u] == Otp(Digest(otp), until)
    && u in t.lastSet && t.lastSet[u] == password
  }

  lemma NewAccount(s: Store, email: string, password: Password, course: Course, otp: string, now: Time)
    requires Inv(s) && Enrols(s, email, true, course)
    ensures var t, u := Register(s, email, password, true, course, otp, now).0, s.nextId + 1;
      && Inv(t) && InSync(t, u)
      && Unverified(t, u, email, otp, now + OTP_TTL, password)
  {
    hide Inv, Register, Enrols, Strands, Created, Authenticated, Text.Lower, InSync;
    NewSession(s);
    NewRows(s, email, password, otp, now);
    RegistrationExactly(s, email, password, true, course, otp, now);
    RegisterKeeps(s, email, password, true, course, otp, now);
    RegisterSync(s, s.nextId + 1, email, password, true, course, otp, now);
  }

  lemma NewRows(s: Store, email: string, password: Password, otp: string, now: Time)
    ensures var t, u := Enrolled(s, email, password, otp, now), s.nextId + 1;
      Unverified(t, u, email, otp, now + OTP_TTL, password)
  {
    hide Text.Lower;
  }

  /** Once a reset has lost the provider's answer, two passwords open a session: the one that the
      service believes it last set, and the one that the user was told had not been set. */
  lemma LostAnswerLeavesTwoPasswords(s: Store, id: Id, secret: Id, password: Password, now: Time, guess: Password,
                                     at: Time)
    requires Inv(s) && ValidReset(s, id, secret, now) && s.resets[id].user in s.users
        && s.users[s.resets[id].user].status == Active
    ensures var u := s.resets[id].user;
      var (t, reply) := ResetPassword(s, id, secret, password, true, LostAnswer, now);
      && reply.Failed? && u in s.lastSet
      && (Login(t, s.users[u].email, guess, None, NoFault, at).1.LoggedIn? <==>
          guess == s.lastSet[u] || guess == password)
  {
    var u := s.resets[id].user;
    ResetShape(s, id, secret, password, true, LostAnswer, now);
    ResetKeeps(s, id, secret, password, true, LostAnswer, now);
    SpendFrame(s, id);
    SpendKeeps(s, id);
    DistinctUsers(s, u, u);
    SetPasswordKeeps(SpendReset(s, id), u, password, s.users[u].email, password);
    hide Inv, PasswordSet, SpendReset, Login, ResetPassword;
    var t := ResetPassword(s, id, secret, password, true, LostAnswer, now).0;
    LoginExactly(t, u, s.users[u].email, guess, None, at);
  }

  // Such a run, from an empty database.
  const ADA := "ada@example.com"
  const CALLS := [DoRegister(ADA, "first", true, SMOOTH, "123456", 0), DoVerify(ADA, "123456", 0),
                  DoRequestReset(ADA, 0),
                  DoReset(3, 4, "second", true, LostAnswer, 0)]

  lemma OneMoreCall(issuer: string, n: nat)
    requires n < |CALLS|
    ensures Run(Start(issuer), CALLS[..n + 1]) == Apply(Run(Start(issuer), CALLS[..n]), CALLS[n]).0
    ensures Inv(Run(Start(issuer), CALLS[..n]))
  {
    hide Apply;
    StartOk(issuer);
    RunKeeps(Start(issuer), CALLS[..n]);
    assert CALLS[..n + 1][..n] == CALLS[..n];
  }

  lemma AdaRegistered(issuer: string)
    ensures var s := Run(Start(issuer), CALLS[..1]);
      && s.nextId == 3 && 1 in s.users && s.users[1] == User(0, ADA, PendingVerification)
      && 1 in s.otps && s.otps[1] == Otp(Digest("123456"), OTP_TTL)
  {
    OneMoreCall(issuer, 0);
    var s := Start(issuer);
    assert CALLS[..0] == [] && Run(s, []) == s;
    assert Text.Lower(ADA) == ADA;
    RegistrationExactly(s, ADA, "first", true, SMOOTH, "123456", 0);
    hide Inv, Deleted, Run;
  }

  lemma AdaVerified(issuer: string)
    ensures var s := Run(Start(issuer), CALLS[..2]);
      s.nextId == 3 && 1 in s.users && s.users[1] == User(0, ADA, Active)
  {
    AdaRegistered(issuer);
    OneMoreCall(issuer, 1);
    var s := Run(Start(issuer), CALLS[..1]);
    assert Text.Lower(ADA) == ADA;
    FoundByEmail(s, 1, ADA);
    hide Inv, Run, UserByEmail;
  }

  lemma AfterRequest(s: Store, u: Id, email: string, now: Time)
    requires Inv(s) && HasEmail(s.users, u, email) && s.users[u].status == Active
    ensures var t := RequestReset(s, email, now);
      t.users == s.users && ValidReset(t, s.nextId, s.nextId + 1, now) && t.resets[s.nextId].user == u
  {
    FoundByEmail(s, u, email);
    hide Inv;
  }

  lemma AdaRequested(issuer: string)
    ensures var s := Run(Start(issuer), CALLS[..3]);
      && 1 in s.users && s.users[1] == User(0, ADA, Active) && ValidReset(s, 3, 4, 0) && s.resets[3].user == 1
  {
    hide Inv, Run, UserByEmail, RequestReset, Apply;
    AdaVerified(issuer);
    OneMoreCall(issuer, 2);
    var s := Run(Start(issuer), CALLS[..2]);
    assert Text.Lower(ADA) == ADA;
    AfterRequest(s, 1, ADA, 0);
    assert Apply(s, CALLS[2]).0 == RequestReset(s, ADA, 0) by { RequestCommand(s); }
  }

  lemma RequestCommand(s: Store)
    ensures Apply(s, CALLS[2]) == (RequestReset(s, ADA, 0), Fine)
  {
    hide RequestReset;
  }

  lemma AdaFirst(issuer: string)
    ensures SetBy(Start(issuer), CALLS[0], 1) == Some("first")
  {
    var s := Start(issuer);
    StartOk(issuer);
    RegistrationExactly(s, ADA, "first", true, SMOOTH, "123456", 0);
    RegisterShape(s, ADA, "first", true, SMOOTH, "123456", 0);
    hide Inv, Register;
  }

  lemma AdaSecond(issuer: string)
    ensures SetBy(Run(Start(issuer), CALLS[..3]), CALLS[3], 1) == None
  {
    AdaRequested(issuer);
    OneMoreCall(issuer, 3);
    ResetShape(Run(Start(issuer), CALLS[..3]), 3, 4, "second", true, LostAnswer, 0);
    hide Inv, Run, ResetPassword;
  }

  lemma AdaSet(issuer: string)
    ensures LastSetIn(Start(issuer), CALLS, 1) == Some("first")
    ensures 1 in Run(Start(issuer), CALLS[..3]).lastSet && Run(Start(issuer), CALLS[..3]).lastSet[1] == "first"
  {
    hide Inv, Apply;
    var s := Start(issuer);
    AdaFirst(issuer);
    AdaSecond(issuer);
    AdaRequested(issuer);
    OneMoreCall(issuer, 3);
    HistoryRun(issuer, CALLS[..3]);
    DistinctUsers(Run(s, CALLS[..3]), 1, 1);
    assert CALLS[..4] == CALLS && CALLS[..3][..2] == CALLS[..2] && CALLS[..2][..1] == CALLS[..1]
        && CALLS[..1][..0] == [];
    hide Run;
    assert Run(s, []) == s by { NoCalls(s); }
    assert LastSetIn(s, CALLS[..1], 1) == Some("first");
    assert LastSetIn(s, CALLS[..2], 1) == Some("first");
    assert LastSetIn(s, CALLS[..3], 1) == Some("first");
  }

  lemma NoCalls(s: Store)
    ensures Run(s, []) == s
  {
  }

  /** After that run, the password last set and the one refused to the user both open a session. */
  lemma LostAnswerRun(issuer: string)
    ensures LastSetIn(Start(issuer), CALLS, 1) == Some("first")
    ensures Login(Run(Start(issuer), CALLS), ADA, "first", None, NoFault, 0).1.LoggedIn?
    ensures Login(Run(Start(issuer), CALLS), ADA, "second", None, NoFault, 0).1.LoggedIn?
  {
    hide Inv, Apply, Login, ResetPassword, LastSetIn;
    AdaSet(issuer);
    AdaRequested(issuer);
    OneMoreCall(issuer, 3);
    var s := Run(Start(issuer), CALLS[..3]);
    assert Apply(s, CALLS[3]) == ResetPassword(s, 3, 4, "second", true, LostAnswer, 0) by { ResetCommand(s); }
    assert CALLS[..4] == CALLS;
    LostAnswerLeavesTwoPasswords(s, 3, 4, "second", 0, "first", 0);
    LostAnswerLeavesTwoPasswords(s, 3, 4, "second", 0, "second", 0);
  }

  lemma ResetCommand(s: Store)
    ensures Apply(s, CALLS[3]) == ResetPassword(s, 3, 4, "second", true, LostAnswer, 0)
  {
    hide ResetPassword;
  }
}
