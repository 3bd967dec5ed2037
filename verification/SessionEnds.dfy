/** Exactly which calls end a session and which change a user's status, and what that means over every run. */
module SessionEnds {
  import opened Errors
  import opened Keycloak
  import opened Identity
  import opened IdentityLaws
  import opened IdentityRuns
  import opened SessionRuns
  import Text

  // ---------- the calls that end a session

  /** The call ends the active session `k`. */
  ghost predicate Ends(s: Store, cmd: Command, k: Id)
    requires k in s.sessions
  {
    var x := s.sessions[k];
    match cmd
    case DoLogout(sid, actor) => sid == k && actor == x.user
    case DoRevokeSession(permitted, sid) => permitted && sid == k
    case DoRevokeOthers(current, user) => current != k && user == x.user
    case DoRevokeSessionsOf(users) => x.user in users
    case DoRevokeAccess(permitted, user) => permitted && user == x.user
    case DoSuspend(operator, user) => operator && user == x.user
    case DoBlock(operator, user) => operator && user == x.user
    case DoReset(id, secret, _, valid, _, now) =>
      valid && id in s.resets && s.resets[id].user == x.user && !s.resets[id].used && now <= s.resets[id].expiresAt
      && s.resets[id].hash == Digest(secret)
    case DoRefresh(token, sid, now) => sid == k && (x.expiresAt < now || x.refresh != Some(Digest(token)))
    case _ => false
  }

  predicate IsRefreshOf(cmd: Command, k: Id) { cmd.DoRefresh? && cmd.sid == k }

  /** The session after a call that does not end it: as it was, but for a new token and a later expiry. */
  ghost predicate Continues(before: Session, after: Session, refreshed: bool) {
    if refreshed then after == before.(refresh := after.refresh, expiresAt := after.expiresAt) else after == before
  }

  ghost predicate EndsOrContinues(s: Store, t: Store, cmd: Command, k: Id)
    requires k in s.sessions
  {
    && k in t.sessions
    && (if Ends(s, cmd, k) then t.sessions[k] == s.sessions[k].(active := false, refresh := None)
        else Continues(s.sessions[k], t.sessions[k], IsRefreshOf(cmd, k)))
  }

  /** An active session is ended by exactly these calls; every other call leaves it active. */
  lemma EndsExactly(s: Store, cmd: Command, k: Id)
    requires Inv(s) && k in s.sessions && s.sessions[k].active
    ensures EndsOrContinues(s, Apply(s, cmd).0, cmd, k)
  {
    hide Inv, Register, Login, Refresh, ResetPassword, EndsOrContinues;
    match cmd
    case DoRegister(email, password, valid, course, otp, now) =>
      RegisterShape(s, email, password, valid, course, otp, now);
      SameSession(s, Apply(s, cmd).0, cmd, k);
    case DoLogin(email, password, hint, fault, now) =>
      LoginSpares(s, email, password, hint, fault, now, k);
      SameSession(s, Apply(s, cmd).0, cmd, k);
    case DoRefresh(token, sid, now) => RefreshEnds(s, token, sid, now, k);
    case DoReset(id, secret, password, valid, fault, now) => ResetEnds(s, id, secret, password, valid, fault, now, k);
    case _ => OtherEnds(s, cmd, k);
  }

  lemma SameSession(s: Store, t: Store, cmd: Command, k: Id)
    requires k in s.sessions && k in t.sessions && t.sessions[k] == s.sessions[k]
    requires cmd.DoRegister? || cmd.DoLogin?
    ensures EndsOrContinues(s, t, cmd, k)
  {
  }

  lemma LoginSpares(s: Store, email: string, password: Password, hint: Option<string>, fault: Fault, now: Time, k: Id)
    requires Inv(s) && k in s.sessions
    ensures var t := Login(s, email, password, hint, fault, now).0;
      k in t.sessions && t.sessions[k] == s.sessions[k]
  {
    NoSessionYet(s);
    hide Inv, Login;
    match UserByEmail(s.users, email)
    case None => UnknownEmail(s, email, password, hint, fault, now);
    case Some(u) => LoginShape(s, u, email, password, hint, fault, now);
  }

  lemma RefreshEnds(s: Store, token: Id, sid: Id, now: Time, k: Id)
    requires Inv(s) && k in s.sessions && s.sessions[k].active
    ensures EndsOrContinues(s, Refresh(s, token, sid, now).0, DoRefresh(token, sid, now), k)
  {
    RefreshExactly(s, token, sid, now);
    if sid in s.sessions && s.sessions[sid].active {
      ActiveSession(s, sid);
    }
    hide Inv, Refresh, SessionUserOk, TokenFor;
  }

  lemma ResetEnds(s: Store, id: Id, secret: Id, password: Password, valid: bool, fault: Fault, now: Time, k: Id)
    requires Inv(s) && k in s.sessions && s.sessions[k].active
    ensures EndsOrContinues(s, ResetPassword(s, id, secret, password, valid, fault, now).0,
                            DoReset(id, secret, password, valid, fault, now), k)
  {
    ResetSessions(s, id, secret, password, valid, fault, now);
    hide Inv, ResetPassword, SpendReset;
    if id in s.resets {
      SpendEnds(s, id, k);
    }
  }

  lemma ResetSessions(s: Store, id: Id, secret: Id, password: Password, valid: bool, fault: Fault, now: Time)
    requires Inv(s)
    ensures ResetPassword(s, id, secret, password, valid, fault, now).0.sessions ==
            if valid && ValidReset(s, id, secret, now) then SpendReset(s, id).sessions else s.sessions
  {
    ResetShape(s, id, secret, password, valid, fault, now);
    hide Inv, ResetPassword, PasswordSet, SpendReset;
  }

  lemma SpendEnds(s: Store, id: Id, k: Id)
    requires id in s.resets && k in s.sessions && s.sessions[k].active
    ensures var t := SpendReset(s, id);
      && k in t.sessions
      && t.sessions[k] == if s.sessions[k].user == s.resets[id].user then
        s.sessions[k].(active := false, refresh := None)
                          else s.sessions[k]
  {
  }

  lemma OtherEnds(s: Store, cmd: Command, k: Id)
    requires Inv(s) && k in s.sessions && s.sessions[k].active && IsOther(cmd)
    ensures EndsOrContinues(s, Apply(s, cmd).0, cmd, k)
  {
    hide Inv, Apply, EndsOrContinues;
    if cmd.DoLogout? || cmd.DoRevokeSession? || cmd.DoRevokeOthers? || cmd.DoRevokeSessionsOf? {
      RevokeEnds(s, cmd, k);
    } else {
      ActiveUser(s, k);
      StatusEnds(s, cmd, k);
    }
  }

  lemma RevokeEnds(s: Store, cmd: Command, k: Id)
    requires k in s.sessions && s.sessions[k].active
    requires cmd.DoLogout? || cmd.DoRevokeSession? || cmd.DoRevokeOthers? || cmd.DoRevokeSessionsOf?
    ensures EndsOrContinues(s, Apply(s, cmd).0, cmd, k)
  {
    hide Register, VerifyEmail, Login, Refresh, ResetPassword, RequestReset, RevokePrincipalAccess, SuspendUser,
         ReinstateUser, BlockUser, NewRealm, Logout, RevokeSessionAdmin, RevokeOthers, RevokeAll, EndsOrContinues;
    match cmd
    case DoLogout(sid, actor) => LogoutCase(s, sid, actor, k);
    case DoRevokeSession(permitted, sid) => AdminCase(s, permitted, sid, k);
    case DoRevokeOthers(current, user) => OthersCase(s, current, user, k);
    case DoRevokeSessionsOf(users) => UsersCase(s, users, k);
  }

  lemma LogoutCase(s: Store, sid: Id, actor: Id, k: Id)
    requires k in s.sessions
    ensures EndsOrContinues(s, Logout(s, sid, actor).0, DoLogout(sid, actor), k)
  {
    hide Revoke;
    if sid in s.sessions {
      RevokedAt(s, sid, k);
    }
  }

  lemma AdminCase(s: Store, permitted: bool, sid: Id, k: Id)
    requires k in s.sessions
    ensures EndsOrContinues(s, RevokeSessionAdmin(s, permitted, sid).0, DoRevokeSession(permitted, sid), k)
  {
    hide Revoke;
    if sid in s.sessions {
      RevokedAt(s, sid, k);
    }
  }

  lemma RevokedAt(s: Store, sid: Id, k: Id)
    requires sid in s.sessions && k in s.sessions
    ensures var t := Revoke(s, sid);
      && k in t.sessions
      && t.sessions[k] == if k == sid then s.sessions[k].(active := false, refresh := None) else s.sessions[k]
  {
  }

  lemma OthersCase(s: Store, current: Id, user: Id, k: Id)
    requires k in s.sessions && s.sessions[k].active
    ensures EndsOrContinues(s, RevokeOthers(s, current, user), DoRevokeOthers(current, user), k)
  {
  }

  lemma UsersCase(s: Store, users: set<Id>, k: Id)
    requires k in s.sessions && s.sessions[k].active
    ensures EndsOrContinues(s, s.(sessions := RevokeAll(s.sessions, users)), DoRevokeSessionsOf(users), k)
  {
  }

  lemma StatusEnds(s: Store, cmd: Command, k: Id)
    requires k in s.sessions && s.sessions[k].active && IsOther(cmd)
    requires s.sessions[k].user in s.users && s.users[s.sessions[k].user].status == Active
    requires !cmd.DoLogout? && !cmd.DoRevokeSession? && !cmd.DoRevokeOthers? && !cmd.DoRevokeSessionsOf?
    ensures EndsOrContinues(s, Apply(s, cmd).0, cmd, k)
  {
    hide Register, Login, Refresh, ResetPassword, UserByEmail, VerifyEmail, RequestReset, RevokePrincipalAccess,
         SuspendUser, ReinstateUser, BlockUser, RevokeAll;
    match cmd
    case DoRevokeAccess(permitted, user) => ShutEnds(s, user, k);
    case DoSuspend(operator, user) => ShutEnds(s, user, k);
    case DoBlock(operator, user) => ShutEnds(s, user, k);
    case DoReinstate(operator, user) => ReinstateSpares(s, operator, user);
    case DoVerify(email, code, now) => VerifySpares(s, email, code, now);
    case DoRequestReset(email, now) => RequestSpares(s, email, now);
    case _ =>
  }

  lemma ShutEnds(s: Store, user: Id, k: Id)
    requires k in s.sessions && s.sessions[k].active
    requires s.sessions[k].user in s.users && s.users[s.sessions[k].user].status == Active
    ensures forall permitted ::
      EndsOrContinues(s, RevokePrincipalAccess(s, permitted, user).0, DoRevokeAccess(permitted, user), k)
    ensures forall operator :: EndsOrContinues(s, SuspendUser(s, operator, user).0, DoSuspend(operator, user), k)
    ensures forall operator :: EndsOrContinues(s, BlockUser(s, operator, user).0, DoBlock(operator, user), k)
  {
  }

  lemma ReinstateSpares(s: Store, operator: bool, user: Id)
    ensures ReinstateUser(s, operator, user).0.sessions == s.sessions
  {
  }

  lemma VerifySpares(s: Store, email: string, code: string, now: Time)
    ensures VerifyEmail(s, email, code, now).0.sessions == s.sessions
  {
  }

  lemma RequestSpares(s: Store, email: string, now: Time)
    ensures RequestReset(s, email, now).sessions == s.sessions
  {
  }

  lemma ActiveUser(s: Store, k: Id)
    requires Inv(s) && k in s.sessions && s.sessions[k].active
    ensures s.sessions[k].user in s.users && s.users[s.sessions[k].user].status == Active
  {
  }

  // ---------- over every run

  /** A session is dead exactly when it is not active: while it is, its last token refreshes it until it expires. */
  lemma DeadExactly(s: Store, k: Id)
    requires Inv(s) && k in s.sessions
    ensures Dead(s, k) <==> !s.sessions[k].active
  {
    hide Inv, Refresh;
    if s.sessions[k].active {
      var now := s.sessions[k].expiresAt;
      RefreshExactly(s, 0, k, now);
      RefreshExactly(s, Last(s.issued[k]), k, now);
      assert Refresh(s, Last(s.issued[k]), k, now).1.Refreshed?;
    } else {
      RevokedDead(s, k);
    }
  }

  lemma RevokedDead(s: Store, k: Id)
    requires Inv(s) && k in s.sessions && !s.sessions[k].active
    ensures Dead(s, k)
  {
    RevokedIsFinal(s, k, []);
    assert Run(s, []) == s;
    hide *;
  }

  /** One of the calls, in the state that the calls before it have left, ends the session. */
  ghost predicate EndedIn(s: Store, cmds: seq<Command>, k: Id) {
    exists i | 0 <= i < |cmds| :: k in Run(s, cmds[..i]).sessions && Ends(Run(s, cmds[..i]), cmds[i], k)
  }

  lemma EndedBefore(s: Store, cmds: seq<Command>, k: Id)
    requires cmds != []
    ensures var prior := cmds[..|cmds| - 1];
      EndedIn(s, cmds, k) <==>
      EndedIn(s, prior, k) || (k in Run(s, prior).sessions && Ends(Run(s, prior), Last(cmds), k))
  {
    hide Run, Ends;
    var prior := cmds[..|cmds| - 1];
    assert forall i | 0 <= i < |prior| :: prior[..i] == cmds[..i] && prior[i] == cmds[i];
    assert Last(cmds) == cmds[|cmds| - 1];
  }

  /** A session lives on, its tokens good, exactly as long as no call of the run ends it. */
  lemma {:induction false} SessionLives(s: Store, cmds: seq<Command>, k: Id)
    requires Inv(s) && k in s.sessions && s.sessions[k].active
    ensures var t := Run(s, cmds);
      && k in t.sessions && t.sessions[k].user == s.sessions[k].user
      && (t.sessions[k].active <==> !EndedIn(s, cmds, k))
      && (Dead(t, k) <==> EndedIn(s, cmds, k))
    decreases |cmds|
  {
    RunLater(s, cmds);
    hide Inv, Apply, Ends, Dead, EndedIn, Later;
    DeadExactly(Run(s, cmds), k);
    if cmds != [] {
      var prior := cmds[..|cmds| - 1];
      SessionLives(s, prior, k);
      RunKeeps(s, prior);
      EndedBefore(s, cmds, k);
      StepLater(Run(s, prior), Last(cmds));
      LivesStep(Run(s, prior), Last(cmds), k);
    }
  }

  lemma LivesStep(s: Store, cmd: Command, k: Id)
    requires Inv(s) && k in s.sessions && Later(s, Apply(s, cmd).0)
    ensures var t := Apply(s, cmd).0;
      k in t.sessions && (t.sessions[k].active <==> s.sessions[k].active && !Ends(s, cmd, k))
  {
    hide Inv, Apply, Ends;
    if s.sessions[k].active {
      EndsExactly(s, cmd, k);
    }
  }

  // ---------- leaving and being thrown out

  /** Nothing changes but the sessions in `ended`. */
  ghost predicate OnlySessions(s: Store, t: Store, ended: set<Id>) {
    && t == s.(sessions := t.sessions) && t.sessions.Keys == s.sessions.Keys
    && forall k | k in s.sessions && k !in ended :: t.sessions[k] == s.sessions[k]
  }

  lemma EndedForGood(s: Store, cmd: Command, k: Id, cmds: seq<Command>)
    requires Inv(s) && k in s.sessions
    requires k in Apply(s, cmd).0.sessions && !Apply(s, cmd).0.sessions[k].active
    ensures Dead(Run(Apply(s, cmd).0, cmds), k)
  {
    StepKeeps(s, cmd);
    hide Inv, Apply, Dead;
    RevokedIsFinal(Apply(s, cmd).0, k, cmds);
  }

  /** A logout is accepted exactly for a session of the user who asks; it ends that session for good, and
      changes nothing else. */
  lemma LogoutEnds(s: Store, sid: Id, actor: Id, cmds: seq<Command>)
    requires Inv(s)
    ensures var (t, reply) := Logout(s, sid, actor);
      && reply == (if sid in s.sessions && s.sessions[sid].user == actor then Fine else Failed(NotFound))
      && OnlySessions(s, t, if reply == Fine then {sid} else {})
      && (reply == Fine ==> Dead(Run(t, cmds), sid))
  {
    hide Inv, Run, Dead;
    if Logout(s, sid, actor).1 == Fine {
      EndedForGood(s, DoLogout(sid, actor), sid, cmds);
    }
  }

  /** The same of an administrator's revocation: accepted exactly if permitted, for any session there is. */
  lemma AdminEnds(s: Store, permitted: bool, sid: Id, cmds: seq<Command>)
    requires Inv(s)
    ensures var (t, reply) := RevokeSessionAdmin(s, permitted, sid);
      && (reply == Fine <==> permitted && sid in s.sessions)
      && OnlySessions(s, t, if reply == Fine then {sid} else {})
      && (reply == Fine ==> Dead(Run(t, cmds), sid))
  {
    hide Inv, Run, Dead;
    if RevokeSessionAdmin(s, permitted, sid).1 == Fine {
      EndedForGood(s, DoRevokeSession(permitted, sid), sid, cmds);
    }
  }

  /** Revoking one's other sessions ends exactly those for good: every session of the user but the current one. */
  lemma OthersEnd(s: Store, current: Id, user: Id, k: Id, cmds: seq<Command>)
    requires Inv(s) && k in s.sessions
    ensures var t := RevokeOthers(s, current, user);
      && t == s.(sessions := t.sessions) && k in t.sessions
      && if s.sessions[k].user == user && k != current then Dead(Run(t, cmds), k) else t.sessions[k] == s.sessions[k]
  {
    hide Inv, Run, Dead;
    var t := RevokeOthers(s, current, user);
    if s.sessions[k].user == user && k != current {
      assert !t.sessions[k].active;
      assert Apply(s, DoRevokeOthers(current, user)).0 == t;
      EndedForGood(s, DoRevokeOthers(current, user), k, cmds);
    }
  }

  // ---------- a user's status

  /** What the call makes of the status of user `u`. */
  ghost function StatusAfter(s: Store, cmd: Command, u: Id): UserStatus
    requires u in s.users
  {
    var status := s.users[u].status;
    match cmd
    case DoVerify(email, code, now) =>
      if s.users[u].email == Text.Lower(email) && status == PendingVerification && u in s.otps
         && s.otps[u].hash == Digest(code) && now <= s.otps[u].expiresAt then Active else status
    case DoRevokeAccess(permitted, user) => if permitted && user == u then Locked else status
    case DoSuspend(operator, user) => if operator && user == u && status != Blocked then Locked else status
    case DoReinstate(operator, user) => if operator && user == u && status != Blocked then Active else status
    case DoBlock(operator, user) => if operator && user == u then Blocked else status
    case _ => status
  }

  /** Exactly which calls change the status of a user, and what they make of it. */
  lemma StatusExactly(s: Store, cmd: Command, u: Id)
    requires Inv(s) && u in s.users
    ensures var t := Apply(s, cmd).0;
      u in t.users && t.users[u].status == StatusAfter(s, cmd, u)
  {
    NoSessionYet(s);
    hide Inv, Register, Login, Refresh, ResetPassword, VerifyEmail, RequestReset, RevokePrincipalAccess, SuspendUser,
         ReinstateUser, BlockUser, Logout, RevokeSessionAdmin, RevokeOthers, RevokeAll, NewRealm, Text.Lower;
    match cmd
    case DoRegister(email, password, valid, course, otp, now) =>
      RegisterShape(s, email, password, valid, course, otp, now);
    case DoLogin(email, password, hint, fault, now) => LoginUsers(s, email, password, hint, fault, now);
    case DoRefresh(token, sid, now) => RefreshUsers(s, token, sid, now);
    case DoReset(id, secret, password, valid, fault, now) => ResetUsers(s, id, secret, password, valid, fault, now);
    case DoVerify(email, code, now) => VerifyStatus(s, email, code, now, u);
    case DoRequestReset(email, now) => RequestFrame(s, email, now);
    case _ => StatusCall(s, cmd, u);
  }

  lemma StatusCall(s: Store, cmd: Command, u: Id)
    requires u in s.users && IsOther(cmd) && !cmd.DoVerify? && !cmd.DoRequestReset?
    ensures u in Apply(s, cmd).0.users && Apply(s, cmd).0.users[u].status == StatusAfter(s, cmd, u)
  {
    hide RevokePrincipalAccess, SuspendUser, ReinstateUser, BlockUser, Logout, RevokeSessionAdmin, RevokeOthers,
         NewRealm, RevokeAll, Text.Lower;
    match cmd
    case DoRevokeAccess(permitted, user) => RevokeStatus(s, permitted, user, u);
    case DoSuspend(operator, user) => SuspendStatus(s, operator, user, u);
    case DoReinstate(operator, user) => ReinstateStatus(s, operator, user, u);
    case DoBlock(operator, user) => BlockStatus(s, operator, user, u);
    case _ => SessionCallUsers(s, cmd);
  }

  lemma SetStatusOf(s: Store, user: Id, u: Id)
    requires user in s.users && u in s.users
    ensures forall status, principal :: u in SetStatus(s, user, status, principal).users
    ensures forall status, principal ::
      SetStatus(s, user, status, principal).users[u].status == if user == u then status else s.users[u].status
  {
  }

  lemma RevokeStatus(s: Store, permitted: bool, user: Id, u: Id)
    requires u in s.users
    ensures var users := RevokePrincipalAccess(s, permitted, user).0.users;
      u in users && users[u].status == if permitted && user == u then Locked else s.users[u].status
  {
    hide SetStatus, RevokeAll;
    if user in s.users {
      SetStatusOf(s, user, u);
    }
  }

  lemma SuspendStatus(s: Store, operator: bool, user: Id, u: Id)
    requires u in s.users
    ensures var users := SuspendUser(s, operator, user).0.users;
      u in users && users[u].status ==
                    if operator && user == u && s.users[u].status != Blocked then Locked else s.users[u].status
  {
    hide SetStatus, RevokeAll;
    if user in s.users {
      SetStatusOf(s, user, u);
    }
  }

  lemma ReinstateStatus(s: Store, operator: bool, user: Id, u: Id)
    requires u in s.users
    ensures var users := ReinstateUser(s, operator, user).0.users;
      u in users && users[u].status ==
                    if operator && user == u && s.users[u].status != Blocked then Active else s.users[u].status
  {
    hide SetStatus;
    if user in s.users {
      SetStatusOf(s, user, u);
    }
  }

  lemma BlockStatus(s: Store, operator: bool, user: Id, u: Id)
    requires u in s.users
    ensures var users := BlockUser(s, operator, user).0.users;
      u in users && users[u].status == if operator && user == u then Blocked else s.users[u].status
  {
    hide SetStatus, RevokeAll;
    if user in s.users {
      SetStatusOf(s, user, u);
    }
  }

  lemma SessionCallUsers(s: Store, cmd: Command)
    requires IsOther(cmd) && !cmd.DoVerify? && !cmd.DoRequestReset?
    requires !cmd.DoRevokeAccess? && !cmd.DoSuspend? && !cmd.DoReinstate? && !cmd.DoBlock?
    ensures Apply(s, cmd).0.users == s.users
  {
    hide RevokePrincipalAccess, SuspendUser, ReinstateUser, BlockUser, RevokeAll;
  }

  lemma RefreshUsers(s: Store, token: Id, sid: Id, now: Time)
    requires Inv(s)
    ensures Refresh(s, token, sid, now).0.users == s.users
  {
    RefreshExactly(s, token, sid, now);
    hide Inv, Refresh, SessionUserOk, TokenFor;
  }

  lemma LoginUsers(s: Store, email: string, password: Password, hint: Option<string>, fault: Fault, now: Time)
    requires Inv(s)
    ensures Login(s, email, password, hint, fault, now).0.users == s.users
  {
    hide Inv, Login;
    match UserByEmail(s.users, email)
    case None => UnknownEmail(s, email, password, hint, fault, now);
    case Some(u) => LoginShape(s, u, email, password, hint, fault, now);
  }

  lemma ResetUsers(s: Store, id: Id, secret: Id, password: Password, valid: bool, fault: Fault, now: Time)
    requires Inv(s)
    ensures ResetPassword(s, id, secret, password, valid, fault, now).0.users == s.users
  {
    ResetShape(s, id, secret, password, valid, fault, now);
    hide Inv, ResetPassword, PasswordSet;
  }

  lemma VerifyStatus(s: Store, email: string, code: string, now: Time, u: Id)
    requires Inv(s) && u in s.users
    ensures var t := VerifyEmail(s, email, code, now).0;
      u in t.users && t.users[u].status == StatusAfter(s, DoVerify(email, code, now), u)
  {
    if HasEmail(s.users, u, email) {
      FoundByEmail(s, u, email);
    }
    hide Inv, Text.Lower;
  }

  /** A verification is accepted exactly of a pending user with the right code in time; of an active user it is a
      conflict, of a locked or blocked one forbidden. */
  lemma VerifyExactly(s: Store, u: Id, email: string, code: string, now: Time)
    requires Inv(s) && HasEmail(s.users, u, email)
    ensures var status, reply := s.users[u].status, VerifyEmail(s, email, code, now).1;
      && (reply == Fine <==>
            status == PendingVerification && u in s.otps && s.otps[u].hash == Digest(code)
            && now <= s.otps[u].expiresAt)
      && (reply == Failed(Conflict) <==> status == Active)
      && (reply == Failed(Forbidden) <==> status == Locked || status == Blocked)
  {
    FoundByEmail(s, u, email);
    hide Inv, Text.Lower;
  }

  /** The call locks a user whatever the status: the one way out of being blocked. */
  predicate Relocks(cmd: Command, u: Id) {
    cmd.DoRevokeAccess? && cmd.permitted && cmd.user == u
  }

  /** A user whom the operator has blocked stays so, whatever is called, until a tenant administrator
      revokes the user's access. Until then no login succeeds, and no suspension or reinstatement. */
  lemma BlockHolds(s: Store, operator: bool, u: Id, cmds: seq<Command>, email: string, password: Password,
                   hint: Option<string>, fault: Fault, now: Time)
    requires Inv(s)
    requires forall i | 0 <= i < |cmds| :: !Relocks(cmds[i], u)
    ensures BlockUser(s, operator, u).1 == Fine <==> operator && u in s.users
    ensures var z := Run(BlockUser(s, operator, u).0, cmds);
      BlockUser(s, operator, u).1 == Fine ==>
        && u in z.users && z.users[u].email == s.users[u].email && z.users[u].status == Blocked
        && ReinstateUser(z, true, u) == (z, Failed(Conflict)) && SuspendUser(z, true, u) == (z, Failed(Conflict))
        && (HasEmail(z.users, u, email) ==>
            Login(z, email, password, hint, fault, now).0 == z
            && Login(z, email, password, hint, fault, now).1.Failed?)
  {
    hide Inv, Run, Login, RevokeAll, Text.Lower;
    var t := BlockUser(s, operator, u).0;
    if operator && u in s.users {
      assert Apply(s, DoBlock(operator, u)).0 == t;
      StepKeeps(s, DoBlock(operator, u));
      BlockedStays(t, cmds, u);
      RunKeeps(t, cmds);
      if HasEmail(Run(t, cmds).users, u, email) {
        LoginShape(Run(t, cmds), u, email, password, hint, fault, now);
      }
    }
  }

  /** That revocation makes of the block a lock, which a reinstatement undoes. */
  lemma BlockUndone(s: Store, u: Id)
    requires u in s.users && s.users[u].status == Blocked
    ensures ReinstateUser(s, true, u) == (s, Failed(Conflict))
    ensures var t := RevokePrincipalAccess(s, true, u).0;
      var (z, reply) := ReinstateUser(t, true, u);
      reply == Fine && u in z.users && z.users[u].status == Active
  {
    hide RevokeAll;
  }

  lemma {:induction false} BlockedStays(s: Store, cmds: seq<Command>, u: Id)
    requires Inv(s) && u in s.users && s.users[u].status == Blocked
    requires forall i | 0 <= i < |cmds| :: !Relocks(cmds[i], u)
    ensures var t := Run(s, cmds);
      u in t.users && t.users[u].email == s.users[u].email && t.users[u].status == Blocked
    decreases |cmds|
  {
    RunLater(s, cmds);
    hide Inv, Apply, Later;
    if cmds != [] {
      var prior := cmds[..|cmds| - 1];
      BlockedStays(s, prior, u);
      RunKeeps(s, prior);
      StatusExactly(Run(s, prior), Last(cmds), u);
      assert Last(cmds) == cmds[|cmds| - 1];
    }
  }

  // ---------- users and their principals

  /** The status of the principal that goes with the user's. */
  function PrincipalFor(status: UserStatus): PrincipalStatus {
    match status
    case PendingVerification => PrincipalInactive
    case Active => PrincipalActive
    case Locked => PrincipalLocked
    case Blocked => PrincipalLocked
  }

  ghost predicate Matched(s: Store) {
    forall u | u in s.users ::
      s.users[u].principal in s.principals && s.principals[s.users[u].principal] == PrincipalFor(s.users[u].status)
  }

  ghost predicate Apart(users: map<Id, User>) {
    forall u, v | u in users && v in users && users[u].principal == users[v].principal :: u == v
  }

  lemma UsersApart(s: Store)
    requires Inv(s)
    ensures Apart(s.users) && forall u | u in s.users :: s.users[u].principal < s.nextId
  {
  }

  lemma SetMatches(s: Store, u: Id, status: UserStatus)
    requires Matched(s) && Apart(s.users) && u in s.users
    ensures Matched(SetStatus(s, u, status, PrincipalFor(status)))
  {
  }

  lemma MatchedSame(s: Store, t: Store)
    requires Matched(s) && t.users == s.users && t.principals == s.principals
    ensures Matched(t)
  {
  }

  lemma MatchedStep(s: Store, cmd: Command)
    requires Inv(s) && Matched(s)
    ensures Matched(Apply(s, cmd).0)
  {
    UsersApart(s);
    hide Inv, Matched, Register, Login, Refresh, ResetPassword, VerifyEmail, RequestReset, RevokePrincipalAccess,
         SuspendUser, ReinstateUser, BlockUser, Logout, RevokeSessionAdmin, RevokeOthers, RevokeAll, NewRealm, Apart;
    match cmd
    case DoRegister(email, password, valid, course, otp, now) =>
      RegisterMatches(s, email, password, valid, course, otp, now);
    case DoVerify(email, code, now) => VerifyMatches(s, email, code, now);
    case DoRevokeAccess(permitted, user) => LifecycleMatches(s, permitted, user);
    case DoSuspend(operator, user) => LifecycleMatches(s, operator, user);
    case DoReinstate(operator, user) => LifecycleMatches(s, operator, user);
    case DoBlock(operator, user) => LifecycleMatches(s, operator, user);
    case _ =>
      hide Apply;
      SamePrincipals(s, cmd);
      MatchedSame(s, Apply(s, cmd).0);
  }

  lemma RegisterMatches(s: Store, email: string, password: Password, valid: bool, course: Course, otp: string,
                        now: Time)
    requires Inv(s) && Matched(s) && forall u | u in s.users :: s.users[u].principal < s.nextId
    ensures Matched(Register(s, email, password, valid, course, otp, now).0)
  {
    RegistrationExactly(s, email, password, valid, course, otp, now);
    hide Inv, Register, Created, Authenticated, Strands, Enrols, Text.Lower;
  }

  lemma VerifyMatches(s: Store, email: string, code: string, now: Time)
    requires Matched(s) && Apart(s.users)
    ensures Matched(VerifyEmail(s, email, code, now).0)
  {
    hide Matched, Apart, SetStatus;
    match UserByEmail(s.users, email)
    case None =>
    case Some(u) => SetMatches(s, u, Active);
  }

  lemma LifecycleMatches(s: Store, may: bool, u: Id)
    requires Matched(s) && Apart(s.users)
    ensures Matched(RevokePrincipalAccess(s, may, u).0) && Matched(SuspendUser(s, may, u).0)
    ensures Matched(ReinstateUser(s, may, u).0) && Matched(BlockUser(s, may, u).0)
  {
    hide Matched, Apart, SetStatus, RevokeAll;
    if u in s.users {
      SetMatches(s, u, Locked);
      SetMatches(s, u, Active);
      SetMatches(s, u, Blocked);
      forall status | status == Locked || status == Blocked
        ensures Matched(SetStatus(s, u, status, PrincipalLocked).(sessions := RevokeAll(s.sessions, {u})))
      {
        MatchedSame(SetStatus(s, u, status, PrincipalLocked),
                    SetStatus(s, u, status, PrincipalLocked).(sessions := RevokeAll(s.sessions, {u})));
      }
    }
  }

  lemma SamePrincipals(s: Store, cmd: Command)
    requires Inv(s) && !cmd.DoRegister? && !cmd.DoVerify?
    requires !cmd.DoRevokeAccess? && !cmd.DoSuspend? && !cmd.DoReinstate? && !cmd.DoBlock?
    ensures Apply(s, cmd).0.users == s.users && Apply(s, cmd).0.principals == s.principals
  {
    hide Inv, Login, Refresh, ResetPassword, RequestReset, Logout, RevokeSessionAdmin, RevokeOthers, RevokeAll,
         NewRealm;
    match cmd
    case DoLogin(email, password, hint, fault, now) => LoginPrincipals(s, email, password, hint, fault, now);
    case DoRefresh(token, sid, now) =>
      RefreshUsers(s, token, sid, now);
      RefreshPrincipals(s, token, sid, now);
    case DoReset(id, secret, password, valid, fault, now) =>
      ResetPrincipals(s, id, secret, password, valid, fault, now);
    case DoRequestReset(email, now) => RequestPrincipals(s, email, now);
    case _ => OtherPrincipals(s, cmd);
  }

  lemma LoginPrincipals(s: Store, email: string, password: Password, hint: Option<string>, fault: Fault, now: Time)
    requires Inv(s)
    ensures var t := Login(s, email, password, hint, fault, now).0; t.users == s.users && t.principals == s.principals
  {
    hide Inv, Login;
    match UserByEmail(s.users, email)
    case None => UnknownEmail(s, email, password, hint, fault, now);
    case Some(u) => LoginShape(s, u, email, password, hint, fault, now);
  }

  lemma RefreshPrincipals(s: Store, token: Id, sid: Id, now: Time)
    requires Inv(s)
    ensures Refresh(s, token, sid, now).0.principals == s.principals
  {
    RefreshExactly(s, token, sid, now);
    hide Inv, Refresh, SessionUserOk, TokenFor;
  }

  lemma ResetPrincipals(s: Store, id: Id, secret: Id, password: Password, valid: bool, fault: Fault, now: Time)
    requires Inv(s)
    ensures var t := ResetPassword(s, id, secret, password, valid, fault, now).0;
      t.users == s.users && t.principals == s.principals
  {
    ResetShape(s, id, secret, password, valid, fault, now);
    hide Inv, ResetPassword, PasswordSet, RevokeAll;
  }

  lemma RequestPrincipals(s: Store, email: string, now: Time)
    ensures RequestReset(s, email, now).users == s.users && RequestReset(s, email, now).principals == s.principals
  {
  }

  lemma OtherPrincipals(s: Store, cmd: Command)
    requires cmd.DoLogout? || cmd.DoRevokeSession? || cmd.DoRevokeOthers? || cmd.DoRevokeSessionsOf? || cmd.AddRealm?
             || cmd.IdpRestart?
    ensures Apply(s, cmd).0.users == s.users && Apply(s, cmd).0.principals == s.principals
  {
    hide RevokeAll;
  }

  /** In every reachable state a principal is inactive, active or locked as its user is yet to be verified,
      active, or locked or blocked. */
  lemma {:induction false} PrincipalsMatch(issuer: string, cmds: seq<Command>)
    ensures Inv(Run(Start(issuer), cmds)) && Matched(Run(Start(issuer), cmds))
    decreases |cmds|
  {
    StartOk(issuer);
    RunKeeps(Start(issuer), cmds);
    hide Inv, Apply;
    if cmds != [] {
      PrincipalsMatch(issuer, cmds[..|cmds| - 1]);
      hide Matched;
      MatchedStep(Run(Start(issuer), cmds[..|cmds| - 1]), Last(cmds));
    }
  }
}
