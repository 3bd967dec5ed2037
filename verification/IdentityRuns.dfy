/** Passwords, refresh tokens and access tokens over every run of identity calls. */
module IdentityRuns {
  import opened Errors
  import opened Keycloak
  import opened Identity
  import opened IdentityLaws
  import Text

  ghost function Run(s: Store, cmds: seq<Command>): Store
    decreases |cmds|
  {
    if cmds == [] then s else Apply(Run(s, cmds[..|cmds| - 1]), Last(cmds)).0
  }

  /** An empty database, seeded with the platform realm. */
  function Start(issuer: string): Store {
    Store(0, map[PLATFORM := issuer], map[], map[], map[], map[], map[], map[], RESTARTED, map[], map[], map[])
  }

  lemma {:induction false} RunKeeps(s: Store, cmds: seq<Command>)
    requires Inv(s)
    ensures Inv(Run(s, cmds))
    decreases |cmds|
  {
    hide Inv, Apply;
    if cmds != [] {
      RunKeeps(s, cmds[..|cmds| - 1]);
      StepKeeps(Run(s, cmds[..|cmds| - 1]), Last(cmds));
    }
  }

  lemma StartOk(issuer: string)
    ensures Inv(Start(issuer))
  {
  }

  // ---------- what a run's replies say

  /** The password that a call has set for a user, read off the call: that of a reset that has replied so,
      or of a registration that has committed the user's row. */
  ghost function SetBy(s: Store, cmd: Command, u: Id): Option<Password> {
    match cmd
    case DoRegister(_, password, _, _, _, _) => if u !in s.users && u in Apply(s, cmd).0.users then
      Some(password) else None
    case DoReset(id, _, password, _, _, _) =>
      if Apply(s, cmd).1 == Fine && id in s.resets && s.resets[id].user == u then Some(password) else None
    case _ => None
  }

  /** The password last set for a user by a committed registration or a completed reset. */
  ghost function LastSetIn(s: Store, cmds: seq<Command>, u: Id): Option<Password>
    decreases |cmds|
  {
    if cmds == [] then None
    else
      var prior := cmds[..|cmds| - 1];
      if SetBy(Run(s, prior), Last(cmds), u).Some? then SetBy(Run(s, prior), Last(cmds), u) else LastSetIn(s, prior, u)
  }

  ghost function IssuedBy(s: Store, cmd: Command, sid: Id): seq<Id> {
    match Apply(s, cmd).1
    case LoggedIn(session, refresh, _) => if session == sid then [refresh] else []
    case Refreshed(refresh, _) => if cmd.DoRefresh? && cmd.sid == sid then [refresh] else []
    case _ => []
  }

  ghost function AcceptedBy(s: Store, cmd: Command, sid: Id): seq<Id> {
    if cmd.DoRefresh? && cmd.sid == sid && Apply(s, cmd).1.Refreshed? then [cmd.token] else []
  }

  /** The refresh tokens that the replies of a run have handed out for a session, in order. */
  ghost function IssuedIn(s: Store, cmds: seq<Command>, sid: Id): seq<Id>
    decreases |cmds|
  {
    if cmds == [] then []
    else IssuedIn(s, cmds[..|cmds| - 1], sid) + IssuedBy(Run(s, cmds[..|cmds| - 1]), Last(cmds), sid)
  }

  /** The refresh tokens that a run has accepted for a session, in order. */
  ghost function AcceptedIn(s: Store, cmds: seq<Command>, sid: Id): seq<Id>
    decreases |cmds|
  {
    if cmds == [] then []
    else AcceptedIn(s, cmds[..|cmds| - 1], sid) + AcceptedBy(Run(s, cmds[..|cmds| - 1]), Last(cmds), sid)
  }

  function At(m: map<Id, seq<Id>>, k: Id): seq<Id> {
    if k in m then m[k] else []
  }

  /** The store's history fields say what the replies said. */
  ghost predicate HistoryAgrees(s: Store, cmd: Command) {
    var t := Apply(s, cmd).0;
    && (forall k :: At(t.issued, k) == At(s.issued, k) + IssuedBy(s, cmd, k))
    && (forall k :: At(t.accepted, k) == At(s.accepted, k) + AcceptedBy(s, cmd, k))
    && (forall u | u in t.lastSet ::
          if SetBy(s, cmd, u).Some? then t.lastSet[u] == SetBy(s, cmd, u).value
          else u in s.lastSet && t.lastSet[u] == s.lastSet[u])
  }

  lemma IssueHistory(s: Store, w: Store, cmd: Command, u: Id, subject: Subject, issuer: string, now: Time)
    requires cmd.DoLogin? && Apply(s, cmd) == Issue(w, u, subject, issuer, now)
    requires w == s.(idp := w.idp) && s.nextId !in s.issued && s.nextId !in s.accepted
    ensures HistoryAgrees(s, cmd)
  {
    hide Login;
  }

  lemma NoHistory(s: Store, cmd: Command)
    requires Apply(s, cmd).1.Failed? || Apply(s, cmd).1.Fine?
    requires Apply(s, cmd).0.issued == s.issued && Apply(s, cmd).0.accepted == s.accepted
    requires Apply(s, cmd).0.lastSet == s.lastSet
    requires cmd.DoReset? ==> Apply(s, cmd).1.Failed?
    requires cmd.DoRegister? ==> Apply(s, cmd).0.users == s.users
    ensures HistoryAgrees(s, cmd)
  {
    hide Apply;
  }

  lemma NewSession(s: Store)
    requires Inv(s)
    ensures s.nextId !in s.issued && s.nextId !in s.accepted
    ensures forall u | u in s.users :: u < s.nextId && s.users[u].principal < s.nextId
  {
    hide UsersOk, Distinct, IdpOk, SessionsOk, RealmsOk, ResetsOk, NoRepeats;
    assert s.nextId !in s.issued;
  }

  lemma LoginHistory(s: Store, email: string, password: Password, hint: Option<string>, fault: Fault, now: Time)
    requires Inv(s)
    ensures HistoryAgrees(s, DoLogin(email, password, hint, fault, now))
  {
    var cmd := DoLogin(email, password, hint, fault, now);
    NewSession(s);
    assert Apply(s, cmd) == Login(s, email, password, hint, fault, now) by { hide *; }
    hide Inv, Login, Issue, HistoryAgrees;
    match UserByEmail(s.users, email)
    case None =>
      UnknownEmail(s, email, password, hint, fault, now);
      NoHistory(s, cmd);
    case Some(u) =>
      LoginShape(s, u, email, password, hint, fault, now);
      var subject := s.credentials[s.users[u].principal].subject;
      if Apply(s, cmd).1.Failed? {
        NoHistory(s, cmd);
      } else if AtProvider(s, u, password) {
        IssueHistory(s, s, cmd, u, subject, s.realms[PLATFORM], now);
      } else {
        IssueHistory(s, WithPassword(s, u, password), cmd, u, subject, s.realms[PLATFORM], now);
      }
  }

  lemma RefreshHistory(s: Store, token: Id, sid: Id, now: Time)
    requires Inv(s)
    ensures HistoryAgrees(s, DoRefresh(token, sid, now))
  {
    hide Inv, Refresh, RevokedSession;
    RefreshExactly(s, token, sid, now);
  }

  lemma PasswordHistory(s: Store, cmd: Command, u: Id, password: Password)
    requires !Apply(s, cmd).1.LoggedIn? && !Apply(s, cmd).1.Refreshed?
    requires Apply(s, cmd).0.issued == s.issued && Apply(s, cmd).0.accepted == s.accepted
    requires Apply(s, cmd).0.lastSet == s.lastSet[u := password]
    requires SetBy(s, cmd, u) == Some(password) && forall v | v != u :: SetBy(s, cmd, v).None?
    ensures HistoryAgrees(s, cmd)
  {
    hide Apply, SetBy;
  }

  lemma RegisterHistory(s: Store, email: string, password: Password, valid: bool, course: Course, otp: string,
                        now: Time)
    requires Inv(s)
    ensures HistoryAgrees(s, DoRegister(email, password, valid, course, otp, now))
  {
    var cmd := DoRegister(email, password, valid, course, otp, now);
    RegisterShape(s, email, password, valid, course, otp, now);
    NewSession(s);
    hide Inv, Register, HistoryAgrees, Enrols;
    if Enrols(s, email, valid, course) {
      PasswordHistory(s, cmd, s.nextId + 1, password);
    } else {
      NoHistory(s, cmd);
    }
  }

  lemma RegisterShape(s: Store, email: string, password: Password, valid: bool, course: Course, otp: string, now: Time)
    requires Inv(s)
    ensures var (t, reply) := Register(s, email, password, valid, course, otp, now);
      && (if reply.Registered? then reply.user == s.nextId + 1 && Enrols(s, email, valid, course) else reply.Failed?)
      && t.issued == s.issued && t.accepted == s.accepted
      && t.sessions == s.sessions && t.realms == s.realms && t.resets == s.resets
      && if Enrols(s, email, valid, course) then
           && t.users == s.users[s.nextId + 1 := User(s.nextId, Text.Lower(email), PendingVerification)]
           && t.credentials == s.credentials[s.nextId := Credential(PLATFORM, s.nextId + 2, Some(Digest(password)))]
           && t.lastSet == s.lastSet[s.nextId + 1 := password]
         else t.users == s.users && t.credentials == s.credentials && t.lastSet == s.lastSet
  {
    RegistrationExactly(s, email, password, valid, course, otp, now);
    HasPlatform(s);
    hide Inv, Register, Text.Lower, Enrolled, Created, Authenticated, Strands;
    EnrolledShape(s, email, password, otp, now);
  }

  lemma EnrolledShape(s: Store, email: string, password: Password, otp: string, now: Time)
    ensures var t := Enrolled(s, email, password, otp, now);
      && t.issued == s.issued && t.accepted == s.accepted
      && t.sessions == s.sessions && t.realms == s.realms && t.resets == s.resets
      && t.users == s.users[s.nextId + 1 := User(s.nextId, Text.Lower(email), PendingVerification)]
      && t.credentials == s.credentials[s.nextId := Credential(PLATFORM, s.nextId + 2, Some(Digest(password)))]
      && t.lastSet == s.lastSet[s.nextId + 1 := password]
  {
    hide Text.Lower;
  }

  lemma ResetHistory(s: Store, id: Id, secret: Id, password: Password, valid: bool, fault: Fault, now: Time)
    requires Inv(s)
    ensures HistoryAgrees(s, DoReset(id, secret, password, valid, fault, now))
  {
    var cmd := DoReset(id, secret, password, valid, fault, now);
    hide Inv, PasswordSet, SpendReset, ResetPassword, HistoryAgrees;
    ResetShape(s, id, secret, password, valid, fault, now);
    if id in s.resets {
      SpendFrame(s, id);
    }
    if Apply(s, cmd).1.Fine? {
      PasswordHistory(s, cmd, s.resets[id].user, password);
    } else {
      NoHistory(s, cmd);
    }
  }

  lemma HistoryStep(s: Store, cmd: Command)
    requires Inv(s)
    ensures HistoryAgrees(s, cmd)
  {
    match cmd
    case DoRegister(email, password, valid, course, otp, now) =>
      RegisterHistory(s, email, password, valid, course, otp, now);
    case DoLogin(email, password, hint, fault, now) => LoginHistory(s, email, password, hint, fault, now);
    case DoRefresh(token, sid, now) => RefreshHistory(s, token, sid, now);
    case DoReset(id, secret, password, valid, fault, now) => ResetHistory(s, id, secret, password, valid, fault, now);
    case _ =>
      OtherHistory(s, cmd);
      hide Apply, HistoryAgrees;
      NoHistory(s, cmd);
  }

  predicate IsOther(cmd: Command) {
    !cmd.DoRegister? && !cmd.DoLogin? && !cmd.DoRefresh? && !cmd.DoReset?
  }

  lemma OtherHistory(s: Store, cmd: Command)
    requires IsOther(cmd)
    ensures var (t, reply) := Apply(s, cmd);
      && (reply.Failed? || reply.Fine?)
      && t.issued == s.issued && t.accepted == s.accepted && t.lastSet == s.lastSet
      && t.users.Keys == s.users.Keys && t.credentials == s.credentials
      && (t.idp == if cmd.IdpRestart? then RESTARTED else s.idp)
      && (forall u | u in s.users ::
          t.users[u].email == s.users[u].email && t.users[u].principal == s.users[u].principal)
  {
    hide Login, Register, Refresh, ResetPassword, RevokeAll, UserByEmail, VerifyEmail, RequestReset, Logout,
         RevokeSessionAdmin, RevokeOthers, RevokePrincipalAccess, SuspendUser, ReinstateUser, BlockUser;
    match cmd
    case DoVerify(email, code, now) => VerifyFrame(s, email, code, now);
    case DoRequestReset(email, now) => RequestFrame(s, email, now);
    case DoLogout(_, _) => RevokeFrame(s, cmd);
    case DoRevokeSession(_, _) => RevokeFrame(s, cmd);
    case DoRevokeOthers(_, _) => RevokeFrame(s, cmd);
    case DoRevokeAccess(_, _) => StatusStepFrame(s, cmd);
    case DoSuspend(_, _) => StatusStepFrame(s, cmd);
    case DoReinstate(_, _) => StatusStepFrame(s, cmd);
    case DoBlock(_, _) => StatusStepFrame(s, cmd);
    case _ =>
  }

  /** What a call that touches neither histories nor credentials leaves as it was. */
  ghost predicate SameAnchors(s: Store, t: Store) {
    && t.issued == s.issued && t.accepted == s.accepted && t.lastSet == s.lastSet
    && t.users.Keys == s.users.Keys && t.credentials == s.credentials && t.idp == s.idp
    && (forall u | u in s.users :: t.users[u].email == s.users[u].email && t.users[u].principal == s.users[u].principal)
  }

  lemma VerifyFrame(s: Store, email: string, code: string, now: Time)
    ensures var (t, reply) := VerifyEmail(s, email, code, now); SameAnchors(s, t) && (reply.Failed? || reply.Fine?)
  {
    hide UserByEmail;
  }

  lemma RequestFrame(s: Store, email: string, now: Time)
    ensures SameAnchors(s, RequestReset(s, email, now))
  {
    hide SameAnchors;
    if UserByEmail(s.users, email).None? {
      SameAnchorsOf(s, s);
      return;
    }
    var t := RequestReset(s, email, now);
    SameAnchorsOf(s, t);
  }

  lemma SameAnchorsOf(s: Store, t: Store)
    requires t == s.(nextId := t.nextId, resets := t.resets)
    ensures SameAnchors(s, t)
  {
  }

  lemma RevokeFrame(s: Store, cmd: Command)
    requires cmd.DoLogout? || cmd.DoRevokeSession? || cmd.DoRevokeOthers?
    ensures var (t, reply) := Apply(s, cmd); SameAnchors(s, t) && (reply.Failed? || reply.Fine?)
  {
    hide Login, Register, Refresh, ResetPassword, RevokeAll, UserByEmail, VerifyEmail, RequestReset, RevokedSession;
  }

  lemma StatusStepFrame(s: Store, cmd: Command)
    requires cmd.DoRevokeAccess? || cmd.DoSuspend? || cmd.DoReinstate? || cmd.DoBlock?
    ensures var (t, reply) := Apply(s, cmd); SameAnchors(s, t) && (reply.Failed? || reply.Fine?)
  {
    hide SameAnchors, SetStatus, RevokeAll;
    SameAnchorsOf(s, s);
    if cmd.user in s.users {
      StatusFrame(s, cmd.user, Active, PrincipalActive);
      StatusFrame(s, cmd.user, Locked, PrincipalLocked);
      StatusFrame(s, cmd.user, Blocked, PrincipalLocked);
    }
  }

  lemma StatusFrame(s: Store, u: Id, status: UserStatus, principal: PrincipalStatus)
    requires u in s.users
    ensures SameAnchors(s, SetStatus(s, u, status, principal))
    ensures forall sessions :: SameAnchors(s, SetStatus(s, u, status, principal).(sessions := sessions))
  {
  }

  lemma {:induction false} HistoryRun(issuer: string, cmds: seq<Command>)
    ensures var z := Run(Start(issuer), cmds);
      && (forall k :: At(z.issued, k) == IssuedIn(Start(issuer), cmds, k))
      && (forall k :: At(z.accepted, k) == AcceptedIn(Start(issuer), cmds, k))
      && (forall u | u in z.lastSet :: Some(z.lastSet[u]) == LastSetIn(Start(issuer), cmds, u))
    decreases |cmds|
  {
    hide Inv, Apply, SetBy, IssuedBy, AcceptedBy;
    if cmds != [] {
      var prior := cmds[..|cmds| - 1];
      HistoryRun(issuer, prior);
      StartOk(issuer);
      RunKeeps(Start(issuer), prior);
      HistoryStep(Run(Start(issuer), prior), Last(cmds));
    }
  }

  // ---------- login

  /** The provider has lost the user's account or holds the password last set. */
  predicate InSync(s: Store, u: Id) {
    u in s.users && u in s.lastSet
    && (AccountKey(s.users[u]) in s.idp.passwords ==> s.idp.passwords[AccountKey(s.users[u])] == s.lastSet[u])
  }

  /** Exactly which passwords open a session: the one last set, and whatever the provider holds.
      A call that opens one leaves the provider authenticating that password to the subject that the
      credential names, and no credential changes. */
  lemma LoginExactly(s: Store, u: Id, email: string, password: Password, hint: Option<string>, now: Time)
    requires Inv(s) && HasEmail(s.users, u, email)
    ensures u in s.lastSet && s.users[u].principal in s.credentials
    ensures var (t, reply) := Login(s, email, password, hint, NoFault, now);
      && t.credentials == s.credentials
      && (reply.LoggedIn? <==>
            && PlatformHint(hint) && s.users[u].status == Active
            && (password == s.lastSet[u] || AtProvider(s, u, password)))
      && (reply.LoggedIn? ==>
            Authenticated(t.idp, PLATFORM, email, password) == Some(s.credentials[s.users[u].principal].subject))
  {
    hide Inv, PasswordSet, Login, Text.Lower;
    LoginShape(s, u, email, password, hint, NoFault, now);
    LoginCredential(s, u, email, password);
    SetPasswordKeeps(s, u, password, s.users[u].email, password);
    OnlyPlatform(s, u);
    SameAddress(WithPassword(s, u, password).idp, PLATFORM, email, s.users[u].email, password);
  }

  lemma SameAddress(idp: Idp, realm: string, one: string, other: string, password: Password)
    requires Text.Lower(one) == Text.Lower(other)
    ensures Authenticated(idp, realm, one, password) == Authenticated(idp, realm, other, password)
  {
  }

  /** When a user's password at the provider agrees with the one last set after a call. Only a
      reset whose answer was lost takes them apart; a restart of the provider, a completed reset and
      a login with the password last set bring them together. */
  ghost predicate SyncAfter(s: Store, cmd: Command, u: Id) {
    match cmd
    case IdpRestart => true
    case DoReset(id, secret, password, valid, fault, now) =>
      if valid && ValidReset(s, id, secret, now) && s.resets[id].user == u && fault != RefusedCall
      then fault == NoFault || (u in s.lastSet && password == s.lastSet[u])
      else InSync(s, u)
    case DoLogin(email, password, hint, fault, now) =>
      if HasEmail(s.users, u, email) && fault != RefusedCall && s.users[u].status == Active
         && PlatformHint(hint) && u in s.lastSet && password == s.lastSet[u]
      then true
      else InSync(s, u)
    case DoRegister(_, _, _, _, _, _) => if u in s.users then InSync(s, u) else true
    case _ => InSync(s, u)
  }

  lemma LoginSync(s: Store, u: Id, email: string, password: Password, hint: Option<string>, fault: Fault, now: Time)
    requires Inv(s) && u in s.users
    ensures var t := Login(s, email, password, hint, fault, now).0;
      InSync(t, u) <==> SyncAfter(s, DoLogin(email, password, hint, fault, now), u)
  {
    hide Inv, PasswordSet, Login, Text.Lower;
    match UserByEmail(s.users, email)
    case None => UnknownEmail(s, email, password, hint, fault, now);
    case Some(v) =>
      LoginShape(s, v, email, password, hint, fault, now);
      SetPasswordKeeps(s, v, password, s.users[v].email, password);
      DistinctUsers(s, u, v);
      if HasEmail(s.users, u, email) {
        FoundByEmail(s, u, email);
      }
  }

  lemma DistinctUsers(s: Store, u: Id, v: Id)
    requires Inv(s) && u in s.users && v in s.users
    ensures AccountKey(s.users[u]) == AccountKey(s.users[v]) ==> u == v
    ensures HasEmail(s.users, v, s.users[v].email) && u in s.lastSet
    ensures AccountKey(s.users[u]) in s.idp.passwords <==> AccountKey(s.users[u]) in s.idp.users
  {
  }

  lemma ResetSync(s: Store, u: Id, id: Id, secret: Id, password: Password, valid: bool, fault: Fault, now: Time)
    requires Inv(s) && u in s.users
    ensures var t := ResetPassword(s, id, secret, password, valid, fault, now).0;
      InSync(t, u) <==> SyncAfter(s, DoReset(id, secret, password, valid, fault, now), u)
  {
    hide Inv, PasswordSet, ResetPassword, SpendReset;
    ResetShape(s, id, secret, password, valid, fault, now);
    if valid && ValidReset(s, id, secret, now) {
      var v := s.resets[id].user;
      DistinctUsers(s, u, v);
      SpendFrame(s, id);
      SpendKeeps(s, id);
      SetPasswordKeeps(SpendReset(s, id), v, password, s.users[v].email, password);
    }
  }

  lemma RegisterSync(s: Store, u: Id, email: string, password: Password, valid: bool, course: Course, otp: string,
                     now: Time)
    requires Inv(s)
    ensures var t := Register(s, email, password, valid, course, otp, now).0;
      u in t.users ==> (InSync(t, u) <==> SyncAfter(s, DoRegister(email, password, valid, course, otp, now), u))
  {
    hide Inv, Register, Text.Lower, Strands, Enrols, Enrolled, Created, Authenticated;
    RegistrationExactly(s, email, password, valid, course, otp, now);
    RegisterShape(s, email, password, valid, course, otp, now);
    NewSession(s);
    var t := Register(s, email, password, valid, course, otp, now).0;
    if Enrols(s, email, valid, course) {
      EnrolsNew(s, email, valid, course);
    }
    if u in s.users {
      DistinctUsers(s, u, u);
      if t.idp != s.idp {
        OtherAddress(s, u, email);
        AccountApart(s.idp, t.idp, email, password, s.nextId + 2);
      }
    } else if Enrols(s, email, valid, course) {
      NoPassword(s, email);
      if t.idp != s.idp {
        AccountApart(s.idp, t.idp, email, password, s.nextId + 2);
      }
    }
  }

  lemma NoPassword(s: Store, email: string)
    requires Inv(s) && KeyOf(PLATFORM, email) !in s.idp.users
    ensures KeyOf(PLATFORM, email) !in s.idp.passwords
  {
    hide IdsOk, UsersOk, Distinct, ChainsOk, SessionsOk, RealmsOk, ResetsOk, Text.Lower;
  }

  lemma AccountApart(before: Idp, after: Idp, email: string, password: Password, subject: Subject)
    requires Some(after) == Created(before, PLATFORM, email, password, subject)
    ensures after.passwords == before.passwords[KeyOf(PLATFORM, email) := password]
  {
  }

  lemma OtherAddress(s: Store, u: Id, email: string)
    requires Inv(s) && u in s.users && UserByEmail(s.users, email).None?
    ensures AccountKey(s.users[u]) != KeyOf(PLATFORM, email)
  {
    hide Inv;
    assert !HasEmail(s.users, u, email);
  }

  lemma SyncStep(s: Store, cmd: Command, u: Id)
    requires Inv(s) && u in Apply(s, cmd).0.users
    ensures InSync(Apply(s, cmd).0, u) <==> SyncAfter(s, cmd, u)
  {
    hide Inv, InSync, SyncAfter;
    match cmd
    case DoRegister(email, password, valid, course, otp, now) =>
      RegisterSync(s, u, email, password, valid, course, otp, now);
    case DoLogin(email, password, hint, fault, now) =>
      SameUsers(s, cmd);
      LoginSync(s, u, email, password, hint, fault, now);
    case DoReset(id, secret, password, valid, fault, now) =>
      SameUsers(s, cmd);
      ResetSync(s, u, id, secret, password, valid, fault, now);
    case DoRefresh(token, sid, now) => RefreshSync(s, u, token, sid, now);
    case _ => OtherSync(s, cmd, u);
  }

  lemma RefreshSync(s: Store, u: Id, token: Id, sid: Id, now: Time)
    requires Inv(s)
    ensures InSync(Refresh(s, token, sid, now).0, u) <==> InSync(s, u)
    ensures InSync(s, u) <==> SyncAfter(s, DoRefresh(token, sid, now), u)
  {
    RefreshExactly(s, token, sid, now);
    hide Inv, Refresh;
  }

  lemma OtherSync(s: Store, cmd: Command, u: Id)
    requires Inv(s) && IsOther(cmd) && u in Apply(s, cmd).0.users
    ensures InSync(Apply(s, cmd).0, u) <==> SyncAfter(s, cmd, u)
  {
    hide Inv, Apply;
    OtherHistory(s, cmd);
    DistinctUsers(s, u, u);
  }

  lemma SameUsers(s: Store, cmd: Command)
    requires Inv(s) && (cmd.DoLogin? || cmd.DoReset? || cmd.DoRefresh?)
    ensures Apply(s, cmd).0.users == s.users
  {
    hide Inv, Login, ResetPassword, PasswordSet, Refresh;
    match cmd
    case DoLogin(email, password, hint, fault, now) =>
      if UserByEmail(s.users, email).None? {
        UnknownEmail(s, email, password, hint, fault, now);
      } else {
        LoginShape(s, UserByEmail(s.users, email).value, email, password, hint, fault, now);
      }
    case DoRefresh(token, sid, now) => RefreshExactly(s, token, sid, now);
    case DoReset(id, secret, password, valid, fault, now) => ResetShape(s, id, secret, password, valid, fault, now);
  }

  /** A reset whose call to the provider was carried out but whose answer was lost. */
  predicate LosesResetAnswer(cmd: Command) {
    cmd.DoReset? && cmd.fault == LostAnswer
  }

  lemma {:induction false} SyncRun(issuer: string, cmds: seq<Command>, u: Id)
    requires forall i | 0 <= i < |cmds| :: !LosesResetAnswer(cmds[i])
    requires u in Run(Start(issuer), cmds).users
    ensures InSync(Run(Start(issuer), cmds), u)
    decreases |cmds|
  {
    if cmds != [] {
      var prior := cmds[..|cmds| - 1];
      var s := Run(Start(issuer), prior);
      StartOk(issuer);
      RunKeeps(Start(issuer), prior);
      hide Inv, Apply, InSync;
      if u in s.users {
        SyncRun(issuer, prior, u);
      } else {
        OnlyRegistrationAdds(s, Last(cmds), u);
      }
      SyncStep(s, Last(cmds), u);
    }
  }

  lemma OnlyRegistrationAdds(s: Store, cmd: Command, u: Id)
    requires Inv(s) && u in Apply(s, cmd).0.users && u !in s.users
    ensures cmd.DoRegister?
  {
    hide Inv, Apply;
    if IsOther(cmd) {
      OtherHistory(s, cmd);
    } else if !cmd.DoRegister? {
      SameUsers(s, cmd);
    }
  }

  /** From an empty database, whatever the provider restarts and refused calls, a login of an active
      user succeeds with the password last set by a completed registration or reset and with no
      other, as long as no reset lost the provider's answer. */
  lemma LoginAcceptsLastSet(issuer: string, cmds: seq<Command>, u: Id, email: string, password: Password, now: Time)
    requires HasEmail(Run(Start(issuer), cmds).users, u, email) && Run(Start(issuer), cmds).users[u].status == Active
    requires forall i | 0 <= i < |cmds| :: !LosesResetAnswer(cmds[i])
    ensures Login(Run(Start(issuer), cmds), email, password, None, NoFault, now).1.LoggedIn?
            <==> Some(password) == LastSetIn(Start(issuer), cmds, u)
  {
    hide Inv, Login;
    var z := Run(Start(issuer), cmds);
    StartOk(issuer);
    RunKeeps(Start(issuer), cmds);
    HistoryRun(issuer, cmds);
    SyncRun(issuer, cmds, u);
    LoginExactly(z, u, email, password, None, now);
  }

  // ---------- accounts of nobody

  /** The provider has an account for an address that no user has. */
  ghost predicate Orphan(s: Store, email: string) {
    UserByEmail(s.users, email).None? && KeyOf(PLATFORM, email) in s.idp.users
  }

  /** The address has an account of nobody after a call: registrations that strand theirs make them, and
      only a restart of the provider takes them away. */
  ghost predicate OrphanAfter(s: Store, cmd: Command, email: string) {
    match cmd
    case IdpRestart => false
    case DoRegister(address, _, valid, course, _, _) =>
      Orphan(s, email) || (Text.Lower(address) == Text.Lower(email) && Strands(s, address, valid, course))
    case _ => Orphan(s, email)
  }

  lemma SameOrphan(s: Store, t: Store, email: string)
    requires t.users.Keys == s.users.Keys && forall u | u in s.users :: t.users[u].email == s.users[u].email
    requires UserByEmail(s.users, email).None?
        ==> (KeyOf(PLATFORM, email) in t.idp.users <==> KeyOf(PLATFORM, email) in s.idp.users)
    ensures Orphan(t, email) <==> Orphan(s, email)
  {
    hide Text.Lower;
    assert forall u :: HasEmail(t.users, u, email) <==> HasEmail(s.users, u, email);
  }

  /** A user's account put back at the provider is not one of nobody. */
  lemma PutBack(s: Store, u: Id, password: Password, email: string)
    requires Inv(s) && u in s.users
    ensures s.users[u].principal in s.credentials
    ensures UserByEmail(s.users, email).None? ==>
              (KeyOf(PLATFORM, email) in WithPassword(s, u, password).idp.users
               <==> KeyOf(PLATFORM, email) in s.idp.users)
  {
    DistinctUsers(s, u, u);
    SetPasswordKeeps(s, u, password, s.users[u].email, password);
    if UserByEmail(s.users, email).None? {
      OtherAddress(s, u, email);
    }
  }

  lemma LoginOrphan(s: Store, address: string, password: Password, hint: Option<string>, fault: Fault, now: Time,
                    email: string)
    requires Inv(s)
    ensures Orphan(Login(s, address, password, hint, fault, now).0, email) <==> Orphan(s, email)
  {
    hide Inv, Login, PasswordSet, Text.Lower, Orphan;
    match UserByEmail(s.users, address)
    case None => UnknownEmail(s, address, password, hint, fault, now);
    case Some(u) =>
      LoginShape(s, u, address, password, hint, fault, now);
      PutBack(s, u, password, email);
      SameOrphan(s, Login(s, address, password, hint, fault, now).0, email);
  }

  lemma ResetOrphan(s: Store, id: Id, secret: Id, password: Password, valid: bool, fault: Fault, now: Time,
                    email: string)
    requires Inv(s)
    ensures Orphan(ResetPassword(s, id, secret, password, valid, fault, now).0, email) <==> Orphan(s, email)
  {
    hide Inv, ResetPassword, PasswordSet, SpendReset, Text.Lower, Orphan;
    ResetShape(s, id, secret, password, valid, fault, now);
    if valid && ValidReset(s, id, secret, now) {
      SpendFrame(s, id);
      SpendKeeps(s, id);
      PutBack(SpendReset(s, id), s.resets[id].user, password, email);
    }
    SameOrphan(s, ResetPassword(s, id, secret, password, valid, fault, now).0, email);
  }

  lemma RegisterOrphan(s: Store, address: string, password: Password, valid: bool, course: Course, otp: string,
                       now: Time, email: string)
    requires Inv(s)
    ensures Orphan(Register(s, address, password, valid, course, otp, now).0, email)
            <==> OrphanAfter(s, DoRegister(address, password, valid, course, otp, now), email)
  {
    hide Inv, Register, Text.Lower, Enrolled, Strands, Enrols;
    RegistrationExactly(s, address, password, valid, course, otp, now);
    RegisterShape(s, address, password, valid, course, otp, now);
    var t := Register(s, address, password, valid, course, otp, now).0;
    if Enrols(s, address, valid, course) {
      EnrolsNew(s, address, valid, course);
      EnrolledOrphan(s, t, address, password, email);
    } else {
      if t.idp != s.idp {
        SameAddressUser(s.users, address, email);
      }
      assert forall u :: HasEmail(t.users, u, email) <==> HasEmail(s.users, u, email);
    }
  }

  lemma SameAddressUser(users: map<Id, User>, one: string, other: string)
    ensures Text.Lower(one) == Text.Lower(other)
        ==> (UserByEmail(users, one).None? <==> UserByEmail(users, other).None?)
  {
    assert Text.Lower(one) == Text.Lower(other) ==> forall u :: HasEmail(users, u, one) <==> HasEmail(users, u, other);
  }

  lemma EnrolledOrphan(s: Store, t: Store, address: string, password: Password, email: string)
    requires Inv(s) && UserByEmail(s.users, address).None?
    requires t.users == s.users[s.nextId + 1 := User(s.nextId, Text.Lower(address), PendingVerification)]
    requires KeyOf(PLATFORM, address) !in s.idp.users
    requires t.idp == s.idp || Some(t.idp) == Created(s.idp, PLATFORM, address, password, s.nextId + 2)
    ensures Orphan(t, email) <==> Orphan(s, email)
  {
    NewSession(s);
    hide Inv, Text.Lower;
    SameAddressUser(s.users, address, email);
    assert HasEmail(t.users, s.nextId + 1, address);
    SameAddressUser(t.users, address, email);
    if Text.Lower(address) != Text.Lower(email) {
      assert forall u :: HasEmail(t.users, u, email) <==> HasEmail(s.users, u, email);
    }
  }

  lemma OrphanStep(s: Store, cmd: Command, email: string)
    requires Inv(s)
    ensures Orphan(Apply(s, cmd).0, email) <==> OrphanAfter(s, cmd, email)
  {
    hide Inv, Login, Register, Refresh, ResetPassword, Orphan;
    match cmd
    case DoRegister(address, password, valid, course, otp, now) =>
      RegisterOrphan(s, address, password, valid, course, otp, now, email);
    case DoLogin(address, password, hint, fault, now) => LoginOrphan(s, address, password, hint, fault, now, email);
    case DoReset(id, secret, password, valid, fault, now) =>
      ResetOrphan(s, id, secret, password, valid, fault, now, email);
    case DoRefresh(token, sid, now) =>
      RefreshExactly(s, token, sid, now);
      SameOrphan(s, Refresh(s, token, sid, now).0, email);
    case IdpRestart => NoOrphans(s, email);
    case _ =>
      OtherHistory(s, cmd);
      hide Apply;
      SameOrphan(s, Apply(s, cmd).0, email);
  }

  lemma NoOrphans(s: Store, email: string)
    ensures !Orphan(s.(idp := RESTARTED), email)
  {
  }

  /** An account of nobody stays until the provider restarts, and as long as it does nobody registers
      the address; otherwise an address that no user has is registered by any call that goes smoothly. */
  lemma OrphanBlocks(s: Store, cmds: seq<Command>, email: string, password: Password, course: Course, otp: string,
                     now: Time)
    requires Inv(s) && UserByEmail(Run(s, cmds).users, email).None?
    requires forall i | 0 <= i < |cmds| :: !cmds[i].IdpRestart?
    ensures Orphan(s, email) ==> !Register(Run(s, cmds), email, password, true, course, otp, now).1.Registered?
    ensures !Orphan(Run(s, cmds), email)
        ==> Register(Run(s, cmds), email, password, true, SMOOTH, otp, now).1.Registered?
  {
    hide Inv, Register, Apply;
    RunKeeps(s, cmds);
    RegistrationExactly(Run(s, cmds), email, password, true, course, otp, now);
    RegistrationExactly(Run(s, cmds), email, password, true, SMOOTH, otp, now);
    if Orphan(s, email) {
      OrphanStays(s, cmds, email);
    }
  }

  lemma {:induction false} OrphanStays(s: Store, cmds: seq<Command>, email: string)
    requires Inv(s) && Orphan(s, email)
    requires forall i | 0 <= i < |cmds| :: !cmds[i].IdpRestart?
    ensures Orphan(Run(s, cmds), email)
    decreases |cmds|
  {
    hide Inv, Apply, Orphan;
    if cmds != [] {
      var prior := cmds[..|cmds| - 1];
      OrphanStays(s, prior, email);
      RunKeeps(s, prior);
      OrphanStep(Run(s, prior), Last(cmds), email);
    }
  }

  /** From an empty database, one registration whose account is left at the provider, and the address
      is taken with no user to show for it, until the provider restarts. */
  lemma StrandedRun(issuer: string, email: string, password: Password, course: Course, otp: string, now: Time)
    requires course.creating == LostAnswer
             || (course.creating == NoFault
                 && (course.ending == Dies || (course.ending == RollsBack && course.deleting == RefusedCall)))
    ensures var s := Register(Start(issuer), email, password, true, course, otp, now).0;
      && s.users == map[] && Orphan(s, email)
      && Register(s, email, password, true, SMOOTH, otp, now) == (s, Failed(ServerError))
      && Register(s.(idp := RESTARTED), email, password, true, SMOOTH, otp, now).1.Registered?
  {
    StartOk(issuer);
    RegistrationExactly(Start(issuer), email, password, true, course, otp, now);
    var s := Register(Start(issuer), email, password, true, course, otp, now).0;
    assert UserByEmail(map[], email).None?;
    hide Inv, Text.Lower, Deleted;
  }
}
