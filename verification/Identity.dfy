/** Accounts, sessions and their mirror in the identity provider, as values. */
module Identity {
  import opened Errors
  import opened Keycloak
  import Text

  type Id = nat
  type Time = int

  /** Hashing is ideal: a digest verifies the value it was made from and no other. */
  datatype Digest<T> = Digest(of: T)

  datatype UserStatus = PendingVerification | Active | Locked | Blocked
  datatype PrincipalStatus = PrincipalInactive | PrincipalActive | PrincipalLocked

  datatype User = User(principal: Id, email: string, status: UserStatus)
  datatype Credential = Credential(realm: string, subject: Subject, hash: Option<Digest<Password>>)
  datatype Session = Session(user: Id, active: bool, refresh: Option<Digest<Id>>, expiresAt: Time)
  datatype ResetToken = ResetToken(user: Id, hash: Digest<Id>, expiresAt: Time, used: bool)
  datatype Otp = Otp(hash: Digest<string>, expiresAt: Time)

  /** What the signature of an access token protects; the model lets anyone present any claims. */
  datatype AccessToken = AccessToken(sub: Subject, iss: string, sid: Id, exp: Time)

  const REFRESH_TTL := 7 * 24 * 3600
  const ACCESS_TTL := 900
  const RESET_TTL := 10 * 60
  const OTP_TTL := 30 * 60

  /** Users and sessions by identifier, credentials by principal. `realms` gives each realm's issuer.
      `nextId` stands for the source of fresh identifiers, subjects and tokens. The last three fields
      are history that the service does not keep: the password last set by a completed registration
      or reset, and the refresh tokens issued to and accepted from each session. */
  datatype Store = Store(
    nextId: Id, realms: map<string, string>,
    users: map<Id, User>, principals: map<Id, PrincipalStatus>, credentials: map<Id, Credential>,
    sessions: map<Id, Session>, resets: map<Id, ResetToken>, otps: map<Id, Otp>, idp: Idp,
    lastSet: map<Id, Password>, issued: map<Id, seq<Id>>, accepted: map<Id, seq<Id>>)

  /** How a call to the provider fails: refused without effect, or carried out but its answer lost. */
  datatype Fault = NoFault | RefusedCall | LostAnswer

  /** How the transaction of a registration ends once the provider has answered; the answer of a commit
      that was carried out may be lost too. */
  datatype Ending = Commits | RollsBack | Dies | CommitLost

  /** What happens to a registration: to the call that creates the account, to the transaction, and to
      the call that deletes the account again when the transaction has raised. */
  datatype Course = Course(creating: Fault, ending: Ending, deleting: Fault)

  const SMOOTH := Course(NoFault, Commits, NoFault)

  datatype Reply =
    | Registered(user: Id)
    | LoggedIn(session: Id, refresh: Id, access: AccessToken)
    | Refreshed(newRefresh: Id, newAccess: AccessToken)
    | Fine
    | Failed(error: Error)

  // ---------- lookups

  predicate HasEmail(users: map<Id, User>, u: Id, email: string) {
    u in users && users[u].email == Text.Lower(email)
  }

  ghost function UserByEmail(users: map<Id, User>, email: string): (u: Option<Id>)
    ensures u.Some? ==> HasEmail(users, u.value, email)
    ensures u.None? ==> forall v :: !HasEmail(users, v, email)
  {
    if exists v :: HasEmail(users, v, email) then var v :| HasEmail(users, v, email); Some(v) else None
  }

  // ---------- sessions

  function RevokedSession(x: Session): Session {
    x.(active := false, refresh := None)
  }

  /** Every active session of the given users revoked. */
  function RevokeAll(sessions: map<Id, Session>, users: set<Id>): map<Id, Session> {
    map k | k in sessions :: if sessions[k].active && sessions[k].user in users then
      RevokedSession(sessions[k]) else sessions[k]
  }

  function Revoke(s: Store, sid: Id): Store
    requires sid in s.sessions
  {
    s.(sessions := s.sessions[sid := RevokedSession(s.sessions[sid])])
  }

  // ---------- registration and verification

  /** The rows of a registration, under three fresh identifiers: principal, user and subject. */
  function Enrolled(s: Store, email: string, password: Password, otp: string, now: Time): Store {
    var principal, user, subject := s.nextId, s.nextId + 1, s.nextId + 2;
    s.(nextId := s.nextId + 3,
       users := s.users[user := User(principal, Text.Lower(email), PendingVerification)],
       principals := s.principals[principal := PrincipalInactive],
       credentials := s.credentials[principal := Credential(PLATFORM, subject, Some(Digest(password)))],
       otps := s.otps[user := Otp(Digest(otp), now + OTP_TTL)],
       lastSet := s.lastSet[user := password])
  }

  /** The transaction of a registration whose account has been made, and the account's deletion when
      the transaction raises. */
  function Settled(s: Store, email: string, password: Password, course: Course, otp: string,
                   now: Time): (Store, Reply) {
    var left := if course.deleting == RefusedCall then s.idp else Deleted(s.idp, PLATFORM, s.nextId + 2);
    match course.ending
    case Commits => (Enrolled(s, email, password, otp, now), Registered(s.nextId + 1))
    case CommitLost => (Enrolled(s, email, password, otp, now).(idp := left), Failed(ServerError))
    case RollsBack => (s.(nextId := s.nextId + 3, idp := left), Failed(ServerError))
    case Dies => (s.(nextId := s.nextId + 3), Failed(ServerError))
  }

  /** `valid` is the outcome of the input validators. Once the provider has answered, a failing step
      rolls the rows back, unless they have been committed, and asks for the account's deletion; a call
      whose answer is lost, or a worker that dies, leaves the account. */
  ghost function Register(s: Store, email: string, password: Password, valid: bool, course: Course, otp: string,
                          now: Time)
    : (Store, Reply)
  {
    if !valid then (s, Failed(Validation))
    else if UserByEmail(s.users, email).Some? then (s, Failed(Conflict))
    else if PLATFORM !in s.realms then (s, Failed(NotFound))
    else
      var subject := s.nextId + 2;
      match Created(s.idp, PLATFORM, email, password, subject)
      case None => (s, Failed(ServerError))
      case Some(idp) =>
        if course.creating == RefusedCall then (s, Failed(ServerError))
        else if course.creating == LostAnswer then (s.(nextId := s.nextId + 3, idp := idp), Failed(ServerError))
        else Settled(s.(idp := idp), email, password, course, otp, now)
  }

  function SetStatus(s: Store, u: Id, status: UserStatus, principal: PrincipalStatus): Store
    requires u in s.users
  {
    s.(users := s.users[u := s.users[u].(status := status)],
       principals := s.principals[s.users[u].principal := principal])
  }

  ghost function VerifyEmail(s: Store, email: string, code: string, now: Time): (Store, Reply) {
    match UserByEmail(s.users, email)
    case None => (s, Failed(Validation))
    case Some(u) =>
      if s.users[u].status == Active then (s, Failed(Conflict))
      else if s.users[u].status != PendingVerification then (s, Failed(Forbidden))
      else if u !in s.otps || s.otps[u].expiresAt < now || s.otps[u].hash != Digest(code) then (s, Failed(Validation))
      else (SetStatus(s, u, Active, PrincipalActive), Fine)
  }

  // ---------- login

  function Issue(s: Store, u: Id, subject: Subject, issuer: string, now: Time): (Store, Reply) {
    var sid, token := s.nextId, s.nextId + 1;
    (s.(nextId := s.nextId + 2,
        sessions := s.sessions[sid := Session(u, true, Some(Digest(token)), now + REFRESH_TTL)],
        issued := s.issued[sid := [token]],
        accepted := s.accepted[sid := []]),
     LoggedIn(sid, token, AccessToken(subject, issuer, sid, now + ACCESS_TTL)))
  }

  /** The subject of a correct password: the provider's, or that of the credential when only the
      local hash knows the password, and then the account is put back at the provider. */
  function SubjectForLogin(s: Store, realm: string, email: string, password: Password, principal: Id, fault: Fault)
    : (Store, Option<Subject>, Error)
    requires principal in s.credentials
  {
    var credential := s.credentials[principal];
    match Authenticated(s.idp, realm, email, password)
    case Some(subject) =>
      var hash := if credential.hash.None? then Some(Digest(password)) else credential.hash;
      (s.(credentials := s.credentials[principal := credential.(subject := subject, hash := hash)]), Some(subject),
       Unauthorized)
    case None =>
      if credential.hash != Some(Digest(password)) then (s, None, Unauthorized)
      else
        var idp := PasswordSet(s.idp, realm, credential.subject, password, email);
        match fault
        case NoFault => (s.(idp := idp), Some(credential.subject), Unauthorized)
        case RefusedCall => (s, None, ServerError)
        case LostAnswer => (s.(idp := idp), None, ServerError)
  }

  /** `fault` is what happens to the provider call that puts a lost account back. */
  ghost function Login(s: Store, email: string, password: Password, hint: Option<string>, fault: Fault, now: Time)
    : (Store, Reply)
  {
    match UserByEmail(s.users, email)
    case None => (s, Failed(Unauthorized))
    case Some(u) =>
      var realm := if hint.Some? && hint.value != "" then hint.value else PLATFORM;
      var principal := s.users[u].principal;
      if realm !in s.realms then (s, Failed(Unauthorized))
      else if s.users[u].status != Active then (s, Failed(Forbidden))
      else if principal !in s.principals || s.principals[principal] != PrincipalActive then (s, Failed(Forbidden))
      else if principal !in s.credentials || s.credentials[principal].realm != realm then (s, Failed(Unauthorized))
      else
        var (t, subject, error) := SubjectForLogin(s, realm, email, password, principal, fault);
        if subject.None? then (t, Failed(error)) else Issue(t, u, subject.value, s.realms[realm], now)
  }

  // ---------- refresh

  function Refresh(s: Store, token: Id, sid: Id, now: Time): (Store, Reply) {
    if sid !in s.sessions || !s.sessions[sid].active then (s, Failed(Unauthorized))
    else
      var x := s.sessions[sid];
      if x.expiresAt < now then (Revoke(s, sid), Failed(Unauthorized))
      else if x.refresh.None? then (s, Failed(Unauthorized))
      else if x.refresh != Some(Digest(token)) then (Revoke(s, sid), Failed(Unauthorized))
      else if x.user !in s.users || s.users[x.user].status != Active then (Revoke(s, sid), Failed(Unauthorized))
      else
        var principal := s.users[x.user].principal;
        if principal !in s.principals || s.principals[principal] != PrincipalActive then
          (Revoke(s, sid), Failed(Unauthorized))
        else if principal !in s.credentials then (s, Failed(Unauthorized))
        else
          var credential := s.credentials[principal];
          var issuer := if credential.realm in s.realms then s.realms[credential.realm] else "";
          var next := s.nextId;
          (s.(nextId := s.nextId + 1,
              sessions := s.sessions[sid := x.(refresh := Some(Digest(next)), expiresAt := now + REFRESH_TTL)],
              issued := if sid in s.issued then s.issued[sid := s.issued[sid] + [next]] else s.issued,
              accepted := if sid in s.accepted then s.accepted[sid := s.accepted[sid] + [token]] else s.accepted),
           Refreshed(next, AccessToken(credential.subject, issuer, sid, now + ACCESS_TTL)))
  }

  /** Whether the access token still resolves to the user. Issuers belong to one realm each. */
  predicate Resolves(s: Store, t: AccessToken, now: Time, u: Id) {
    && now <= t.exp
    && u in s.users && s.users[u].principal in s.credentials
    && s.credentials[s.users[u].principal].subject == t.sub
    && s.credentials[s.users[u].principal].realm in s.realms
    && s.realms[s.credentials[s.users[u].principal].realm] == t.iss
    && t.sid in s.sessions && s.sessions[t.sid].active && now <= s.sessions[t.sid].expiresAt
    && s.users[u].status == Active
    && s.sessions[t.sid].user == u
    && s.users[u].principal in s.principals && s.principals[s.users[u].principal] == PrincipalActive
  }

  // ---------- revocation and user lifecycle

  function Logout(s: Store, sid: Id, actor: Id): (Store, Reply) {
    if sid !in s.sessions || s.sessions[sid].user != actor then (s, Failed(NotFound)) else (Revoke(s, sid), Fine)
  }

  /** `permitted` is the outcome of the tenant-admin checks. */
  function RevokeSessionAdmin(s: Store, permitted: bool, sid: Id): (Store, Reply) {
    if sid !in s.sessions then (s, Failed(if permitted then NotFound else Forbidden))
    else if !permitted then (s, Failed(Forbidden))
    else (Revoke(s, sid), Fine)
  }

  function RevokeOthers(s: Store, current: Id, user: Id): Store {
    s.(sessions := map k | k in s.sessions ::
         if k != current then RevokeAll(s.sessions, {user})[k] else s.sessions[k])
  }

  function RevokePrincipalAccess(s: Store, permitted: bool, u: Id): (Store, Reply) {
    if !permitted then (s, Failed(Forbidden))
    else if u !in s.users then (s, Failed(NotFound))
    else (SetStatus(s, u, Locked, PrincipalLocked).(sessions := RevokeAll(s.sessions, {u})), Fine)
  }

  function SuspendUser(s: Store, operator: bool, u: Id): (Store, Reply) {
    if !operator then (s, Failed(Forbidden))
    else if u !in s.users then (s, Failed(NotFound))
    else if s.users[u].status == Blocked then (s, Failed(Conflict))
    else (SetStatus(s, u, Locked, PrincipalLocked).(sessions := RevokeAll(s.sessions, {u})), Fine)
  }

  function ReinstateUser(s: Store, operator: bool, u: Id): (Store, Reply) {
    if !operator then (s, Failed(Forbidden))
    else if u !in s.users then (s, Failed(NotFound))
    else if s.users[u].status == Blocked then (s, Failed(Conflict))
    else (SetStatus(s, u, Active, PrincipalActive), Fine)
  }

  function BlockUser(s: Store, operator: bool, u: Id): (Store, Reply) {
    if !operator then (s, Failed(Forbidden))
    else if u !in s.users then (s, Failed(NotFound))
    else (SetStatus(s, u, Blocked, PrincipalLocked).(sessions := RevokeAll(s.sessions, {u})), Fine)
  }

  // ---------- password reset

  ghost function RequestReset(s: Store, email: string, now: Time): Store {
    match UserByEmail(s.users, email)
    case None => s
    case Some(u) =>
      if s.users[u].status != Active then s
      else s.(nextId := s.nextId + 2,
              resets := s.resets[s.nextId := ResetToken(u, Digest(s.nextId + 1), now + RESET_TTL, false)])
  }

  /** The first commit of a reset: the token is used up and the user's sessions are revoked. */
  function SpendReset(s: Store, id: Id): Store
    requires id in s.resets
  {
    s.(resets := s.resets[id := s.resets[id].(used := true)],
       sessions := RevokeAll(s.sessions, {s.resets[id].user}))
  }

  predicate ValidReset(s: Store, id: Id, secret: Id, now: Time) {
    id in s.resets && !s.resets[id].used && now <= s.resets[id].expiresAt && s.resets[id].hash == Digest(secret)
  }

  function ResetPassword(s: Store, id: Id, secret: Id, password: Password, valid: bool, fault: Fault,
                         now: Time): (Store, Reply) {
    if !valid || !ValidReset(s, id, secret, now) then (s, Failed(Validation))
    else
      var u := s.resets[id].user;
      if u !in s.users || s.users[u].principal !in s.credentials
         || s.credentials[s.users[u].principal].realm !in s.realms then (s, Failed(Validation))
      else
        var t := SpendReset(s, id);
        var principal := s.users[u].principal;
        var credential := s.credentials[principal];
        var idp := PasswordSet(s.idp, credential.realm, credential.subject, password, s.users[u].email);
        match fault
        case RefusedCall => (t, Failed(Validation))
        case LostAnswer => (t.(idp := idp), Failed(Validation))
        case NoFault =>
          (t.(idp := idp, credentials := s.credentials[principal := credential.(hash := Some(Digest(password)))],
              lastSet := s.lastSet[u := password]), Fine)
  }

  /** Realm names and issuers are unique. */
  function NewRealm(s: Store, name: string, issuer: string): (Store, Reply) {
    if name in s.realms || issuer in s.realms.Values then (s, Failed(Conflict))
    else (s.(realms := s.realms[name := issuer]), Fine)
  }

  // ---------- runs

  datatype Command =
    | DoRegister(email: string, password: Password, valid: bool, course: Course, otp: string, now: Time)
    | DoVerify(email: string, code: string, now: Time)
    | DoLogin(email: string, password: Password, hint: Option<string>, fault: Fault, now: Time)
    | DoRefresh(token: Id, sid: Id, now: Time)
    | DoLogout(sid: Id, actor: Id)
    | DoRevokeSession(permitted: bool, sid: Id)
    | DoRevokeOthers(current: Id, user: Id)
    | DoRevokeAccess(permitted: bool, user: Id)
    | DoSuspend(operator: bool, user: Id)
    | DoReinstate(operator: bool, user: Id)
    | DoBlock(operator: bool, user: Id)
    | DoRevokeSessionsOf(users: set<Id>)
    | DoRequestReset(email: string, now: Time)
    | DoReset(id: Id, secret: Id, password: Password, valid: bool, fault: Fault, now: Time)
    | AddRealm(name: string, issuer: string)
    | IdpRestart

  ghost function Apply(s: Store, cmd: Command): (Store, Reply) {
    match cmd
    case DoRegister(email, password, valid, course, otp, now) => Register(s, email, password, valid, course, otp, now)
    case DoVerify(email, code, now) => VerifyEmail(s, email, code, now)
    case DoLogin(email, password, hint, fault, now) => Login(s, email, password, hint, fault, now)
    case DoRefresh(token, sid, now) => Refresh(s, token, sid, now)
    case DoLogout(sid, actor) => Logout(s, sid, actor)
    case DoRevokeSession(permitted, sid) => RevokeSessionAdmin(s, permitted, sid)
    case DoRevokeOthers(current, user) => (RevokeOthers(s, current, user), Fine)
    case DoRevokeAccess(permitted, user) => RevokePrincipalAccess(s, permitted, user)
    case DoSuspend(operator, user) => SuspendUser(s, operator, user)
    case DoReinstate(operator, user) => ReinstateUser(s, operator, user)
    case DoBlock(operator, user) => BlockUser(s, operator, user)
    case DoRevokeSessionsOf(users) => (s.(sessions := RevokeAll(s.sessions, users)), Fine)
    case DoRequestReset(email, now) => (RequestReset(s, email, now), Fine)
    case DoReset(id, secret, password, valid, fault, now) => ResetPassword(s, id, secret, password, valid, fault, now)
    case AddRealm(name, issuer) => NewRealm(s, name, issuer)
    case IdpRestart => (s.(idp := RESTARTED), Fine)
  }
}
