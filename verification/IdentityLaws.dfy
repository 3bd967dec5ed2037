/** What every identity call keeps, table by table. */
module IdentityLaws {
  import opened Errors
  import opened Keycloak
  import opened Identity
  import Text

  // ---------- the invariant

  /** Every identifier, subject and token in use has been handed out. */
  ghost predicate IdsOk(n: Id, users: map<Id, User>, credentials: map<Id, Credential>, idp: Idp,
                        issued: map<Id, seq<Id>>) {
    && (forall u | u in users :: u < n && users[u].principal < n)
    && (forall p | p in credentials :: credentials[p].subject < n)
    && (forall x | x in idp.subjects :: x < n)
    && (forall k | k in issued :: k < n && forall i | 0 <= i < |issued[k]| :: issued[k][i] < n)
  }

  /** A user has a principal and a credential, is active exactly when the principal is, and the
      local hash is that of the password last set. */
  ghost predicate UsersOk(users: map<Id, User>, principals: map<Id, PrincipalStatus>, credentials: map<Id, Credential>,
                          lastSet: map<Id, Password>) {
    forall u | u in users ::
      && Text.Lower(users[u].email) == users[u].email
      && users[u].principal in principals && users[u].principal in credentials && u in lastSet
      && (users[u].status == Active <==> principals[users[u].principal] == PrincipalActive)
      && credentials[users[u].principal].realm == PLATFORM
      && credentials[users[u].principal].hash == Some(Digest(lastSet[u]))
  }

  ghost predicate Distinct(users: map<Id, User>, credentials: map<Id, Credential>) {
    forall u, v | u in users && v in users && u != v ::
      && users[u].email != users[v].email
      && users[u].principal != users[v].principal
      && (users[u].principal in credentials && users[v].principal in credentials ==>
            credentials[users[u].principal].subject != credentials[users[v].principal].subject)
  }

  function AccountKey(user: User): Key {
    Key(PLATFORM, user.email)
  }

  /** The provider has a user's account under the subject that the user's credential names, and no
      other account under that subject. It may also have accounts of nobody. */
  ghost predicate IdpOk(users: map<Id, User>, credentials: map<Id, Credential>, idp: Idp) {
    && Consistent(idp) && PLATFORM in idp.realms
    && (forall x | x in idp.users.Values :: x in idp.subjects)
    && (forall u | u in users && AccountKey(users[u]) in idp.users ::
          users[u].principal in credentials
              && idp.users[AccountKey(users[u])] == credentials[users[u].principal].subject)
    && (forall u, k | u in users && users[u].principal in credentials && k in idp.users && k.realm == PLATFORM
                      && idp.users[k] == credentials[users[u].principal].subject :: k == AccountKey(users[u]))
  }

  ghost predicate NoRepeats<T>(q: seq<T>) {
    forall i, j | 0 <= i < j < |q| :: q[i] != q[j]
  }

  /** A session has accepted all the refresh tokens it was issued but the last, in the order of issue. */
  ghost predicate ChainsOk(sessions: map<Id, Session>, issued: map<Id, seq<Id>>, accepted: map<Id, seq<Id>>) {
    && sessions.Keys == issued.Keys == accepted.Keys
    && forall k | k in sessions ::
         |issued[k]| > 0 && NoRepeats(issued[k]) && accepted[k] == issued[k][..|issued[k]| - 1]
  }

  function Last<T>(q: seq<T>): T
    requires |q| > 0
  {
    q[|q| - 1]
  }

  /** An active session belongs to an active user and holds the digest of its last token; a revoked one holds none. */
  ghost predicate SessionsOk(users: map<Id, User>, sessions: map<Id, Session>, issued: map<Id, seq<Id>>) {
    forall k | k in sessions ::
      if sessions[k].active then
        && sessions[k].user in users && users[sessions[k].user].status == Active
        && k in issued && |issued[k]| > 0 && sessions[k].refresh == Some(Digest(Last(issued[k])))
      else sessions[k].refresh == None
  }

  ghost predicate RealmsOk(realms: map<string, string>) {
    PLATFORM in realms && forall r, q | r in realms && q in realms && realms[r] == realms[q] :: r == q
  }

  ghost predicate ResetsOk(n: Id, users: map<Id, User>, resets: map<Id, ResetToken>) {
    forall k | k in resets :: k < n && resets[k].user in users
  }

  ghost predicate Inv(s: Store) {
    && IdsOk(s.nextId, s.users, s.credentials, s.idp, s.issued)
    && UsersOk(s.users, s.principals, s.credentials, s.lastSet)
    && Distinct(s.users, s.credentials)
    && IdpOk(s.users, s.credentials, s.idp)
    && ChainsOk(s.sessions, s.issued, s.accepted)
    && SessionsOk(s.users, s.sessions, s.issued)
    && RealmsOk(s.realms)
    && ResetsOk(s.nextId, s.users, s.resets)
  }

  lemma IdsGrow(n: Id, m: Id, users: map<Id, User>, credentials: map<Id, Credential>, idp: Idp,
                issued: map<Id, seq<Id>>)
    requires IdsOk(n, users, credentials, idp, issued) && n <= m
    ensures IdsOk(m, users, credentials, idp, issued)
  {
  }

  // ---------- registration

  /** No account has a fresh subject, and an address without a user is no user's account. */
  lemma NewAddress(s: Store, email: string)
    requires Inv(s) && UserByEmail(s.users, email).None?
    ensures forall u | u in s.users :: AccountKey(s.users[u]) != KeyOf(PLATFORM, email)
    ensures forall x | x >= s.nextId :: x !in s.idp.users.Values && x !in s.idp.subjects
    ensures forall u | u in s.users :: u < s.nextId && s.users[u].principal < s.nextId
    ensures forall p | p in s.credentials :: s.credentials[p].subject < s.nextId
  {
    hide UsersOk, Distinct, ChainsOk, SessionsOk, RealmsOk, ResetsOk, Consistent;
    forall u | u in s.users ensures AccountKey(s.users[u]) != KeyOf(PLATFORM, email) {
      assert !HasEmail(s.users, u, email);
    }
  }

  /** A new user under fresh identifiers. */
  lemma UserAdded(users: map<Id, User>, principals: map<Id, PrincipalStatus>, credentials: map<Id, Credential>,
                  lastSet: map<Id, Password>, n: Id, email: string, password: Password)
    requires UsersOk(users, principals, credentials, lastSet) && Distinct(users, credentials)
    requires forall u | u in users :: u < n && users[u].principal < n && users[u].email != email
    requires forall p | p in credentials :: credentials[p].subject < n
    requires Text.Lower(email) == email
    ensures var user := User(n, email, PendingVerification);
      && UsersOk(users[n + 1 := user], principals[n := PrincipalInactive],
                 credentials[n := Credential(PLATFORM, n + 2, Some(Digest(password)))], lastSet[n + 1 := password])
      && Distinct(users[n + 1 := user], credentials[n := Credential(PLATFORM, n + 2, Some(Digest(password)))])
  {
    hide Text.Lower;
  }

  lemma RegisterUsers(s: Store, email: string, password: Password, otp: string, now: Time)
    requires Inv(s) && UserByEmail(s.users, email).None?
    ensures var t := Enrolled(s, email, password, otp, now);
      UsersOk(t.users, t.principals, t.credentials, t.lastSet) && Distinct(t.users, t.credentials)
  {
    hide ChainsOk, SessionsOk, RealmsOk, ResetsOk, IdpOk, UsersOk, Distinct;
    Text.LowerTwice(email);
    forall u | u in s.users ensures s.users[u].email != Text.Lower(email) {
      assert !HasEmail(s.users, u, email);
    }
    UserAdded(s.users, s.principals, s.credentials, s.lastSet, s.nextId, Text.Lower(email), password);
  }

  /** A new account at the provider, of nobody yet. */
  lemma AccountAdded(users: map<Id, User>, credentials: map<Id, Credential>, idp: Idp, key: Key, subject: Subject,
                     password: Password)
    requires IdpOk(users, credentials, idp) && key !in idp.users && key.realm == PLATFORM && subject !in idp.subjects
    requires forall u | u in users :: AccountKey(users[u]) != key
    requires forall p | p in credentials :: credentials[p].subject != subject
    ensures IdpOk(users, credentials, Idp(idp.users[key := subject], idp.passwords[key := password],
                                          idp.subjects + {subject}, idp.realms + {PLATFORM}))
  {
    var after := Idp(idp.users[key := subject], idp.passwords[key := password], idp.subjects + {subject},
                     idp.realms + {PLATFORM});
    forall k | k in idp.users ensures idp.users[k] in idp.subjects && idp.users[k] != subject {
      assert idp.users[k] in idp.users.Values;
    }
    assert Consistent(after);
  }

  /** The account becomes that of a new user. */
  lemma AccountOwned(users: map<Id, User>, credentials: map<Id, Credential>, idp: Idp, u: Id, user: User,
                     subject: Subject, password: Password)
    requires IdpOk(users, credentials, idp) && u !in users
    requires AccountKey(user) in idp.users && idp.users[AccountKey(user)] == subject
    requires forall v | v in users :: AccountKey(users[v]) != AccountKey(user) && users[v].principal != user.principal
    ensures IdpOk(users[u := user],
                  credentials[user.principal := Credential(PLATFORM, subject, Some(Digest(password)))], idp)
  {
  }

  lemma RegisterIdp(s: Store, email: string, password: Password, otp: string, now: Time)
    requires Inv(s) && UserByEmail(s.users, email).None? && KeyOf(PLATFORM, email) !in s.idp.users
    ensures var t, idp :=
      Enrolled(s, email, password, otp, now), Created(s.idp, PLATFORM, email, password, s.nextId + 2).value;
      IdpOk(t.users, t.credentials, idp) && IdsOk(t.nextId, t.users, t.credentials, idp, t.issued)
  {
    hide UsersOk, ChainsOk, SessionsOk, RealmsOk, IdpOk, Distinct, ResetsOk, Text.Lower;
    NewAddress(s, email);
    AccountAdded(s.users, s.credentials, s.idp, KeyOf(PLATFORM, email), s.nextId + 2, password);
    var user := User(s.nextId, Text.Lower(email), PendingVerification);
    AccountOwned(s.users, s.credentials, Created(s.idp, PLATFORM, email, password, s.nextId + 2).value,
                 s.nextId + 1, user,
                 s.nextId + 2, password);
  }

  /** Sessions do not depend on users that are not theirs. */
  lemma SessionsFrame(users: map<Id, User>, sessions: map<Id, Session>, issued: map<Id, seq<Id>>, u: Id, user: User)
    requires SessionsOk(users, sessions, issued) && u !in users
    ensures SessionsOk(users[u := user], sessions, issued)
  {
  }

  lemma RegisterKeeps(s: Store, email: string, password: Password, valid: bool, course: Course, otp: string, now: Time)
    requires Inv(s)
    ensures Inv(Register(s, email, password, valid, course, otp, now).0)
  {
    hide Inv, Register, Enrolled, Created, Enrols, Strands;
    var t := Register(s, email, password, valid, course, otp, now).0;
    RegistrationExactly(s, email, password, valid, course, otp, now);
    if Enrols(s, email, valid, course) {
      EnrolsNew(s, email, valid, course);
      EnrolledKeeps(s, email, password, otp, now);
      EnrolledIdp(s, email, password, otp, now);
    } else {
      FailedKeeps(s, t, email, password);
    }
  }

  /** The rows of a registration, with the account or without it. */
  lemma EnrolledKeeps(s: Store, email: string, password: Password, otp: string, now: Time)
    requires Inv(s) && UserByEmail(s.users, email).None? && KeyOf(PLATFORM, email) !in s.idp.users
    ensures Inv(Enrolled(s, email, password, otp,
                         now).(idp := Created(s.idp, PLATFORM, email, password, s.nextId + 2).value))
    ensures Inv(Enrolled(s, email, password, otp, now))
  {
    hide UsersOk, Distinct, IdpOk, ChainsOk, SessionsOk, RealmsOk, Created, Text.Lower;
    RegisterUsers(s, email, password, otp, now);
    RegisterIdp(s, email, password, otp, now);
    NoAccountYet(s, email, password, otp, now);
    SessionsFrame(s.users, s.sessions, s.issued, s.nextId + 1, User(s.nextId, Text.Lower(email), PendingVerification));
    hide IdsOk;
  }

  lemma EnrolledIdp(s: Store, email: string, password: Password, otp: string, now: Time)
    ensures Enrolled(s, email, password, otp, now).(idp := s.idp) == Enrolled(s, email, password, otp, now)
  {
    hide Text.Lower;
  }

  /** A new user whose account has been deleted again. */
  lemma NoAccountYet(s: Store, email: string, password: Password, otp: string, now: Time)
    requires Inv(s) && UserByEmail(s.users, email).None? && KeyOf(PLATFORM, email) !in s.idp.users
    ensures var t := Enrolled(s, email, password, otp, now);
      IdpOk(t.users, t.credentials, s.idp) && IdsOk(t.nextId, t.users, t.credentials, s.idp, t.issued)
  {
    hide UsersOk, ChainsOk, SessionsOk, RealmsOk, IdpOk, Distinct, ResetsOk, Text.Lower;
    NewAddress(s, email);
    UserWithout(s.users, s.credentials, s.idp, s.nextId + 1, User(s.nextId, Text.Lower(email), PendingVerification),
                s.nextId + 2, password);
  }

  lemma UserWithout(users: map<Id, User>, credentials: map<Id, Credential>, idp: Idp, u: Id, user: User,
                    subject: Subject, password: Password)
    requires IdpOk(users, credentials, idp) && u !in users && AccountKey(user) !in idp.users
        && subject !in idp.users.Values
    requires forall v | v in users :: users[v].principal != user.principal
    ensures IdpOk(users[u := user],
                  credentials[user.principal := Credential(PLATFORM, subject, Some(Digest(password)))], idp)
  {
    hide Consistent;
    forall k | k in idp.users ensures idp.users[k] != subject {
      assert idp.users[k] in idp.users.Values;
    }
  }

  lemma FailedKeeps(s: Store, t: Store, email: string, password: Password)
    requires Inv(s) && t == s.(nextId := t.nextId, idp := t.idp) && t.nextId >= s.nextId
    requires t.idp == s.idp || (UserByEmail(s.users, email).None? && t.nextId > s.nextId + 2
                                && Some(t.idp) == Created(s.idp, PLATFORM, email, password, s.nextId + 2))
    ensures Inv(t)
  {
    hide UsersOk, Distinct, IdpOk, ChainsOk, SessionsOk, RealmsOk;
    IdsGrow(s.nextId, t.nextId, s.users, s.credentials, s.idp, s.issued);
    if t.idp != s.idp {
      NewAddress(s, email);
      AccountAdded(s.users, s.credentials, s.idp, KeyOf(PLATFORM, email), s.nextId + 2, password);
    }
  }

  /** Whether a registration that does not complete leaves its account at the provider: the account was
      made, and either its answer was lost, or the worker died, or its deletion did not go through. */
  ghost predicate Strands(s: Store, email: string, valid: bool, course: Course) {
    && valid && UserByEmail(s.users, email).None? && PLATFORM in s.realms && KeyOf(PLATFORM, email) !in s.idp.users
    && match course.creating
       case RefusedCall => false
       case LostAnswer => true
       case NoFault => course.ending == Dies || (course.ending == RollsBack && course.deleting == RefusedCall)
  }

  /** Whether a registration commits its rows, whatever the caller is told. */
  ghost predicate Enrols(s: Store, email: string, valid: bool, course: Course) {
    && valid && UserByEmail(s.users, email).None? && PLATFORM in s.realms && KeyOf(PLATFORM, email) !in s.idp.users
    && course.creating == NoFault && (course.ending == Commits || course.ending == CommitLost)
  }

  lemma EnrolsNew(s: Store, email: string, valid: bool, course: Course)
    requires Enrols(s, email, valid, course)
    ensures UserByEmail(s.users, email).None? && KeyOf(PLATFORM, email) !in s.idp.users
    ensures !Strands(s, email, valid, course)
  {
  }

  /** When a registration completes and when it commits its rows, and what it leaves otherwise: every
      table as it was, and the provider as it was too exactly unless the registration strands its
      account. A commit whose answer is lost leaves the rows, and the account if its deletion is refused. */
  lemma RegistrationExactly(s: Store, email: string, password: Password, valid: bool, course: Course, otp: string,
                            now: Time)
    requires Inv(s)
    ensures var (t, reply) := Register(s, email, password, valid, course, otp, now);
      && (reply.Registered? <==>
            && valid && UserByEmail(s.users, email).None? && KeyOf(PLATFORM, email) !in s.idp.users
            && course.creating == NoFault && course.ending == Commits)
      && (if reply.Registered? then reply.user == s.nextId + 1 else reply.Failed?)
      && (if Enrols(s, email, valid, course) then
            && t == Enrolled(s, email, password, otp, now).(idp := t.idp)
            && if course.ending == CommitLost && course.deleting != RefusedCall then t.idp == s.idp
               else && Some(t.idp) == Created(s.idp, PLATFORM, email, password, s.nextId + 2)
                    && Authenticated(t.idp, PLATFORM, email, password) == Some(s.nextId + 2)
          else
            && t == s.(nextId := t.nextId, idp := t.idp) && t.nextId >= s.nextId
            && (t.idp == s.idp <==> !Strands(s, email, valid, course))
            && (t.idp != s.idp ==>
                  t.nextId > s.nextId + 2 && Some(t.idp) == Created(s.idp, PLATFORM, email, password, s.nextId + 2)
                  && UserByEmail(s.users, email).None?))
  {
    hide Inv, Register, Enrolled, UserByEmail;
    RegisterCases(s, email, password, valid, course, otp, now);
    HasPlatform(s);
    if Asks(s, email, valid, course) {
      CreatedThenDeleted(s, email, password);
    }
  }

  /** The registration gets as far as having its account created. */
  ghost predicate Asks(s: Store, email: string, valid: bool, course: Course) {
    && valid && UserByEmail(s.users, email).None? && PLATFORM in s.realms && KeyOf(PLATFORM, email) !in s.idp.users
    && course.creating != RefusedCall
  }

  lemma RegisterCases(s: Store, email: string, password: Password, valid: bool, course: Course, otp: string, now: Time)
    ensures var (t, reply) := Register(s, email, password, valid, course, otp, now);
      if !Asks(s, email, valid, course) then t == s && reply.Failed?
      else
        var made := Created(s.idp, PLATFORM, email, password, s.nextId + 2).value;
        var left := if course.deleting == RefusedCall then made else Deleted(made, PLATFORM, s.nextId + 2);
        var failed := s.(nextId := s.nextId + 3);
        if course.creating == LostAnswer || course.ending == Dies then t == failed.(idp := made) && reply.Failed?
        else if course.ending == RollsBack then t == failed.(idp := left) && reply.Failed?
        else if course.ending == CommitLost then
          t == Enrolled(s, email, password, otp, now).(idp := left) && reply.Failed?
        else t == Enrolled(s, email, password, otp, now).(idp := made) && reply == Registered(s.nextId + 1)
  {
    hide Deleted, Enrolled, UserByEmail, Created;
    CreatedUnlessTaken(s.idp, email, password, s.nextId + 2);
    EnrolledApart(s, Created(s.idp, PLATFORM, email, password, s.nextId + 2), email, password, otp, now);
  }

  lemma EnrolledApart(s: Store, idp: Option<Idp>, email: string, password: Password, otp: string, now: Time)
    ensures idp.Some? ==>
              Enrolled(s.(idp := idp.value), email, password, otp,
                       now) == Enrolled(s, email, password, otp, now).(idp := idp.value)
  {
    hide Text.Lower;
  }

  lemma CreatedUnlessTaken(idp: Idp, email: string, password: Password, subject: Subject)
    ensures Created(idp, PLATFORM, email, password, subject).Some? <==> KeyOf(PLATFORM, email) !in idp.users
  {
  }

  lemma HasPlatform(s: Store)
    requires Inv(s)
    ensures PLATFORM in s.realms && PLATFORM in s.idp.realms && Consistent(s.idp)
  {
    hide Consistent;
  }

  lemma CreatedThenDeleted(s: Store, email: string, password: Password)
    requires Inv(s) && UserByEmail(s.users, email).None? && KeyOf(PLATFORM, email) !in s.idp.users
    ensures var made := Created(s.idp, PLATFORM, email, password, s.nextId + 2).value;
      && made != s.idp && Deleted(made, PLATFORM, s.nextId + 2) == s.idp
      && Authenticated(made, PLATFORM, email, password) == Some(s.nextId + 2)
  {
    hide Inv, Deleted;
    HasPlatform(s);
    NewAddress(s, email);
    CreateDeleteRoundTrip(s.idp, PLATFORM, email, password, s.nextId + 2, password);
    assert s.idp.(realms := s.idp.realms + {PLATFORM}) == s.idp;
  }

  // ---------- sessions

  /** Some sessions revoked and nothing else. */
  ghost predicate OnlyRevokes(before: map<Id, Session>, after: map<Id, Session>) {
    before.Keys == after.Keys && forall k | k in before ::
        after[k] == before[k] || after[k] == RevokedSession(before[k])
  }

  lemma RevokesKeep(s: Store, sessions: map<Id, Session>)
    requires Inv(s) && OnlyRevokes(s.sessions, sessions)
    ensures Inv(s.(sessions := sessions))
  {
    hide UsersOk, Distinct, IdpOk, IdsOk, RealmsOk, NoRepeats;
  }

  lemma RevokedMany(sessions: map<Id, Session>, users: set<Id>)
    ensures OnlyRevokes(sessions, RevokeAll(sessions, users))
    ensures forall k | k in sessions && sessions[k].user in users :: !RevokeAll(sessions, users)[k].active
  {
  }

  lemma RevokedOne(s: Store, sid: Id)
    requires sid in s.sessions
    ensures OnlyRevokes(s.sessions, Revoke(s, sid).sessions)
  {
  }

  lemma StatusFrame(s: Store, u: Id, status: UserStatus)
    requires Inv(s) && u in s.users
    ensures var users := s.users[u := s.users[u].(status := status)];
      && IdsOk(s.nextId, users, s.credentials, s.idp, s.issued)
      && Distinct(users, s.credentials)
      && IdpOk(users, s.credentials, s.idp)
  {
    hide ChainsOk, RealmsOk, Consistent, UsersOk, SessionsOk;
  }

  lemma StatusKeeps(s: Store, u: Id, status: UserStatus, principal: PrincipalStatus)
    requires Inv(s) && u in s.users
    requires status == Active <==> principal == PrincipalActive
    requires status == Active || forall k | k in s.sessions && s.sessions[k].active :: s.sessions[k].user != u
    ensures Inv(SetStatus(s, u, status, principal))
  {
    hide ChainsOk, RealmsOk, IdsOk, IdpOk;
    StatusFrame(s, u, status);
  }

  /** The effect shared by the three ways to shut a user out. */
  function ShutOut(s: Store, u: Id, status: UserStatus): Store
    requires u in s.users
  {
    SetStatus(s, u, status, PrincipalLocked).(sessions := RevokeAll(s.sessions, {u}))
  }

  lemma ShutOutKeeps(s: Store, u: Id, status: UserStatus)
    requires Inv(s) && u in s.users && status != Active
    ensures Inv(ShutOut(s, u, status))
  {
    hide Inv;
    RevokedMany(s.sessions, {u});
    RevokesKeep(s, RevokeAll(s.sessions, {u}));
    StatusKeeps(s.(sessions := RevokeAll(s.sessions, {u})), u, status, PrincipalLocked);
  }

  lemma IssueKeeps(s: Store, u: Id, subject: Subject, issuer: string, now: Time)
    requires Inv(s) && u in s.users && s.users[u].status == Active
    ensures Inv(Issue(s, u, subject, issuer, now).0)
  {
    hide UsersOk, Distinct, IdpOk, RealmsOk;
  }

  /** One more token in a session's chain, and the previous one accepted. */
  lemma ChainGrows(n: Id, sessions: map<Id, Session>, issued: map<Id, seq<Id>>, accepted: map<Id, seq<Id>>, sid: Id,
                   x: Session)
    requires ChainsOk(sessions, issued, accepted) && sid in sessions
    requires forall i | 0 <= i < |issued[sid]| :: issued[sid][i] < n
    ensures |issued[sid]| > 0
    ensures ChainsOk(sessions[sid := x], issued[sid := issued[sid] + [n]],
                     accepted[sid := accepted[sid] + [Last(issued[sid])]])
  {
    var k := |issued[sid]|;
    assert accepted[sid] + [issued[sid][k - 1]] == issued[sid];
    assert (issued[sid] + [n])[..k] == issued[sid];
  }

  /** The session has accepted its last token and been issued a fresh one. */
  function Rotated(s: Store, sid: Id, now: Time): Store
    requires sid in s.sessions && sid in s.issued && sid in s.accepted && |s.issued[sid]| > 0
  {
    s.(nextId := s.nextId + 1,
       sessions := s.sessions[sid := s.sessions[sid].(refresh := Some(Digest(s.nextId)),
                                                      expiresAt := now + REFRESH_TTL)],
       issued := s.issued[sid := s.issued[sid] + [s.nextId]],
       accepted := s.accepted[sid := s.accepted[sid] + [Last(s.issued[sid])]])
  }

  lemma RotateKeeps(s: Store, sid: Id, now: Time)
    requires Inv(s) && sid in s.sessions && s.sessions[sid].active
    ensures sid in s.issued && sid in s.accepted && |s.issued[sid]| > 0
    ensures s.sessions[sid].refresh == Some(Digest(Last(s.issued[sid])))
    ensures Inv(Rotated(s, sid, now))
  {
    hide UsersOk, Distinct, IdpOk, RealmsOk, ChainsOk, ResetsOk, SessionsOk, IdsOk;
    ActiveSession(s, sid);
    var x := s.sessions[sid].(refresh := Some(Digest(s.nextId)), expiresAt := now + REFRESH_TTL);
    IdsRotate(s.nextId, s.users, s.credentials, s.idp, s.issued, sid);
    ChainGrows(s.nextId, s.sessions, s.issued, s.accepted, sid, x);
    SessionRotates(s.users, s.sessions, s.issued, sid, s.nextId, x);
    ResetsGrow(s.nextId, s.nextId + 1, s.users, s.resets);
  }

  lemma IdsRotate(n: Id, users: map<Id, User>, credentials: map<Id, Credential>, idp: Idp, issued: map<Id, seq<Id>>,
                  sid: Id)
    requires IdsOk(n, users, credentials, idp, issued) && sid in issued
    ensures IdsOk(n + 1, users, credentials, idp, issued[sid := issued[sid] + [n]])
    ensures forall i | 0 <= i < |issued[sid]| :: issued[sid][i] < n
  {
  }

  lemma SessionRotates(users: map<Id, User>, sessions: map<Id, Session>, issued: map<Id, seq<Id>>, sid: Id, n: Id,
                       x: Session)
    requires SessionsOk(users, sessions, issued) && sid in sessions && sessions[sid].active && sid in issued
    requires x.active && x.user == sessions[sid].user && x.refresh == Some(Digest(n))
    ensures SessionsOk(users, sessions[sid := x], issued[sid := issued[sid] + [n]])
  {
  }

  lemma ResetsGrow(n: Id, m: Id, users: map<Id, User>, resets: map<Id, ResetToken>)
    requires ResetsOk(n, users, resets) && n <= m
    ensures ResetsOk(m, users, resets)
  {
  }

  /** Exactly what a refresh does. A session accepts its last issued token, once, and only while it
      is active and unexpired; any other presentation revokes an active session; a revoked one never answers. */
  lemma RefreshExactly(s: Store, token: Id, sid: Id, now: Time)
    requires Inv(s)
    ensures var (t, reply) := Refresh(s, token, sid, now);
      if sid !in s.sessions || !s.sessions[sid].active then t == s && reply == Failed(Unauthorized)
      else
        && sid in s.issued && sid in s.accepted && |s.issued[sid]| > 0
        && SessionUserOk(s, sid)
        && if now <= s.sessions[sid].expiresAt && token == Last(s.issued[sid])
           then t == Rotated(s, sid, now) && reply == Refreshed(s.nextId, TokenFor(s, sid, now))
           else t == Revoke(s, sid) && reply == Failed(Unauthorized)
  {
    if sid in s.sessions && s.sessions[sid].active {
      ActiveSession(s, sid);
      hide Inv;
    }
  }

  /** The user of the session is there, active, with an active principal and a platform credential. */
  predicate SessionUserOk(s: Store, sid: Id)
    requires sid in s.sessions
  {
    var u := s.sessions[sid].user;
    && u in s.users && s.users[u].status == Active
    && s.users[u].principal in s.principals && s.principals[s.users[u].principal] == PrincipalActive
    && s.users[u].principal in s.credentials && s.credentials[s.users[u].principal].realm == PLATFORM
        && PLATFORM in s.realms
  }

  /** The access token that goes with a session. */
  function TokenFor(s: Store, sid: Id, now: Time): AccessToken
    requires sid in s.sessions && SessionUserOk(s, sid)
  {
    AccessToken(s.credentials[s.users[s.sessions[sid].user].principal].subject, s.realms[PLATFORM], sid,
                now + ACCESS_TTL)
  }

  lemma ActiveSession(s: Store, sid: Id)
    requires Inv(s) && sid in s.sessions && s.sessions[sid].active
    ensures sid in s.issued && sid in s.accepted && |s.issued[sid]| > 0
    ensures s.sessions[sid].refresh == Some(Digest(Last(s.issued[sid])))
    ensures SessionUserOk(s, sid)
  {
    hide Distinct, IdpOk, IdsOk, ResetsOk, NoRepeats;
  }

  lemma RefreshKeeps(s: Store, token: Id, sid: Id, now: Time)
    requires Inv(s)
    ensures Inv(Refresh(s, token, sid, now).0)
  {
    hide Inv, Refresh, RevokedSession;
    RefreshExactly(s, token, sid, now);
    if sid in s.sessions && s.sessions[sid].active {
      RotateKeeps(s, sid, now);
      RevokedOne(s, sid);
      RevokesKeep(s, Revoke(s, sid).sessions);
    }
  }

  // ---------- passwords

  lemma OneAccount(users: map<Id, User>, credentials: map<Id, Credential>, idp: Idp, u: Id)
    requires IdpOk(users, credentials, idp) && Distinct(users, credentials) && u in users
        && users[u].principal in credentials
    ensures KeysOf(idp, PLATFORM, credentials[users[u].principal].subject) <= {AccountKey(users[u])}
  {
  }

  /** The user's account at the provider is there again, and its subject is still the credential's. */
  lemma AccountSet(users: map<Id, User>, credentials: map<Id, Credential>, idp: Idp, after: Idp, u: Id)
    requires IdpOk(users, credentials, idp) && Distinct(users, credentials) && u in users
        && users[u].principal in credentials
    requires Consistent(after) && idp.realms <= after.realms
    requires after.users == idp.users[AccountKey(users[u]) := credentials[users[u].principal].subject]
    requires after.subjects == idp.subjects + {credentials[users[u].principal].subject}
    ensures IdpOk(users, credentials, after)
  {
    hide Consistent;
    forall v | v in users && AccountKey(users[v]) in after.users
      ensures users[v].principal in credentials
          && after.users[AccountKey(users[v])] == credentials[users[v].principal].subject
    {
      if v != u {
        assert AccountKey(users[v]) != AccountKey(users[u]);
      }
    }
    forall x | x in after.users.Values ensures x in after.subjects {
      var k :| k in after.users && after.users[k] == x;
      assert k in idp.users && k != AccountKey(users[u]) ==> idp.users[k] in idp.users.Values;
    }
  }

  /** Putting a password for a user at the provider, whether the account was lost or not. */
  lemma SetPasswordKeeps(s: Store, u: Id, password: Password, email: string, guess: Password)
    requires Inv(s) && HasEmail(s.users, u, email)
    ensures s.users[u].principal in s.credentials
    ensures var subject := s.credentials[s.users[u].principal].subject;
      var t := s.(idp := PasswordSet(s.idp, PLATFORM, subject, password, email));
      && Inv(t)
      && (Authenticated(t.idp, PLATFORM, email, guess) == if guess == password then Some(subject) else None)
      && t.idp.passwords == s.idp.passwords[AccountKey(s.users[u]) := password]
      && t.idp.users == s.idp.users[AccountKey(s.users[u]) := subject]
  {
    LoginCredential(s, u, email, password);
    hide ChainsOk, SessionsOk, RealmsOk, UsersOk, Distinct, KeysOf, Authenticated, IdsOk, ResetsOk;
    var subject := s.credentials[s.users[u].principal].subject;
    OneAccount(s.users, s.credentials, s.idp, u);
    assert AccountKey(s.users[u]) == KeyOf(PLATFORM, email);
    SetPasswordHolds(s.idp, PLATFORM, subject, password, email, guess);
    SubjectsSet(s.idp, PLATFORM, subject, password, email);
    var after := PasswordSet(s.idp, PLATFORM, subject, password, email);
    AccountSet(s.users, s.credentials, s.idp, after, u);
    IdsSet(s.nextId, s.users, s.credentials, s.idp, s.issued, after, s.users[u].principal);
    hide PasswordSet, IdpOk, IdsOk;
  }

  lemma IdsSet(n: Id, users: map<Id, User>, credentials: map<Id, Credential>, idp: Idp, issued: map<Id, seq<Id>>,
               after: Idp, p: Id)
    requires IdsOk(n, users, credentials, idp, issued) && p in credentials
    requires after.subjects == idp.subjects + {credentials[p].subject}
    ensures IdsOk(n, users, credentials, after, issued)
  {
  }

  lemma SubjectsSet(idp: Idp, realm: string, subject: Subject, password: Password, email: string)
    requires forall x | x in idp.users.Values :: x in idp.subjects
    ensures PasswordSet(idp, realm, subject, password, email).subjects == idp.subjects + {subject}
    ensures idp.realms <= PasswordSet(idp, realm, subject, password, email).realms
  {
    if KeysOf(idp, realm, subject) != {} {
      var k :| k in KeysOf(idp, realm, subject);
      assert idp.users[k] in idp.users.Values;
      assert idp.subjects + {subject} == idp.subjects;
    }
  }

  /** A password that the provider accepts comes back with the subject that the credential already names. */
  lemma LoginCredential(s: Store, u: Id, email: string, password: Password)
    requires Inv(s) && HasEmail(s.users, u, email)
    ensures s.users[u].principal in s.credentials && u in s.lastSet
    ensures s.users[u].principal in s.principals
    ensures s.users[u].status == Active <==> s.principals[s.users[u].principal] == PrincipalActive
    ensures var credential := s.credentials[s.users[u].principal];
      && credential.realm == PLATFORM && credential.hash == Some(Digest(s.lastSet[u]))
      && (Authenticated(s.idp, PLATFORM, email, password).Some? ==>
            Authenticated(s.idp, PLATFORM, email, password) == Some(credential.subject))
      && (Authenticated(s.idp, PLATFORM, email, password).Some? <==>
            AccountKey(s.users[u]) in s.idp.passwords && s.idp.passwords[AccountKey(s.users[u])] == password)
  {
    hide ChainsOk, SessionsOk, RealmsOk, IdsOk, Distinct;
    assert KeyOf(PLATFORM, email) == AccountKey(s.users[u]);
  }

  /** The provider holds this password for the user. */
  predicate AtProvider(s: Store, u: Id, password: Password)
    requires u in s.users
  {
    AccountKey(s.users[u]) in s.idp.passwords && s.idp.passwords[AccountKey(s.users[u])] == password
  }

  /** The provider after the user's password has been put there. */
  function WithPassword(s: Store, u: Id, password: Password): Store
    requires u in s.users && s.users[u].principal in s.credentials
  {
    s.(idp := PasswordSet(s.idp, PLATFORM, s.credentials[s.users[u].principal].subject, password, s.users[u].email))
  }

  predicate PlatformHint(hint: Option<string>) {
    hint == None || hint == Some("") || hint == Some(PLATFORM)
  }

  /** What a login amounts to, by cases. */
  lemma LoginShape(s: Store, u: Id, email: string, password: Password, hint: Option<string>, fault: Fault, now: Time)
    requires Inv(s) && HasEmail(s.users, u, email)
    ensures PLATFORM in s.realms && u in s.lastSet && s.users[u].principal in s.credentials
    ensures var subject, w := s.credentials[s.users[u].principal].subject, WithPassword(s, u, password);
      var (t, reply) := Login(s, email, password, hint, fault, now);
      if !PlatformHint(hint) || s.users[u].status != Active then t == s && reply.Failed?
      else if AtProvider(s, u, password) then (t, reply) == Issue(s, u, subject, s.realms[PLATFORM], now)
      else if password != s.lastSet[u] || fault == RefusedCall then t == s && reply.Failed?
      else if fault == LostAnswer then t == w && reply.Failed?
      else (t, reply) == Issue(w, u, subject, s.realms[PLATFORM], now)
  {
    hide Inv, PasswordSet, Authenticated, Issue, UserByEmail, Text.Lower;
    FoundByEmail(s, u, email);
    LoginCredential(s, u, email, password);
    SetPasswordAddress(s.idp, PLATFORM, s.credentials[s.users[u].principal].subject, password, email, s.users[u].email);
    OnlyPlatform(s, u);
    var p := s.users[u].principal;
    assert s.credentials[p := s.credentials[p]] == s.credentials;
    assert s.(credentials := s.credentials) == s;
  }

  lemma OnlyPlatform(s: Store, u: Id)
    requires Inv(s) && u in s.users
    ensures PLATFORM in s.realms
    ensures Text.Lower(s.users[u].email) == s.users[u].email
  {
  }

  lemma SetPasswordAddress(idp: Idp, realm: string, subject: Subject, password: Password, one: string, other: string)
    ensures Text.Lower(one) == Text.Lower(other) ==>
              PasswordSet(idp, realm, subject, password, one) == PasswordSet(idp, realm, subject, password, other)
  {
  }

  lemma FoundByEmail(s: Store, u: Id, email: string)
    requires Inv(s) && HasEmail(s.users, u, email)
    ensures UserByEmail(s.users, email) == Some(u)
  {
    hide UsersOk, IdpOk, ChainsOk, SessionsOk, RealmsOk, IdsOk, ResetsOk;
    assert UserByEmail(s.users, email).Some?;
  }

  lemma UnknownEmail(s: Store, email: string, password: Password, hint: Option<string>, fault: Fault, now: Time)
    requires UserByEmail(s.users, email).None?
    ensures Login(s, email, password, hint, fault, now) == (s, Failed(Unauthorized))
  {
  }

  lemma LoginKeeps(s: Store, email: string, password: Password, hint: Option<string>, fault: Fault, now: Time)
    requires Inv(s)
    ensures Inv(Login(s, email, password, hint, fault, now).0)
  {
    hide Inv, Login, Issue;
    match UserByEmail(s.users, email)
    case None => UnknownEmail(s, email, password, hint, fault, now);
    case Some(u) =>
      LoginShape(s, u, email, password, hint, fault, now);
      SetPasswordKeeps(s, u, password, s.users[u].email, password);
      if s.users[u].status == Active {
        IssueKeeps(s, u, s.credentials[s.users[u].principal].subject, s.realms[PLATFORM], now);
        IssueKeeps(WithPassword(s, u, password), u, s.credentials[s.users[u].principal].subject,
                   s.realms[PLATFORM], now);
      }
  }

  /** A completed reset: the new hash, and the password last set. */
  function WithHash(s: Store, u: Id, password: Password): Store
    requires u in s.users && s.users[u].principal in s.credentials
  {
    var p := s.users[u].principal;
    s.(credentials := s.credentials[p := s.credentials[p].(hash := Some(Digest(password)))],
       lastSet := s.lastSet[u := password])
  }

  lemma NewHashKeeps(s: Store, u: Id, password: Password)
    requires Inv(s) && u in s.users
    ensures s.users[u].principal in s.credentials
    ensures Inv(WithHash(s, u, password))
  {
    hide ChainsOk, SessionsOk, RealmsOk, Consistent, ResetsOk;
  }

  /** What a reset amounts to, by cases. */
  lemma ResetShape(s: Store, id: Id, secret: Id, password: Password, valid: bool, fault: Fault, now: Time)
    requires Inv(s)
    ensures var (t, reply) := ResetPassword(s, id, secret, password, valid, fault, now);
      if !valid || !ValidReset(s, id, secret, now) then t == s && reply.Failed?
      else
        var u, spent := s.resets[id].user, SpendReset(s, id);
        u in s.users && s.users[u].principal in s.credentials &&
        match fault
        case RefusedCall => t == spent && reply.Failed?
        case LostAnswer => t == WithPassword(spent, u, password) && reply.Failed?
        case NoFault => t == WithHash(WithPassword(spent, u, password), u, password) && reply == Fine
  {
    if id in s.resets {
      KnownReset(s, id);
    }
    hide Inv, PasswordSet, RevokeAll;
  }

  lemma KnownReset(s: Store, id: Id)
    requires Inv(s) && id in s.resets
    ensures s.resets[id].user in s.users && s.users[s.resets[id].user].principal in s.credentials
    ensures s.credentials[s.users[s.resets[id].user].principal].realm == PLATFORM && PLATFORM in s.realms
  {
  }

  lemma SpendKeeps(s: Store, id: Id)
    requires Inv(s) && id in s.resets
    ensures Inv(SpendReset(s, id))
  {
    RevokedMany(s.sessions, {s.resets[id].user});
    RevokesKeep(s, RevokeAll(s.sessions, {s.resets[id].user}));
    hide UsersOk, Distinct, IdpOk, ChainsOk, SessionsOk, RealmsOk, IdsOk, RevokeAll;
  }

  lemma ResetKeeps(s: Store, id: Id, secret: Id, password: Password, valid: bool, fault: Fault, now: Time)
    requires Inv(s)
    ensures Inv(ResetPassword(s, id, secret, password, valid, fault, now).0)
  {
    hide Inv, ResetPassword, PasswordSet, SpendReset, WithHash;
    ResetShape(s, id, secret, password, valid, fault, now);
    if valid && ValidReset(s, id, secret, now) {
      var u, spent := s.resets[id].user, SpendReset(s, id);
      SpendKeeps(s, id);
      assert spent.users == s.users && spent.credentials == s.credentials by { SpendFrame(s, id); }
      UserEmail(spent, u);
      SetPasswordKeeps(spent, u, password, s.users[u].email, password);
      NewHashKeeps(WithPassword(spent, u, password), u, password);
    }
  }

  lemma SpendFrame(s: Store, id: Id)
    requires id in s.resets
    ensures SpendReset(s, id) == s.(resets := SpendReset(s, id).resets, sessions := SpendReset(s, id).sessions)
  {
  }

  lemma UserEmail(s: Store, u: Id)
    requires Inv(s) && u in s.users
    ensures HasEmail(s.users, u, s.users[u].email)
  {
  }

  // ---------- every step

  lemma RestartKeeps(s: Store)
    requires Inv(s)
    ensures Inv(s.(idp := RESTARTED))
  {
    hide UsersOk, Distinct, ChainsOk, SessionsOk, RealmsOk;
  }

  lemma VerifyKeeps(s: Store, email: string, code: string, now: Time)
    requires Inv(s)
    ensures Inv(VerifyEmail(s, email, code, now).0)
  {
    hide Inv, SetStatus;
    match UserByEmail(s.users, email)
    case None =>
    case Some(u) => StatusKeeps(s, u, Active, PrincipalActive);
  }

  lemma RevokeStepKeeps(s: Store, cmd: Command)
    requires Inv(s)
    requires cmd.DoLogout? || cmd.DoRevokeSession? || cmd.DoRevokeOthers? || cmd.DoRevokeSessionsOf?
    ensures Inv(Apply(s, cmd).0) && Apply(s, cmd).0 == s.(sessions := Apply(s, cmd).0.sessions)
    ensures OnlyRevokes(s.sessions, Apply(s, cmd).0.sessions)
  {
    hide Inv;
    RevokeStep(s, cmd);
    RevokesKeep(s, Apply(s, cmd).0.sessions);
  }

  lemma RevokeStep(s: Store, cmd: Command)
    requires cmd.DoLogout? || cmd.DoRevokeSession? || cmd.DoRevokeOthers? || cmd.DoRevokeSessionsOf?
    ensures Apply(s, cmd).0 == s.(sessions := Apply(s, cmd).0.sessions)
    ensures OnlyRevokes(s.sessions, Apply(s, cmd).0.sessions)
  {
    hide Register, VerifyEmail, Login, Refresh, ResetPassword, RequestReset, OnlyRevokes, RevokeAll,
         RevokePrincipalAccess, SuspendUser, ReinstateUser, BlockUser;
    match cmd
    case DoLogout(sid, _) =>
      RevokesNone(s.sessions);
      if sid in s.sessions {
        RevokedOne(s, sid);
      }
    case DoRevokeSession(_, sid) =>
      RevokesNone(s.sessions);
      if sid in s.sessions {
        RevokedOne(s, sid);
      }
    case DoRevokeOthers(current, user) => RevokedOthers(s, current, user);
    case DoRevokeSessionsOf(users) => RevokedMany(s.sessions, users);
  }

  lemma RevokesNone(sessions: map<Id, Session>)
    ensures OnlyRevokes(sessions, sessions)
  {
  }

  lemma RevokedOthers(s: Store, current: Id, user: Id)
    ensures OnlyRevokes(s.sessions, RevokeOthers(s, current, user).sessions)
  {
  }

  lemma StatusStepKeeps(s: Store, cmd: Command)
    requires Inv(s)
    requires cmd.DoRevokeAccess? || cmd.DoSuspend? || cmd.DoReinstate? || cmd.DoBlock?
    ensures Inv(Apply(s, cmd).0)
  {
    hide Inv, RevokeAll;
    if cmd.user in s.users {
      ShutOutKeeps(s, cmd.user, Locked);
      ShutOutKeeps(s, cmd.user, Blocked);
      StatusKeeps(s, cmd.user, Active, PrincipalActive);
    }
  }

  lemma RequestResetKeeps(s: Store, email: string, now: Time)
    requires Inv(s)
    ensures Inv(RequestReset(s, email, now))
  {
    hide UsersOk, Distinct, IdpOk, ChainsOk, SessionsOk, RealmsOk;
  }

  lemma AddRealmKeeps(s: Store, name: string, issuer: string)
    requires Inv(s)
    ensures Inv(Apply(s, AddRealm(name, issuer)).0)
  {
    hide UsersOk, Distinct, IdpOk, ChainsOk, SessionsOk, IdsOk;
  }

  lemma StepKeeps(s: Store, cmd: Command)
    requires Inv(s)
    ensures Inv(Apply(s, cmd).0)
  {
    hide Inv, Register, VerifyEmail, Login, Refresh, ResetPassword, RequestReset;
    match cmd
    case DoRegister(email, password, valid, course, otp, now) =>
      RegisterKeeps(s, email, password, valid, course, otp, now);
    case DoVerify(email, code, now) => VerifyKeeps(s, email, code, now);
    case DoLogin(email, password, hint, fault, now) => LoginKeeps(s, email, password, hint, fault, now);
    case DoRefresh(token, sid, now) => RefreshKeeps(s, token, sid, now);
    case DoRequestReset(email, now) => RequestResetKeeps(s, email, now);
    case DoReset(id, secret, password, valid, fault, now) => ResetKeeps(s, id, secret, password, valid, fault, now);
    case AddRealm(name, issuer) => AddRealmKeeps(s, name, issuer);
    case IdpRestart => RestartKeeps(s);
    case DoLogout(_, _) => RevokeStepKeeps(s, cmd);
    case DoRevokeSession(_, _) => RevokeStepKeeps(s, cmd);
    case DoRevokeOthers(_, _) => RevokeStepKeeps(s, cmd);
    case DoRevokeSessionsOf(_) => RevokeStepKeeps(s, cmd);
    case DoRevokeAccess(_, _) => StatusStepKeeps(s, cmd);
    case DoSuspend(_, _) => StatusStepKeeps(s, cmd);
    case DoReinstate(_, _) => StatusStepKeeps(s, cmd);
    case DoBlock(_, _) => StatusStepKeeps(s, cmd);
  }
}
