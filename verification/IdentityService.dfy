/** The identity service: it changes rows in place and calls a provider object, and is proved against `Identity`. */
module IdentityServices {
  import opened Errors
  import opened Keycloak
  import I = Identity
  import opened IdentityLaws
  import Text

  type Id = I.Id
  type Time = I.Time

  /** The sessions that a revocation of these users' access ends. */
  ghost function ActiveSessions(sessions: map<Id, I.Session>, users: set<Id>): set<Id> {
    set k | k in sessions && sessions[k].active && sessions[k].user in users
  }

  /** Revoking a user's sessions one set after another. */
  lemma RevokeUnion(sessions: map<Id, I.Session>, some: set<Id>, u: Id)
    requires u !in some
    ensures I.RevokeAll(I.RevokeAll(sessions, some), {u}) == I.RevokeAll(sessions, some + {u})
    ensures |ActiveSessions(sessions, some + {u})|
            == |ActiveSessions(sessions, some)| + |ActiveSessions(I.RevokeAll(sessions, some), {u})|
  {
    var a, b := ActiveSessions(sessions, some), ActiveSessions(I.RevokeAll(sessions, some), {u});
    assert ActiveSessions(sessions, some + {u}) == a + b && a !! b;
  }

  class IdentityService {
    var nextId: Id
    var realms: map<string, string>
    var users: map<Id, I.User>
    var principals: map<Id, I.PrincipalStatus>
    var credentials: map<Id, I.Credential>
    var sessions: map<Id, I.Session>
    var resets: map<Id, I.ResetToken>
    var otps: map<Id, I.Otp>
    const keycloak: FakeKeycloakClient
    ghost var lastSet: map<Id, Password>
    ghost var issued: map<Id, seq<Id>>
    ghost var accepted: map<Id, seq<Id>>

    ghost function State(): I.Store
      reads this, keycloak
    {
      I.Store(nextId, realms, users, principals, credentials, sessions, resets, otps, keycloak.State(), lastSet,
              issued, accepted)
    }

    constructor (issuer: string)
      ensures fresh(keycloak)
      ensures State() == I.Store(0, map[PLATFORM := issuer], map[], map[], map[], map[], map[], map[], RESTARTED,
                                 map[], map[], map[])
    {
      nextId, realms, users, principals, credentials := 0, map[PLATFORM := issuer], map[], map[], map[];
      sessions, resets, otps, lastSet, issued, accepted := map[], map[], map[], map[], map[], map[];
      keycloak := new FakeKeycloakClient();
    }

    // ---------- queries

    method GetUserByEmail(email: string) returns (u: Option<Id>)
      requires Distinct(users, credentials)
      ensures u == I.UserByEmail(users, email)
    {
      var normalized := Text.Lower(email);
      var left := users.Keys;
      while left != {}
        invariant left <= users.Keys
        invariant forall v | I.HasEmail(users, v, email) :: v in left
        decreases left
      {
        var v :| v in left;
        left := left - {v};
        if users[v].email == normalized {
          assert I.HasEmail(users, v, email) && I.UserByEmail(users, email).Some?;
          return Some(v);
        }
      }
      return None;
    }

    // ---------- registration

    /** When a step after the provider's call fails, the rows are rolled back, unless the commit has been
        carried out, and the provider's account is deleted again; a call whose answer is lost, or a
        worker that dies, leaves the account. */
    method RegisterUser(email: string, password: Password, valid: bool, course: I.Course, otp: string, now: Time)
      returns (reply: I.Reply)
      requires Inv(State())
      modifies this, keycloak
      ensures (State(), reply) == I.Register(old(State()), email, password, valid, course, otp, now)
    {
      hide Inv, Created, Deleted, Text.Lower, I.Settled;
      if !valid {
        return I.Failed(Validation);
      }
      assert Distinct(users, credentials) by { DistinctOf(State()); }
      var existing := GetUserByEmail(email);
      if existing.Some? {
        return I.Failed(Conflict);
      }
      if PLATFORM !in realms {
        return I.Failed(NotFound);
      }
      if course.creating == I.RefusedCall {
        return I.Failed(ServerError);
      }
      var subject := nextId + 2;
      var created := keycloak.CreateUser(PLATFORM, email, password, subject);
      if !created {
        return I.Failed(ServerError);
      }
      if course.creating == I.LostAnswer {
        nextId := nextId + 3;
        return I.Failed(ServerError);
      }
      reply := Enroll(email, password, course, otp, now);
    }

    /** The transaction, once the provider has answered. */
    method Enroll(email: string, password: Password, course: I.Course, otp: string, now: Time) returns (reply: I.Reply)
      modifies this, keycloak
      ensures (State(), reply) == I.Settled(old(State()), email, password, course, otp, now)
    {
      hide Deleted, I.Enrolled;
      var user, subject := nextId + 1, nextId + 2;
      reply := I.Failed(ServerError);
      match course.ending {
        case Commits =>
          InsertRows(email, password, otp, now);
          reply := I.Registered(user);
        case CommitLost =>
          InsertRows(email, password, otp, now);
          DeleteAgain(subject, course);
        case RollsBack =>
          InsertAndRollBack(email, password, otp, now);
          DeleteAgain(subject, course);
        case Dies => InsertAndRollBack(email, password, otp, now);
      }
    }

    method DeleteAgain(subject: Subject, course: I.Course)
      modifies keycloak
      ensures keycloak.State() == if course.deleting == I.RefusedCall then old(keycloak.State())
                                  else Deleted(old(keycloak.State()), PLATFORM, subject)
    {
      if course.deleting != I.RefusedCall {
        keycloak.DeleteUser(PLATFORM, subject);
      }
    }

    method InsertAndRollBack(email: string, password: Password, otp: string, now: Time)
      modifies this`nextId, this`users, this`principals, this`credentials, this`otps, this`lastSet
      ensures State() == old(State()).(nextId := old(nextId) + 3)
    {
      hide I.Enrolled;
      var before, n := (users, principals, credentials, otps), nextId;
      ghost var was := lastSet;
      InsertRows(email, password, otp, now);
      users, principals, credentials, otps := before.0, before.1, before.2, before.3;
      nextId, lastSet := n + 3, was;
    }

    /** The rows of a registration, before its commit. */
    method InsertRows(email: string, password: Password, otp: string, now: Time)
      modifies this`nextId, this`users, this`principals, this`credentials, this`otps, this`lastSet
      ensures State() == I.Enrolled(old(State()), email, password, otp, now)
    {
      hide Text.Lower;
      var principal, user, subject := nextId, nextId + 1, nextId + 2;
      nextId := nextId + 3;
      principals := principals[principal := I.PrincipalInactive];
      users := users[user := I.User(principal, Text.Lower(email), I.PendingVerification)];
      credentials := credentials[principal := I.Credential(PLATFORM, subject, Some(I.Digest(password)))];
      otps := otps[user := I.Otp(I.Digest(otp), now + I.OTP_TTL)];
      lastSet := lastSet[user := password];
    }

    lemma DistinctOf(s: I.Store)
      requires Inv(s)
      ensures Distinct(s.users, s.credentials)
      ensures Consistent(s.idp)
    {
    }

    method VerifyEmail(email: string, code: string, now: Time) returns (reply: I.Reply)
      requires Inv(State())
      modifies this`users, this`principals
      ensures (State(), reply) == I.VerifyEmail(old(State()), email, code, now)
    {
      hide Inv;
      assert Distinct(users, credentials) by { DistinctOf(State()); }
      var found := GetUserByEmail(email);
      if found.None? {
        return I.Failed(Validation);
      }
      var u := found.value;
      if users[u].status == I.Active {
        return I.Failed(Conflict);
      }
      if users[u].status != I.PendingVerification {
        return I.Failed(Forbidden);
      }
      if u !in otps || otps[u].expiresAt < now || otps[u].hash != I.Digest(code) {
        return I.Failed(Validation);
      }
      users := users[u := users[u].(status := I.Active)];
      principals := principals[users[u].principal := I.PrincipalActive];
      return I.Fine;
    }

    // ---------- login

    /** Checks the password at the provider and then, for an account that the provider has lost,
        against the local hash, and puts the account back. */
    method KeycloakSubjectForLogin(realm: string, email: string, password: Password, principal: Id, fault: I.Fault)
      returns (subject: Option<Subject>, error: Error)
      requires principal in credentials && Consistent(keycloak.State())
      modifies this`credentials, keycloak
      ensures (State(), subject, error) == I.SubjectForLogin(old(State()), realm, email, password, principal, fault)
    {
      error := Unauthorized;
      subject := keycloak.Authenticate(realm, email, password);
      if subject.Some? {
        var credential := credentials[principal];
        if credential.subject != subject.value {
          credential := credential.(subject := subject.value);
        }
        if credential.hash.None? {
          credential := credential.(hash := Some(I.Digest(password)));
        }
        credentials := credentials[principal := credential];
        return;
      }
      if credentials[principal].hash != Some(I.Digest(password)) {
        return None, Unauthorized;
      }
      if fault == I.RefusedCall {
        return None, ServerError;
      }
      keycloak.SetPassword(realm, credentials[principal].subject, password, email);
      if fault == I.LostAnswer {
        return None, ServerError;
      }
      subject := Some(credentials[principal].subject);
    }

    method IssueTokens(u: Id, subject: Subject, issuer: string, now: Time) returns (reply: I.Reply)
      modifies this`nextId, this`sessions, this`issued, this`accepted
      ensures (State(), reply) == I.Issue(old(State()), u, subject, issuer, now)
    {
      var sid, token := nextId, nextId + 1;
      nextId := nextId + 2;
      sessions := sessions[sid := I.Session(u, true, Some(I.Digest(token)), now + I.REFRESH_TTL)];
      issued, accepted := issued[sid := [token]], accepted[sid := []];
      return I.LoggedIn(sid, token, I.AccessToken(subject, issuer, sid, now + I.ACCESS_TTL));
    }

    method Login(email: string, password: Password, hint: Option<string>, fault: I.Fault,
                 now: Time) returns (reply: I.Reply)
      requires Inv(State())
      modifies this, keycloak
      ensures (State(), reply) == I.Login(old(State()), email, password, hint, fault, now)
    {
      hide Inv, I.SubjectForLogin, I.Issue;
      DistinctOf(State());
      var found := GetUserByEmail(email);
      if found.None? {
        return I.Failed(Unauthorized);
      }
      var u := found.value;
      var realm := if hint.Some? && hint.value != "" then hint.value else PLATFORM;
      if realm !in realms {
        return I.Failed(Unauthorized);
      }
      if users[u].status != I.Active {
        return I.Failed(Forbidden);
      }
      var principal := users[u].principal;
      if principal !in principals || principals[principal] != I.PrincipalActive {
        return I.Failed(Forbidden);
      }
      if principal !in credentials || credentials[principal].realm != realm {
        return I.Failed(Unauthorized);
      }
      var subject, error := KeycloakSubjectForLogin(realm, email, password, principal, fault);
      if subject.None? {
        return I.Failed(error);
      }
      reply := IssueTokens(u, subject.value, realms[realm], now);
    }

    // ---------- refresh

    method RevokeSession(sid: Id)
      requires sid in sessions
      modifies this`sessions
      ensures State() == I.Revoke(old(State()), sid)
    {
      sessions := sessions[sid := sessions[sid].(active := false, refresh := None)];
    }

    method RefreshToken(token: Id, sid: Id, now: Time) returns (reply: I.Reply)
      modifies this
      ensures (State(), reply) == I.Refresh(old(State()), token, sid, now)
    {
      reply := I.Failed(Unauthorized);
      if sid !in sessions || !sessions[sid].active {
        return;
      }
      var session := sessions[sid];
      if session.expiresAt < now {
        RevokeSession(sid);
        return;
      }
      if session.refresh.None? {
        return;
      }
      if session.refresh != Some(I.Digest(token)) {
        RevokeSession(sid);
        return;
      }
      if session.user !in users || users[session.user].status != I.Active {
        RevokeSession(sid);
        return;
      }
      var principal := users[session.user].principal;
      if principal !in principals || principals[principal] != I.PrincipalActive {
        RevokeSession(sid);
        return;
      }
      if principal !in credentials {
        return;
      }
      var credential := credentials[principal];
      var issuer := if credential.realm in realms then realms[credential.realm] else "";
      var next := nextId;
      nextId := nextId + 1;
      sessions := sessions[sid := session.(refresh := Some(I.Digest(next)), expiresAt := now + I.REFRESH_TTL)];
      if sid in issued {
        issued := issued[sid := issued[sid] + [next]];
      }
      if sid in accepted {
        accepted := accepted[sid := accepted[sid] + [token]];
      }
      reply := I.Refreshed(next, I.AccessToken(credential.subject, issuer, sid, now + I.ACCESS_TTL));
    }

    method LogoutSelf(sid: Id, actor: Id) returns (reply: I.Reply)
      modifies this`sessions
      ensures (State(), reply) == I.Logout(old(State()), sid, actor)
    {
      if sid !in sessions || sessions[sid].user != actor {
        return I.Failed(NotFound);
      }
      RevokeSession(sid);
      return I.Fine;
    }

    // ---------- revocation

    /** Revokes the user's active sessions one by one, and says how many there were. */
    method RevokeUserSessions(u: Id) returns (revoked: nat)
      modifies this`sessions
      ensures sessions == I.RevokeAll(old(sessions), {u})
      ensures revoked == |ActiveSessions(old(sessions), {u})|
    {
      var rows := set k | k in sessions && sessions[k].active && sessions[k].user == u;
      assert rows == ActiveSessions(sessions, {u});
      var left := rows;
      revoked := 0;
      while left != {}
        invariant left <= rows && revoked == |rows| - |left|
        invariant sessions.Keys == old(sessions).Keys
        invariant forall k | k in old(sessions) ::
          sessions[k] == if k in rows && k !in left then I.RevokedSession(old(sessions)[k]) else old(sessions)[k]
        decreases left
      {
        var k :| k in left;
        sessions := sessions[k := sessions[k].(active := false, refresh := None)];
        left := left - {k};
        revoked := revoked + 1;
      }
    }

    /** A tenant suspension's loop over the users of the tenant, counting their sessions. */
    method RevokeTenantSessions(members: set<Id>) returns (revoked: nat)
      modifies this`sessions
      ensures sessions == I.RevokeAll(old(sessions), members)
      ensures revoked == |ActiveSessions(old(sessions), members)|
    {
      hide I.RevokeAll, ActiveSessions;
      var left := members;
      revoked := 0;
      NoneRevoked(sessions);
      while left != {}
        invariant left <= members
        invariant sessions == I.RevokeAll(old(sessions), members - left)
        invariant revoked == |ActiveSessions(old(sessions), members - left)|
        decreases left
      {
        var u :| u in left;
        RevokeUnion(old(sessions), members - left, u);
        assert members - left + {u} == members - (left - {u});
        var n := RevokeUserSessions(u);
        revoked := revoked + n;
        left := left - {u};
      }
      assert members - left == members;
    }

    lemma NoneRevoked(before: map<Id, I.Session>)
      ensures forall none: set<Id> | none == {} ::
          I.RevokeAll(before, none) == before && ActiveSessions(before, none) == {}
    {
    }

    method RevokePrincipalAccess(permitted: bool, u: Id) returns (reply: I.Reply)
      modifies this`users, this`principals, this`sessions
      ensures (State(), reply) == I.RevokePrincipalAccess(old(State()), permitted, u)
    {
      hide I.RevokeAll;
      if !permitted {
        return I.Failed(Forbidden);
      }
      if u !in users {
        return I.Failed(NotFound);
      }
      principals := principals[users[u].principal := I.PrincipalLocked];
      users := users[u := users[u].(status := I.Locked)];
      var revoked := RevokeUserSessions(u);
      return I.Fine;
    }

    method SuspendUser(operator: bool, u: Id) returns (reply: I.Reply)
      modifies this`users, this`principals, this`sessions
      ensures (State(), reply) == I.SuspendUser(old(State()), operator, u)
    {
      hide I.RevokeAll;
      if !operator {
        return I.Failed(Forbidden);
      }
      if u !in users {
        return I.Failed(NotFound);
      }
      if users[u].status == I.Blocked {
        return I.Failed(Conflict);
      }
      users := users[u := users[u].(status := I.Locked)];
      principals := principals[users[u].principal := I.PrincipalLocked];
      var revoked := RevokeUserSessions(u);
      return I.Fine;
    }

    method ReinstateUser(operator: bool, u: Id) returns (reply: I.Reply)
      modifies this`users, this`principals
      ensures (State(), reply) == I.ReinstateUser(old(State()), operator, u)
    {
      if !operator {
        return I.Failed(Forbidden);
      }
      if u !in users {
        return I.Failed(NotFound);
      }
      if users[u].status == I.Blocked {
        return I.Failed(Conflict);
      }
      users := users[u := users[u].(status := I.Active)];
      principals := principals[users[u].principal := I.PrincipalActive];
      return I.Fine;
    }

    method BlockUser(operator: bool, u: Id) returns (reply: I.Reply)
      modifies this`users, this`principals, this`sessions
      ensures (State(), reply) == I.BlockUser(old(State()), operator, u)
    {
      hide I.RevokeAll;
      if !operator {
        return I.Failed(Forbidden);
      }
      if u !in users {
        return I.Failed(NotFound);
      }
      users := users[u := users[u].(status := I.Blocked)];
      principals := principals[users[u].principal := I.PrincipalLocked];
      var revoked := RevokeUserSessions(u);
      return I.Fine;
    }

    // ---------- password reset

    method PasswordResetRequest(email: string, now: Time)
      requires Inv(State())
      modifies this`nextId, this`resets
      ensures State() == I.RequestReset(old(State()), email, now)
    {
      hide Inv;
      DistinctOf(State());
      var found := GetUserByEmail(email);
      if found.Some? && users[found.value].status == I.Active {
        resets := resets[nextId := I.ResetToken(found.value, I.Digest(nextId + 1), now + I.RESET_TTL, false)];
        nextId := nextId + 2;
      }
    }

    /** Two commits around the provider's call: the token is spent and the sessions are gone even
        when the call fails. */
    method PasswordReset(id: Id, secret: Id, password: Password, valid: bool, fault: I.Fault,
                         now: Time) returns (reply: I.Reply)
      requires Inv(State())
      modifies this, keycloak
      ensures (State(), reply) == I.ResetPassword(old(State()), id, secret, password, valid, fault, now)
    {
      hide Inv, I.RevokeAll, PasswordSet;
      DistinctOf(State());
      reply := I.Failed(Validation);
      if !valid {
        return;
      }
      if id !in resets || resets[id].used || resets[id].expiresAt < now || resets[id].hash != I.Digest(secret) {
        return;
      }
      var u := resets[id].user;
      if u !in users || users[u].principal !in credentials {
        return;
      }
      var principal := users[u].principal;
      if credentials[principal].realm !in realms {
        return;
      }
      resets := resets[id := resets[id].(used := true)];
      var revoked := RevokeUserSessions(u);
      if fault == I.RefusedCall {
        return;
      }
      keycloak.SetPassword(credentials[principal].realm, credentials[principal].subject, password, users[u].email);
      if fault == I.LostAnswer {
        return;
      }
      credentials := credentials[principal := credentials[principal].(hash := Some(I.Digest(password)))];
      lastSet := lastSet[u := password];
      reply := I.Fine;
    }
  }
}
