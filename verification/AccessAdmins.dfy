/** Which administrators' bindings are in force after every call, and where the last one is lost. */
module AccessAdmins {
  import opened Errors
  import opened Access
  import opened AccessLaws
  import opened AccessRuns
  import Text

  // ---------- what a call does to a tenant's administrators

  predicate InForce(b: Binding, at: Time) {
    b.active && b.validFrom <= at && (b.validUntil.None? || at < b.validUntil.value)
  }

  ghost predicate HasAdminInForce(p: Plane, tenant: Id, at: Time) {
    exists k :: k in Admins(p.roles, p.bindings, tenant) && InForce(p.bindings[k], at)
  }

  /** The call revokes this administrator's binding: a revocation names it, a removal from the tenant or
      from its organization takes all of the user's. None of them asks whether the others have expired. */
  ghost predicate Loses(p: Plane, cmd: Command, tenant: Id, k: Id) {
    && Apply(p, cmd).1 == Done && k in p.bindings
    && match cmd
       case DoRevoke(_, _, binding, _, _) => k == binding
       case DoRemoveTenant(t, _, user, _) =>
         t == tenant && user in p.users && p.bindings[k].principal == p.users[user].principal
       case DoRemoveOrg(org, _, user, _) =>
         tenant in p.tenants && p.tenants[tenant].org == org && user in p.users
             && p.bindings[k].principal == p.users[user].principal
       case _ => false
  }

  /** The call binds an administrator whose binding is in force at the time. */
  ghost predicate Gains(p: Plane, cmd: Command, tenant: Id, at: Time) {
    && Apply(p, cmd).1 == Done
    && match cmd
       case DoGrant(t, role, _, _, _, expires, now) =>
         t == tenant && role in p.roles && p.roles[role].name == TENANT_ADMIN && now <= at
             && (expires.None? || at < expires.value)
       case DoInviteTenant(t, _, _, name, now) => t == tenant && name == TENANT_ADMIN && now <= at
       case _ => false
  }

  /** Some administrator whose binding is in force keeps it. */
  ghost predicate Keeps(p: Plane, cmd: Command, tenant: Id, at: Time) {
    exists k :: k in Admins(p.roles, p.bindings, tenant) && InForce(p.bindings[k], at) && !Loses(p, cmd, tenant, k)
  }

  /** Exactly when a tenant has an administrator whose binding is in force after a call: when the call
      makes one, or leaves one. A removal or revocation that its guard lets through may leave expired
      bindings only. */
  lemma InForceStep(p: Plane, cmd: Command, t: Id, at: Time)
    requires Inv(p) && t in p.tenants
    ensures HasAdminInForce(Apply(p, cmd).0, t, at) <==> Keeps(p, cmd, t, at) || Gains(p, cmd, t, at)
  {
    hide Inv, HasAdminInForce, Keeps, Gains, Apply;
    match cmd
    case DoBootstrap(email, now) => OpenInForce(p, cmd, t, at);
    case DoAttemptUpgrade(_, _, _) => OpenInForce(p, cmd, t, at);
    case DoGrant(_, _, _, _, _, _, _) => GrantInForce(p, cmd, t, at);
    case DoInviteTenant(_, _, _, _, _) => InviteInForce(p, cmd, t, at);
    case DoRevoke(_, _, _, _, _) => RevokeInForce(p, cmd, t, at);
    case DoRemoveTenant(_, _, _, _) => RemoveInForce(p, cmd, t, at);
    case DoRemoveOrg(_, _, _, _) => RemoveOrgInForce(p, cmd, t, at);
    case _ => OtherInForce(p, cmd, t, at);
  }

  /** Neither roles nor bindings change. */
  lemma OtherInForce(p: Plane, cmd: Command, t: Id, at: Time)
    requires cmd.DoSetAccess? || cmd.DoAddService? || cmd.DoAuthorize? || cmd.DoInviteOrg? || cmd.DoAcceptOrg?
             || cmd.DoSuspendTenant? || cmd.DoReinstateTenant? || cmd.DoProvision? || cmd.DoSubmitUpgrade?
    ensures HasAdminInForce(Apply(p, cmd).0, t, at) <==> Keeps(p, cmd, t, at) || Gains(p, cmd, t, at)
  {
    hide Decide, RowFor, Bootstrap, OpenTenant, Grant, Revoke, InviteTenant, RemoveTenant, RemoveOrg, UserByEmail,
         Text.Lower, Text.Strip, Admins, InForce;
    assert Apply(p, cmd).0.roles == p.roles && Apply(p, cmd).0.bindings == p.bindings;
  }

  /** Roles and one binding of another tenant are added. */
  lemma ForeignBinding(p: Plane, q: Plane, t: Id, n: Id, b: Binding)
    requires forall r | r in p.roles :: r in q.roles && q.roles[r] == p.roles[r]
    requires forall r | r in q.roles && r !in p.roles :: q.roles[r].tenant != Some(t)
    requires n !in p.bindings && q.bindings == p.bindings[n := b] && b.tenant != Some(t)
    ensures forall k :: k in Admins(q.roles, q.bindings, t) <==> k in Admins(p.roles, p.bindings, t)
    ensures forall k | k in Admins(p.roles, p.bindings, t) ::
        k in p.bindings && k in q.bindings && q.bindings[k] == p.bindings[k]
  {
  }

  /** What is left is what is kept, and nothing is gained. */
  lemma OnlyKept(p: Plane, q: Plane, cmd: Command, t: Id, at: Time)
    requires q == Apply(p, cmd).0 && !Gains(p, cmd, t, at)
    requires forall k :: k in Admins(q.roles, q.bindings, t) <==>
        k in Admins(p.roles, p.bindings, t) && !Loses(p, cmd, t, k)
    requires forall k | k in Admins(q.roles, q.bindings, t) ::
        k in p.bindings && k in q.bindings && q.bindings[k] == p.bindings[k]
    ensures HasAdminInForce(q, t, at) <==> Keeps(p, cmd, t, at) || Gains(p, cmd, t, at)
  {
    hide Apply, Admins, Loses, Gains, InForce;
  }

  lemma OpenedSame(p: Plane, org: Id, u: Id, now: Time, t: Id)
    requires u in p.users && t != p.nextId
    requires (forall k | k in p.bindings :: k < p.nextId) && (forall r | r in p.roles :: r < p.nextId)
    ensures var q := OpenTenant(p, org, u, now);
      && (forall k :: k in Admins(q.roles, q.bindings, t) <==> k in Admins(p.roles, p.bindings, t))
      && (forall k | k in Admins(p.roles, p.bindings, t) ::
          k in p.bindings && k in q.bindings && q.bindings[k] == p.bindings[k])
  {
    var q, n := OpenTenant(p, org, u, now), p.nextId;
    assert forall r | r in q.roles && r !in p.roles :: q.roles[r].tenant == Some(n);
    ForeignBinding(p, q, t, n + 4, NewBinding(p.users[u].principal, n + 1, n, now, None));
  }

  lemma NothingLost(p: Plane, cmd: Command, t: Id, at: Time)
    requires cmd.DoBootstrap? || cmd.DoAttemptUpgrade?
    ensures !Gains(p, cmd, t, at) && forall k :: !Loses(p, cmd, t, k)
  {
    hide Apply;
  }

  lemma OpenInForce(p: Plane, cmd: Command, t: Id, at: Time)
    requires Inv(p) && t in p.tenants && (cmd.DoBootstrap? || cmd.DoAttemptUpgrade?)
    ensures HasAdminInForce(Apply(p, cmd).0, t, at) <==> Keeps(p, cmd, t, at) || Gains(p, cmd, t, at)
  {
    hide Inv, Apply, Admins, OpenTenant, Loses, Gains, HasAdminInForce, Keeps;
    NothingLost(p, cmd, t, at);
    if cmd.DoBootstrap? {
      BootstrapSame(p, cmd.email, cmd.now, t);
    } else {
      AttemptSame(p, cmd.upgrade, cmd.commits, cmd.now, t);
    }
    OnlyKept(p, Apply(p, cmd).0, cmd, t, at);
  }

  ghost predicate SameAdministrators(p: Plane, q: Plane, t: Id) {
    && (forall k :: k in Admins(q.roles, q.bindings, t) <==> k in Admins(p.roles, p.bindings, t))
    && (forall k | k in Admins(p.roles, p.bindings, t) ::
        k in p.bindings && k in q.bindings && q.bindings[k] == p.bindings[k])
  }

  lemma BootstrapSame(p: Plane, email: string, now: Time, t: Id)
    requires Inv(p) && t in p.tenants
    ensures SameAdministrators(p, Apply(p, DoBootstrap(email, now)).0, t)
  {
    hide Inv, Admins, Bootstrap, OpenTenant, WithAccount, UserByEmail, Text.Lower;
    BelowNext(p);
    AdminsAreBindings(p, t);
    BootstrapFrame(p, email, now);
    AccountFrame(p, email);
    OpenedSame(WithAccount(p, email), p.nextId + 2, p.nextId + 1, now, t);
  }

  lemma AttemptSame(p: Plane, r: Id, commits: bool, now: Time, t: Id)
    requires Inv(p) && t in p.tenants
    ensures SameAdministrators(p, Apply(p, DoAttemptUpgrade(r, commits, now)).0, t)
  {
    hide Inv, Admins, OpenTenant;
    BelowNext(p);
    AdminsAreBindings(p, t);
    if AttemptUpgrade(p, r, commits, now).0 != p {
      OpenedSame(p, p.upgrades[r].org, p.upgrades[r].user, now, t);
    }
  }

  lemma AccountFrame(p: Plane, email: string)
    ensures var q := WithAccount(p, email);
      q.roles == p.roles && q.bindings == p.bindings && q.nextId == p.nextId + 3 && p.nextId + 1 in q.users
  {
    hide Text.Lower;
  }

  /** A new binding, and none lost. */
  lemma OneMoreAdmin(p: Plane, q: Plane, cmd: Command, t: Id, at: Time, b: Binding)
    requires q == Apply(p, cmd).0 && q.roles == p.roles && p.nextId !in p.bindings
        && q.bindings == p.bindings[p.nextId := b]
    requires (forall k :: !Loses(p, cmd, t, k)) && (Gains(p, cmd, t, at) <==> IsAdmin(p.roles, b, t) && InForce(b, at))
    ensures HasAdminInForce(q, t, at) <==> Keeps(p, cmd, t, at) || Gains(p, cmd, t, at)
  {
    hide Apply, Loses, Gains, IsAdmin, InForce;
    assert q.bindings[p.nextId] == b && forall k | k in p.bindings :: k in q.bindings && q.bindings[k] == p.bindings[k];
    if Keeps(p, cmd, t, at) {
      var k :| k in Admins(p.roles, p.bindings, t) && InForce(p.bindings[k], at);
      assert k in Admins(q.roles, q.bindings, t) && InForce(q.bindings[k], at);
    }
    if Gains(p, cmd, t, at) {
      assert p.nextId in Admins(q.roles, q.bindings, t);
    }
    if HasAdminInForce(q, t, at) {
      var k :| k in Admins(q.roles, q.bindings, t) && InForce(q.bindings[k], at);
      assert k != p.nextId ==>
          k in Admins(p.roles, p.bindings, t) && InForce(p.bindings[k], at) && !Loses(p, cmd, t, k);
    }
  }

  /** The calls behind the commands. */
  lemma Calls(p: Plane, cmd: Command)
    ensures cmd.DoGrant? ==>
              Apply(p, cmd) == Grant(p, cmd.tenant, cmd.role, cmd.caller, cmd.principal, cmd.granted, cmd.expires,
                                     cmd.now)
    ensures cmd.DoInviteTenant?
        ==> Apply(p, cmd) == InviteTenant(p, cmd.tenant, cmd.caller, cmd.user, cmd.roleName, cmd.now)
    ensures cmd.DoRevoke? ==> Apply(p, cmd) == Revoke(p, cmd.tenant, cmd.role, cmd.binding, cmd.caller, cmd.now)
    ensures cmd.DoRemoveTenant? ==> Apply(p, cmd) == RemoveTenant(p, cmd.tenant, cmd.caller, cmd.user, cmd.now)
    ensures cmd.DoRemoveOrg? ==> Apply(p, cmd) == RemoveOrg(p, cmd.org, cmd.owner, cmd.user, cmd.now)
  {
    hide Grant, InviteTenant, Revoke, RemoveTenant, RemoveOrg;
  }

  /** A refused call changes no binding. */
  lemma Refusal(p: Plane, q: Plane, cmd: Command, t: Id, at: Time)
    requires q == Apply(p, cmd).0 && Apply(p, cmd).1 != Done && q.roles == p.roles && q.bindings == p.bindings
    ensures HasAdminInForce(q, t, at) <==> Keeps(p, cmd, t, at) || Gains(p, cmd, t, at)
  {
    hide Apply, Admins, InForce;
  }

  lemma GrantGains(p: Plane, cmd: Command, b: Binding, t: Id, at: Time)
    requires cmd.DoGrant? && Apply(p, cmd).1 == Done && cmd.role in p.roles
        && p.roles[cmd.role].tenant == Some(cmd.tenant)
    requires b == NewBinding(b.principal, cmd.role, cmd.tenant, cmd.now, cmd.expires)
    ensures (forall k :: !Loses(p, cmd, t, k)) && (Gains(p, cmd, t, at) <==> IsAdmin(p.roles, b, t) && InForce(b, at))
  {
    hide Apply;
  }

  lemma GrantedBinding(p: Plane, tenant: Id, role: Id, caller: Id, principal: Option<Id>, user: Option<Id>,
                       expires: Option<Time>, now: Time)
    requires Inv(p)
    ensures var (q, out) := Grant(p, tenant, role, caller, principal, user, expires, now);
      && q.roles == p.roles
      && if out != Done then q.bindings == p.bindings
         else
           && role in p.roles && p.roles[role].tenant == Some(tenant) && p.nextId in q.bindings
           && q.bindings[p.nextId] == NewBinding(q.bindings[p.nextId].principal, role, tenant, now, expires)
           && q.bindings == p.bindings[p.nextId := q.bindings[p.nextId]]
  {
    hide Decide, RowFor, AlreadyBound, IsMember, UserOf, HasPrincipal, Inv;
  }

  lemma GrantInForce(p: Plane, cmd: Command, t: Id, at: Time)
    requires Inv(p) && cmd.DoGrant?
    ensures HasAdminInForce(Apply(p, cmd).0, t, at) <==> Keeps(p, cmd, t, at) || Gains(p, cmd, t, at)
  {
    hide *;
    var q := Apply(p, cmd).0;
    Calls(p, cmd);
    GrantedBinding(p, cmd.tenant, cmd.role, cmd.caller, cmd.principal, cmd.granted, cmd.expires, cmd.now);
    BelowNext(p);
    if Apply(p, cmd).1 == Done {
      GrantGains(p, cmd, q.bindings[p.nextId], t, at);
      OneMoreAdmin(p, q, cmd, t, at, q.bindings[p.nextId]);
    } else {
      Refusal(p, q, cmd, t, at);
    }
  }

  lemma InviteInForce(p: Plane, cmd: Command, t: Id, at: Time)
    requires Inv(p) && cmd.DoInviteTenant?
    ensures HasAdminInForce(Apply(p, cmd).0, t, at) <==> Keeps(p, cmd, t, at) || Gains(p, cmd, t, at)
  {
    hide Apply, Inv, InviteTenant, HasAdminInForce, Keeps, IsMember, InOrg;
    var q := Apply(p, cmd).0;
    Calls(p, cmd);
    InviteShape(p, cmd.tenant, cmd.caller, cmd.user, cmd.roleName, cmd.now);
    BelowNext(p);
    if Apply(p, cmd).1 == Done {
      OneMoreAdmin(p, q, cmd, t, at, q.bindings[p.nextId]);
    } else {
      Refusal(p, q, cmd, t, at);
    }
  }

  lemma RevokeInForce(p: Plane, cmd: Command, t: Id, at: Time)
    requires cmd.DoRevoke?
    ensures HasAdminInForce(Apply(p, cmd).0, t, at) <==> Keeps(p, cmd, t, at) || Gains(p, cmd, t, at)
  {
    hide Apply, Revoke, HasAdminInForce, Keeps, OnlyRevokes;
    var q := Apply(p, cmd).0;
    Calls(p, cmd);
    RevokeShape(p, cmd.tenant, cmd.role, cmd.binding, cmd.caller, cmd.now);
    if Apply(p, cmd).1 == Done {
      OnlyKept(p, q, cmd, t, at);
    } else {
      Refusal(p, q, cmd, t, at);
    }
  }

  /** All of a principal's active bindings in the tenants are revoked, and no others. */
  lemma RevokedIn(p: Plane, principal: Id, tenants: set<Id>, now: Time, t: Id)
    ensures var after := RevokeIn(p.bindings, principal, tenants, now);
      && (forall k :: k in Admins(p.roles, after, t)
            <==> k in Admins(p.roles, p.bindings, t) && (t in tenants ==> p.bindings[k].principal != principal))
      && (forall k | k in Admins(p.roles, after, t) :: k in p.bindings && k in after && after[k] == p.bindings[k])
  {
  }

  lemma RemovalLoses(p: Plane, cmd: Command, t: Id, at: Time)
    requires cmd.DoRemoveTenant? && cmd.user in p.users && Apply(p, cmd).1 == Done
    ensures !Gains(p, cmd, t, at)
    ensures forall k :: Loses(p, cmd, t, k)
              <==> k in p.bindings && cmd.tenant == t && p.bindings[k].principal == p.users[cmd.user].principal
  {
    hide Apply;
  }

  lemma RemovedBindings(p: Plane, tenant: Id, caller: Id, u: Id, now: Time)
    requires Inv(p)
    ensures var (q, out) := RemoveTenant(p, tenant, caller, u, now);
      && q.roles == p.roles
      && if out != Done then q.bindings == p.bindings
         else u in p.users && q.bindings == RevokeIn(p.bindings, p.users[u].principal, {tenant}, now)
  {
    hide *;
    RemoveShape(p, tenant, caller, u, now);
  }

  lemma RemoveInForce(p: Plane, cmd: Command, t: Id, at: Time)
    requires Inv(p) && cmd.DoRemoveTenant?
    ensures HasAdminInForce(Apply(p, cmd).0, t, at) <==> Keeps(p, cmd, t, at) || Gains(p, cmd, t, at)
  {
    hide *;
    var q := Apply(p, cmd).0;
    Calls(p, cmd);
    RemovedBindings(p, cmd.tenant, cmd.caller, cmd.user, cmd.now);
    AdminsAreBindings(p, t);
    if Apply(p, cmd).1 == Done {
      RemovalLoses(p, cmd, t, at);
      RevokedIn(p, p.users[cmd.user].principal, {cmd.tenant}, cmd.now, t);
      OnlyKept(p, q, cmd, t, at);
    } else {
      Refusal(p, q, cmd, t, at);
    }
  }

  lemma OrgRemovalLoses(p: Plane, cmd: Command, t: Id, at: Time)
    requires cmd.DoRemoveOrg? && t in p.tenants && Apply(p, cmd).1 == Done
    ensures !Gains(p, cmd, t, at) && (t in TenantsOf(p.tenants, cmd.org) <==> p.tenants[t].org == cmd.org)
    ensures forall k :: Loses(p, cmd, t, k) <==>
        k in p.bindings && p.tenants[t].org == cmd.org && cmd.user in p.users
        && p.bindings[k].principal == p.users[cmd.user].principal
  {
    hide Apply;
  }

  lemma RemoveOrgInForce(p: Plane, cmd: Command, t: Id, at: Time)
    requires Inv(p) && t in p.tenants && cmd.DoRemoveOrg?
    ensures HasAdminInForce(Apply(p, cmd).0, t, at) <==> Keeps(p, cmd, t, at) || Gains(p, cmd, t, at)
  {
    hide Apply, Inv, HasAdminInForce, Keeps, Loses, Gains, Admins, RevokeIn, LeaveAll, TenantsOf, IsOwner, InOrg;
    var q := Apply(p, cmd).0;
    Calls(p, cmd);
    AdminsAreBindings(p, t);
    if Apply(p, cmd).1 == Done {
      if cmd.user in p.users {
        RevokedIn(p, p.users[cmd.user].principal, TenantsOf(p.tenants, cmd.org), cmd.now, t);
      }
      OrgRemovalLoses(p, cmd, t, at);
      OnlyKept(p, q, cmd, t, at);
    } else {
      RefusedRemoval(p, cmd.org, cmd.owner, cmd.user, cmd.now);
      Refusal(p, q, cmd, t, at);
    }
  }

  // ---------- where the last administrator is lost

  // Two registrations; the second user is taken into the first one's organization and tenant, and made
  // an administrator there until time 2.
  const PAIR := [
    DoBootstrap("a@x", 0), DoSetAccess(1, Active), DoBootstrap("b@x", 0), DoSetAccess(9, Active),
    DoInviteOrg(2, 1, "b@x", Some(Member)), DoInviteTenant(3, 0, 9, "viewer", 1),
    DoGrant(3, 4, 0, None, Some(9), Some(2), 1)]

  const ROLES := SeedRoles(SeedRoles(map[], 3), 11)

  const ONE := Plane(8, map[0 := Principal(Human, Active)], map[1 := User(0, "a@x", true)], map[],
                     map[2 := Org(false, true, true)],
                     map[(2, 1) := OrgMembership(Owner, Joined)], map[3 := Tenant(2, true)], map[(3, 1) := true],
                       Catalog(),
                     SeedRoles(map[], 3), map[7 := NewBinding(0, 4, 3, 0, None)], [], map[])

  const TWO := Plane(16, map[0 := Principal(Human, Active), 8 := Principal(Human, Active)],
                     map[1 := User(0, "a@x", true), 9 := User(8, "b@x", true)], map[],
                     map[2 := Org(false, true, true), 10 := Org(false, true, true)],
                     map[(2, 1) := OrgMembership(Owner, Joined), (10, 9) := OrgMembership(Owner, Joined)],
                     map[3 := Tenant(2, true), 11 := Tenant(10, true)], map[(3, 1) := true, (11, 9) := true], Catalog(),
                     ROLES, map[7 := NewBinding(0, 4, 3, 0, None), 15 := NewBinding(8, 12, 11, 0, None)], [], map[])

  const INVITED := TWO.(orgMembers := TWO.orgMembers[(2, 9) := OrgMembership(Member, Invited)])

  const JOINED := INVITED.(nextId := 17, members := INVITED.members[(3, 9) := true],
                           bindings := INVITED.bindings[16 := NewBinding(8, 6, 3, 1, None)])

  const GRANTED := JOINED.(nextId := 18, bindings := JOINED.bindings[17 := NewBinding(8, 4, 3, 1, Some(2))])

  lemma OneMore(n: nat)
    requires n < |PAIR|
    ensures Run(EMPTY, PAIR[..n + 1]) == Apply(Run(EMPTY, PAIR[..n]), PAIR[n]).0
    ensures Inv(Run(EMPTY, PAIR[..n]))
  {
    hide Apply, Inv;
    EmptyOk();
    RunKeeps(EMPTY, PAIR[..n]);
    assert PAIR[..n + 1][..n] == PAIR[..n];
  }

  lemma Addresses()
    ensures Text.Lower("a@x") == "a@x" && Text.Lower("b@x") == "b@x" && Text.Strip("b@x") == "b@x" && "a@x" != "b@x"
  {
    assert "a@x"[0] != "b@x"[0];
  }

  /** The rows of a registration whose account is activated at once. */
  function Registered(p: Plane, email: string): Plane {
    var principal, u, org, t := p.nextId, p.nextId + 1, p.nextId + 2, p.nextId + 3;
    p.(nextId := p.nextId + 8,
       principals := p.principals[principal := Principal(Human, Active)],
       users := p.users[u := User(principal, email, true)],
       orgs := p.orgs[org := Org(false, true, true)],
       orgMembers := p.orgMembers[(org, u) := OrgMembership(Owner, Joined)],
       tenants := p.tenants[t := Tenant(org, true)],
       members := p.members[(t, u) := true],
       roles := SeedRoles(p.roles, t),
       bindings := p.bindings[t + 4 := NewBinding(principal, t + 1, t, 0, None)])
  }

  lemma RegisteredBy(p: Plane, email: string)
    requires Text.Lower(email) == email && forall v :: !HasEmail(p.users, v, email)
    ensures var q := Apply(p, DoBootstrap(email, 0)).0;
      Apply(q, DoSetAccess(p.nextId + 1, Active)).0 == Registered(p, email)
  {
    hide SeedRoles, Text.Lower;
    var q := Bootstrap(p, email, 0);
    var r := SetAccess(q, p.nextId + 1, Active);
    assert r.users == p.users[p.nextId + 1 := User(p.nextId, email, true)];
    assert r.principals == p.principals[p.nextId := Principal(Human, Active)];
  }

  lemma FirstRows()
    ensures Registered(EMPTY, "a@x") == ONE
  {
    hide Catalog, SeedRoles, NewBinding;
    var p := Registered(EMPTY, "a@x");
    assert p.users == ONE.users && p.principals == ONE.principals && p.orgs == ONE.orgs
        && p.orgMembers == ONE.orgMembers;
    assert p.tenants == ONE.tenants && p.members == ONE.members && p.bindings == ONE.bindings;
  }

  lemma SecondRows()
    ensures Registered(ONE, "b@x") == TWO
  {
    hide Catalog, SeedRoles, NewBinding;
    var p := Registered(ONE, "b@x");
    assert p.users == TWO.users && p.principals == TWO.principals && p.orgs == TWO.orgs
        && p.orgMembers == TWO.orgMembers;
    assert p.tenants == TWO.tenants && p.members == TWO.members && p.bindings == TWO.bindings;
  }

  lemma FirstRegistered()
    ensures Run(EMPTY, PAIR[..2]) == ONE
  {
    hide Inv, Catalog, SeedRoles, Apply, Registered;
    Addresses();
    OneMore(0);
    OneMore(1);
    assert PAIR[..0] == [] && Run(EMPTY, []) == EMPTY;
    hide Run;
    RegisteredBy(EMPTY, "a@x");
    FirstRows();
  }

  lemma SecondRegistered()
    ensures Run(EMPTY, PAIR[..4]) == TWO
  {
    hide Run, Inv, Catalog, SeedRoles, Apply, Registered;
    Addresses();
    FirstRegistered();
    OneMore(2);
    OneMore(3);
    RegisteredBy(ONE, "b@x");
    SecondRows();
  }

  /** The first user administers the first tenant. */
  lemma FirstMay(p: Plane, at: Time)
    requires Inv(p) && at >= 0 && p.users == TWO.users && p.principals == TWO.principals && p.tenants == TWO.tenants
        && p.roles == ROLES
    requires IsMember(p.members, 3, 1) && 7 in p.bindings && p.bindings[7] == NewBinding(0, 4, 3, 0, None)
    ensures MayAct(p, Request(0, "tenant.admin", Public, Some(3), None, at), None)
    ensures Require(p, 0, 3, at) == (p.(audit := Require(p, 0, 3, at).0.audit), true)
  {
    hide Inv, MayAct, Catalog, Authorize;
    RolesHere();
    hide SeedRoles;
    FounderMay(p, 1, 3, 0, 0, at);
    AuthorizeExactly(p, Request(0, "tenant.admin", Public, Some(3), None, at), None);
  }

  lemma RolesHere()
    ensures 4 in ROLES && ROLES[4] == SystemRole(3, TENANT_ADMIN, ADMIN_CODES)
    ensures 6 in ROLES && ROLES[6] == SystemRole(3, "viewer", VIEWER_CODES)
  {
  }

  lemma TakenIn()
    ensures Run(EMPTY, PAIR[..5]) == INVITED
  {
    hide Run, Inv, Catalog, SeedRoles;
    Addresses();
    SecondRegistered();
    OneMore(4);
    assert HasEmail(TWO.users, 9, "b@x");
    assert UserByEmail(TWO.users, "b@x") == Some(9);
  }

  lemma Roles(p: Plane)
    requires Inv(p) && p.roles == ROLES
    ensures FindRole(ROLES, 3, "viewer") == Some(6)
  {
    OneNameOf(p);
    RolesHere();
    hide Inv, SeedRoles;
    assert IsRole(ROLES, 6, 3, "viewer");
  }

  lemma InvitedRun()
    ensures var z := Run(EMPTY, PAIR[..6]); z == JOINED.(audit := z.audit)
  {
    hide Run, Inv, Catalog, SeedRoles, Require, MayAct, Apply;
    TakenIn();
    OneMore(5);
    OneMore(6);
    FirstMay(INVITED, 1);
    Roles(INVITED);
    hide IsRole, NewBinding;
    InvitedCall(INVITED.(audit := Require(INVITED, 0, 3, 1).0.audit));
  }

  lemma InvitedCall(a: Plane)
    requires a == INVITED.(audit := a.audit) && Require(INVITED, 0, 3, 1) == (a, true)
        && FindRole(ROLES, 3, "viewer") == Some(6)
    ensures Apply(INVITED, DoInviteTenant(3, 0, 9, "viewer", 1)) == (JOINED.(audit := a.audit), Done)
  {
    hide Require, Catalog, SeedRoles, FindRole;
  }

  lemma GrantedRun()
    ensures var z := Run(EMPTY, PAIR); z == GRANTED.(audit := z.audit) && Inv(z)
  {
    hide Run, Inv, Catalog, SeedRoles, Require, MayAct, Apply;
    InvitedRun();
    var z := Run(EMPTY, PAIR[..6]);
    OneMore(6);
    assert PAIR[..7] == PAIR;
    FirstMay(z, 1);
    GrantedCall(z, Require(z, 0, 3, 1).0);
    StepKeeps(z, PAIR[6]);
  }

  lemma GrantedCall(z: Plane, a: Plane)
    requires z == JOINED.(audit := z.audit) && a == z.(audit := a.audit) && Require(z, 0, 3, 1) == (a, true)
    ensures Apply(z, DoGrant(3, 4, 0, None, Some(9), Some(2), 1)) == (GRANTED.(audit := a.audit), Done)
  {
    RolesHere();
    hide Require, Catalog, SeedRoles;
    assert !AlreadyBound(JOINED.bindings, 8, 4, 3);
  }

  lemma GrantedAdmins(z: Plane)
    requires Inv(z) && z == GRANTED.(audit := z.audit)
    ensures Admins(z.roles, z.bindings, 3) == {7, 17} && BindingsOn(z.bindings, 4, 3) == {7, 17}
    ensures FindRole(z.roles, 3, TENANT_ADMIN) == Some(4)
  {
    hide Inv, SeedRoles, Catalog, Admins, BindingsOn, ActiveBinding, FindRole;
    RolesHere();
    AdminRole(z, 3);
    GrantedBindings();
  }

  lemma GrantedBindings()
    ensures BindingsOn(GRANTED.bindings, 4, 3) == {7, 17}
  {
    hide SeedRoles, Catalog;
    var b := GRANTED.bindings;
    assert b.Keys == {7, 15, 16, 17};
    assert b[7] == NewBinding(0, 4, 3, 0, None) && b[15] == NewBinding(8, 12, 11, 0, None)
        && b[16] == NewBinding(8, 6, 3, 1, None)
           && b[17] == NewBinding(8, 4, 3, 1, Some(2));
    forall k ensures k in BindingsOn(b, 4, 3) <==> k == 7 || k == 17 {
    }
  }

  /** After that run the first user revokes the own binding: the guard counts the other one, though it
      has expired, and no administrator's binding is in force. */
  lemma ExpiredAdminCounts()
    ensures var z := Run(EMPTY, PAIR);
      && HasAdminInForce(z, 3, 10) && Revoke(z, 3, 4, 7, 0, 10).1 == Done
      && HasAdmin(Revoke(z, 3, 4, 7, 0, 10).0, 3) && !HasAdminInForce(Revoke(z, 3, 4, 7, 0, 10).0, 3, 10)
  {
    hide Run, Inv, SeedRoles, Catalog, MayAct, Revoke, Admins, Require, InForce, HasAdmin, NewBinding;
    var z := Run(EMPTY, PAIR);
    GrantedRun();
    GrantedAdmins(z);
    GrantedInForce(z);
    assert HasAdminInForce(z, 3, 10) by { assert 7 in Admins(z.roles, z.bindings, 3); }
    hide HasAdminInForce;
    FirstMay(z, 10);
    AdminMayRevoke(z, 3, 7, 0, 10);
    assert HasAdmin(z, 3) by { FirstAdmin(z); }
    RevokeKeepsAdmin(z, 3, 4, 7, 0, 10, 3);
    RevokesLast(z, DoRevoke(3, 4, 7, 0, 10), 7, 17);
  }

  lemma FirstAdmin(z: Plane)
    requires Admins(z.roles, z.bindings, 3) == {7, 17}
    ensures HasAdmin(z, 3)
  {
    assert 7 in Admins(z.roles, z.bindings, 3);
  }

  lemma GrantedInForce(z: Plane)
    requires z.bindings == GRANTED.bindings
    ensures 7 in z.bindings && InForce(z.bindings[7], 10) && 17 in z.bindings && !InForce(z.bindings[17], 10)
  {
    hide SeedRoles, Catalog;
  }

  lemma RevokesLast(z: Plane, cmd: Command, j: Id, k: Id)
    requires Inv(z) && 3 in z.tenants && cmd.DoRevoke? && cmd.binding == j && Apply(z, cmd).1 == Done
    requires Admins(z.roles, z.bindings, 3) == {j, k} && j in z.bindings && k in z.bindings
        && !InForce(z.bindings[k], 10)
    ensures !HasAdminInForce(Apply(z, cmd).0, 3, 10)
  {
    hide Inv, Apply, Admins, InForce, HasAdminInForce, Loses, Gains;
    RevokesOne(z, cmd, j, 10);
    InForceStep(z, cmd, 3, 10);
  }

  lemma RevokesOne(z: Plane, cmd: Command, j: Id, at: Time)
    requires cmd.DoRevoke? && cmd.binding == j && j in z.bindings && Apply(z, cmd).1 == Done
    ensures Loses(z, cmd, 3, j) && !Gains(z, cmd, 3, at)
  {
    hide Apply;
  }

  lemma AdminMayRevoke(p: Plane, tenant: Id, binding: Id, caller: Id, now: Time)
    requires MayAct(p, Request(caller, "tenant.admin", Public, Some(tenant), None, now), None)
    requires binding in p.bindings && p.bindings[binding].tenant == Some(tenant) && p.bindings[binding].active
    requires |Admins(p.roles, p.bindings, tenant)| > 1
    ensures Revoke(p, tenant, p.bindings[binding].role, binding, caller, now).1 == Done
  {
    hide MayAct, Admins, Authorize;
    AuthorizeExactly(p, Request(caller, "tenant.admin", Public, Some(tenant), None, now), None);
  }

  lemma OwnerMayRemove(p: Plane, org: Id, owner: Id, u: Id, now: Time)
    requires org in p.orgs && IsOwner(p, org, owner) && owner != u && InOrg(p.orgMembers, org, u)
    ensures RemoveOrg(p, org, owner, u, now).1 == Done
  {
  }

  lemma FirstLeaves(z: Plane)
    requires Inv(z) && z == GRANTED.(audit := z.audit)
    ensures var (y, out) := RemoveTenant(z, 3, 0, 1, 1);
      out == Done && y == z.(members := z.members[(3, 1) := false], bindings := RevokeIn(z.bindings, 0, {3}, 1),
                             audit := y.audit)
  {
    hide Inv, SeedRoles, Catalog, Require, MayAct, Admins, BindingsOn, RevokeIn, FindRole, AlreadyBound;
    GrantedAdmins(z);
    FirstMay(z, 1);
  }

  /** After that run the first user, who owns the organization, leaves the tenant and then removes the
      other one, its only administrator, from the organization: both calls succeed, and the tenant has none. */
  lemma RemoveOrgStrands()
    ensures var y := RemoveTenant(Run(EMPTY, PAIR), 3, 0, 1, 1).0;
      && RemoveTenant(Run(EMPTY, PAIR), 3, 0, 1, 1).1 == Done && HasAdmin(y, 3)
      && RemoveOrg(y, 2, 1, 9, 1).1 == Done && !HasAdmin(RemoveOrg(y, 2, 1, 9, 1).0, 3)
  {
    hide Run, Inv, SeedRoles, Catalog, RemoveOrg, RemoveTenant, Admins, RevokeIn;
    var z := Run(EMPTY, PAIR);
    GrantedRun();
    GrantedAdmins(z);
    FirstLeaves(z);
    RemoveTenantKeeps(z, 3, 0, 1, 1);
    var y := RemoveTenant(z, 3, 0, 1, 1).0;
    RevokedIn(z, 0, {3}, 1, 3);
    assert z.bindings[7].principal == 0 && z.bindings[17].principal == 8;
    assert 17 in Admins(y.roles, y.bindings, 3);
    OwnerMayRemove(y, 2, 1, 9, 1);
    RemoveOrgAdmins(y, 2, 1, 9, 1, 3);
  }
}
