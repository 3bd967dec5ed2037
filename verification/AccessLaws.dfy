/** What the decision means, and what every call on the access plane keeps. */
module AccessLaws {
  import opened Errors
  import opened Access
  import Text

  // ---------- the decision

  /** Who may do what: the principal is active, the permission is an active one of the surface's
      scope, and a role bound to the principal in exactly this tenant, or in exactly the operator's
      organization, gives it at this time. */
  ghost predicate MayAct(p: Plane, q: Request, found: Option<Id>) {
    var code := Text.Strip(q.code);
    && code != ""
    && q.principal in p.principals && p.principals[q.principal].status == Active
    && code in p.permissions && p.permissions[code].active
    && match q.surface
       case Public =>
         && !Text.StartsWith(code, PLATFORM_PREFIX) && p.permissions[code].scope == TenantScope
         && q.tenant.Some? && q.tenant.value in p.tenants && p.tenants[q.tenant.value].active
         && HasActiveMembership(p, q.principal, q.tenant.value)
         && HasGrant(p, q.principal, code, TenantScope, q.tenant, None, q.at)
       case Management =>
         && Text.StartsWith(code, PLATFORM_PREFIX) && p.permissions[code].scope == PlatformScope
         && found.Some? && (q.operator.None? || q.operator == found)
         && HasGrant(p, q.principal, code, PlatformScope, None, found, q.at)
  }

  /** The chain of tests allows exactly what the predicate allows, and each call adds one row that
      says what was decided. */
  lemma AuthorizeExactly(p: Plane, q: Request, found: Option<Id>)
    ensures var (after, allowed) := Authorize(p, q, found);
      && (allowed <==> MayAct(p, q, found))
      && |after.audit| == |p.audit| + 1 && after == p.(audit := after.audit) && after.audit[..|p.audit|] == p.audit
      && var row := after.audit[|p.audit|];
         && row.principal == q.principal && row.code == q.code && row.allowed == allowed
         && (row.allowed <==> row.reason == Granted)
         && (row.allowed ==> row.scope == (if q.surface.Public? then TenantScope else PlatformScope))
         && (row.scope == TenantScope ==> row.tenant == q.tenant && row.operator == None)
         && (row.scope == PlatformScope ==> row.tenant == None)
         && (row.allowed && row.scope == PlatformScope ==> row.operator == found)
  {
    hide HasGrant, HasActiveMembership, Text.Strip, Text.StartsWith;
  }

  /** What each reason for a refusal claims. */
  ghost predicate Claims(p: Plane, q: Request, found: Option<Id>, reason: Reason) {
    var code := Text.Strip(q.code);
    match reason
    case Granted => MayAct(p, q, found)
    case CodeRequired => code == ""
    case PublicRejectsPlatform => q.surface.Public? && Text.StartsWith(code, PLATFORM_PREFIX)
    case ManagementRequiresPlatform => q.surface.Management? && !Text.StartsWith(code, PLATFORM_PREFIX)
    case TenantRequired => q.tenant.None?
    case PrincipalNotFound => q.principal !in p.principals
    case PrincipalNotActive(status) =>
      q.principal in p.principals && p.principals[q.principal].status == status != Active
    case TenantNotActive => q.tenant.Some? && (q.tenant.value in p.tenants ==> !p.tenants[q.tenant.value].active)
    case MembershipInactive => q.tenant.Some? && !HasActiveMembership(p, q.principal, q.tenant.value)
    case OperatorInactive => found.None? || (q.operator.Some? && q.operator != found)
    case PermissionNotFound => code !in p.permissions
    case PermissionNotActive => code in p.permissions && !p.permissions[code].active
    case ScopeMismatch => code in p.permissions && p.permissions[code].scope.PlatformScope? == q.surface.Public?
    case NoGrant => !HasGrant(p, q.principal, code, if q.surface.Public? then TenantScope else PlatformScope,
                              if q.surface.Public? then q.tenant else None,
                              if q.surface.Public? then None else found, q.at)
  }

  /** The recorded reason is true of the state in which it was recorded. */
  lemma ReasonIsTrue(p: Plane, q: Request, found: Option<Id>)
    ensures Claims(p, q, found, Decide(p, q, found).reason)
  {
    hide HasGrant, HasActiveMembership, Text.Strip, Text.StartsWith;
    AuthorizeExactly(p, q, found);
  }

  /** When a user is an active member of one active operator organization only, the lookup has one
      answer; with several, the answer to a request that names one of them depends on which it finds. */
  lemma OperatorLookup(p: Plane, principal: Id, u: Id, org: Id, found: Option<Id>)
    requires UserOf(p.users, principal) == Some(u) && Discovers(p, principal, found) && OperatesFor(p, u, org)
    ensures (forall other | OperatesFor(p, u, other) :: other == org) ==> found == Some(org)
    ensures forall other | OperatesFor(p, u, other) :: Discovers(p, principal, Some(other))
    ensures forall q: Request, other | q.principal == principal && q.operator == Some(other) && q.surface.Management?
        && found != Some(other) ::
              !MayAct(p, q, found)
  {
  }

  // ---------- the invariant

  ghost predicate IdsOk(n: Id, principals: map<Id, Principal>, users: map<Id, User>, orgs: map<Id, Org>,
                        tenants: map<Id, Tenant>, roles: map<Id, Role>, bindings: map<Id, Binding>) {
    && (forall k | k in principals :: k < n)
    && (forall k | k in users :: k < n)
    && (forall k | k in orgs :: k < n)
    && (forall k | k in tenants :: k < n)
    && (forall k | k in roles :: k < n)
    && (forall k | k in bindings :: k < n)
  }

  /** Principals and e-mail addresses have one user each. */
  ghost predicate UsersOk(principals: map<Id, Principal>, users: map<Id, User>) {
    && (forall u | u in users :: users[u].principal in principals && principals[users[u].principal].kind == Human)
    && (forall u, v | u in users && v in users && users[u].principal == users[v].principal :: u == v)
    && (forall u, v | u in users && v in users && users[u].email == users[v].email :: u == v)
  }

  /** The tenant's administrator role, active and with all its permissions. */
  predicate Seeded(roles: map<Id, Role>, t: Id) {
    t + 1 in roles && roles[t + 1] == SystemRole(t, TENANT_ADMIN, ADMIN_CODES)
  }

  /** A tenant has one role of each name, and if it has roles one of them is the administrator's. */
  ghost predicate RolesOk(tenants: map<Id, Tenant>, roles: map<Id, Role>) {
    && (forall r | r in roles ::
          && roles[r].scope == TenantScope && roles[r].tenant.Some? && roles[r].operator.None?
          && roles[r].tenant.value in tenants && Seeded(roles, roles[r].tenant.value))
    && OneName(roles)
  }

  ghost predicate BindingsOk(principals: map<Id, Principal>, roles: map<Id, Role>, bindings: map<Id, Binding>) {
    forall k | k in bindings ::
      && bindings[k].principal in principals
      && bindings[k].role in roles && bindings[k].tenant == roles[bindings[k].role].tenant
      && bindings[k].scope == TenantScope && bindings[k].operator.None?
      && (bindings[k].active <==> bindings[k].revokedAt.None?)
  }

  ghost predicate OneActive(bindings: map<Id, Binding>) {
    forall j, k | j in bindings && k in bindings && bindings[j].active && bindings[k].active
                  && bindings[j].principal == bindings[k].principal && bindings[j].role == bindings[k].role
                  && bindings[j].tenant == bindings[k].tenant :: j == k
  }

  /** A user with an active binding in a tenant is an active member of it. */
  ghost predicate BoundAreMembers(users: map<Id, User>, members: map<(Id, Id), bool>, bindings: map<Id, Binding>) {
    forall k, u | k in bindings && bindings[k].active && bindings[k].tenant.Some?
        && HasPrincipal(users, u, bindings[k].principal) ::
      IsMember(members, bindings[k].tenant.value, u)
  }

  ghost predicate HasOwner(orgMembers: map<(Id, Id), OrgMembership>, org: Id) {
    exists u :: (org, u) in orgMembers && orgMembers[(org, u)] == OrgMembership(Owner, Joined)
  }

  /** Memberships are of existing organizations, each with an active owner. */
  ghost predicate OwnersOk(orgs: map<Id, Org>, orgMembers: map<(Id, Id), OrgMembership>) {
    && (forall m | m in orgMembers :: m.0 in orgs)
    && (forall o | o in orgs :: HasOwner(orgMembers, o))
  }

  /** An active tenant member is a user who belongs to, or is invited to, the tenant's organization, or
      whose upgrade has opened the tenant. */
  ghost predicate MembersOk(users: map<Id, User>, orgs: map<Id, Org>, orgMembers: map<(Id, Id), OrgMembership>,
                            tenants: map<Id, Tenant>, members: map<(Id, Id), bool>, upgrades: map<Id, Upgrade>) {
    && (forall t | t in tenants :: tenants[t].org in orgs)
    && (forall t, u | IsMember(members, t, u) ::
          t in tenants && u in users && (InOrg(orgMembers, tenants[t].org, u) || OpenedFor(upgrades, t, u)))
  }

  /** An upgrade that the user asked for has opened the tenant. */
  predicate OpenedFor(upgrades: map<Id, Upgrade>, t: Id, u: Id) {
    exists r | r in upgrades :: upgrades[r].user == u && upgrades[r].tenant == Some(t)
  }

  /** Upgrades are asked for by users for organizations, and the tenants they have opened are of those. */
  ghost predicate UpgradesOk(n: Id, users: map<Id, User>, orgs: map<Id, Org>, tenants: map<Id, Tenant>,
                             upgrades: map<Id, Upgrade>) {
    forall r | r in upgrades ::
      && r < n && upgrades[r].user in users && upgrades[r].org in orgs
      && (upgrades[r].tenant.Some? ==>
            upgrades[r].tenant.value in tenants && tenants[upgrades[r].tenant.value].org == upgrades[r].org)
  }

  ghost predicate PermissionsOk(permissions: map<string, Permission>) {
    permissions == Catalog()
  }

  ghost predicate Inv(p: Plane) {
    && IdsOk(p.nextId, p.principals, p.users, p.orgs, p.tenants, p.roles, p.bindings)
    && UsersOk(p.principals, p.users)
    && RolesOk(p.tenants, p.roles)
    && BindingsOk(p.principals, p.roles, p.bindings)
    && OneActive(p.bindings)
    && BoundAreMembers(p.users, p.members, p.bindings)
    && OwnersOk(p.orgs, p.orgMembers)
    && MembersOk(p.users, p.orgs, p.orgMembers, p.tenants, p.members, p.upgrades)
    && UpgradesOk(p.nextId, p.users, p.orgs, p.tenants, p.upgrades)
    && PermissionsOk(p.permissions)
  }

  lemma EmptyOk()
    ensures Inv(EMPTY)
  {
  }

  // ---------- tenants and registrations

  lemma SeedRolesOk(tenants: map<Id, Tenant>, roles: map<Id, Role>, t: Id, tenant: Tenant)
    requires RolesOk(tenants, roles) && t !in tenants && forall r | r in roles :: r < t
    ensures RolesOk(tenants[t := tenant], SeedRoles(roles, t))
  {
    RoleNames();
    var one := SystemRole(t, TENANT_ADMIN, ADMIN_CODES);
    var two := SystemRole(t, "resource-admin", RESOURCE_ADMIN_CODES);
    var three := SystemRole(t, "viewer", VIEWER_CODES);
    var grown := tenants[t := tenant];
    hide SeedRoles;
    NoRolesYet(tenants, roles, t);
    RolesAt(tenants, roles, t, tenant);
    RoleAdded(roles, t + 1, one);
    RoleAdded(roles[t + 1 := one], t + 2, two);
    RoleAdded(roles[t + 1 := one][t + 2 := two], t + 3, three);
    assert SeedRoles(roles, t) == roles[t + 1 := one][t + 2 := two][t + 3 := three] by { SeededAs(roles, t); }
  }

  /** No two roles of a tenant have the same name. */
  ghost predicate OneName(roles: map<Id, Role>) {
    forall r, q | r in roles && q in roles && roles[r].tenant == roles[q].tenant
        && roles[r].name == roles[q].name :: r == q
  }

  lemma RoleAdded(roles: map<Id, Role>, r: Id, role: Role)
    requires OneName(roles) && forall q | q in roles :: roles[q].tenant != role.tenant || roles[q].name != role.name
    ensures OneName(roles[r := role])
  {
  }

  lemma SeededAs(roles: map<Id, Role>, t: Id)
    ensures SeedRoles(roles, t) == roles[t + 1 := SystemRole(t, TENANT_ADMIN, ADMIN_CODES)]
              [t + 2 := SystemRole(t, "resource-admin",
                                   RESOURCE_ADMIN_CODES)][t + 3 := SystemRole(t, "viewer", VIEWER_CODES)]
  {
  }

  lemma NoRolesYet(tenants: map<Id, Tenant>, roles: map<Id, Role>, t: Id)
    requires RolesOk(tenants, roles) && t !in tenants
    ensures forall r | r in roles :: roles[r].tenant != Some(t)
  {
  }

  lemma RolesAt(tenants: map<Id, Tenant>, roles: map<Id, Role>, t: Id, tenant: Tenant)
    requires RolesOk(tenants, roles) && t !in tenants && forall r | r in roles :: r < t
    ensures var grown, after := tenants[t := tenant], SeedRoles(roles, t);
      forall r | r in after ::
        && after[r].scope == TenantScope && after[r].tenant.Some? && after[r].operator.None?
        && after[r].tenant.value in grown && Seeded(after, after[r].tenant.value)
  {
    hide OneName;
  }

  lemma RoleNames()
    ensures TENANT_ADMIN != "resource-admin" && TENANT_ADMIN != "viewer" && "viewer" != "resource-admin"
  {
    assert |TENANT_ADMIN| == 12 && |"resource-admin"| == 14 && |"viewer"| == 6;
  }

  lemma BindingAdded(principals: map<Id, Principal>, users: map<Id, User>, members: map<(Id, Id), bool>,
                     roles: map<Id, Role>, bindings: map<Id, Binding>, k: Id, b: Binding)
    requires BindingsOk(principals, roles, bindings) && OneActive(bindings) && BoundAreMembers(users, members, bindings)
    requires k !in bindings && b.principal in principals
    requires b.active && b.revokedAt.None? && b.role in roles && b.tenant.Some? && b.tenant == roles[b.role].tenant
    requires b.scope == TenantScope && b.operator.None?
    requires !AlreadyBound(bindings, b.principal, b.role, b.tenant.value)
    requires forall u | HasPrincipal(users, u, b.principal) :: IsMember(members, b.tenant.value, u)
    ensures BindingsOk(principals, roles, bindings[k := b]) && OneActive(bindings[k := b])
    ensures BoundAreMembers(users, members, bindings[k := b])
  {
    forall j | j in bindings ensures !ActiveBinding(bindings[j], b.principal, b.role, b.tenant.value) {
    }
  }

  lemma MoreMembers(users: map<Id, User>, members: map<(Id, Id), bool>, bindings: map<Id, Binding>, t: Id, u: Id)
    requires BoundAreMembers(users, members, bindings)
    ensures BoundAreMembers(users, members[(t, u) := true], bindings)
  {
  }

  lemma MoreRoles(principals: map<Id, Principal>, roles: map<Id, Role>, t: Id, bindings: map<Id, Binding>)
    requires BindingsOk(principals, roles, bindings) && forall r | r in roles :: r < t
    ensures BindingsOk(principals, SeedRoles(roles, t), bindings)
  {
  }

  /** Whoever had a tenant opened still has. */
  ghost predicate UpgradesGrow(before: map<Id, Upgrade>, after: map<Id, Upgrade>) {
    forall t: Id, u: Id | OpenedFor(before, t, u) :: OpenedFor(after, t, u)
  }

  lemma MemberAdded(users: map<Id, User>, orgs: map<Id, Org>, orgMembers: map<(Id, Id), OrgMembership>,
                    tenants: map<Id, Tenant>, members: map<(Id, Id), bool>, t: Id, org: Id, u: Id,
                    upgrades: map<Id, Upgrade>, after: map<Id, Upgrade>)
    requires MembersOk(users, orgs, orgMembers, tenants, members, upgrades) && t !in tenants && org in orgs
        && u in users
    requires UpgradesGrow(upgrades, after) && (InOrg(orgMembers, org, u) || OpenedFor(after, t, u))
    ensures MembersOk(users, orgs, orgMembers, tenants[t := Tenant(org, true)], members[(t, u) := true], after)
  {
    hide OpenedFor, InOrg;
    var joined := members[(t, u) := true];
    forall s, v | IsMember(joined, s, v) ensures (s == t && v == u) || (s != t && IsMember(members, s, v)) {
      assert s != t || v != u ==> IsMember(members, s, v);
    }
  }

  /** A tenant opened for a user who belongs to the organization, or whose upgrade is completed by it. */
  lemma OpenedKeeps(p: Plane, org: Id, u: Id, now: Time, upgrades: map<Id, Upgrade>)
    requires Inv(p) && org in p.orgs && u in p.users && UpgradesGrow(p.upgrades, upgrades)
    requires InOrg(p.orgMembers, org, u) || OpenedFor(upgrades, p.nextId, u)
    requires UpgradesOk(p.nextId + 5, p.users, p.orgs, p.tenants[p.nextId := Tenant(org, true)], upgrades)
    ensures Inv(OpenTenant(p, org, u, now).(upgrades := upgrades))
  {
    hide OwnersOk, BindingsOk, BoundAreMembers, OneActive, MembersOk, RolesOk, UsersOk, AlreadyBound, InOrg, SeedRoles,
         PermissionsOk, UpgradesOk, UpgradesGrow, OpenedFor;
    var t := p.nextId;
    var b := NewBinding(p.users[u].principal, t + 1, t, now, None);
    OpenedIds(p, org, u, now);
    hide IdsOk;
    SeedRolesOk(p.tenants, p.roles, t, Tenant(org, true));
    SeededRoles(p.roles, t);
    MemberAdded(p.users, p.orgs, p.orgMembers, p.tenants, p.members, t, org, u, p.upgrades, upgrades);
    MoreMembers(p.users, p.members, p.bindings, t, u);
    MoreRoles(p.principals, p.roles, t, p.bindings);
    NewRoleUnbound(p.principals, p.roles, p.bindings, p.users[u].principal, t + 1, t);
    OneUser(p.principals, p.users, u);
    BindingAdded(p.principals, p.users, p.members[(t, u) := true], SeedRoles(p.roles, t), p.bindings, t + 4, b);
  }

  lemma OpenTenantKeeps(p: Plane, org: Id, u: Id, now: Time)
    requires Inv(p) && org in p.orgs && u in p.users && InOrg(p.orgMembers, org, u)
    ensures Inv(OpenTenant(p, org, u, now))
  {
    assert UpgradesOk(p.nextId + 5, p.users, p.orgs, p.tenants[p.nextId := Tenant(org, true)], p.upgrades) by {
      hide UsersOk, RolesOk, BindingsOk, OneActive, BoundAreMembers, OwnersOk, MembersOk, PermissionsOk;
    }
    hide Inv, OpenTenant, UpgradesOk;
    OpenedKeeps(p, org, u, now, p.upgrades);
    assert OpenTenant(p, org, u, now).(upgrades := p.upgrades) == OpenTenant(p, org, u, now) by {
      OpenUpgrades(p, org, u, now);
    }
  }

  lemma OpenUpgrades(p: Plane, org: Id, u: Id, now: Time)
    requires u in p.users
    ensures var q := OpenTenant(p, org, u, now); q.upgrades == p.upgrades && q.orgs == p.orgs
  {
  }

  /** Neither suspensions nor upgrades take an organization's row away. */
  lemma OrgSwitched(p: Plane, org: Id, x: Org)
    requires Inv(p) && org in p.orgs
    ensures Inv(p.(orgs := p.orgs[org := x]))
  {
    hide UsersOk, RolesOk, BindingsOk, OneActive, BoundAreMembers, PermissionsOk, HasOwner, InOrg, IsMember, OpenedFor;
  }

  lemma CompletedKeeps(p: Plane, r: Id, now: Time)
    requires Inv(p) && r in p.upgrades && p.upgrades[r].user in p.users && p.upgrades[r].org in p.orgs
        && p.upgrades[r].tenant.None?
    ensures Inv(Completed(p, r, now))
  {
    var x, t := p.upgrades[r], p.nextId;
    var upgrades := p.upgrades[r := x.(tenant := Some(t))];
    CompletedUpgrades(p, r);
    hide Inv, OpenTenant, UpgradesOk, UpgradesGrow, OpenedFor;
    OpenedKeeps(p, x.org, x.user, now, upgrades);
    OpenUpgrades(p, x.org, x.user, now);
    OrgSwitched(OpenTenant(p, x.org, x.user, now).(upgrades := upgrades), x.org,
                p.orgs[x.org].(active := true, individual := false));
  }

  lemma CompletedUpgrades(p: Plane, r: Id)
    requires Inv(p) && r in p.upgrades && p.upgrades[r].tenant.None?
    ensures var x := p.upgrades[r];
      var upgrades := p.upgrades[r := x.(tenant := Some(p.nextId))];
      && UpgradesGrow(p.upgrades, upgrades) && OpenedFor(upgrades, p.nextId, x.user)
      && UpgradesOk(p.nextId + 5, p.users, p.orgs, p.tenants[p.nextId := Tenant(x.org, true)], upgrades)
  {
    hide UsersOk, RolesOk, BindingsOk, OneActive, BoundAreMembers, OwnersOk, MembersOk, PermissionsOk;
    var x := p.upgrades[r];
    var upgrades := p.upgrades[r := x.(tenant := Some(p.nextId))];
    assert upgrades[r].user == x.user && upgrades[r].tenant == Some(p.nextId);
    forall t: Id, u: Id | OpenedFor(p.upgrades, t, u) ensures OpenedFor(upgrades, t, u) {
      var k: Id :| k in p.upgrades && p.upgrades[k].user == u && p.upgrades[k].tenant == Some(t);
      assert upgrades[k].user == u && upgrades[k].tenant == Some(t);
    }
  }

  lemma SubmittedKeeps(p: Plane, org: Id, u: Id)
    requires Inv(p) && org in p.orgs && u in p.users
    ensures Inv(p.(nextId := p.nextId + 1, upgrades := p.upgrades[p.nextId := Upgrade(org, u, None)]))
  {
    hide UsersOk, RolesOk, BindingsOk, OneActive, BoundAreMembers, OwnersOk, PermissionsOk, InOrg, IsMember;
    var upgrades := p.upgrades[p.nextId := Upgrade(org, u, None)];
    forall t: Id, v: Id | OpenedFor(p.upgrades, t, v) ensures OpenedFor(upgrades, t, v) {
      var k: Id :| k in p.upgrades && p.upgrades[k].user == v && p.upgrades[k].tenant == Some(t);
      assert upgrades[k].user == v && upgrades[k].tenant == Some(t);
    }
    hide OpenedFor;
  }

  lemma OpenedIds(p: Plane, org: Id, u: Id, now: Time)
    requires IdsOk(p.nextId, p.principals, p.users, p.orgs, p.tenants, p.roles, p.bindings) && u in p.users
    ensures var t, q := p.nextId, OpenTenant(p, org, u, now);
      && t !in p.tenants && t + 1 !in p.roles && t + 4 !in p.bindings && (forall r | r in p.roles :: r < t)
      && IdsOk(q.nextId, q.principals, q.users, q.orgs, q.tenants, q.roles, q.bindings)
  {
    SeededRoles(p.roles, p.nextId);
    hide SeedRoles;
  }

  lemma SeededRoles(roles: map<Id, Role>, t: Id)
    ensures SeedRoles(roles, t).Keys == roles.Keys + {t + 1, t + 2, t + 3}
    ensures SeedRoles(roles, t)[t + 1] == SystemRole(t, TENANT_ADMIN, ADMIN_CODES)
  {
  }

  lemma NewRoleUnbound(principals: map<Id, Principal>, roles: map<Id, Role>, bindings: map<Id, Binding>, principal: Id,
                       role: Id, t: Id)
    requires BindingsOk(principals, roles, bindings) && role !in roles
    ensures !AlreadyBound(bindings, principal, role, t)
  {
  }

  lemma OneUser(principals: map<Id, Principal>, users: map<Id, User>, u: Id)
    requires UsersOk(principals, users) && u in users
    ensures users[u].principal in principals && forall v | HasPrincipal(users, v, users[u].principal) :: v == u
  {
  }

  /** The account, organization and membership of a registration, before its tenant is opened. */
  function WithAccount(p: Plane, email: string): Plane {
    p.(nextId := p.nextId + 3,
       principals := p.principals[p.nextId := Principal(Human, Inactive)],
       users := p.users[p.nextId + 1 := User(p.nextId, Text.Lower(email), false)],
       orgs := p.orgs[p.nextId + 2 := Org(false, true, true)],
       orgMembers := p.orgMembers[(p.nextId + 2, p.nextId + 1) := OrgMembership(Owner, Joined)])
  }

  lemma OwnersGrow(orgs: map<Id, Org>, orgMembers: map<(Id, Id), OrgMembership>, org: Id, u: Id, x: Org)
    requires OwnersOk(orgs, orgMembers) && org !in orgs
    ensures OwnersOk(orgs[org := x], orgMembers[(org, u) := OrgMembership(Owner, Joined)])
  {
    var after := orgMembers[(org, u) := OrgMembership(Owner, Joined)];
    assert (org, u) in after;
    forall o | o in orgs ensures HasOwner(after, o) {
      var v :| (o, v) in orgMembers && orgMembers[(o, v)] == OrgMembership(Owner, Joined);
      assert (o, v) in after && after[(o, v)] == OrgMembership(Owner, Joined);
    }
  }

  lemma UserGrows(principals: map<Id, Principal>, users: map<Id, User>, members: map<(Id, Id), bool>,
                  roles: map<Id, Role>, bindings: map<Id, Binding>, n: Id, u: Id, user: User)
    requires UsersOk(principals, users) && BindingsOk(principals, roles, bindings)
        && BoundAreMembers(users, members, bindings)
    requires n !in principals && u !in users && user.principal == n
        && (forall v | v in users :: users[v].email != user.email)
    ensures var after := principals[n := Principal(Human, Inactive)];
      && UsersOk(after, users[u := user]) && BindingsOk(after, roles, bindings)
      && BoundAreMembers(users[u := user], members, bindings)
  {
  }

  lemma OrgGrows(users: map<Id, User>, orgs: map<Id, Org>, orgMembers: map<(Id, Id), OrgMembership>,
                 tenants: map<Id, Tenant>, members: map<(Id, Id), bool>, u: Id, user: User, org: Id, x: Org,
                 upgrades: map<Id, Upgrade>)
    requires MembersOk(users, orgs, orgMembers, tenants, members, upgrades) && org !in orgs
    ensures MembersOk(users[u := user], orgs[org := x], orgMembers[(org, u) := OrgMembership(Owner, Joined)], tenants,
                      members, upgrades)
  {
  }

  lemma IdsGrow(p: Plane, u: Id, org: Id, user: User)
    requires IdsOk(p.nextId, p.principals, p.users, p.orgs, p.tenants, p.roles, p.bindings)
    requires u == p.nextId + 1 && org == p.nextId + 2
    ensures p.nextId !in p.principals && u !in p.users && org !in p.orgs
    ensures IdsOk(p.nextId + 3, p.principals[p.nextId := Principal(Human, Inactive)], p.users[u := user],
                  p.orgs[org := Org(false, true, true)],
                  p.tenants, p.roles, p.bindings)
  {
  }

  lemma AccountKeeps(p: Plane, email: string)
    requires Inv(p) && UserByEmail(p.users, Text.Lower(email)).None?
    ensures Inv(WithAccount(p, email))
  {
    hide RolesOk, BindingsOk, OneActive, OwnersOk, MembersOk, UsersOk, BoundAreMembers, Text.Lower, IdsOk;
    var u, org, user := p.nextId + 1, p.nextId + 2, User(p.nextId, Text.Lower(email), false);
    IdsGrow(p, u, org, user);
    forall v | v in p.users ensures p.users[v].email != Text.Lower(email) {
      assert !HasEmail(p.users, v, Text.Lower(email));
    }
    OwnersGrow(p.orgs, p.orgMembers, org, u, Org(false, true, true));
    UserGrows(p.principals, p.users, p.members, p.roles, p.bindings, p.nextId, u, user);
    OrgGrows(p.users, p.orgs, p.orgMembers, p.tenants, p.members, u, user, org, Org(false, true, true), p.upgrades);
  }

  lemma BootstrapKeeps(p: Plane, email: string, now: Time)
    requires Inv(p) && UserByEmail(p.users, Text.Lower(email)).None?
    ensures Inv(Bootstrap(p, email, now))
  {
    hide Inv, OpenTenant;
    AccountKeeps(p, email);
    OpenTenantKeeps(WithAccount(p, email), p.nextId + 2, p.nextId + 1, now);
  }

  /** Fresh identifiers for an organization and a tenant of an existing user. */
  lemma ProvisionKeeps(p: Plane, u: Id)
    requires Inv(p) && u in p.users
    ensures Inv(Provisioned(p, u))
  {
    hide RolesOk, BindingsOk, OneActive, OwnersOk, MembersOk, UsersOk, BoundAreMembers, IdsOk, InOrg, PermissionsOk;
    ProvisionedIds(p, u);
    var org, t := p.nextId, p.nextId + 1;
    OwnersGrow(p.orgs, p.orgMembers, org, u, Org(false, true, false));
    OrgAdded(p.users, p.orgs, p.orgMembers, p.tenants, p.members, u, org, Org(false, true, false), p.upgrades);
    MoreMembers(p.users, p.members, p.bindings, t, u);
    MoreTenants(p.tenants, p.roles, t, Tenant(org, true));
    var orgMembers := p.orgMembers[(org, u) := OrgMembership(Owner, Joined)];
    assert InOrg(orgMembers, org, u) by { NewOwner(p.orgMembers, org, u); }
    MemberAdded(p.users, p.orgs[org := Org(false, true, false)], orgMembers, p.tenants, p.members, t, org, u,
                p.upgrades, p.upgrades);
  }

  lemma ProvisionedIds(p: Plane, u: Id)
    requires IdsOk(p.nextId, p.principals, p.users, p.orgs, p.tenants, p.roles, p.bindings)
    ensures var q := Provisioned(p, u);
      p.nextId !in p.orgs && p.nextId + 1 !in p.tenants
          && IdsOk(q.nextId, q.principals, q.users, q.orgs, q.tenants, q.roles, q.bindings)
  {
  }

  lemma NewOwner(orgMembers: map<(Id, Id), OrgMembership>, org: Id, u: Id)
    ensures InOrg(orgMembers[(org, u) := OrgMembership(Owner, Joined)], org, u)
  {
  }

  lemma OrgAdded(users: map<Id, User>, orgs: map<Id, Org>, orgMembers: map<(Id, Id), OrgMembership>,
                 tenants: map<Id, Tenant>, members: map<(Id, Id), bool>, u: Id, org: Id, x: Org,
                 upgrades: map<Id, Upgrade>)
    requires MembersOk(users, orgs, orgMembers, tenants, members, upgrades) && org !in orgs
    ensures MembersOk(users, orgs[org := x], orgMembers[(org, u) := OrgMembership(Owner, Joined)], tenants, members,
                      upgrades)
  {
  }

  lemma MoreTenants(tenants: map<Id, Tenant>, roles: map<Id, Role>, t: Id, tenant: Tenant)
    requires RolesOk(tenants, roles)
    ensures RolesOk(tenants[t := tenant], roles)
  {
    hide OneName, Seeded;
  }

  lemma SetAccessKeeps(p: Plane, u: Id, status: PrincipalStatus)
    requires Inv(p)
    ensures Inv(SetAccess(p, u, status))
  {
    hide RolesOk, OneActive, OwnersOk, UsersOk, BindingsOk, BoundAreMembers, MembersOk;
    if u in p.users && p.users[u].principal in p.principals {
      var user := p.users[u].(active := status == Active);
      var principal := p.principals[p.users[u].principal].(status := status);
      SwitchedUser(p.principals, p.users, p.members, p.roles, p.bindings, u, user, principal);
      SwitchedUserMembers(p.users, p.orgs, p.orgMembers, p.tenants, p.members, u, user, p.upgrades);
    }
  }

  lemma SwitchedUser(principals: map<Id, Principal>, users: map<Id, User>, members: map<(Id, Id), bool>,
                     roles: map<Id, Role>, bindings: map<Id, Binding>, u: Id, user: User, x: Principal)
    requires UsersOk(principals, users) && BindingsOk(principals, roles, bindings)
        && BoundAreMembers(users, members, bindings)
    requires u in users && user.principal == users[u].principal && user.email == users[u].email
    requires user.principal in principals && x.kind == principals[user.principal].kind
    ensures UsersOk(principals[user.principal := x], users[u := user])
    ensures BindingsOk(principals[user.principal := x], roles, bindings)
    ensures BoundAreMembers(users[u := user], members, bindings)
  {
    hide IsMember;
    forall v, a | HasPrincipal(users[u := user], v, a) ensures HasPrincipal(users, v, a) {
    }
  }

  lemma SwitchedUserMembers(users: map<Id, User>, orgs: map<Id, Org>, orgMembers: map<(Id, Id), OrgMembership>,
                            tenants: map<Id, Tenant>, members: map<(Id, Id), bool>, u: Id, user: User,
                            upgrades: map<Id, Upgrade>)
    requires MembersOk(users, orgs, orgMembers, tenants, members, upgrades)
    ensures MembersOk(users[u := user], orgs, orgMembers, tenants, members, upgrades)
  {
    hide InOrg;
  }

  lemma AddServiceKeeps(p: Plane, tenant: Id)
    requires Inv(p)
    ensures Inv(Apply(p, DoAddService(tenant)).0)
  {
    hide RolesOk, OneActive, OwnersOk, BoundAreMembers, MembersOk, Bootstrap, OpenTenant, Authorize, Grant, Revoke,
         InviteTenant, RemoveTenant, InviteOrg, RemoveOrg;
  }

  // ---------- bindings

  lemma FoundUser(users: map<Id, User>, principals: map<Id, Principal>, u: Id)
    requires UsersOk(principals, users) && u in users
    ensures UserOf(users, users[u].principal) == Some(u)
  {
    assert HasPrincipal(users, u, users[u].principal);
  }

  /** What an accepted grant has checked and changed. */
  lemma GrantShape(p: Plane, tenant: Id, role: Id, caller: Id, principal: Option<Id>, user: Option<Id>,
                   expires: Option<Time>, now: Time)
    requires Inv(p)
    ensures var (q, out) := Grant(p, tenant, role, caller, principal, user, expires, now);
      if out != Done then q == p.(audit := q.audit)
      else
        && p.nextId in q.bindings
        && var b := q.bindings[p.nextId];
           && b == NewBinding(b.principal, role, tenant, now, expires)
           && q == p.(nextId := p.nextId + 1, bindings := p.bindings[p.nextId := b], audit := q.audit)
           && b.principal in p.principals && !AlreadyBound(p.bindings, b.principal, role, tenant)
           && (b.principal == if user.Some? && user.value in p.users then p.users[user.value].principal
                              else if principal.Some? then principal.value else b.principal)
           && role in p.roles && p.roles[role].tenant == Some(tenant)
           && forall u | HasPrincipal(p.users, u, b.principal) :: IsMember(p.members, tenant, u)
  {
    hide RolesOk, OneActive, OwnersOk, BoundAreMembers, MembersOk, IdsOk, BindingsOk, Decide, RowFor, AlreadyBound;
    var (q, out) := Grant(p, tenant, role, caller, principal, user, expires, now);
    if out == Done && user.Some? {
      FoundUser(p.users, p.principals, user.value);
    }
  }

  lemma NextFresh(p: Plane, bindings: map<Id, Binding>)
    requires Inv(p) && bindings.Keys == p.bindings.Keys + {p.nextId}
    ensures p.nextId !in p.bindings
    ensures IdsOk(p.nextId + 1, p.principals, p.users, p.orgs, p.tenants, p.roles, bindings)
  {
    hide RolesOk, OneActive, OwnersOk, BoundAreMembers, MembersOk, UsersOk, BindingsOk;
  }

  lemma GrantKeeps(p: Plane, tenant: Id, role: Id, caller: Id, principal: Option<Id>, user: Option<Id>,
                   expires: Option<Time>, now: Time)
    requires Inv(p)
    ensures Inv(Grant(p, tenant, role, caller, principal, user, expires, now).0)
  {
    hide Inv, Grant, AlreadyBound;
    GrantShape(p, tenant, role, caller, principal, user, expires, now);
    var (q, out) := Grant(p, tenant, role, caller, principal, user, expires, now);
    if out == Done {
      BoundKeeps(p, q.bindings[p.nextId]);
      AuditFree(p.(nextId := p.nextId + 1, bindings := p.bindings[p.nextId := q.bindings[p.nextId]]), q);
    } else {
      AuditFree(p, q);
    }
  }

  lemma BoundKeeps(p: Plane, b: Binding)
    requires Inv(p) && b.principal in p.principals && b.role in p.roles && b.tenant.Some?
        && p.roles[b.role].tenant == b.tenant
    requires b.active && b.revokedAt.None? && b.scope == TenantScope && b.operator.None?
    requires !AlreadyBound(p.bindings, b.principal, b.role, b.tenant.value)
    requires forall u | HasPrincipal(p.users, u, b.principal) :: IsMember(p.members, b.tenant.value, u)
    ensures Inv(p.(nextId := p.nextId + 1, bindings := p.bindings[p.nextId := b]))
  {
    hide RolesOk, OneActive, OwnersOk, BoundAreMembers, MembersOk, UsersOk, BindingsOk, PermissionsOk, AlreadyBound,
         IsMember, IdsOk;
    NextFresh(p, p.bindings[p.nextId := b]);
    BindingAdded(p.principals, p.users, p.members, p.roles, p.bindings, p.nextId, b);
  }

  /** Some bindings revoked and nothing else. */
  ghost predicate OnlyRevokes(before: map<Id, Binding>, after: map<Id, Binding>) {
    && before.Keys == after.Keys
    && forall k | k in before ::
         after[k] == before[k]
             || (after[k].revokedAt.Some? && after[k] == before[k].(active := false, revokedAt := after[k].revokedAt))
  }

  lemma RevokesKeep(p: Plane, bindings: map<Id, Binding>)
    requires Inv(p) && OnlyRevokes(p.bindings, bindings)
    ensures Inv(p.(bindings := bindings))
  {
    hide RolesOk, OwnersOk, MembersOk, UsersOk;
  }

  lemma RevokedSome(bindings: map<Id, Binding>, principal: Id, tenants: set<Id>, now: Time)
    ensures OnlyRevokes(bindings, RevokeIn(bindings, principal, tenants, now))
  {
  }

  lemma AuditFree(p: Plane, q: Plane)
    requires Inv(p) && q == p.(audit := q.audit)
    ensures Inv(q)
  {
  }

  /** What an accepted revocation has checked and changed. */
  lemma RevokeShape(p: Plane, tenant: Id, role: Id, binding: Id, caller: Id, now: Time)
    ensures var (q, out) := Revoke(p, tenant, role, binding, caller, now);
      && OnlyRevokes(p.bindings, q.bindings) && q == p.(bindings := q.bindings, audit := q.audit)
      && if out != Done then q.bindings == p.bindings
         else
           && binding in p.bindings && p.bindings[binding].active
           && p.bindings[binding].tenant == Some(tenant) && p.bindings[binding].role == role
           && q.bindings == p.bindings[binding := RevokedBinding(p.bindings[binding], now)]
           && (role in p.roles && p.roles[role].name == TENANT_ADMIN ==> |Admins(p.roles, p.bindings, tenant)| > 1)
  {
    hide Decide, RowFor, Admins;
  }

  lemma RevokeKeeps(p: Plane, tenant: Id, role: Id, binding: Id, caller: Id, now: Time)
    requires Inv(p)
    ensures Inv(Revoke(p, tenant, role, binding, caller, now).0)
  {
    hide Inv, Decide, RowFor, Admins;
    RevokeShape(p, tenant, role, binding, caller, now);
    hide Revoke;
    var q := Revoke(p, tenant, role, binding, caller, now).0;
    RevokesKeep(p, q.bindings);
    AuditFree(p.(bindings := q.bindings), q);
  }

  // ---------- tenant members

  lemma MemberJoined(users: map<Id, User>, orgs: map<Id, Org>, orgMembers: map<(Id, Id), OrgMembership>,
                     tenants: map<Id, Tenant>, members: map<(Id, Id), bool>, t: Id, u: Id,
                     upgrades: map<Id, Upgrade>)
    requires MembersOk(users, orgs, orgMembers, tenants, members, upgrades) && t in tenants && u in users
    requires InOrg(orgMembers, tenants[t].org, u)
    ensures MembersOk(users, orgs, orgMembers, tenants, members[(t, u) := true], upgrades)
  {
    var after := members[(t, u) := true];
    forall s, v | IsMember(after, s, v) ensures (s == t && v == u) || IsMember(members, s, v) {
    }
  }

  lemma JoinKeeps(p: Plane, tenant: Id, u: Id, role: Id, now: Time)
    requires Inv(p) && tenant in p.tenants && u in p.users && InOrg(p.orgMembers, p.tenants[tenant].org, u)
    requires role in p.roles && p.roles[role].tenant == Some(tenant) && !IsMember(p.members, tenant, u)
    ensures !AlreadyBound(p.bindings, p.users[u].principal, role, tenant)
    ensures Inv(p.(nextId := p.nextId + 1, members := p.members[(tenant, u) := true],
                   bindings := p.bindings[p.nextId := NewBinding(p.users[u].principal, role, tenant, now, None)]))
  {
    hide RolesOk, OneActive, OwnersOk, BoundAreMembers, UsersOk, BindingsOk, AlreadyBound, MembersOk, InOrg;
    assert p.nextId !in p.bindings;
    NotBound(p.users, p.members, p.bindings, tenant, u, role);
    MoreMembers(p.users, p.members, p.bindings, tenant, u);
    OneUser(p.principals, p.users, u);
    MemberJoined(p.users, p.orgs, p.orgMembers, p.tenants, p.members, tenant, u, p.upgrades);
    BindingAdded(p.principals, p.users, p.members[(tenant, u) := true], p.roles, p.bindings, p.nextId,
                 NewBinding(p.users[u].principal, role, tenant, now, None));
  }

  /** A user who is not a member has no active binding: the unchecked insertion never meets the index. */
  lemma NotBound(users: map<Id, User>, members: map<(Id, Id), bool>, bindings: map<Id, Binding>, tenant: Id, u: Id,
                 role: Id)
    requires BoundAreMembers(users, members, bindings) && u in users && !IsMember(members, tenant, u)
    ensures !AlreadyBound(bindings, users[u].principal, role, tenant)
  {
    forall k | k in bindings ensures !ActiveBinding(bindings[k], users[u].principal, role, tenant) {
      if ActiveBinding(bindings[k], users[u].principal, role, tenant) {
        assert HasPrincipal(users, u, bindings[k].principal);
      }
    }
  }

  /** What an invitation to a tenant does; it never fails on the index of active bindings. */
  lemma InviteShape(p: Plane, tenant: Id, caller: Id, u: Id, roleName: string, now: Time)
    requires Inv(p)
    ensures var (q, out) := InviteTenant(p, tenant, caller, u, roleName, now);
      && out != Refused(ServerError)
      && if out != Done then q == p.(audit := q.audit)
         else
           && tenant in p.tenants && u in p.users && InOrg(p.orgMembers, p.tenants[tenant].org, u)
           && !IsMember(p.members, tenant, u)
           && p.nextId in q.bindings
           && var role := q.bindings[p.nextId].role;
              && IsRole(p.roles, role, tenant, roleName)
              && q == p.(nextId := p.nextId + 1, members := p.members[(tenant, u) := true], audit := q.audit,
                         bindings := p.bindings[p.nextId := NewBinding(p.users[u].principal, role, tenant, now, None)])
  {
    hide RolesOk, OneActive, OwnersOk, BoundAreMembers, UsersOk, BindingsOk, MembersOk, InOrg, IdsOk, Decide, RowFor,
         AlreadyBound;
    var (q, out) := InviteTenant(p, tenant, caller, u, roleName, now);
    if u in p.users && !IsMember(p.members, tenant, u) && FindRole(p.roles, tenant, roleName).Some? {
      NotBound(p.users, p.members, p.bindings, tenant, u, FindRole(p.roles, tenant, roleName).value);
    }
  }

  lemma InviteTenantKeeps(p: Plane, tenant: Id, caller: Id, u: Id, roleName: string, now: Time)
    requires Inv(p)
    ensures Inv(InviteTenant(p, tenant, caller, u, roleName, now).0)
  {
    hide Inv, InviteTenant;
    InviteShape(p, tenant, caller, u, roleName, now);
    var (q, out) := InviteTenant(p, tenant, caller, u, roleName, now);
    if out == Done {
      var role := q.bindings[p.nextId].role;
      JoinKeeps(p, tenant, u, role, now);
      AuditFree(p.(nextId := p.nextId + 1, members := p.members[(tenant, u) := true],
                   bindings := p.bindings[p.nextId := NewBinding(p.users[u].principal, role, tenant, now, None)]), q);
    } else {
      AuditFree(p, q);
    }
  }

  /** Memberships ended in some tenants together with the bindings there. */
  lemma LeaveKeeps(p: Plane, u: Id, tenants: set<Id>, members: map<(Id, Id), bool>, now: Time)
    requires Inv(p) && u in p.users
    requires forall t, v :: IsMember(members, t, v) <==> IsMember(p.members, t, v) && !(t in tenants && v == u)
    ensures Inv(p.(members := members, bindings := RevokeIn(p.bindings, p.users[u].principal, tenants, now)))
  {
    hide RolesOk, OwnersOk, InOrg, OneActive, IdsOk, BindingsOk, IsMember;
    var principal := p.users[u].principal;
    var bindings := RevokeIn(p.bindings, principal, tenants, now);
    RevokedSome(p.bindings, principal, tenants, now);
    RevokesKeep(p, bindings);
    assert BoundAreMembers(p.users, members, bindings) by {
      forall k, v | k in bindings && bindings[k].active && bindings[k].tenant.Some?
          && HasPrincipal(p.users, v, bindings[k].principal)
        ensures IsMember(members, bindings[k].tenant.value, v)
      {
        assert bindings[k] == p.bindings[k];
      }
    }
  }

  /** What an accepted removal has changed. */
  lemma RemoveShape(p: Plane, tenant: Id, caller: Id, u: Id, now: Time)
    requires Inv(p)
    ensures var (q, out) := RemoveTenant(p, tenant, caller, u, now);
      if out != Done then q == p.(audit := q.audit)
      else
        && IsMember(p.members, tenant, u) && u in p.users
        && q == p.(members := p.members[(tenant, u) := false],
                   bindings := RevokeIn(p.bindings, p.users[u].principal, {tenant}, now), audit := q.audit)
  {
    MemberIsUser(p, tenant, u);
    hide Inv, Decide, RowFor, BindingsOn, RevokeIn, FindRole, AlreadyBound;
  }

  /** An accepted removal is not of the only one bound to the administrator role. */
  lemma RemoveGuard(p: Plane, tenant: Id, caller: Id, u: Id, now: Time, role: Id)
    requires RemoveTenant(p, tenant, caller, u, now).1 == Done && FindRole(p.roles, tenant, TENANT_ADMIN) == Some(role)
    requires u in p.users && AlreadyBound(p.bindings, p.users[u].principal, role, tenant)
    ensures |BindingsOn(p.bindings, role, tenant)| > 1
  {
    hide Decide, RowFor, BindingsOn, RevokeIn, FindRole, AlreadyBound;
  }

  lemma RemoveTenantKeeps(p: Plane, tenant: Id, caller: Id, u: Id, now: Time)
    requires Inv(p)
    ensures Inv(RemoveTenant(p, tenant, caller, u, now).0)
  {
    hide Inv, RemoveTenant, RevokeIn;
    RemoveShape(p, tenant, caller, u, now);
    var (q, out) := RemoveTenant(p, tenant, caller, u, now);
    if out == Done {
      LeaveKeeps(p, u, {tenant}, q.members, now);
      AuditFree(p.(members := q.members, bindings := q.bindings), q);
    } else {
      AuditFree(p, q);
    }
  }

  lemma MemberIsUser(p: Plane, tenant: Id, u: Id)
    requires Inv(p)
    ensures IsMember(p.members, tenant, u) ==> tenant in p.tenants && u in p.users
  {
  }

  // ---------- organization members

  lemma InviteOrgKeeps(p: Plane, org: Id, caller: Id, email: string, role: Option<OrgRole>)
    requires Inv(p)
    ensures Inv(InviteOrg(p, org, caller, email, role).0)
  {
    hide RolesOk, OneActive, BoundAreMembers, UsersOk, BindingsOk, IdsOk, Text.Lower, Text.Strip, OwnersOk, MembersOk;
    var (q, out) := InviteOrg(p, org, caller, email, role);
    if out == Done {
      var u := UserByEmail(p.users, Text.Lower(Text.Strip(email))).value;
      OwnerStays(p.orgs, p.orgMembers, org, u, OrgMembership(role.value, Invited));
      StillInOrg(p.users, p.orgs, p.orgMembers, p.tenants, p.members, org, u, OrgMembership(role.value, Invited),
                 p.upgrades);
    }
  }

  lemma StillInOrg(users: map<Id, User>, orgs: map<Id, Org>, orgMembers: map<(Id, Id), OrgMembership>,
                   tenants: map<Id, Tenant>, members: map<(Id, Id), bool>, org: Id, u: Id, x: OrgMembership,
                   upgrades: map<Id, Upgrade>)
    requires MembersOk(users, orgs, orgMembers, tenants, members, upgrades) && x.status != Removed
    ensures MembersOk(users, orgs, orgMembers[(org, u) := x], tenants, members, upgrades)
  {
  }

  /** Changing a membership that is not an active owner's leaves every organization its owner. */
  lemma OwnerStays(orgs: map<Id, Org>, orgMembers: map<(Id, Id), OrgMembership>, org: Id, u: Id, x: OrgMembership)
    requires OwnersOk(orgs, orgMembers) && (org in orgs || (org, u) in orgMembers)
    requires (org, u) in orgMembers && orgMembers[(org, u)] == OrgMembership(Owner, Joined) ==>
               exists v :: v != u && (org, v) in orgMembers && orgMembers[(org, v)] == OrgMembership(Owner, Joined)
    ensures OwnersOk(orgs, orgMembers[(org, u) := x])
  {
    var after := orgMembers[(org, u) := x];
    forall o | o in orgs ensures HasOwner(after, o) {
      var v :| (o, v) in orgMembers && orgMembers[(o, v)] == OrgMembership(Owner, Joined);
      if (o, v) != (org, u) {
        assert (o, v) in after && after[(o, v)] == OrgMembership(Owner, Joined);
      } else {
        var w :| w != u && (org, w) in orgMembers && orgMembers[(org, w)] == OrgMembership(Owner, Joined);
        assert (o, w) in after && after[(o, w)] == OrgMembership(Owner, Joined);
      }
    }
  }

  lemma AcceptOrgKeeps(p: Plane, org: Id, u: Id)
    requires Inv(p)
    ensures Inv(AcceptOrg(p, org, u).0)
  {
    hide RolesOk, OneActive, BoundAreMembers, UsersOk, BindingsOk, IdsOk, OwnersOk, MembersOk;
    if AcceptOrg(p, org, u).1 == Done {
      var x := p.orgMembers[(org, u)].(status := Joined);
      OwnerStays(p.orgs, p.orgMembers, org, u, x);
      StillInOrg(p.users, p.orgs, p.orgMembers, p.tenants, p.members, org, u, x, p.upgrades);
    }
  }

  /** A member leaves the organization after having left all its tenants. */
  lemma LeftOrg(users: map<Id, User>, orgs: map<Id, Org>, orgMembers: map<(Id, Id), OrgMembership>,
                tenants: map<Id, Tenant>, members: map<(Id, Id), bool>, org: Id, u: Id, x: OrgMembership,
                upgrades: map<Id, Upgrade>)
    requires MembersOk(users, orgs, orgMembers, tenants, members, upgrades)
    requires forall t | t in tenants && tenants[t].org == org :: !IsMember(members, t, u)
    ensures MembersOk(users, orgs, orgMembers[(org, u) := x], tenants, members, upgrades)
  {
  }

  lemma RemoveOrgKeeps(p: Plane, org: Id, caller: Id, u: Id, now: Time)
    requires Inv(p)
    ensures Inv(RemoveOrg(p, org, caller, u, now).0)
  {
    hide RolesOk, OneActive, BoundAreMembers, UsersOk, BindingsOk, IdsOk, OwnersOk, MembersOk, UpgradesOk,
         PermissionsOk, RevokeIn, LeaveAll;
    LeftAll(p, org, u);
    var (q, out) := RemoveOrg(p, org, caller, u, now);
    if out == Done {
      var tenants, x := TenantsOf(p.tenants, org), p.orgMembers[(org, u)].(status := Removed);
      OwnerStays(p.orgs, p.orgMembers, org, u, x);
      if u in p.users {
        var members := LeaveAll(p.members, tenants, u);
        LeaveKeeps(p, u, tenants, members, now);
        LeftOrg(p.users, p.orgs, p.orgMembers, p.tenants, members, org, u, x, p.upgrades);
      } else {
        forall t | t in tenants ensures !IsMember(p.members, t, u) {
          MemberIsUser(p, t, u);
        }
        LeftOrg(p.users, p.orgs, p.orgMembers, p.tenants, p.members, org, u, x, p.upgrades);
      }
    }
  }

  lemma LeftAll(p: Plane, org: Id, u: Id)
    ensures var tenants := TenantsOf(p.tenants, org);
      && (forall t, v :: IsMember(LeaveAll(p.members, tenants, u), t, v) <==>
          IsMember(p.members, t, v) && !(t in tenants && v == u))
      && (forall t | t in p.tenants && p.tenants[t].org == org :: t in tenants)
  {
  }

  lemma SuspensionKeeps(p: Plane, cmd: Command)
    requires Inv(p) && (cmd.DoSuspendTenant? || cmd.DoReinstateTenant?)
    ensures Inv(Apply(p, cmd).0)
  {
    hide OneActive, BoundAreMembers, UsersOk, BindingsOk, RolesOk, MembersOk, OwnersOk, IdsOk, SuspendTenant,
         ReinstateTenant;
    var q := Apply(p, cmd).0;
    SuspensionShape(p, cmd);
    if q != p {
      var t, org := cmd.tenant, p.tenants[cmd.tenant].org;
      SuspensionFrame(p, q, t, org);
    }
  }

  /** Suspension and reinstatement switch the tenant and its organization. */
  lemma SuspensionShape(p: Plane, cmd: Command)
    requires cmd.DoSuspendTenant? || cmd.DoReinstateTenant?
    ensures var (q, out) := Apply(p, cmd);
      if out != Done then q == p
      else
        && cmd.tenant in p.tenants && p.tenants[cmd.tenant].org in p.orgs
        && var t, on := cmd.tenant, cmd.DoReinstateTenant?;
           && p.tenants[t].active != on
           && q == p.(tenants := p.tenants[t := p.tenants[t].(active := on)],
                      orgs := p.orgs[p.tenants[t].org := p.orgs[p.tenants[t].org].(active := on)])
  {
    hide Bootstrap, OpenTenant, Authorize, Grant, Revoke, InviteTenant, RemoveTenant, InviteOrg, RemoveOrg;
  }

  lemma SuspensionFrame(p: Plane, q: Plane, t: Id, org: Id)
    requires Inv(p) && t in p.tenants && org in p.orgs
    requires t in q.tenants && org in q.orgs && q.tenants[t].org == p.tenants[t].org
    requires q == p.(tenants := p.tenants[t := q.tenants[t]], orgs := p.orgs[org := q.orgs[org]])
    ensures IdsOk(q.nextId, q.principals, q.users, q.orgs, q.tenants, q.roles, q.bindings)
    ensures RolesOk(q.tenants, q.roles) && OwnersOk(q.orgs, q.orgMembers)
    ensures MembersOk(q.users, q.orgs, q.orgMembers, q.tenants, q.members, q.upgrades)
  {
    hide OneActive, BoundAreMembers, UsersOk, BindingsOk, HasOwner, IsMember, InOrg, MembersOk, RolesOk;
    SwitchedRoles(p.tenants, p.roles, t, q.tenants[t]);
    SwitchedMembers(p.users, p.orgs, p.orgMembers, p.tenants, p.members, t, q.tenants[t], org, q.orgs[org], p.upgrades);
  }

  lemma SwitchedRoles(tenants: map<Id, Tenant>, roles: map<Id, Role>, t: Id, tenant: Tenant)
    requires RolesOk(tenants, roles) && t in tenants
    ensures RolesOk(tenants[t := tenant], roles)
  {
    hide OneName, SystemRole;
  }

  lemma SwitchedMembers(users: map<Id, User>, orgs: map<Id, Org>, orgMembers: map<(Id, Id), OrgMembership>,
                        tenants: map<Id, Tenant>, members: map<(Id, Id), bool>, t: Id, tenant: Tenant, org: Id, x: Org,
                        upgrades: map<Id, Upgrade>)
    requires MembersOk(users, orgs, orgMembers, tenants, members, upgrades) && t in tenants
        && tenants[t].org == tenant.org
    ensures MembersOk(users, orgs[org := x], orgMembers, tenants[t := tenant], members, upgrades)
  {
    hide InOrg;
  }

  lemma StepKeeps(p: Plane, cmd: Command)
    requires Inv(p)
    ensures Inv(Apply(p, cmd).0)
  {
    hide Inv, Bootstrap, OpenTenant, SetAccess, Decide, Grant, Revoke, InviteTenant, RemoveTenant, InviteOrg, AcceptOrg,
         RemoveOrg, SuspendTenant, ReinstateTenant, Provision, SubmitUpgrade, AttemptUpgrade, Text.Lower, InOrg;
    match cmd
    case DoBootstrap(email, now) =>
      if UserByEmail(p.users, Text.Lower(email)).None? {
        BootstrapKeeps(p, email, now);
      }
    case DoSubmitUpgrade(org, user, valid) => SubmitKeeps(p, org, user, valid);
    case DoAttemptUpgrade(upgrade, commits, now) => AttemptKeeps(p, upgrade, commits, now);
    case DoSetAccess(user, status) => SetAccessKeeps(p, user, status);
    case DoAddService(tenant) => AddServiceKeeps(p, tenant);
    case DoAuthorize(request, found) => AuditFree(p, Apply(p, cmd).0);
    case DoGrant(tenant, role, caller, principal, user, expires, now) =>
      GrantKeeps(p, tenant, role, caller, principal, user, expires, now);
    case DoRevoke(tenant, role, binding, caller, now) => RevokeKeeps(p, tenant, role, binding, caller, now);
    case DoInviteTenant(tenant, caller, user, roleName, now) =>
      InviteTenantKeeps(p, tenant, caller, user, roleName, now);
    case DoRemoveTenant(tenant, caller, user, now) => RemoveTenantKeeps(p, tenant, caller, user, now);
    case DoInviteOrg(org, owner, email, orgRole) => InviteOrgKeeps(p, org, owner, email, orgRole);
    case DoAcceptOrg(org, user) => AcceptOrgKeeps(p, org, user);
    case DoRemoveOrg(org, owner, user, now) => RemoveOrgKeeps(p, org, owner, user, now);
    case DoSuspendTenant(_, _) => SuspensionKeeps(p, cmd);
    case DoReinstateTenant(_, _) => SuspensionKeeps(p, cmd);
    case DoProvision(operator, email) => ProvisionCallKeeps(p, operator, email);
  }

  lemma SubmitKeeps(p: Plane, org: Id, u: Id, valid: bool)
    requires Inv(p)
    ensures Inv(SubmitUpgrade(p, org, u, valid).0)
  {
    hide Inv;
    if org in p.orgs && u in p.users {
      SubmittedKeeps(p, org, u);
    }
  }

  lemma AttemptKeeps(p: Plane, r: Id, commits: bool, now: Time)
    requires Inv(p)
    ensures Inv(AttemptUpgrade(p, r, commits, now).0)
  {
    hide Inv, Completed;
    if AttemptUpgrade(p, r, commits, now).0 != p {
      CompletedKeeps(p, r, now);
    }
  }

  lemma ProvisionCallKeeps(p: Plane, operator: bool, email: string)
    requires Inv(p)
    ensures Inv(Provision(p, operator, email).0)
  {
    hide Inv, Provision, Provisioned, Text.Lower, Text.Strip, UserByEmail;
    ProvisionShape(p, operator, email);
    if Provision(p, operator, email).0 != p {
      ProvisionKeeps(p, UserByEmail(p.users, Text.Lower(Text.Strip(email))).value);
    }
  }

  lemma ProvisionShape(p: Plane, operator: bool, email: string)
    ensures var q := Provision(p, operator, email).0;
      q != p ==> var found := UserByEmail(p.users, Text.Lower(Text.Strip(email)));
                 found.Some? && found.value in p.users && q == Provisioned(p, found.value)
  {
    hide HasTenant, Text.Lower, Text.Strip, Provisioned;
  }

  lemma OwnerInOrg(p: Plane, org: Id, u: Id)
    requires IsOwner(p, org, u)
    ensures InOrg(p.orgMembers, org, u)
  {
  }
}
