/** The access plane: who may act where, and the calls that change it, as values. */
module Access {
  import opened Errors
  import Text

  type Id = nat
  type Time = int

  datatype Scope = TenantScope | PlatformScope
  datatype PrincipalKind = Human | Service
  datatype PrincipalStatus = Active | Inactive | Locked
  datatype Principal = Principal(kind: PrincipalKind, status: PrincipalStatus)
  datatype User = User(principal: Id, email: string, active: bool)
  datatype ServiceAccount = ServiceAccount(principal: Id, tenant: Id, active: bool)
  datatype Org = Org(isOperator: bool, active: bool, individual: bool)
  datatype OrgRole = Owner | Member
  datatype OrgStatus = Joined | Invited | Removed
  datatype OrgMembership = OrgMembership(role: OrgRole, status: OrgStatus)
  datatype Tenant = Tenant(org: Id, active: bool)

  /** A request for an organization's upgrade, and the tenant that its completion has opened. */
  datatype Upgrade = Upgrade(org: Id, user: Id, tenant: Option<Id>)

  datatype Permission = Permission(scope: Scope, active: bool)
  datatype Role = Role(scope: Scope, tenant: Option<Id>, operator: Option<Id>, name: string, active: bool,
                       codes: set<string>)
  datatype Binding = Binding(principal: Id, role: Id, scope: Scope, tenant: Option<Id>, operator: Option<Id>,
                             active: bool, revokedAt: Option<Time>, validFrom: Time, validUntil: Option<Time>)

  datatype Reason =
    | Granted | CodeRequired | PublicRejectsPlatform | ManagementRequiresPlatform | TenantRequired
    | PrincipalNotFound | PrincipalNotActive(status: PrincipalStatus) | TenantNotActive | MembershipInactive
    | OperatorInactive | PermissionNotFound | PermissionNotActive | ScopeMismatch | NoGrant

  datatype AuditRow = AuditRow(principal: Id, code: string, scope: Scope, tenant: Option<Id>, operator: Option<Id>,
                               allowed: bool, reason: Reason)

  /** Memberships are unique by their pair: organization or tenant first, user second; a tenant
      membership is just whether it is active. Permissions are identified by their codes, which are
      unique. Authorization decisions are appended to `audit` in a transaction of their own. */
  datatype Plane = Plane(
    nextId: Id, principals: map<Id, Principal>, users: map<Id, User>, services: map<Id, ServiceAccount>,
    orgs: map<Id, Org>, orgMembers: map<(Id, Id), OrgMembership>,
    tenants: map<Id, Tenant>, members: map<(Id, Id), bool>,
    permissions: map<string, Permission>, roles: map<Id, Role>, bindings: map<Id, Binding>, audit: seq<AuditRow>,
    upgrades: map<Id, Upgrade>)

  // ---------- queries

  predicate HasPrincipal(users: map<Id, User>, u: Id, principal: Id) {
    u in users && users[u].principal == principal
  }

  ghost function UserOf(users: map<Id, User>, principal: Id): (u: Option<Id>)
    ensures u.Some? ==> HasPrincipal(users, u.value, principal)
    ensures u.None? ==> forall v :: !HasPrincipal(users, v, principal)
  {
    if exists v :: HasPrincipal(users, v, principal) then var v :| HasPrincipal(users, v, principal); Some(v) else None
  }

  predicate IsMember(members: map<(Id, Id), bool>, tenant: Id, u: Id) {
    (tenant, u) in members && members[(tenant, u)]
  }

  ghost predicate HasActiveMembership(p: Plane, principal: Id, tenant: Id) {
    principal in p.principals
    && match p.principals[principal].kind
       case Service => exists k | k in p.services :: p.services[k] == ServiceAccount(principal, tenant, true)
       case Human => UserOf(p.users, principal).Some? && IsMember(p.members, tenant, UserOf(p.users, principal).value)
  }

  /** An active organization of the operator that the user is an active member of. */
  predicate OperatesFor(p: Plane, u: Id, org: Id) {
    && (org, u) in p.orgMembers && p.orgMembers[(org, u)].status == Joined
    && org in p.orgs && p.orgs[org].isOperator && p.orgs[org].active
  }

  /** What the operator lookup may answer: when several organizations qualify, any one of them. */
  ghost predicate Discovers(p: Plane, principal: Id, found: Option<Id>) {
    match UserOf(p.users, principal)
    case None => found.None?
    case Some(u) =>
      if found.Some? then OperatesFor(p, u, found.value) else forall org :: !OperatesFor(p, u, org)
  }

  /** A binding that gives the permission to the principal in exactly this scope at this time. */
  predicate Grants(p: Plane, b: Binding, principal: Id, code: string, scope: Scope, tenant: Option<Id>,
                   operator: Option<Id>, at: Time) {
    && b.principal == principal && b.active && b.revokedAt.None?
    && b.validFrom <= at && (b.validUntil.None? || at < b.validUntil.value)
    && b.scope == scope && b.role in p.roles
    && var role := p.roles[b.role];
       && role.scope == scope && role.active && code in role.codes
       && code in p.permissions && p.permissions[code].active && p.permissions[code].scope == scope
       && b.tenant == tenant && role.tenant == tenant && b.operator == operator && role.operator == operator
  }

  predicate HasGrant(p: Plane, principal: Id, code: string, scope: Scope, tenant: Option<Id>, operator: Option<Id>,
                     at: Time) {
    exists k | k in p.bindings :: Grants(p, p.bindings[k], principal, code, scope, tenant, operator, at)
  }

  // ---------- the decision

  datatype Surface = Public | Management

  datatype Request = Request(principal: Id, code: string, surface: Surface, tenant: Option<Id>, operator: Option<Id>,
                             at: Time)

  datatype Decision = Decision(reason: Reason, scope: Scope, operator: Option<Id>)

  const PLATFORM_PREFIX := "platform."

  /** `found` is the answer of the operator lookup. */
  ghost function Decide(p: Plane, q: Request, found: Option<Id>): Decision {
    var code := Text.Strip(q.code);
    if code == "" then Decision(CodeRequired, if q.surface.Management? then PlatformScope else TenantScope, q.operator)
    else if q.surface.Public? then
      if Text.StartsWith(code, PLATFORM_PREFIX) then Decision(PublicRejectsPlatform, PlatformScope, q.operator)
      else DecideTenant(p, q, code)
    else
      if !Text.StartsWith(code, PLATFORM_PREFIX) then Decision(ManagementRequiresPlatform, TenantScope, q.operator)
      else DecidePlatform(p, q, code, found)
  }

  ghost function DecideTenant(p: Plane, q: Request, code: string): Decision {
    if q.tenant.None? then Decision(TenantRequired, TenantScope, q.operator)
    else if q.principal !in p.principals then Decision(PrincipalNotFound, TenantScope, q.operator)
    else if p.principals[q.principal].status != Active then
      Decision(PrincipalNotActive(p.principals[q.principal].status), TenantScope, q.operator)
    else if q.tenant.value !in p.tenants || !p.tenants[q.tenant.value].active then
      Decision(TenantNotActive, TenantScope, q.operator)
    else if !HasActiveMembership(p, q.principal, q.tenant.value) then
      Decision(MembershipInactive, TenantScope, q.operator)
    else if code !in p.permissions then Decision(PermissionNotFound, TenantScope, q.operator)
    else if !p.permissions[code].active then Decision(PermissionNotActive, TenantScope, q.operator)
    else if p.permissions[code].scope != TenantScope then Decision(ScopeMismatch, p.permissions[code].scope, q.operator)
    else if !HasGrant(p, q.principal, code, TenantScope, q.tenant, None, q.at) then
      Decision(NoGrant, TenantScope, q.operator)
    else Decision(Granted, TenantScope, q.operator)
  }

  function DecidePlatform(p: Plane, q: Request, code: string, found: Option<Id>): Decision {
    if q.principal !in p.principals then Decision(PrincipalNotFound, PlatformScope, q.operator)
    else if p.principals[q.principal].status != Active then
      Decision(PrincipalNotActive(p.principals[q.principal].status), PlatformScope, q.operator)
    else if q.operator.Some? && found != q.operator then Decision(OperatorInactive, PlatformScope, q.operator)
    else if found.None? then Decision(OperatorInactive, PlatformScope, q.operator)
    else if code !in p.permissions then Decision(PermissionNotFound, PlatformScope, found)
    else if !p.permissions[code].active then Decision(PermissionNotActive, PlatformScope, found)
    else if p.permissions[code].scope != PlatformScope then Decision(ScopeMismatch, p.permissions[code].scope, found)
    else if !HasGrant(p, q.principal, code, PlatformScope, None, found, q.at) then
      Decision(NoGrant, PlatformScope, found)
    else Decision(Granted, PlatformScope, found)
  }

  function RowFor(q: Request, d: Decision): AuditRow {
    AuditRow(q.principal, q.code, d.scope, if d.scope == TenantScope then q.tenant else None,
             if d.scope == PlatformScope then d.operator else None, d.reason == Granted, d.reason)
  }

  ghost function Authorize(p: Plane, q: Request, found: Option<Id>): (Plane, bool) {
    var d := Decide(p, q, found);
    (p.(audit := p.audit + [RowFor(q, d)]), d.reason == Granted)
  }

  /** The check at the head of every tenant-admin call. */
  ghost function Require(p: Plane, principal: Id, tenant: Id, now: Time): (Plane, bool) {
    Authorize(p, Request(principal, "tenant.admin", Public, Some(tenant), None, now), None)
  }

  // ---------- organizations and tenants come into being

  const TENANT_ADMIN := "tenant-admin"

  const ADMIN_CODES := {
    "resource.read", "resource.create", "resource.update", "resource.delete", "tenant.member.read",
    "tenant.member.invite", "tenant.member.revoke", "tenant.settings.update", "vendor.read", "vendor.manage",
    "billing.invoice.read", "tenant.admin", "resource.allocation.create", "resource.allocation.approve", "audit.read"}
  const RESOURCE_ADMIN_CODES := {
    "resource.read", "resource.create", "resource.update", "resource.delete", "vendor.read", "vendor.manage",
    "resource.allocation.create", "resource.allocation.approve"}
  const VIEWER_CODES := {"resource.read", "tenant.member.read", "vendor.read", "billing.invoice.read"}
  const PLATFORM_CODES := {
    "platform.tenant.read", "platform.tenant.suspend", "platform.plugin.review", "platform.plugin.manage_standard",
    "platform.user.manage", "platform.audit.read"}

  function Catalog(): map<string, Permission> {
    map c | c in ADMIN_CODES + PLATFORM_CODES ::
        Permission(if c in PLATFORM_CODES then PlatformScope else TenantScope, true)
  }

  const EMPTY := Plane(0, map[], map[], map[], map[], map[], map[], map[], Catalog(), map[], map[], [], map[])

  function SystemRole(tenant: Id, name: string, codes: set<string>): Role {
    Role(TenantScope, Some(tenant), None, name, true, codes)
  }

  /** A tenant `t` with its three system roles under the next three identifiers. */
  function SeedRoles(roles: map<Id, Role>, t: Id): map<Id, Role> {
    roles[t + 1 := SystemRole(t, TENANT_ADMIN, ADMIN_CODES)]
         [t + 2 := SystemRole(t, "resource-admin", RESOURCE_ADMIN_CODES)]
         [t + 3 := SystemRole(t, "viewer", VIEWER_CODES)]
  }

  function NewBinding(principal: Id, role: Id, tenant: Id, now: Time, expires: Option<Time>): Binding {
    Binding(principal, role, TenantScope, Some(tenant), None, true, None, now, expires)
  }

  /** A tenant of the organization, with the user as its first member and administrator. */
  function OpenTenant(p: Plane, org: Id, u: Id, now: Time): Plane
    requires u in p.users
  {
    var t := p.nextId;
    p.(nextId := t + 5,
       tenants := p.tenants[t := Tenant(org, true)],
       members := p.members[(t, u) := true],
       roles := SeedRoles(p.roles, t),
       bindings := p.bindings[t + 4 := NewBinding(p.users[u].principal, t + 1, t, now, None)])
  }

  /** A registration: an inactive principal and user, and the organization and tenant that they own. */
  function Bootstrap(p: Plane, email: string, now: Time): Plane {
    var principal, u, org := p.nextId, p.nextId + 1, p.nextId + 2;
    var q := p.(nextId := p.nextId + 3,
                principals := p.principals[principal := Principal(Human, Inactive)],
                users := p.users[u := User(principal, Text.Lower(email), false)],
                orgs := p.orgs[org := Org(false, true, true)],
                orgMembers := p.orgMembers[(org, u) := OrgMembership(Owner, Joined)]);
    OpenTenant(q, org, u, now)
  }

  predicate IsOwner(p: Plane, org: Id, u: Id) {
    (org, u) in p.orgMembers && p.orgMembers[(org, u)] == OrgMembership(Owner, Joined)
  }

  /** The account is activated or shut: user and principal together. */
  function SetAccess(p: Plane, u: Id, status: PrincipalStatus): Plane {
    if u !in p.users || p.users[u].principal !in p.principals then p
    else p.(users := p.users[u := p.users[u].(active := status == Active)],
            principals := p.principals[p.users[u].principal := p.principals[p.users[u].principal].(status := status)])
  }

  // ---------- role bindings

  predicate ActiveBinding(b: Binding, principal: Id, role: Id, tenant: Id) {
    b.active && b.principal == principal && b.role == role && b.tenant == Some(tenant)
  }

  predicate AlreadyBound(bindings: map<Id, Binding>, principal: Id, role: Id, tenant: Id) {
    exists k | k in bindings :: ActiveBinding(bindings[k], principal, role, tenant)
  }

  ghost function Grant(p: Plane, tenant: Id, role: Id, caller: Id, principal: Option<Id>, user: Option<Id>,
                       expires: Option<Time>, now: Time): (Plane, Outcome)
  {
    var (a, ok) := Require(p, caller, tenant, now);
    if ok then Bind(a, tenant, role, principal, user, expires, now) else (a, Refused(Forbidden))
  }

  ghost function Bind(p: Plane, tenant: Id, role: Id, principal: Option<Id>, user: Option<Id>, expires: Option<Time>,
                      now: Time)
    : (Plane, Outcome)
  {
    if principal.None? && user.None? then (p, Refused(Validation))
    else if user.Some? && user.value !in p.users then (p, Refused(NotFound))
    else if user.None? && (principal.value !in p.principals || p.principals[principal.value].status != Active) then
      (p, Refused(NotFound))
    else
      var who := if user.Some? then p.users[user.value].principal else principal.value;
      var target := if user.Some? then user else UserOf(p.users, who);
      if role !in p.roles || p.roles[role].tenant != Some(tenant) || !p.roles[role].active then (p, Refused(NotFound))
      else if p.roles[role].scope != TenantScope then (p, Refused(Validation))
      else if target.Some? && !IsMember(p.members, tenant, target.value) then (p, Refused(Validation))
      else if AlreadyBound(p.bindings, who, role, tenant) then (p, Refused(Conflict))
      else (p.(nextId := p.nextId + 1,
               bindings := p.bindings[p.nextId := NewBinding(who, role, tenant, now, expires)]), Done)
  }

  predicate IsAdmin(roles: map<Id, Role>, b: Binding, tenant: Id) {
    && b.active && b.tenant == Some(tenant)
    && b.role in roles && roles[b.role].name == TENANT_ADMIN && roles[b.role].tenant == Some(tenant)
  }

  function Admins(roles: map<Id, Role>, bindings: map<Id, Binding>, tenant: Id): set<Id> {
    set k | k in bindings && IsAdmin(roles, bindings[k], tenant)
  }

  function RevokedBinding(b: Binding, now: Time): Binding {
    b.(active := false, revokedAt := Some(now))
  }

  ghost function Revoke(p: Plane, tenant: Id, role: Id, binding: Id, caller: Id, now: Time): (Plane, Outcome) {
    var (a, ok) := Require(p, caller, tenant, now);
    if ok then Unbind(a, tenant, role, binding, now) else (a, Refused(Forbidden))
  }

  function Unbind(p: Plane, tenant: Id, role: Id, binding: Id, now: Time): (Plane, Outcome) {
    if binding !in p.bindings || p.bindings[binding].tenant != Some(tenant) || p.bindings[binding].role != role then
      (p, Refused(NotFound))
    else if !p.bindings[binding].active then (p, Refused(Conflict))
    else if role in p.roles && p.roles[role].name == TENANT_ADMIN && |Admins(p.roles, p.bindings, tenant)| <= 1 then
      (p, Refused(Conflict))
    else (p.(bindings := p.bindings[binding := RevokedBinding(p.bindings[binding], now)]), Done)
  }

  /** The bindings of a principal in the given tenants, revoked. */
  function RevokeIn(bindings: map<Id, Binding>, principal: Id, tenants: set<Id>, now: Time): map<Id, Binding> {
    map k | k in bindings ::
      if bindings[k].active && bindings[k].principal == principal && bindings[k].tenant.Some?
          && bindings[k].tenant.value in tenants
      then RevokedBinding(bindings[k], now) else bindings[k]
  }

  // ---------- tenant members

  predicate IsRole(roles: map<Id, Role>, r: Id, tenant: Id, name: string) {
    r in roles && roles[r].tenant == Some(tenant) && roles[r].name == name && roles[r].active
  }

  ghost function FindRole(roles: map<Id, Role>, tenant: Id, name: string): (r: Option<Id>)
    ensures r.Some? ==> IsRole(roles, r.value, tenant, name)
    ensures r.None? ==> forall x :: !IsRole(roles, x, tenant, name)
  {
    if exists x :: IsRole(roles, x, tenant, name) then var x :| IsRole(roles, x, tenant, name); Some(x) else None
  }

  predicate InOrg(orgMembers: map<(Id, Id), OrgMembership>, org: Id, u: Id) {
    (org, u) in orgMembers && orgMembers[(org, u)].status != Removed
  }

  ghost function InviteTenant(p: Plane, tenant: Id, caller: Id, u: Id, roleName: string, now: Time): (Plane, Outcome) {
    var (a, ok) := Require(p, caller, tenant, now);
    if ok then Join(a, tenant, u, roleName, now) else (a, Refused(Forbidden))
  }

  /** The new binding is inserted without a check: the index on active bindings would refuse a second one. */
  ghost function Join(p: Plane, tenant: Id, u: Id, roleName: string, now: Time): (Plane, Outcome) {
    if tenant !in p.tenants then (p, Refused(NotFound))
    else if u !in p.users || !p.users[u].active then (p, Refused(NotFound))
    else if !InOrg(p.orgMembers, p.tenants[tenant].org, u) then (p, Refused(NotFound))
    else if IsMember(p.members, tenant, u) then (p, Refused(Conflict))
    else
      match FindRole(p.roles, tenant, roleName)
      case None => (p, Refused(Validation))
      case Some(role) =>
        if AlreadyBound(p.bindings, p.users[u].principal, role, tenant) then (p, Refused(ServerError))
        else (p.(nextId := p.nextId + 1, members := p.members[(tenant, u) := true],
                 bindings := p.bindings[p.nextId := NewBinding(p.users[u].principal, role, tenant, now, None)]), Done)
  }

  function BindingsOn(bindings: map<Id, Binding>, role: Id, tenant: Id): set<Id> {
    set k | k in bindings && bindings[k].active && bindings[k].role == role && bindings[k].tenant == Some(tenant)
  }

  ghost function RemoveTenant(p: Plane, tenant: Id, caller: Id, u: Id, now: Time): (Plane, Outcome) {
    var (a, ok) := Require(p, caller, tenant, now);
    if ok then Leave(a, tenant, u, now) else (a, Refused(Forbidden))
  }

  /** The user holds the only active binding to the tenant's administrator role. */
  ghost predicate LastAdmin(p: Plane, tenant: Id, u: Id) {
    var role := FindRole(p.roles, tenant, TENANT_ADMIN);
    role.Some? && u in p.users && AlreadyBound(p.bindings, p.users[u].principal, role.value, tenant)
    && |BindingsOn(p.bindings, role.value, tenant)| <= 1
  }

  ghost function Leave(p: Plane, tenant: Id, u: Id, now: Time): (Plane, Outcome) {
    if !IsMember(p.members, tenant, u) then (p, Refused(NotFound))
    else if LastAdmin(p, tenant, u) then (p, Refused(Conflict))
    else
      (p.(members := p.members[(tenant, u) := false],
          bindings := if u in p.users then
            RevokeIn(p.bindings, p.users[u].principal, {tenant}, now) else p.bindings), Done)
  }

  // ---------- organization members

  predicate HasEmail(users: map<Id, User>, u: Id, email: string) {
    u in users && users[u].email == email
  }

  ghost function UserByEmail(users: map<Id, User>, email: string): (u: Option<Id>)
    ensures u.Some? ==> HasEmail(users, u.value, email)
    ensures u.None? ==> forall v :: !HasEmail(users, v, email)
  {
    if exists v :: HasEmail(users, v, email) then var v :| HasEmail(users, v, email); Some(v) else None
  }

  /** `role` is none when the request names something other than member or owner. */
  ghost function InviteOrg(p: Plane, org: Id, caller: Id, email: string, role: Option<OrgRole>): (Plane, Outcome) {
    if org !in p.orgs then (p, Refused(NotFound))
    else if !IsOwner(p, org, caller) then (p, Refused(Forbidden))
    else if role.None? then (p, Refused(Validation))
    else
      match UserByEmail(p.users, Text.Lower(Text.Strip(email)))
      case None => (p, Refused(NotFound))
      case Some(u) =>
        if InOrg(p.orgMembers, org, u) then (p, Refused(Conflict))
        else (p.(orgMembers := p.orgMembers[(org, u) := OrgMembership(role.value, Invited)]), Done)
  }

  function AcceptOrg(p: Plane, org: Id, u: Id): (Plane, Outcome) {
    if (org, u) !in p.orgMembers || p.orgMembers[(org, u)].status != Invited then (p, Refused(NotFound))
    else (p.(orgMembers := p.orgMembers[(org, u) := p.orgMembers[(org, u)].(status := Joined)]), Done)
  }

  function TenantsOf(tenants: map<Id, Tenant>, org: Id): set<Id> {
    set t | t in tenants && tenants[t].org == org
  }

  function LeaveAll(members: map<(Id, Id), bool>, tenants: set<Id>, u: Id): map<(Id, Id), bool> {
    map k | k in members :: members[k] && !(k.0 in tenants && k.1 == u)
  }

  function RemoveOrg(p: Plane, org: Id, caller: Id, u: Id, now: Time): (Plane, Outcome) {
    if org !in p.orgs then (p, Refused(NotFound))
    else if !IsOwner(p, org, caller) then (p, Refused(Forbidden))
    else if caller == u then (p, Refused(Conflict))
    else if !InOrg(p.orgMembers, org, u) then (p, Refused(NotFound))
    else
      var q := p.(orgMembers := p.orgMembers[(org, u) := p.orgMembers[(org, u)].(status := Removed)]);
      if u !in p.users then (q, Done)
      else (q.(members := LeaveAll(p.members, TenantsOf(p.tenants, org), u),
               bindings := RevokeIn(p.bindings, p.users[u].principal, TenantsOf(p.tenants, org), now)), Done)
  }

  // ---------- suspension

  function SuspendTenant(p: Plane, operator: bool, tenant: Id): (Plane, Outcome) {
    if !operator then (p, Refused(Forbidden))
    else if tenant !in p.tenants then (p, Refused(NotFound))
    else
      var org := p.tenants[tenant].org;
      if org !in p.orgs || p.orgs[org].isOperator then (p, Refused(Forbidden))
      else if !p.tenants[tenant].active then (p, Refused(Conflict))
      else (p.(tenants := p.tenants[tenant := p.tenants[tenant].(active := false)],
               orgs := p.orgs[org := p.orgs[org].(active := false)]),
            Done)
  }

  function ReinstateTenant(p: Plane, operator: bool, tenant: Id): (Plane, Outcome) {
    if !operator then (p, Refused(Forbidden))
    else if tenant !in p.tenants || p.tenants[tenant].org !in p.orgs then (p, Refused(NotFound))
    else if p.tenants[tenant].active then (p, Refused(Conflict))
    else
      var org := p.tenants[tenant].org;
      (p.(tenants := p.tenants[tenant := p.tenants[tenant].(active := true)],
          orgs := p.orgs[org := p.orgs[org].(active := true)]), Done)
  }

  // ---------- tenants opened by the operator

  /** The user has an active membership of a tenant outside the operator's organizations. */
  predicate HasTenant(p: Plane, u: Id) {
    exists t | t in p.tenants :: IsMember(p.members, t, u) && p.tenants[t].org in p.orgs
        && !p.orgs[p.tenants[t].org].isOperator
  }

  /** An organization that the user owns, and a tenant of it with the user as a member: without roles. */
  function Provisioned(p: Plane, u: Id): Plane {
    var org, t := p.nextId, p.nextId + 1;
    p.(nextId := p.nextId + 2,
       orgs := p.orgs[org := Org(false, true, false)],
       orgMembers := p.orgMembers[(org, u) := OrgMembership(Owner, Joined)],
       tenants := p.tenants[t := Tenant(org, true)],
       members := p.members[(t, u) := true])
  }

  ghost function Provision(p: Plane, operator: bool, email: string): (Plane, Outcome) {
    var address := Text.Lower(Text.Strip(email));
    if !operator then (p, Refused(Forbidden))
    else if address == "" then (p, Refused(Validation))
    else
      match UserByEmail(p.users, address)
      case None => (p, Refused(NotFound))
      case Some(u) => if HasTenant(p, u) then (p, Done) else (Provisioned(p, u), Done)
  }

  // ---------- upgrades

  /** The owner of an individual's organization asks for its upgrade; `valid` is the outcome of the
      validators and of the slug's check. Ownership is read here and never again. */
  function SubmitUpgrade(p: Plane, org: Id, u: Id, valid: bool): (Plane, Outcome) {
    if !valid then (p, Refused(Validation))
    else if org !in p.orgs || u !in p.users || !IsOwner(p, org, u) || !p.orgs[org].active
        || !p.orgs[org].individual then
      (p, Refused(Forbidden))
    else (p.(nextId := p.nextId + 1, upgrades := p.upgrades[p.nextId := Upgrade(org, u, None)]), Done)
  }

  /** The upgraded organization, active again, with a tenant for whoever asked for the upgrade. */
  function Completed(p: Plane, r: Id, now: Time): Plane
    requires r in p.upgrades && p.upgrades[r].user in p.users && p.upgrades[r].org in p.orgs
  {
    var x := p.upgrades[r];
    OpenTenant(p, x.org, x.user, now).(
      orgs := p.orgs[x.org := p.orgs[x.org].(active := true, individual := false)],
      upgrades := p.upgrades[r := x.(tenant := Some(p.nextId))])
  }

  /** The worker's attempt at a request that is not completed; `commits` says whether the provider and
      the worker hold out and the slugs are free. */
  function AttemptUpgrade(p: Plane, r: Id, commits: bool, now: Time): (Plane, Outcome) {
    if r !in p.upgrades || p.upgrades[r].user !in p.users || p.upgrades[r].org !in p.orgs then (p, Refused(NotFound))
    else if p.upgrades[r].tenant.Some? then (p, Done)
    else if !commits then (p, Refused(ServerError))
    else (Completed(p, r, now), Done)
  }

  // ---------- runs

  datatype Command =
    | DoBootstrap(email: string, now: Time)
    | DoSubmitUpgrade(org: Id, user: Id, valid: bool)
    | DoAttemptUpgrade(upgrade: Id, commits: bool, now: Time)
    | DoSetAccess(user: Id, status: PrincipalStatus)
    | DoAddService(tenant: Id)
    | DoAuthorize(request: Request, found: Option<Id>)
    | DoGrant(tenant: Id, role: Id, caller: Id, principal: Option<Id>, granted: Option<Id>, expires: Option<Time>,
              now: Time)
    | DoRevoke(tenant: Id, role: Id, binding: Id, caller: Id, now: Time)
    | DoInviteTenant(tenant: Id, caller: Id, user: Id, roleName: string, now: Time)
    | DoRemoveTenant(tenant: Id, caller: Id, user: Id, now: Time)
    | DoInviteOrg(org: Id, owner: Id, email: string, orgRole: Option<OrgRole>)
    | DoAcceptOrg(org: Id, user: Id)
    | DoRemoveOrg(org: Id, owner: Id, user: Id, now: Time)
    | DoSuspendTenant(operator: bool, tenant: Id)
    | DoReinstateTenant(operator: bool, tenant: Id)
    | DoProvision(operator: bool, email: string)

  /** E-mail addresses are unique. */
  ghost function Apply(p: Plane, cmd: Command): (Plane, Outcome) {
    match cmd
    case DoBootstrap(email, now) =>
      if UserByEmail(p.users, Text.Lower(email)).Some? then (p, Refused(Conflict)) else (Bootstrap(p, email, now), Done)
    case DoSubmitUpgrade(org, user, valid) => SubmitUpgrade(p, org, user, valid)
    case DoAttemptUpgrade(upgrade, commits, now) => AttemptUpgrade(p, upgrade, commits, now)
    case DoSetAccess(user, status) => (SetAccess(p, user, status), Done)
    case DoAddService(tenant) =>
      if tenant !in p.tenants then (p, Refused(NotFound))
      else (p.(nextId := p.nextId + 2, principals := p.principals[p.nextId := Principal(Service, Active)],
               services := p.services[p.nextId + 1 := ServiceAccount(p.nextId, tenant, true)]), Done)
    case DoAuthorize(request, found) =>
      var (q, ok) := Authorize(p, request, found); (q, if ok then Done else Refused(Forbidden))
    case DoGrant(tenant, role, caller, principal, user, expires, now) =>
      Grant(p, tenant, role, caller, principal, user, expires, now)
    case DoRevoke(tenant, role, binding, caller, now) => Revoke(p, tenant, role, binding, caller, now)
    case DoInviteTenant(tenant, caller, user, roleName, now) => InviteTenant(p, tenant, caller, user, roleName, now)
    case DoRemoveTenant(tenant, caller, user, now) => RemoveTenant(p, tenant, caller, user, now)
    case DoInviteOrg(org, owner, email, orgRole) => InviteOrg(p, org, owner, email, orgRole)
    case DoAcceptOrg(org, user) => AcceptOrg(p, org, user)
    case DoRemoveOrg(org, owner, user, now) => RemoveOrg(p, org, owner, user, now)
    case DoSuspendTenant(operator, tenant) => SuspendTenant(p, operator, tenant)
    case DoReinstateTenant(operator, tenant) => ReinstateTenant(p, operator, tenant)
    case DoProvision(operator, email) => Provision(p, operator, email)
  }
}
