/** The services of the access plane: they change rows in place and are proved against `Access`. */
module AccessServices {
  import opened Errors
  import A = Access
  import opened AccessLaws
  import opened AccessRuns
  import Text

  type Id = A.Id
  type Time = A.Time

  class AccessService {
    var nextId: Id
    var principals: map<Id, A.Principal>
    var users: map<Id, A.User>
    var services: map<Id, A.ServiceAccount>
    var orgs: map<Id, A.Org>
    var orgMembers: map<(Id, Id), A.OrgMembership>
    var tenants: map<Id, A.Tenant>
    var members: map<(Id, Id), bool>
    var permissions: map<string, A.Permission>
    var roles: map<Id, A.Role>
    var bindings: map<Id, A.Binding>
    var audit: seq<A.AuditRow>
    var upgrades: map<Id, A.Upgrade>

    function State(): A.Plane
      reads this
    {
      A.Plane(nextId, principals, users, services, orgs, orgMembers, tenants, members, permissions, roles, bindings,
              audit, upgrades)
    }

    constructor ()
      ensures State() == A.EMPTY && Inv(State())
    {
      nextId, principals, users, services, orgs, orgMembers := 0, map[], map[], map[], map[], map[];
      tenants, members, permissions, roles, bindings, audit := map[], map[], A.Catalog(), map[], map[], [];
      upgrades := map[];
      new;
      EmptyOk();
    }

    // ---------- queries

    method FindUser(principal: Id) returns (u: Option<Id>)
      requires UsersOk(principals, users)
      ensures u == A.UserOf(users, principal)
    {
      var left := users.Keys;
      while left != {}
        invariant left <= users.Keys
        invariant forall v | A.HasPrincipal(users, v, principal) :: v in left
        decreases left
      {
        var v :| v in left;
        left := left - {v};
        if users[v].principal == principal {
          FoundUser(users, principals, v);
          return Some(v);
        }
      }
      return None;
    }

    method HasActiveTenantMembership(principal: Id, tenant: Id) returns (found: bool)
      requires UsersOk(principals, users)
      ensures found <==> A.HasActiveMembership(State(), principal, tenant)
    {
      if principal !in principals {
        return false;
      }
      if principals[principal].kind == A.Service {
        var left := services.Keys;
        while left != {}
          invariant left <= services.Keys
          invariant forall k | k in services && k !in left :: services[k] != A.ServiceAccount(principal, tenant, true)
          decreases left
        {
          var k :| k in left;
          left := left - {k};
          if services[k] == A.ServiceAccount(principal, tenant, true) {
            return true;
          }
        }
        return false;
      }
      var u := FindUser(principal);
      return u.Some? && (tenant, u.value) in members && members[(tenant, u.value)];
    }

    /** One of the active operator organizations of the principal's user: which one is not said. */
    method FindActiveOperatorOrg(principal: Id) returns (org: Option<Id>)
      requires UsersOk(principals, users)
      ensures A.Discovers(State(), principal, org)
    {
      var u := FindUser(principal);
      if u.None? {
        return None;
      }
      var left := orgs.Keys;
      while left != {}
        invariant left <= orgs.Keys
        invariant forall o | A.OperatesFor(State(), u.value, o) :: o in left
        decreases left
      {
        var o :| o in left;
        left := left - {o};
        if (o, u.value) in orgMembers && orgMembers[(o, u.value)].status == A.Joined && orgs[o].isOperator
            && orgs[o].active {
          return Some(o);
        }
      }
      return None;
    }

    method HasExactPermissionGrant(principal: Id, code: string, scope: A.Scope, tenant: Option<Id>,
                                   operator: Option<Id>, at: Time)
      returns (granted: bool)
      ensures granted <==> A.HasGrant(State(), principal, code, scope, tenant, operator, at)
    {
      if code !in permissions || !permissions[code].active || permissions[code].scope != scope {
        return false;
      }
      var left := bindings.Keys;
      while left != {}
        invariant left <= bindings.Keys
        invariant forall k | k in bindings && k !in left ::
            !A.Grants(State(), bindings[k], principal, code, scope, tenant, operator, at)
        decreases left
      {
        var k :| k in left;
        left := left - {k};
        var b := bindings[k];
        if b.principal == principal && b.active && b.revokedAt.None? && b.validFrom <= at
           && (b.validUntil.None? || at < b.validUntil.value) && b.scope == scope && b.role in roles {
          var role := roles[b.role];
          if role.scope == scope && role.active && code in role.codes && b.tenant == tenant && role.tenant == tenant
             && b.operator == operator && role.operator == operator {
            assert A.Grants(State(), bindings[k], principal, code, scope, tenant, operator, at);
            return true;
          }
        }
      }
      return false;
    }

    // ---------- the decision

    method Record(q: A.Request, d: A.Decision) returns (allowed: bool)
      modifies this`audit
      ensures audit == old(audit) + [A.RowFor(q, d)] && allowed == (d.reason == A.Granted)
    {
      var tenant := if d.scope == A.TenantScope then q.tenant else None;
      var operator := if d.scope == A.PlatformScope then d.operator else None;
      allowed := d.reason == A.Granted;
      audit := audit + [A.AuditRow(q.principal, q.code, d.scope, tenant, operator, allowed, d.reason)];
    }

    method AuthorizeTenant(q: A.Request, code: string) returns (d: A.Decision)
      requires UsersOk(principals, users)
      ensures d == A.DecideTenant(State(), q, code)
    {
      if q.tenant.None? {
        return A.Decision(A.TenantRequired, A.TenantScope, q.operator);
      }
      if q.principal !in principals {
        return A.Decision(A.PrincipalNotFound, A.TenantScope, q.operator);
      }
      if principals[q.principal].status != A.Active {
        return A.Decision(A.PrincipalNotActive(principals[q.principal].status), A.TenantScope, q.operator);
      }
      if q.tenant.value !in tenants || !tenants[q.tenant.value].active {
        return A.Decision(A.TenantNotActive, A.TenantScope, q.operator);
      }
      var member := HasActiveTenantMembership(q.principal, q.tenant.value);
      if !member {
        return A.Decision(A.MembershipInactive, A.TenantScope, q.operator);
      }
      if code !in permissions {
        return A.Decision(A.PermissionNotFound, A.TenantScope, q.operator);
      }
      if !permissions[code].active {
        return A.Decision(A.PermissionNotActive, A.TenantScope, q.operator);
      }
      if permissions[code].scope != A.TenantScope {
        return A.Decision(A.ScopeMismatch, permissions[code].scope, q.operator);
      }
      var granted := HasExactPermissionGrant(q.principal, code, A.TenantScope, q.tenant, None, q.at);
      return A.Decision(if granted then A.Granted else A.NoGrant, A.TenantScope, q.operator);
    }

    method AuthorizePlatform(q: A.Request, code: string) returns (d: A.Decision, ghost found: Option<Id>)
      requires UsersOk(principals, users)
      ensures A.Discovers(State(), q.principal, found) && d == A.DecidePlatform(State(), q, code, found)
    {
      var org := FindActiveOperatorOrg(q.principal);
      found := org;
      if q.principal !in principals {
        return A.Decision(A.PrincipalNotFound, A.PlatformScope, q.operator), org;
      }
      if principals[q.principal].status != A.Active {
        return A.Decision(A.PrincipalNotActive(principals[q.principal].status), A.PlatformScope, q.operator), org;
      }
      if q.operator.Some? && (org.None? || org != q.operator) {
        return A.Decision(A.OperatorInactive, A.PlatformScope, q.operator), org;
      }
      if org.None? {
        return A.Decision(A.OperatorInactive, A.PlatformScope, q.operator), org;
      }
      if code !in permissions {
        return A.Decision(A.PermissionNotFound, A.PlatformScope, org), org;
      }
      if !permissions[code].active {
        return A.Decision(A.PermissionNotActive, A.PlatformScope, org), org;
      }
      if permissions[code].scope != A.PlatformScope {
        return A.Decision(A.ScopeMismatch, permissions[code].scope, org), org;
      }
      var granted := HasExactPermissionGrant(q.principal, code, A.PlatformScope, None, org, q.at);
      return A.Decision(if granted then A.Granted else A.NoGrant, A.PlatformScope, org), org;
    }

    /** Decides and records; `found` is what the operator lookup answered, if it was made. */
    method Authorize(q: A.Request) returns (allowed: bool, ghost found: Option<Id>)
      requires UsersOk(principals, users)
      modifies this`audit
      ensures (State(), allowed) == A.Authorize(old(State()), q, found)
      ensures q.surface.Management? ==> A.Discovers(old(State()), q.principal, found)
    {
      hide A.DecideTenant, A.DecidePlatform, A.RowFor, A.Discovers, Text.Strip;
      var code := Text.Strip(q.code);
      var d: A.Decision;
      found := AnyAnswer(q.principal);
      if code == "" {
        d := A.Decision(A.CodeRequired, if q.surface.Management? then A.PlatformScope else A.TenantScope, q.operator);
      } else if q.surface.Public? {
        if A.PLATFORM_PREFIX <= code {
          d := A.Decision(A.PublicRejectsPlatform, A.PlatformScope, q.operator);
        } else {
          d := AuthorizeTenant(q, code);
        }
      } else {
        if !(A.PLATFORM_PREFIX <= code) {
          d := A.Decision(A.ManagementRequiresPlatform, A.TenantScope, q.operator);
        } else {
          d, found := AuthorizePlatform(q, code);
        }
      }
      allowed := Record(q, d);
    }

    /** The lookup always has an answer. */
    ghost method AnyAnswer(principal: Id) returns (found: Option<Id>)
      ensures A.Discovers(State(), principal, found)
    {
      match A.UserOf(users, principal)
      case None => found := None;
      case Some(u) =>
        if o :| A.OperatesFor(State(), u, o) {
          found := Some(o);
        } else {
          found := None;
        }
    }

    method Require(principal: Id, tenant: Id, now: Time) returns (allowed: bool)
      requires UsersOk(principals, users)
      modifies this`audit
      ensures (State(), allowed) == A.Require(old(State()), principal, tenant, now)
    {
      hide A.DecideTenant, A.DecidePlatform, A.RowFor, A.Discovers;
      ghost var found;
      allowed, found := Authorize(A.Request(principal, "tenant.admin", A.Public, Some(tenant), None, now));
    }

    // ---------- registrations

    method BootstrapIndividualOrg(email: string, now: Time)
      requires Inv(State()) && A.UserByEmail(users, Text.Lower(email)).None?
      modifies this
      ensures State() == A.Bootstrap(old(State()), email, now) && Inv(State())
    {
      hide Inv, Text.Lower, A.Bootstrap, A.OpenTenant, A.UserByEmail;
      BootstrapKeeps(State(), email, now);
      BootstrapFrame(State(), email, now);
      var principal, u, org := nextId, nextId + 1, nextId + 2;
      nextId := nextId + 3;
      principals := principals[principal := A.Principal(A.Human, A.Inactive)];
      users := users[u := A.User(principal, Text.Lower(email), false)];
      orgs := orgs[org := A.Org(false, true, true)];
      orgMembers := orgMembers[(org, u) := A.OrgMembership(A.Owner, A.Joined)];
      assert State() == WithAccount(old(State()), email);
      OpenTenant(org, u, now);
    }

    /** The tenant, its system roles, its first member and its administrator. */
    method OpenTenant(org: Id, u: Id, now: Time)
      requires u in users
      modifies this`nextId, this`tenants, this`members, this`roles, this`bindings
      ensures State() == A.OpenTenant(old(State()), org, u, now)
    {
      hide A.SeedRoles;
      var tenant := nextId;
      tenants := tenants[tenant := A.Tenant(org, true)];
      members := members[(tenant, u) := true];
      var admin := SeedTenantRoles(tenant);
      bindings := bindings[tenant + 4 := A.NewBinding(users[u].principal, admin, tenant, now, None)];
      nextId := tenant + 5;
    }

    // ---------- upgrades

    method SubmitUpgrade(org: Id, u: Id, valid: bool) returns (out: Outcome)
      modifies this`nextId, this`upgrades
      ensures (State(), out) == A.SubmitUpgrade(old(State()), org, u, valid)
    {
      if !valid {
        return Refused(Validation);
      }
      if org !in orgs || u !in users || (org, u) !in orgMembers
          || orgMembers[(org, u)] != A.OrgMembership(A.Owner, A.Joined) {
        return Refused(Forbidden);
      }
      if !orgs[org].active || !orgs[org].individual {
        return Refused(Forbidden);
      }
      upgrades := upgrades[nextId := A.Upgrade(org, u, None)];
      nextId := nextId + 1;
      return Done;
    }

    /** The worker's attempt: it reads the request and not who owns the organization. */
    method AttemptUpgrade(r: Id, commits: bool, now: Time) returns (out: Outcome)
      modifies this`nextId, this`orgs, this`tenants, this`members, this`roles, this`bindings, this`upgrades
      ensures (State(), out) == A.AttemptUpgrade(old(State()), r, commits, now)
    {
      hide A.OpenTenant;
      if r !in upgrades || upgrades[r].user !in users || upgrades[r].org !in orgs {
        return Refused(NotFound);
      }
      if upgrades[r].tenant.Some? {
        return Done;
      }
      if !commits {
        return Refused(ServerError);
      }
      var x, tenant := upgrades[r], nextId;
      assert A.OpenTenant(State(), x.org, x.user, now).upgrades == upgrades by {
        OpenUpgrades(State(), x.org, x.user, now);
      }
      OpenTenant(x.org, x.user, now);
      orgs := orgs[x.org := orgs[x.org].(active := true, individual := false)];
      upgrades := upgrades[r := x.(tenant := Some(tenant))];
      return Done;
    }

    method SeedTenantRoles(tenant: Id) returns (admin: Id)
      modifies this`roles
      ensures roles == A.SeedRoles(old(roles), tenant) && admin == tenant + 1
    {
      roles := roles[tenant + 1 := A.Role(A.TenantScope, Some(tenant), None, A.TENANT_ADMIN, true, A.ADMIN_CODES)];
      roles := roles[tenant + 2 := A.Role(A.TenantScope, Some(tenant), None, "resource-admin", true,
                                          A.RESOURCE_ADMIN_CODES)];
      roles := roles[tenant + 3 := A.Role(A.TenantScope, Some(tenant), None, "viewer", true, A.VIEWER_CODES)];
      return tenant + 1;
    }

    // ---------- role bindings

    method IsBound(principal: Id, role: Id, tenant: Id) returns (bound: bool)
      ensures bound <==> A.AlreadyBound(bindings, principal, role, tenant)
    {
      var left := bindings.Keys;
      while left != {}
        invariant left <= bindings.Keys
        invariant forall k | k in bindings && k !in left :: !A.ActiveBinding(bindings[k], principal, role, tenant)
        decreases left
      {
        var k :| k in left;
        left := left - {k};
        if A.ActiveBinding(bindings[k], principal, role, tenant) {
          return true;
        }
      }
      return false;
    }

    method Grant(tenant: Id, role: Id, caller: Id, principal: Option<Id>, user: Option<Id>, expires: Option<Time>,
                 now: Time)
      returns (out: Outcome)
      requires Inv(State())
      modifies this`nextId, this`bindings, this`audit
      ensures (State(), out) == A.Grant(old(State()), tenant, role, caller, principal, user, expires, now)
      ensures Inv(State())
    {
      hide Inv, UsersOk, A.Require, A.Bind;
      GrantKeeps(State(), tenant, role, caller, principal, user, expires, now);
      UsersAreOk(State());
      var ok := Require(caller, tenant, now);
      if !ok {
        return Refused(Forbidden);
      }
      out := Bind(tenant, role, principal, user, expires, now);
    }

    /** The binding of a grant, once the caller is known to administer the tenant. */
    method Bind(tenant: Id, role: Id, principal: Option<Id>, user: Option<Id>, expires: Option<Time>, now: Time)
      returns (out: Outcome)
      requires UsersOk(principals, users)
      modifies this`nextId, this`bindings
      ensures (State(), out) == A.Bind(old(State()), tenant, role, principal, user, expires, now)
    {
      hide UsersOk, A.AlreadyBound, A.IsMember;
      if principal.None? && user.None? {
        return Refused(Validation);
      }
      var who: Id;
      var target := user;
      if user.Some? {
        if user.value !in users {
          return Refused(NotFound);
        }
        who := users[user.value].principal;
      } else {
        who := principal.value;
        if who !in principals || principals[who].status != A.Active {
          return Refused(NotFound);
        }
        target := FindUser(who);
      }
      if role !in roles || roles[role].tenant != Some(tenant) || !roles[role].active {
        return Refused(NotFound);
      }
      if roles[role].scope != A.TenantScope {
        return Refused(Validation);
      }
      if target.Some? && !A.IsMember(members, tenant, target.value) {
        return Refused(Validation);
      }
      var bound := IsBound(who, role, tenant);
      if bound {
        return Refused(Conflict);
      }
      bindings := bindings[nextId := A.NewBinding(who, role, tenant, now, expires)];
      nextId := nextId + 1;
      return Done;
    }

    lemma UsersAreOk(p: A.Plane)
      requires Inv(p)
      ensures UsersOk(p.principals, p.users)
    {
    }

    method CountActiveTenantAdmins(tenant: Id) returns (n: nat)
      ensures n == |A.Admins(roles, bindings, tenant)|
    {
      var left := bindings.Keys;
      ghost var seen: set<Id> := {};
      n := 0;
      while left != {}
        invariant left <= bindings.Keys && seen !! left && n == |seen|
        invariant seen + left * A.Admins(roles, bindings, tenant) == A.Admins(roles, bindings, tenant)
        decreases left
      {
        var k :| k in left;
        left := left - {k};
        if A.IsAdmin(roles, bindings[k], tenant) {
          seen := seen + {k};
          n := n + 1;
        }
      }
    }

    method Revoke(tenant: Id, role: Id, binding: Id, caller: Id, now: Time) returns (out: Outcome)
      requires Inv(State())
      modifies this`bindings, this`audit
      ensures (State(), out) == A.Revoke(old(State()), tenant, role, binding, caller, now)
      ensures Inv(State())
    {
      hide Inv, UsersOk, A.Require, A.Unbind;
      RevokeKeeps(State(), tenant, role, binding, caller, now);
      UsersAreOk(State());
      var ok := Require(caller, tenant, now);
      if !ok {
        return Refused(Forbidden);
      }
      out := Unbind(tenant, role, binding, now);
    }

    method Unbind(tenant: Id, role: Id, binding: Id, now: Time) returns (out: Outcome)
      modifies this`bindings
      ensures (State(), out) == A.Unbind(old(State()), tenant, role, binding, now)
    {
      hide A.Admins;
      if binding !in bindings || bindings[binding].tenant != Some(tenant) || bindings[binding].role != role {
        return Refused(NotFound);
      }
      if !bindings[binding].active {
        return Refused(Conflict);
      }
      if role in roles && roles[role].name == A.TENANT_ADMIN {
        var admins := CountActiveTenantAdmins(tenant);
        if admins <= 1 {
          return Refused(Conflict);
        }
      }
      bindings := bindings[binding := bindings[binding].(active := false, revokedAt := Some(now))];
      return Done;
    }

    /** Revokes a principal's active bindings in some tenants one by one, counting them. */
    method RevokeBindings(principal: Id, inTenants: set<Id>, now: Time) returns (revoked: nat)
      modifies this`bindings
      ensures bindings == A.RevokeIn(old(bindings), principal, inTenants, now)
    {
      var rows := set k | k in bindings && bindings[k].active && bindings[k].principal == principal
                          && bindings[k].tenant.Some? && bindings[k].tenant.value in inTenants;
      var left := rows;
      revoked := 0;
      while left != {}
        invariant left <= rows && bindings.Keys == old(bindings).Keys
        invariant forall k | k in old(bindings) ::
          bindings[k] == if k in rows && k !in left then A.RevokedBinding(old(bindings)[k], now) else old(bindings)[k]
        decreases left
      {
        var k :| k in left;
        bindings := bindings[k := bindings[k].(active := false, revokedAt := Some(now))];
        left := left - {k};
        revoked := revoked + 1;
      }
    }

    // ---------- members

    method FindRole(tenant: Id, name: string) returns (r: Option<Id>)
      requires OneName(roles)
      ensures r == A.FindRole(roles, tenant, name)
    {
      var left := roles.Keys;
      while left != {}
        invariant left <= roles.Keys
        invariant forall x | A.IsRole(roles, x, tenant, name) :: x in left
        decreases left
      {
        var x :| x in left;
        left := left - {x};
        if A.IsRole(roles, x, tenant, name) {
          assert A.FindRole(roles, tenant, name).Some?;
          return Some(x);
        }
      }
      return None;
    }

    method InviteTenantMember(tenant: Id, caller: Id, u: Id, roleName: string, now: Time) returns (out: Outcome)
      requires Inv(State())
      modifies this`nextId, this`members, this`bindings, this`audit
      ensures (State(), out) == A.InviteTenant(old(State()), tenant, caller, u, roleName, now)
      ensures Inv(State())
    {
      hide Inv, UsersOk, A.Require, A.Join;
      InviteTenantKeeps(State(), tenant, caller, u, roleName, now);
      UsersAreOk(State());
      var ok := Require(caller, tenant, now);
      if !ok {
        return Refused(Forbidden);
      }
      assert Inv(State()) by { RequireKeeps(old(State()), caller, tenant, now); }
      out := Join(tenant, u, roleName, now);
    }

    lemma RequireKeeps(p: A.Plane, caller: Id, tenant: Id, now: Time)
      requires Inv(p)
      ensures Inv(A.Require(p, caller, tenant, now).0)
    {
      hide Inv, A.Decide, A.RowFor;
      AuditFree(p, A.Require(p, caller, tenant, now).0);
    }

    /** The membership and binding of an invitation, once the caller is known to administer the tenant. */
    method Join(tenant: Id, u: Id, roleName: string, now: Time) returns (out: Outcome)
      requires Inv(State())
      modifies this`nextId, this`members, this`bindings
      ensures (State(), out) == A.Join(old(State()), tenant, u, roleName, now)
    {
      hide Inv, RolesOk, A.AlreadyBound, A.InOrg, A.IsMember, A.IsRole, A.FindRole, UsersOk, BindingsOk, A.NewBinding,
           A.UserOf, A.Admins, A.RevokeIn, A.SeedRoles, A.Catalog;
      OneNameOf(State());
      if tenant !in tenants {
        return Refused(NotFound);
      }
      if u !in users || !users[u].active {
        return Refused(NotFound);
      }
      if !A.InOrg(orgMembers, tenants[tenant].org, u) {
        return Refused(NotFound);
      }
      if A.IsMember(members, tenant, u) {
        return Refused(Conflict);
      }
      var role := FindRole(tenant, roleName);
      if role.None? {
        return Refused(Validation);
      }
      ghost var p := State();
      NotYetBound(p, tenant, u, role.value);
      JoinAccepts(p, tenant, u, roleName, role.value, now);
      members := members[(tenant, u) := true];
      bindings := bindings[nextId := A.NewBinding(users[u].principal, role.value, tenant, now, None)];
      nextId := nextId + 1;
      assert State() == p.(nextId := p.nextId + 1, members := members, bindings := bindings);
      return Done;
    }

    lemma JoinAccepts(p: A.Plane, tenant: Id, u: Id, roleName: string, role: Id, now: Time)
      requires tenant in p.tenants && u in p.users && p.users[u].active
          && A.InOrg(p.orgMembers, p.tenants[tenant].org, u)
      requires !A.IsMember(p.members, tenant, u) && A.FindRole(p.roles, tenant, roleName) == Some(role)
      requires !A.AlreadyBound(p.bindings, p.users[u].principal, role, tenant)
      ensures A.Join(p, tenant, u, roleName, now) ==
              (p.(nextId := p.nextId + 1, members := p.members[(tenant, u) := true],
                  bindings := p.bindings[p.nextId :=
                    A.NewBinding(p.users[u].principal, role, tenant, now, None)]), Done)
    {
      hide A.InOrg, A.IsMember, A.FindRole, A.AlreadyBound, A.NewBinding;
    }

    lemma NotYetBound(p: A.Plane, tenant: Id, u: Id, role: Id)
      requires Inv(p) && u in p.users && !A.IsMember(p.members, tenant, u)
      ensures !A.AlreadyBound(p.bindings, p.users[u].principal, role, tenant)
    {
      NotBound(p.users, p.members, p.bindings, tenant, u, role);
    }

    method RemoveTenantMember(tenant: Id, caller: Id, u: Id, now: Time) returns (out: Outcome)
      requires Inv(State())
      modifies this`members, this`bindings, this`audit
      ensures (State(), out) == A.RemoveTenant(old(State()), tenant, caller, u, now)
      ensures Inv(State())
    {
      hide Inv, UsersOk, A.Require, A.Leave;
      RemoveTenantKeeps(State(), tenant, caller, u, now);
      UsersAreOk(State());
      var ok := Require(caller, tenant, now);
      if !ok {
        return Refused(Forbidden);
      }
      assert Inv(State()) by { RequireKeeps(old(State()), caller, tenant, now); }
      out := Leave(tenant, u, now);
    }

    method IsLastAdmin(tenant: Id, u: Id) returns (last: bool)
      requires Inv(State()) && tenant in tenants && u in users
      ensures last <==> A.LastAdmin(State(), tenant, u)
    {
      hide Inv, RolesOk, A.AlreadyBound, A.Admins, A.BindingsOn, A.IsRole, A.FindRole;
      OneNameOf(State());
      var admin := FindRole(tenant, A.TENANT_ADMIN);
      if admin.None? {
        return false;
      }
      AdminCount(State(), tenant);
      var isAdmin := IsBound(users[u].principal, admin.value, tenant);
      if !isAdmin {
        return false;
      }
      var admins := CountActiveTenantAdmins(tenant);
      return admins <= 1;
    }

    lemma AdminCount(p: A.Plane, tenant: Id)
      requires Inv(p) && A.FindRole(p.roles, tenant, A.TENANT_ADMIN).Some?
      ensures A.FindRole(p.roles, tenant, A.TENANT_ADMIN) == Some(tenant + 1)
      ensures |A.Admins(p.roles, p.bindings, tenant)| == |A.BindingsOn(p.bindings, tenant + 1, tenant)|
    {
      assert Seeded(p.roles, tenant);
      hide Inv, A.Admins, A.BindingsOn;
      AdminRole(p, tenant);
    }

    method Leave(tenant: Id, u: Id, now: Time) returns (out: Outcome)
      requires Inv(State())
      modifies this`members, this`bindings
      ensures (State(), out) == A.Leave(old(State()), tenant, u, now)
    {
      hide Inv, A.RevokeIn, A.IsMember, A.LastAdmin, A.SeedRoles, A.Catalog;
      MemberIsUser(State(), tenant, u);
      if !A.IsMember(members, tenant, u) {
        return Refused(NotFound);
      }
      var last := IsLastAdmin(tenant, u);
      if last {
        return Refused(Conflict);
      }
      ghost var p := State();
      members := members[(tenant, u) := false];
      var revoked := RevokeBindings(users[u].principal, {tenant}, now);
      assert State() == p.(members := members, bindings := bindings);
      return Done;
    }

    method FindUserByEmail(email: string) returns (u: Option<Id>)
      requires UsersOk(principals, users)
      ensures u == A.UserByEmail(users, email)
    {
      var left := users.Keys;
      while left != {}
        invariant left <= users.Keys
        invariant forall v | A.HasEmail(users, v, email) :: v in left
        decreases left
      {
        var v :| v in left;
        left := left - {v};
        if users[v].email == email {
          assert A.HasEmail(users, v, email) && A.UserByEmail(users, email).Some?;
          return Some(v);
        }
      }
      return None;
    }

    method InviteOrgMember(org: Id, caller: Id, email: string, role: Option<A.OrgRole>) returns (out: Outcome)
      requires Inv(State())
      modifies this`orgMembers
      ensures (State(), out) == A.InviteOrg(old(State()), org, caller, email, role)
      ensures Inv(State())
    {
      hide Inv, UsersOk, Text.Lower, Text.Strip;
      InviteOrgKeeps(State(), org, caller, email, role);
      UsersAreOk(State());
      if org !in orgs {
        return Refused(NotFound);
      }
      if !A.IsOwner(State(), org, caller) {
        return Refused(Forbidden);
      }
      if role.None? {
        return Refused(Validation);
      }
      var u := FindUserByEmail(Text.Lower(Text.Strip(email)));
      if u.None? {
        return Refused(NotFound);
      }
      if A.InOrg(orgMembers, org, u.value) {
        return Refused(Conflict);
      }
      orgMembers := orgMembers[(org, u.value) := A.OrgMembership(role.value, A.Invited)];
      return Done;
    }

    method AcceptOrgInvite(org: Id, u: Id) returns (out: Outcome)
      requires Inv(State())
      modifies this`orgMembers
      ensures (State(), out) == A.AcceptOrg(old(State()), org, u)
      ensures Inv(State())
    {
      hide Inv;
      AcceptOrgKeeps(State(), org, u);
      if (org, u) !in orgMembers || orgMembers[(org, u)].status != A.Invited {
        return Refused(NotFound);
      }
      orgMembers := orgMembers[(org, u) := orgMembers[(org, u)].(status := A.Joined)];
      return Done;
    }

    method RemoveOrgMember(org: Id, caller: Id, u: Id, now: Time) returns (out: Outcome)
      requires Inv(State())
      modifies this`orgMembers, this`members, this`bindings
      ensures (State(), out) == A.RemoveOrg(old(State()), org, caller, u, now)
      ensures Inv(State())
    {
      hide Inv, A.RevokeIn;
      RemoveOrgKeeps(State(), org, caller, u, now);
      if org !in orgs {
        return Refused(NotFound);
      }
      if !A.IsOwner(State(), org, caller) {
        return Refused(Forbidden);
      }
      if caller == u {
        return Refused(Conflict);
      }
      if !A.InOrg(orgMembers, org, u) {
        return Refused(NotFound);
      }
      orgMembers := orgMembers[(org, u) := orgMembers[(org, u)].(status := A.Removed)];
      if u in users {
        var all := A.TenantsOf(tenants, org);
        var revoked := RevokeBindings(users[u].principal, all, now);
        LeaveTenants(all, u);
      }
      return Done;
    }

    /** Ends the user's membership of each of the tenants. */
    method LeaveTenants(all: set<Id>, u: Id)
      modifies this`members
      ensures members == A.LeaveAll(old(members), all, u)
    {
      var left := all;
      while left != {}
        invariant left <= all && members == A.LeaveAll(old(members), all - left, u)
        decreases left
      {
        var t :| t in left;
        left := left - {t};
        if (t, u) in members && members[(t, u)] {
          members := members[(t, u) := false];
        }
      }
      assert all - left == all;
    }

    // ---------- suspension

    method SuspendTenant(operator: bool, tenant: Id) returns (out: Outcome)
      modifies this`tenants, this`orgs
      ensures (State(), out) == A.SuspendTenant(old(State()), operator, tenant)
    {
      if !operator {
        return Refused(Forbidden);
      }
      if tenant !in tenants {
        return Refused(NotFound);
      }
      var org := tenants[tenant].org;
      if org !in orgs || orgs[org].isOperator {
        return Refused(Forbidden);
      }
      if !tenants[tenant].active {
        return Refused(Conflict);
      }
      tenants := tenants[tenant := tenants[tenant].(active := false)];
      orgs := orgs[org := orgs[org].(active := false)];
      return Done;
    }

    method UserTenant(u: Id) returns (has: bool)
      ensures has <==> A.HasTenant(State(), u)
    {
      var left := tenants.Keys;
      while left != {}
        invariant left <= tenants.Keys
        invariant forall t | t in tenants && t !in left ::
          !(A.IsMember(members, t, u) && tenants[t].org in orgs && !orgs[tenants[t].org].isOperator)
        decreases left
      {
        var t :| t in left;
        left := left - {t};
        if A.IsMember(members, t, u) && tenants[t].org in orgs && !orgs[tenants[t].org].isOperator {
          return true;
        }
      }
      return false;
    }

    method ProvisionTenant(operator: bool, email: string) returns (out: Outcome)
      requires UsersOk(principals, users)
      modifies this`nextId, this`orgs, this`orgMembers, this`tenants, this`members
      ensures (State(), out) == A.Provision(old(State()), operator, email)
    {
      hide UsersOk, Text.Lower, Text.Strip, A.HasTenant, A.UserByEmail;
      if !operator {
        return Refused(Forbidden);
      }
      var address := Text.Lower(Text.Strip(email));
      if address == "" {
        return Refused(Validation);
      }
      var found := FindUserByEmail(address);
      if found.None? {
        return Refused(NotFound);
      }
      var has := UserTenant(found.value);
      if has {
        return Done;
      }
      var org, tenant := nextId, nextId + 1;
      nextId := nextId + 2;
      orgs := orgs[org := A.Org(false, true, false)];
      orgMembers := orgMembers[(org, found.value) := A.OrgMembership(A.Owner, A.Joined)];
      tenants := tenants[tenant := A.Tenant(org, true)];
      members := members[(tenant, found.value) := true];
      return Done;
    }

    method ReinstateTenant(operator: bool, tenant: Id) returns (out: Outcome)
      modifies this`tenants, this`orgs
      ensures (State(), out) == A.ReinstateTenant(old(State()), operator, tenant)
    {
      if !operator {
        return Refused(Forbidden);
      }
      if tenant !in tenants || tenants[tenant].org !in orgs {
        return Refused(NotFound);
      }
      if tenants[tenant].active {
        return Refused(Conflict);
      }
      var org := tenants[tenant].org;
      tenants := tenants[tenant := tenants[tenant].(active := true)];
      orgs := orgs[org := orgs[org].(active := true)];
      return Done;
    }
  }
}
