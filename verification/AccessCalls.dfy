/** Exactly when each call that changes roles and members is accepted, told from the rows. */
module AccessCalls {
  import opened Errors
  import opened Access
  import opened AccessLaws
  import opened AccessRuns
  import opened AccessOwners
  import Text

  // ---------- the decision and its row

  /** Where a surface's chain of tests asks about a reason; the other surface's reasons come last. */
  function Place(surface: Surface, reason: Reason): nat {
    match reason
    case CodeRequired => 0
    case PublicRejectsPlatform => if surface.Public? then 1 else 12
    case ManagementRequiresPlatform => if surface.Public? then 12 else 1
    case TenantRequired => if surface.Public? then 2 else 12
    case PrincipalNotFound => 3
    case PrincipalNotActive(_) => 4
    case TenantNotActive => if surface.Public? then 5 else 12
    case MembershipInactive => if surface.Public? then 6 else 12
    case OperatorInactive => if surface.Public? then 12 else 6
    case PermissionNotFound => 7
    case PermissionNotActive => 8
    case ScopeMismatch => 9
    case NoGrant => 10
    case Granted => 11
  }

  /** The reason recorded is the first, in the order of the tests, that is true of the state. */
  lemma ReasonIsFirst(p: Plane, q: Request, found: Option<Id>)
    ensures var reason := Decide(p, q, found).reason;
      && Place(q.surface, reason) <= 11
      && Claims(p, q, found, reason)
      && forall r | Place(q.surface, r) < Place(q.surface, reason) :: !Claims(p, q, found, r)
  {
    ReasonIsTrue(p, q, found);
    hide HasGrant, HasActiveMembership, Text.Strip, Text.StartsWith;
  }

  /** The scope recorded is the surface's own, unless the code or the permission is of the other's. The operator
      recorded is the one found once the lookup has succeeded, and the one asked for before. */
  lemma RowExactly(p: Plane, q: Request, found: Option<Id>)
    ensures var after := Authorize(p, q, found).0;
      && |after.audit| == |p.audit| + 1
      && var row := after.audit[|p.audit|];
         var own := if q.surface.Public? then TenantScope else PlatformScope;
         && (row.scope == own <==>
               row.reason != PublicRejectsPlatform && row.reason != ManagementRequiresPlatform
               && row.reason != ScopeMismatch)
         && row.tenant == (if row.scope == TenantScope then q.tenant else None)
         && row.operator == (if row.scope == TenantScope then None
                             else if q.surface.Management? && Place(q.surface, row.reason) > 6 then found
                             else q.operator)
  {
    hide HasGrant, HasActiveMembership, Text.Strip, Text.StartsWith;
  }

  // ---------- roles and members

  ghost predicate MayAdmin(p: Plane, caller: Id, tenant: Id, now: Time) {
    MayAct(p, Request(caller, "tenant.admin", Public, Some(tenant), None, now), None)
  }

  lemma RequireExactly(p: Plane, caller: Id, tenant: Id, now: Time)
    ensures var (a, ok) := Require(p, caller, tenant, now);
      (ok <==> MayAdmin(p, caller, tenant, now)) && a == p.(audit := a.audit)
  {
    hide MayAct, Authorize;
    AuthorizeExactly(p, Request(caller, "tenant.admin", Public, Some(tenant), None, now), None);
  }

  /** The principal has an active binding to the role in the tenant. */
  predicate Holds(p: Plane, principal: Id, role: Id, tenant: Id) {
    exists k | k in p.bindings :: p.bindings[k].active && p.bindings[k].principal == principal
      && p.bindings[k].role == role && p.bindings[k].tenant == Some(tenant)
  }

  predicate OffersRole(p: Plane, role: Id, tenant: Id) {
    role in p.roles && p.roles[role].active && p.roles[role].tenant == Some(tenant)
  }

  /** The principal that a grant is for: a user's, or an active one given by itself. */
  predicate IsGrantee(p: Plane, principal: Option<Id>, user: Option<Id>, who: Id) {
    if user.Some? then user.value in p.users && p.users[user.value].principal == who
    else principal == Some(who) && who in p.principals && p.principals[who].status == Active
  }

  /** A grant is accepted exactly from an administrator, of a role of the tenant, to a principal that does not
      hold it and, if it is a user's, to a member. */
  lemma GrantExactly(p: Plane, tenant: Id, role: Id, caller: Id, principal: Option<Id>, user: Option<Id>,
                     expires: Option<Time>, now: Time)
    requires Inv(p)
    ensures Grant(p, tenant, role, caller, principal, user, expires, now).1 == Done <==>
            && MayAdmin(p, caller, tenant, now) && OffersRole(p, role, tenant)
            && exists who :: IsGrantee(p, principal, user, who) && !Holds(p, who, role, tenant)
                             && forall u | HasPrincipal(p.users, u, who) :: IsMember(p.members, tenant, u)
  {
    RequireExactly(p, caller, tenant, now);
    var a := Require(p, caller, tenant, now).0;
    if role in p.roles {
      TenantRole(p, role);
    }
    OnePrincipal(p);
    hide Inv, Require, MayAct, AlreadyBound, IsMember, Holds, Bind, OffersRole;
    BindExactly(p, a, tenant, role, principal, user, expires, now);
  }

  lemma BindExactly(p: Plane, a: Plane, tenant: Id, role: Id, principal: Option<Id>, user: Option<Id>,
                    expires: Option<Time>, now: Time)
    requires a == p.(audit := a.audit)
    requires role in p.roles ==> p.roles[role].scope == TenantScope
    requires forall u, v | u in p.users && v in p.users && p.users[u].principal == p.users[v].principal :: u == v
    ensures Bind(a, tenant, role, principal, user, expires, now).1 == Done <==>
            && OffersRole(p, role, tenant)
            && exists who :: IsGrantee(p, principal, user, who) && !Holds(p, who, role, tenant)
                             && forall u | HasPrincipal(p.users, u, who) :: IsMember(p.members, tenant, u)
  {
    forall who: Id ensures AlreadyBound(p.bindings, who, role, tenant) <==> Holds(p, who, role, tenant) {
      BoundHolds(p, who, role, tenant);
    }
    hide AlreadyBound, IsMember, Holds;
    if exists w :: IsGrantee(p, principal, user, w) {
      var who :| IsGrantee(p, principal, user, who);
      assert forall w: Id | IsGrantee(p, principal, user, w) :: w == who;
      var target := if user.Some? then user else UserOf(p.users, who);
      assert forall u: Id | HasPrincipal(p.users, u, who) :: target == Some(u);
      assert target.Some? ==> HasPrincipal(p.users, target.value, who);
    } else {
      assert user.Some? && user.value in p.users ==> IsGrantee(p, principal, user, p.users[user.value].principal);
      assert principal.Some? ==> !IsGrantee(p, principal, user, principal.value);
    }
  }

  lemma OnePrincipal(p: Plane)
    requires Inv(p)
    ensures forall u, v | u in p.users && v in p.users && p.users[u].principal == p.users[v].principal :: u == v
  {
  }

  lemma BoundHolds(p: Plane, who: Id, role: Id, tenant: Id)
    ensures AlreadyBound(p.bindings, who, role, tenant) <==> Holds(p, who, role, tenant)
  {
  }

  /** An active binding to the tenant's administrator role; it may have expired. */
  predicate Administers(p: Plane, k: Id, tenant: Id) {
    && k in p.bindings && p.bindings[k].active && p.bindings[k].tenant == Some(tenant)
    && p.bindings[k].role in p.roles && p.roles[p.bindings[k].role].name == "tenant-admin"
    && p.roles[p.bindings[k].role].tenant == Some(tenant)
  }

  /** A revocation is accepted exactly from an administrator, of an active binding of the tenant, unless it is
      the only one to the administrator role. */
  lemma RevokeExactly(p: Plane, tenant: Id, role: Id, binding: Id, caller: Id, now: Time)
    requires Inv(p)
    ensures Revoke(p, tenant, role, binding, caller, now).1 == Done <==>
            && MayAdmin(p, caller, tenant, now)
            && binding in p.bindings && p.bindings[binding].active && p.bindings[binding].role == role
            && p.bindings[binding].tenant == Some(tenant)
            && (Administers(p, binding, tenant) ==> exists k :: k != binding && Administers(p, k, tenant))
  {
    RequireExactly(p, caller, tenant, now);
    if binding in p.bindings {
      BindingRole(p, binding);
    }
    UnbindExactly(p, Require(p, caller, tenant, now).0, tenant, role, binding, now);
    hide Inv, Require, MayAct, Administers, Unbind;
  }

  lemma UnbindExactly(p: Plane, a: Plane, tenant: Id, role: Id, binding: Id, now: Time)
    requires a == p.(audit := a.audit)
    requires binding in p.bindings ==>
               p.bindings[binding].role in p.roles
               && p.bindings[binding].tenant == p.roles[p.bindings[binding].role].tenant
    ensures Unbind(a, tenant, role, binding, now).1 == Done <==>
            && binding in p.bindings && p.bindings[binding].active && p.bindings[binding].role == role
            && p.bindings[binding].tenant == Some(tenant)
            && (Administers(p, binding, tenant) ==> exists k :: k != binding && Administers(p, k, tenant))
  {
    AdminsAdminister(p, tenant);
    AdministersIs(p, binding, tenant);
    hide Admins, Administers;
    var admins := Admins(p.roles, p.bindings, tenant);
    if |admins| > 1 {
      var k := Another(admins, binding);
      assert Administers(p, k, tenant);
    } else if k: Id :| k != binding && Administers(p, k, tenant) {
      if Administers(p, binding, tenant) {
        TwoIn(admins, binding, k);
      }
    }
  }

  lemma AdministersIs(p: Plane, k: Id, tenant: Id)
    ensures k in p.bindings && p.bindings[k].active && p.bindings[k].tenant == Some(tenant)
            && p.bindings[k].role in p.roles && p.roles[p.bindings[k].role].tenant == Some(tenant) ==>
              (Administers(p, k, tenant) <==> p.roles[p.bindings[k].role].name == TENANT_ADMIN)
  {
  }

  lemma BindingRole(p: Plane, k: Id)
    requires Inv(p) && k in p.bindings
    ensures p.bindings[k].role in p.roles && p.bindings[k].tenant == p.roles[p.bindings[k].role].tenant
  {
  }

  lemma TwoIn(s: set<Id>, j: Id, k: Id)
    requires j in s && k in s && j != k
    ensures |s| > 1
  {
    assert k in s - {j};
    assert |s - {j}| == |s| - 1;
  }

  /** A user is invited to a tenant exactly by an administrator, while active, of the tenant's organization
      and not yet a member, in a role that the tenant has. */
  lemma InviteTenantExactly(p: Plane, tenant: Id, caller: Id, u: Id, roleName: string, now: Time)
    requires Inv(p)
    ensures InviteTenant(p, tenant, caller, u, roleName, now).1 == Done <==>
            && MayAdmin(p, caller, tenant, now) && tenant in p.tenants && u in p.users && p.users[u].active
            && !Outside(p, p.tenants[tenant].org, u) && !IsMember(p.members, tenant, u)
            && exists role :: OffersRole(p, role, tenant) && p.roles[role].name == roleName
  {
    RequireExactly(p, caller, tenant, now);
    NoServerError(p, tenant, caller, u, roleName, now);
    hide *;
    var a := Require(p, caller, tenant, now).0;
    InvitedAs(p, tenant, caller, u, roleName, now);
    if MayAdmin(p, caller, tenant, now) {
      JoinExactly(p, a, tenant, u, roleName, now);
    }
  }

  lemma InvitedAs(p: Plane, tenant: Id, caller: Id, u: Id, roleName: string, now: Time)
    ensures var (a, ok) := Require(p, caller, tenant, now);
      InviteTenant(p, tenant, caller, u, roleName, now).1 ==
        if ok then Join(a, tenant, u, roleName, now).1 else Refused(Forbidden)
  {
    hide Require, Join;
  }

  lemma NoServerError(p: Plane, tenant: Id, caller: Id, u: Id, roleName: string, now: Time)
    requires Inv(p)
    ensures InviteTenant(p, tenant, caller, u, roleName, now).1 != Refused(ServerError)
  {
    hide *;
    InviteShape(p, tenant, caller, u, roleName, now);
  }

  lemma JoinExactly(p: Plane, a: Plane, tenant: Id, u: Id, roleName: string, now: Time)
    requires a == p.(audit := a.audit) && Join(a, tenant, u, roleName, now).1 != Refused(ServerError)
    ensures Join(a, tenant, u, roleName, now).1 == Done <==>
            && tenant in p.tenants && u in p.users && p.users[u].active
            && !Outside(p, p.tenants[tenant].org, u) && !IsMember(p.members, tenant, u)
            && exists role :: OffersRole(p, role, tenant) && p.roles[role].name == roleName
  {
    RoleFound(p, tenant, roleName);
    hide AlreadyBound, IsMember, FindRole, IsRole, OffersRole;
  }

  lemma RoleFound(p: Plane, tenant: Id, roleName: string)
    ensures FindRole(p.roles, tenant, roleName).Some? <==>
            exists role :: OffersRole(p, role, tenant) && p.roles[role].name == roleName
  {
    if role :| OffersRole(p, role, tenant) && p.roles[role].name == roleName {
      assert IsRole(p.roles, role, tenant, roleName);
    }
    var found := FindRole(p.roles, tenant, roleName);
    if found.Some? {
      assert OffersRole(p, found.value, tenant);
    }
  }

  /** A member is removed exactly by an administrator, unless nobody else holds the administrator role. Then
      the membership and the user's bindings in the tenant end, and nothing else changes. */
  lemma RemoveTenantExactly(p: Plane, tenant: Id, caller: Id, u: Id, now: Time)
    requires Inv(p)
    ensures var (q, out) := RemoveTenant(p, tenant, caller, u, now);
      && (out == Done <==>
            && MayAdmin(p, caller, tenant, now) && IsMember(p.members, tenant, u)
            && !OnlyAdmin(p, tenant, u))
      && (out == Done ==>
            && u in p.users && q == p.(members := p.members[(tenant, u) := false], bindings := q.bindings,
                                       audit := q.audit)
            && q.bindings.Keys == p.bindings.Keys
            && forall k | k in p.bindings ::
                q.bindings[k] ==
                  if p.bindings[k].active && p.bindings[k].principal == p.users[u].principal
                     && p.bindings[k].tenant == Some(tenant)
                  then p.bindings[k].(active := false, revokedAt := Some(now)) else p.bindings[k])
  {
    RemoveOutcome(p, tenant, caller, u, now);
    RemoveShape(p, tenant, caller, u, now);
    hide Inv, RemoveTenant, MayAct, OnlyAdmin, IsMember;
  }

  lemma RemoveOutcome(p: Plane, tenant: Id, caller: Id, u: Id, now: Time)
    requires Inv(p)
    ensures RemoveTenant(p, tenant, caller, u, now).1 == Done <==>
            MayAdmin(p, caller, tenant, now) && IsMember(p.members, tenant, u) && !OnlyAdmin(p, tenant, u)
  {
    RequireExactly(p, caller, tenant, now);
    MemberUser(p, tenant, u);
    if u in p.users {
      OnlyAdminIs(p, Require(p, caller, tenant, now).0, tenant, u);
    }
    hide Inv, Require, MayAct, LastAdmin, OnlyAdmin, IsMember;
  }

  lemma MemberUser(p: Plane, tenant: Id, u: Id)
    requires Inv(p)
    ensures IsMember(p.members, tenant, u) ==> u in p.users
  {
  }

  /** The user's principal administers the tenant, and nobody else does. */
  ghost predicate OnlyAdmin(p: Plane, tenant: Id, u: Id)
  {
    && u in p.users
    && (exists k :: Administers(p, k, tenant) && p.bindings[k].principal == p.users[u].principal)
    && forall k | Administers(p, k, tenant) :: p.bindings[k].principal == p.users[u].principal
  }

  lemma AdminsAdminister(p: Plane, tenant: Id)
    ensures forall k :: k in Admins(p.roles, p.bindings, tenant) <==> Administers(p, k, tenant)
  {
  }

  lemma OnlyAdminIs(p: Plane, a: Plane, tenant: Id, u: Id)
    requires Inv(p) && a == p.(audit := a.audit) && u in p.users
    ensures LastAdmin(a, tenant, u) <==> OnlyAdmin(p, tenant, u)
  {
    SameLast(p, a, tenant, u);
    hide Inv, LastAdmin, OnlyAdmin, HasAdmin;
    if HasAdmin(p, tenant) {
      SomeLast(p, tenant, u);
    } else {
      NoneLast(p, tenant, u);
    }
  }

  lemma SomeLast(p: Plane, tenant: Id, u: Id)
    requires Inv(p) && HasAdmin(p, tenant) && u in p.users
    ensures LastAdmin(p, tenant, u) <==> OnlyAdmin(p, tenant, u)
  {
    AdminRoleIs(p, tenant);
    OneBinding(p);
    hide *;
    OnlyOne(p, tenant, u);
    LastOf(p, tenant, u, tenant + 1);
  }

  lemma AdminRoleIs(p: Plane, tenant: Id)
    requires Inv(p) && HasAdmin(p, tenant)
    ensures FindRole(p.roles, tenant, TENANT_ADMIN) == Some(tenant + 1)
    ensures Admins(p.roles, p.bindings, tenant) == BindingsOn(p.bindings, tenant + 1, tenant)
  {
    AdminSeeds(p, tenant);
    hide *;
    AdminRole(p, tenant);
  }

  lemma SameLast(p: Plane, a: Plane, tenant: Id, u: Id)
    requires a == p.(audit := a.audit)
    ensures LastAdmin(a, tenant, u) <==> LastAdmin(p, tenant, u)
  {
  }

  lemma LastOf(p: Plane, tenant: Id, u: Id, role: Id)
    requires u in p.users && FindRole(p.roles, tenant, TENANT_ADMIN) == Some(role)
    ensures LastAdmin(p, tenant, u) <==>
            AlreadyBound(p.bindings, p.users[u].principal, role, tenant) && |BindingsOn(p.bindings, role, tenant)| <= 1
  {
    hide FindRole, AlreadyBound, BindingsOn;
  }

  lemma NoneLast(p: Plane, tenant: Id, u: Id)
    requires !HasAdmin(p, tenant) && u in p.users
    ensures !LastAdmin(p, tenant, u) && !OnlyAdmin(p, tenant, u)
  {
    AdminsAdminister(p, tenant);
    hide Admins, BindingsOn, FindRole, AlreadyBound, Administers;
    var role := FindRole(p.roles, tenant, TENANT_ADMIN);
    if role.Some? && AlreadyBound(p.bindings, p.users[u].principal, role.value, tenant) {
      BoundAdmin(p, tenant, p.users[u].principal, role.value);
    }
  }

  lemma BoundAdmin(p: Plane, tenant: Id, principal: Id, role: Id)
    requires FindRole(p.roles, tenant, TENANT_ADMIN) == Some(role) && AlreadyBound(p.bindings, principal, role, tenant)
    ensures HasAdmin(p, tenant)
  {
    hide FindRole;
    var k :| k in p.bindings && ActiveBinding(p.bindings[k], principal, role, tenant);
    assert IsRole(p.roles, role, tenant, TENANT_ADMIN);
    assert k in Admins(p.roles, p.bindings, tenant);
  }

  lemma OneBinding(p: Plane)
    requires Inv(p)
    ensures OneActive(p.bindings)
  {
  }

  /** One administrator's binding at most, and the user's: the user's, and nobody else's. */
  lemma OnlyOne(p: Plane, tenant: Id, u: Id)
    requires OneActive(p.bindings) && u in p.users
    requires Admins(p.roles, p.bindings, tenant) == BindingsOn(p.bindings, tenant + 1, tenant)
    ensures OnlyAdmin(p, tenant, u) <==>
            AlreadyBound(p.bindings, p.users[u].principal, tenant + 1, tenant)
            && |BindingsOn(p.bindings, tenant + 1, tenant)| <= 1
  {
    AdminsAdminister(p, tenant);
    AdministersBinding(p, tenant);
    hide Administers, Admins;
    var principal := p.users[u].principal;
    var admins := BindingsOn(p.bindings, tenant + 1, tenant);
    if AlreadyBound(p.bindings, principal, tenant + 1, tenant) {
      var j :| j in p.bindings && ActiveBinding(p.bindings[j], principal, tenant + 1, tenant);
      assert j in admins;
      if |admins| <= 1 {
        forall k | Administers(p, k, tenant) ensures k == j {
          if k != j {
            TwoIn(admins, j, k);
          }
        }
      } else {
        var k := Another(admins, j);
        assert Administers(p, k, tenant);
      }
    }
  }

  lemma AdministersBinding(p: Plane, tenant: Id)
    ensures forall k | Administers(p, k, tenant) :: k in p.bindings
  {
  }

  // ---------- organizations and upgrades

  /** A member of an organization, or one invited, is removed exactly by an owner other than that member. Then
      the user is out of the organization and its tenants, with no binding in them, and nothing else changes. */
  lemma RemoveOrgExactly(p: Plane, org: Id, caller: Id, u: Id, now: Time)
    requires Inv(p)
    ensures var (q, out) := RemoveOrg(p, org, caller, u, now);
      && (out == Done <==>
            && org in p.orgs && RowOf(p, org, caller) == Some(OrgMembership(Owner, Joined))
            && caller != u && !Outside(p, org, u))
      && (out != Done ==> q == p)
      && (out == Done ==>
            && q == p.(orgMembers := p.orgMembers[(org, u) := OrgMembership(RowOf(p, org, u).value.role, Removed)],
                       members := q.members, bindings := q.bindings)
            && (forall t, v :: IsMember(q.members, t, v) <==>
                  IsMember(p.members, t, v) && !(v == u && t in p.tenants && p.tenants[t].org == org))
            && q.bindings.Keys == p.bindings.Keys
            && forall k | k in p.bindings :: q.bindings[k] == if RunsOut(p, k, org, u)
                 then p.bindings[k].(active := false, revokedAt := Some(now)) else p.bindings[k])
  {
    forall t ensures IsMember(p.members, t, u) ==> u in p.users {
      MemberUser(p, t, u);
    }
    RemoveOrgOutcome(p, org, caller, u, now);
    hide Inv, RemoveOrg, Outside;
    if RemoveOrg(p, org, caller, u, now).1 == Done {
      LeftAll(p, org, u);
      LostBindings(p, org, u, now);
      hide IsMember, RunsOut;
    }
  }

  lemma RemoveOrgOutcome(p: Plane, org: Id, caller: Id, u: Id, now: Time)
    ensures var (q, out) := RemoveOrg(p, org, caller, u, now);
      && (out == Done <==>
            && org in p.orgs && RowOf(p, org, caller) == Some(OrgMembership(Owner, Joined))
            && caller != u && !Outside(p, org, u))
      && (out != Done ==> q == p)
      && (out == Done ==>
            && q == p.(orgMembers := p.orgMembers[(org, u) := OrgMembership(RowOf(p, org, u).value.role, Removed)],
                       members := q.members, bindings := q.bindings)
            && q.members == (if u in p.users then LeaveAll(p.members, TenantsOf(p.tenants, org), u) else p.members)
            && q.bindings == if u in p.users then
                 RevokeIn(p.bindings, p.users[u].principal, TenantsOf(p.tenants, org), now) else p.bindings)
  {
    hide LeaveAll, TenantsOf, RevokeIn;
  }

  lemma LeftAll(p: Plane, org: Id, u: Id)
    ensures var members := LeaveAll(p.members, TenantsOf(p.tenants, org), u);
      forall t, v :: IsMember(members, t, v) <==>
        IsMember(p.members, t, v) && !(v == u && t in p.tenants && p.tenants[t].org == org)
  {
  }

  lemma LostBindings(p: Plane, org: Id, u: Id, now: Time)
    ensures u in p.users ==>
      var bindings := RevokeIn(p.bindings, p.users[u].principal, TenantsOf(p.tenants, org), now);
      && bindings.Keys == p.bindings.Keys
      && forall k | k in p.bindings :: bindings[k] ==
           if RunsOut(p, k, org, u) then p.bindings[k].(active := false, revokedAt := Some(now)) else p.bindings[k]
    ensures u !in p.users ==> forall k | k in p.bindings :: !RunsOut(p, k, org, u)
  {
  }

  /** An active binding of the user in a tenant of the organization. */
  predicate RunsOut(p: Plane, k: Id, org: Id, u: Id)
    requires k in p.bindings
  {
    var b := p.bindings[k];
    b.active && u in p.users && b.principal == p.users[u].principal
    && b.tenant.Some? && b.tenant.value in p.tenants && p.tenants[b.tenant.value].org == org
  }

  /** An upgrade is asked for exactly by an owner of an active organization that is still an individual's. */
  lemma SubmitUpgradeExactly(p: Plane, org: Id, u: Id, valid: bool)
    requires Inv(p)
    ensures var (q, out) := SubmitUpgrade(p, org, u, valid);
      && (out == Done <==>
            && valid && RowOf(p, org, u) == Some(OrgMembership(Owner, Joined)) && u in p.users
            && org in p.orgs && p.orgs[org].active && p.orgs[org].individual)
      && q == if out == Done then p.(nextId := p.nextId + 1, upgrades := p.upgrades[p.nextId := Upgrade(org, u, None)])
              else p
  {
  }

  /** An attempt at an upgrade succeeds exactly if it has before, or holds out now. Then the organization is
      active and no longer an individual's, and has a new tenant, of which whoever asked is the first member
      and administrator. */
  lemma AttemptExactly(p: Plane, r: Id, commits: bool, now: Time)
    requires Inv(p)
    ensures var (q, out) := AttemptUpgrade(p, r, commits, now);
      && (out == Done <==> r in p.upgrades && (p.upgrades[r].tenant.Some? || commits))
      && (out == Done && p.upgrades[r].tenant.None? ==>
            var org, u, t := p.upgrades[r].org, p.upgrades[r].user, p.nextId;
            && org in p.orgs && q.orgs == p.orgs[org := Org(p.orgs[org].isOperator, true, false)]
            && q.upgrades == p.upgrades[r := Upgrade(org, u, Some(t))]
            && q.tenants == p.tenants[t := Tenant(org, true)] && q.members == p.members[(t, u) := true]
            && u in p.users && t + 1 in q.roles && q.roles[t + 1] == SystemRole(t, "tenant-admin", ADMIN_CODES)
            && q.bindings == p.bindings[t + 4 := NewBinding(p.users[u].principal, t + 1, t, now, None)])
      && (out != Done || p.upgrades[r].tenant.Some? ==> q == p)
  {
    UpgradesKnown(p);
    hide Inv, Completed, ADMIN_CODES, NewBinding, SystemRole;
    if r in p.upgrades {
      CompletedRows(p, r, now);
    }
  }

  lemma CompletedRows(p: Plane, r: Id, now: Time)
    requires r in p.upgrades && p.upgrades[r].user in p.users && p.upgrades[r].org in p.orgs
    ensures var q := Completed(p, r, now);
      var org, u, t := p.upgrades[r].org, p.upgrades[r].user, p.nextId;
      && q.orgs == p.orgs[org := Org(p.orgs[org].isOperator, true, false)]
      && q.upgrades == p.upgrades[r := Upgrade(org, u, Some(t))]
      && q.tenants == p.tenants[t := Tenant(org, true)] && q.members == p.members[(t, u) := true]
      && t + 1 in q.roles && q.roles[t + 1] == SystemRole(t, "tenant-admin", ADMIN_CODES)
      && q.bindings == p.bindings[t + 4 := NewBinding(p.users[u].principal, t + 1, t, now, None)]
  {
    SeededRoles(p.roles, p.nextId);
    hide SeedRoles, ADMIN_CODES, NewBinding, SystemRole;
  }

  lemma UpgradesKnown(p: Plane)
    requires Inv(p)
    ensures forall r | r in p.upgrades :: p.upgrades[r].user in p.users && p.upgrades[r].org in p.orgs
  {
  }

  /** The user is an active member of a tenant outside the operator's organizations. */
  ghost predicate Served(p: Plane, u: Id) {
    exists t | t in p.tenants :: IsMember(p.members, t, u) && p.tenants[t].org in p.orgs
        && !p.orgs[p.tenants[t].org].isOperator
  }

  /** A new organization that the user owns, with a tenant that the user is a member of, and no roles. */
  function Opened(p: Plane, u: Id): Plane {
    p.(nextId := p.nextId + 2, orgs := p.orgs[p.nextId := Org(false, true, false)],
       orgMembers := p.orgMembers[(p.nextId, u) := OrgMembership(Owner, Joined)],
       tenants := p.tenants[p.nextId + 1 := Tenant(p.nextId, true)], members := p.members[(p.nextId + 1, u) := true])
  }

  /** A tenant is opened for a user exactly by the operator, for a known address; for a user who has none yet,
      under a new organization that the user owns. */
  lemma ProvisionExactly(p: Plane, operator: bool, email: string)
    requires Inv(p)
    ensures var (q, out) := Provision(p, operator, email);
      && (out == Done <==> operator && Text.Strip(email) != "" && exists u :: Named(p, u, email))
      && (out != Done ==> q == p)
      && forall u | out == Done && Named(p, u, email) :: q == if Served(p, u) then p else Opened(p, u)
  {
    var address := Text.Lower(Text.Strip(email));
    assert address == "" <==> Text.Strip(email) == "" by {
      assert |address| == |Text.Strip(email)|;
    }
    NamedOnce(p, email);
    ProvisionCases(p, operator, email);
    hide Inv, Text.Lower, Text.Strip, Provision, Named, Served, Opened;
    var found := UserByEmail(p.users, address);
    if found.Some? {
      assert Named(p, found.value, email);
    }
  }

  lemma NamedOnce(p: Plane, email: string)
    requires Inv(p)
    ensures forall u: Id :: Named(p, u, email) <==> UserByEmail(p.users, Text.Lower(Text.Strip(email))) == Some(u)
  {
    var address := Text.Lower(Text.Strip(email));
    OneAddress(p, address);
    hide Inv, Text.Lower, Text.Strip;
    assert forall u :: Named(p, u, email) <==> HasEmail(p.users, u, address);
    hide HasEmail, Named;
  }

  lemma ProvisionCases(p: Plane, operator: bool, email: string)
    ensures var (q, out) := Provision(p, operator, email);
      var address := Text.Lower(Text.Strip(email));
      var found := UserByEmail(p.users, address);
      && (out == Done <==> operator && address != "" && found.Some?)
      && (out != Done ==> q == p)
      && (out == Done ==> q == if Served(p, found.value) then p else Opened(p, found.value))
  {
    hide Text.Lower, Text.Strip, UserByEmail;
    forall u: Id ensures HasTenant(p, u) <==> Served(p, u) {
    }
    hide HasTenant, Served;
  }

  /** A tenant is suspended or reinstated exactly by the operator, while it is on or off; a suspension spares
      the operator's own. Tenant and organization are switched together. */
  lemma SwitchExactly(p: Plane, cmd: Command)
    requires Inv(p) && (cmd.DoSuspendTenant? || cmd.DoReinstateTenant?)
    ensures var (q, out) := Apply(p, cmd);
      var t, on := cmd.tenant, cmd.DoReinstateTenant?;
      && (out == Done <==>
            && cmd.operator && t in p.tenants && p.tenants[t].active != on
            && (on || !p.orgs[p.tenants[t].org].isOperator))
      && (out != Done ==> q == p)
      && (out == Done ==>
            && t in q.tenants && q.tenants[t] == Tenant(p.tenants[t].org, on)
            && q == p.(tenants := p.tenants[t := q.tenants[t]], orgs := q.orgs)
            && q.orgs == p.orgs[p.tenants[t].org := p.orgs[p.tenants[t].org].(active := on)])
  {
    TenantsOrg(p);
    SuspensionShape(p, cmd);
    hide Inv, Bootstrap, Grant, Revoke, InviteTenant, RemoveTenant, InviteOrg, AcceptOrg, RemoveOrg, Provision,
         SubmitUpgrade, AttemptUpgrade, Authorize, UserByEmail, Text.Lower;
  }

  lemma TenantsOrg(p: Plane)
    requires Inv(p)
    ensures forall t | t in p.tenants :: p.tenants[t].org in p.orgs
  {
  }
}
