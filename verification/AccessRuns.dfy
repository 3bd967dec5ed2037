/** Last administrators, removals and suspensions over every run of calls on the access plane. */
module AccessRuns {
  import opened Errors
  import opened Access
  import opened AccessLaws
  import Text

  ghost function Run(p: Plane, cmds: seq<Command>): Plane
    decreases |cmds|
  {
    if cmds == [] then p else Apply(Run(p, cmds[..|cmds| - 1]), cmds[|cmds| - 1]).0
  }

  lemma {:induction false} RunKeeps(p: Plane, cmds: seq<Command>)
    requires Inv(p)
    ensures Inv(Run(p, cmds))
    decreases |cmds|
  {
    hide Inv, Apply;
    if cmds != [] {
      RunKeeps(p, cmds[..|cmds| - 1]);
      StepKeeps(Run(p, cmds[..|cmds| - 1]), cmds[|cmds| - 1]);
    }
  }

  /** Over every run of member operations, every organization keeps an active owner. */
  lemma OwnersKept(cmds: seq<Command>, org: Id)
    requires org in Run(EMPTY, cmds).orgs
    ensures exists u :: IsOwner(Run(EMPTY, cmds), org, u)
  {
    EmptyOk();
    RunKeeps(EMPTY, cmds);
    var z := Run(EMPTY, cmds);
    assert HasOwner(z.orgMembers, org);
    var u :| (org, u) in z.orgMembers && z.orgMembers[(org, u)] == OrgMembership(Owner, Joined);
    assert IsOwner(z, org, u);
  }

  // ---------- the audit log

  predicate Asks(cmd: Command) {
    cmd.DoAuthorize? || cmd.DoGrant? || cmd.DoRevoke? || cmd.DoInviteTenant? || cmd.DoRemoveTenant?
  }

  /** Every call that asks for a decision adds one row with that decision, whatever becomes of the
      rest of the call, and is forbidden exactly when the row is a denial; no other call adds any. */
  lemma AuditStep(p: Plane, cmd: Command)
    requires Inv(p)
    ensures var (q, out) := Apply(p, cmd);
      if Asks(cmd) then
        && |q.audit| == |p.audit| + 1 && q.audit[..|p.audit|] == p.audit
        && (out == Refused(Forbidden) <==> !q.audit[|p.audit|].allowed)
      else q.audit == p.audit
  {
    hide Inv, Grant, Revoke, InviteTenant, RemoveTenant, Authorize;
    match cmd
    case DoAuthorize(request, found) => AuthorizeExactly(p, request, found);
    case DoGrant(tenant, role, caller, principal, user, expires, now) =>
      GrantAsks(p, tenant, role, caller, principal, user, expires, now);
    case DoRevoke(tenant, role, binding, caller, now) => RevokeAsks(p, tenant, role, binding, caller, now);
    case DoInviteTenant(tenant, caller, user, roleName, now) => InviteAsks(p, tenant, caller, user, roleName, now);
    case DoRemoveTenant(tenant, caller, user, now) => RemoveAsks(p, tenant, caller, user, now);
    case _ => StepStable(p, cmd);
  }

  /** One more row, and the outcome is forbidden exactly when it is a denial. */
  ghost predicate AskedOnce(p: Plane, q: Plane, out: Outcome) {
    && |q.audit| == |p.audit| + 1 && q.audit[..|p.audit|] == p.audit
    && (out == Refused(Forbidden) <==> !q.audit[|p.audit|].allowed)
  }

  lemma GrantAsks(p: Plane, tenant: Id, role: Id, caller: Id, principal: Option<Id>, user: Option<Id>,
                  expires: Option<Time>, now: Time)
    ensures var (q, out) := Grant(p, tenant, role, caller, principal, user, expires, now); AskedOnce(p, q, out)
  {
    hide Require, AlreadyBound, UserOf;
    RequireRow(p, caller, tenant, now);
  }

  lemma RevokeAsks(p: Plane, tenant: Id, role: Id, binding: Id, caller: Id, now: Time)
    ensures var (q, out) := Revoke(p, tenant, role, binding, caller, now); AskedOnce(p, q, out)
  {
    hide Require, Admins;
    RequireRow(p, caller, tenant, now);
  }

  lemma InviteAsks(p: Plane, tenant: Id, caller: Id, u: Id, roleName: string, now: Time)
    ensures var (q, out) := InviteTenant(p, tenant, caller, u, roleName, now); AskedOnce(p, q, out)
  {
    hide Require, AlreadyBound, FindRole;
    RequireRow(p, caller, tenant, now);
  }

  lemma RemoveAsks(p: Plane, tenant: Id, caller: Id, u: Id, now: Time)
    ensures var (q, out) := RemoveTenant(p, tenant, caller, u, now); AskedOnce(p, q, out)
  {
    hide Require, AlreadyBound, FindRole, BindingsOn, RevokeIn;
    RequireRow(p, caller, tenant, now);
  }

  lemma RequireRow(p: Plane, caller: Id, tenant: Id, now: Time)
    ensures var (q, ok) := Require(p, caller, tenant, now);
      && |q.audit| == |p.audit| + 1 && q.audit[..|p.audit|] == p.audit && q.audit[|p.audit|].allowed == ok
  {
    AuthorizeExactly(p, Request(caller, "tenant.admin", Public, Some(tenant), None, now), None);
  }

  lemma BootstrapFrame(p: Plane, email: string, now: Time)
    ensures Bootstrap(p, email, now).audit == p.audit
    ensures Bootstrap(p, email, now) == OpenTenant(WithAccount(p, email), p.nextId + 2, p.nextId + 1, now)
  {
  }

  // ---------- what a call leaves as it was

  /** Users keep their principal and address. */
  ghost predicate UsersStable(a: map<Id, User>, b: map<Id, User>) {
    forall u | u in a :: u in b && b[u].principal == a[u].principal && b[u].email == a[u].email
  }

  /** Tenants keep their organization, and only their suspension and reinstatement switch them. */
  ghost predicate TenantsStable(a: map<Id, Tenant>, b: map<Id, Tenant>, cmd: Command) {
    forall t | t in a :: t in b && b[t].org == a[t].org
      && (b[t].active == a[t].active
          || ((cmd.DoSuspendTenant? || cmd.DoReinstateTenant?) && cmd.tenant == t
              && b[t].active == cmd.DoReinstateTenant?))
  }

  /** Only an invitation makes a user a member of an existing tenant. */
  ghost predicate MembersStable(tenants: map<Id, Tenant>, a: map<(Id, Id), bool>, b: map<(Id, Id), bool>,
                                cmd: Command) {
    forall t, u | t in tenants && IsMember(b, t, u) && !IsMember(a, t, u) :: cmd.DoInviteTenant? && cmd.tenant == t
        && cmd.user == u
  }

  /** An invitation to the organization that reaches the address. */
  predicate Reinvites(cmd: Command, org: Id, email: string) {
    cmd.DoInviteOrg? && cmd.org == org && Text.Lower(Text.Strip(cmd.email)) == email
  }

  /** Only an invitation brings a removed member back into an organization. */
  ghost predicate OrgStable(users: map<Id, User>, a: map<(Id, Id), OrgMembership>, b: map<(Id, Id), OrgMembership>,
                            cmd: Command) {
    forall o, u | u in users && (o, u) in a && a[(o, u)].status == Removed ::
      (o, u) in b && (b[(o, u)].status == Removed || Reinvites(cmd, o, users[u].email))
  }

  ghost predicate Stable(p: Plane, cmd: Command, q: Plane) {
    && UsersStable(p.users, q.users)
    && TenantsStable(p.tenants, q.tenants, cmd)
    && MembersStable(p.tenants, p.members, q.members, cmd)
    && OrgStable(p.users, p.orgMembers, q.orgMembers, cmd)
    && (Asks(cmd) || q.audit == p.audit)
  }

  lemma SameStable(p: Plane, cmd: Command, q: Plane)
    requires q.users == p.users && q.tenants == p.tenants && q.members == p.members && q.orgMembers == p.orgMembers
    requires Asks(cmd) || q.audit == p.audit
    ensures Stable(p, cmd, q)
  {
  }

  lemma OpenStable(p: Plane, cmd: Command, org: Id, u: Id, now: Time)
    requires u in p.users && p.nextId !in p.tenants && !Asks(cmd)
    ensures Stable(p, cmd, OpenTenant(p, org, u, now))
  {
    hide OpenTenant, IsMember, Asks;
    OpenFrame(p, org, u, now);
    JoinedOnly(p.members, p.nextId, u);
  }

  lemma CompletedFrame(p: Plane, r: Id, now: Time)
    requires r in p.upgrades && p.upgrades[r].user in p.users && p.upgrades[r].org in p.orgs
    ensures var x, q, t := p.upgrades[r], Completed(p, r, now), p.nextId;
      && q.tenants == p.tenants[t := Tenant(x.org, true)] && q.members == p.members[(t, x.user) := true]
      && q.upgrades == p.upgrades[r := x.(tenant := Some(t))]
      && q.users == p.users && q.orgMembers == p.orgMembers && q.principals == p.principals
          && q.orgs.Keys == p.orgs.Keys
  {
    OpenFrame(p, p.upgrades[r].org, p.upgrades[r].user, now);
    OpenUpgrades(p, p.upgrades[r].org, p.upgrades[r].user, now);
    OpenPrincipals(p, p.upgrades[r].org, p.upgrades[r].user, now);
    hide OpenTenant;
  }

  lemma OpenPrincipals(p: Plane, org: Id, u: Id, now: Time)
    requires u in p.users
    ensures OpenTenant(p, org, u, now).principals == p.principals
  {
  }

  lemma CompletedStable(p: Plane, cmd: Command, r: Id, now: Time)
    requires Inv(p) && r in p.upgrades && p.upgrades[r].user in p.users && p.upgrades[r].org in p.orgs
        && cmd.DoAttemptUpgrade?
    ensures Stable(p, cmd, Completed(p, r, now))
  {
    hide Inv, OpenTenant, Stable;
    BelowNext(p);
    OpenStable(p, cmd, p.upgrades[r].org, p.upgrades[r].user, now);
    SameTables(p, cmd, OpenTenant(p, p.upgrades[r].org, p.upgrades[r].user, now), Completed(p, r, now));
  }

  lemma SameTables(p: Plane, cmd: Command, q: Plane, r: Plane)
    requires Stable(p, cmd, q) && r == q.(orgs := r.orgs, upgrades := r.upgrades)
    ensures Stable(p, cmd, r)
  {
    hide UsersStable, TenantsStable, MembersStable, OrgStable;
  }

  lemma JoinedOnly(members: map<(Id, Id), bool>, t: Id, u: Id)
    ensures forall s, v | IsMember(members[(t, u) := true], s, v) && !IsMember(members, s, v) :: s == t && v == u
  {
  }

  lemma AccountStable(p: Plane, cmd: Command, email: string)
    requires Inv(p) && !Asks(cmd)
    ensures Stable(p, cmd, WithAccount(p, email))
  {
    hide Inv, Asks, IsMember, Text.Lower, Text.Strip, Reinvites;
    BelowNext(p);
  }

  lemma BootstrapStable(p: Plane, cmd: Command, email: string, now: Time)
    requires Inv(p) && cmd.DoBootstrap?
    ensures Stable(p, cmd, Bootstrap(p, email, now))
  {
    hide Inv, Bootstrap, OpenTenant, Stable;
    BelowNext(p);
    BootstrapFrame(p, email, now);
    AccountStable(p, cmd, email);
    OpenStable(WithAccount(p, email), cmd, p.nextId + 2, p.nextId + 1, now);
    StableTrans(p, cmd, WithAccount(p, email), Bootstrap(p, email, now));
  }

  lemma StableTrans(p: Plane, cmd: Command, q: Plane, r: Plane)
    requires Stable(p, cmd, q) && Stable(q, cmd, r) && cmd.DoBootstrap?
    ensures Stable(p, cmd, r)
  {
    hide IsMember, Text.Lower, Text.Strip;
  }

  lemma AccessStable(p: Plane, cmd: Command, u: Id, status: PrincipalStatus)
    requires !Asks(cmd)
    ensures Stable(p, cmd, SetAccess(p, u, status))
  {
    SetAccessFrame(p, u, status);
    hide SetAccess, Asks;
  }

  lemma InviteStable(p: Plane, tenant: Id, caller: Id, u: Id, roleName: string, now: Time)
    requires Inv(p)
    ensures Stable(p, DoInviteTenant(tenant, caller, u, roleName, now),
                   InviteTenant(p, tenant, caller, u, roleName, now).0)
  {
    hide Inv, InviteTenant, IsRole, InOrg, IsMember, Stable;
    InviteShape(p, tenant, caller, u, roleName, now);
    JoinedOnly(p.members, tenant, u);
    MembersOnly(p, DoInviteTenant(tenant, caller, u, roleName, now),
                InviteTenant(p, tenant, caller, u, roleName, now).0);
  }

  lemma RemoveStable(p: Plane, tenant: Id, caller: Id, u: Id, now: Time)
    requires Inv(p)
    ensures Stable(p, DoRemoveTenant(tenant, caller, u, now), RemoveTenant(p, tenant, caller, u, now).0)
  {
    hide Inv, RemoveTenant, IsMember, Stable;
    RemoveTables(p, tenant, caller, u, now);
    LeftOnly(p.members, tenant, u);
    MembersOnly(p, DoRemoveTenant(tenant, caller, u, now), RemoveTenant(p, tenant, caller, u, now).0);
  }

  lemma LeftOnly(members: map<(Id, Id), bool>, t: Id, u: Id)
    ensures forall s, v | IsMember(members[(t, u) := false], s, v) :: IsMember(members, s, v)
  {
  }

  lemma MembersOnly(p: Plane, cmd: Command, q: Plane)
    requires q.users == p.users && q.tenants == p.tenants && q.orgMembers == p.orgMembers && Asks(cmd)
    requires MembersStable(p.tenants, p.members, q.members, cmd)
    ensures Stable(p, cmd, q)
  {
    hide MembersStable;
  }

  lemma InviteOrgStable(p: Plane, cmd: Command)
    requires Inv(p) && cmd.DoInviteOrg?
    ensures Stable(p, cmd, InviteOrg(p, cmd.org, cmd.owner, cmd.email, cmd.orgRole).0)
  {
    hide Inv, InviteOrg, IsMember, Text.Lower, Text.Strip;
    InviteOrgShape(p, cmd.org, cmd.owner, cmd.email, cmd.orgRole);
  }

  lemma AcceptStable(p: Plane, cmd: Command)
    requires cmd.DoAcceptOrg?
    ensures Stable(p, cmd, AcceptOrg(p, cmd.org, cmd.user).0)
  {
    hide AcceptOrg, IsMember, Reinvites;
    AcceptOrgShape(p, cmd.org, cmd.user);
  }

  lemma RemoveOrgStable(p: Plane, cmd: Command)
    requires cmd.DoRemoveOrg?
    ensures Stable(p, cmd, RemoveOrg(p, cmd.org, cmd.owner, cmd.user, cmd.now).0)
  {
    hide RemoveOrg, IsMember, Reinvites;
    RemoveOrgShape(p, cmd.org, cmd.owner, cmd.user, cmd.now);
  }

  lemma SuspensionStable(p: Plane, cmd: Command)
    requires cmd.DoSuspendTenant? || cmd.DoReinstateTenant?
    ensures Stable(p, cmd, Apply(p, cmd).0)
  {
    hide Apply, IsMember, Reinvites;
    SuspensionShape(p, cmd);
  }

  lemma GrantTables(p: Plane, tenant: Id, role: Id, caller: Id, principal: Option<Id>, user: Option<Id>,
                    expires: Option<Time>, now: Time)
    ensures var q := Grant(p, tenant, role, caller, principal, user, expires, now).0;
      q.users == p.users && q.tenants == p.tenants && q.members == p.members && q.orgMembers == p.orgMembers
  {
    hide Require, Bind;
    RequireTables(p, caller, tenant, now);
    BindTables(Require(p, caller, tenant, now).0, tenant, role, principal, user, expires, now);
  }

  lemma RequireTables(p: Plane, caller: Id, tenant: Id, now: Time)
    ensures var q := Require(p, caller, tenant, now).0; q == p.(audit := q.audit)
  {
    hide Decide, RowFor;
  }

  lemma BindTables(p: Plane, tenant: Id, role: Id, principal: Option<Id>, user: Option<Id>, expires: Option<Time>,
                   now: Time)
    ensures var q := Bind(p, tenant, role, principal, user, expires,
                          now).0; q == p.(nextId := q.nextId, bindings := q.bindings)
  {
    hide AlreadyBound, IsMember, UserOf, NewBinding, Require, HasPrincipal;
    var q := Bind(p, tenant, role, principal, user, expires, now).0;
    assert q == p || q == p.(nextId := q.nextId, bindings := q.bindings);
  }

  lemma LeaveTables(p: Plane, tenant: Id, u: Id, now: Time)
    ensures var q := Leave(p, tenant, u, now).0;
      && q == p.(members := q.members, bindings := q.bindings)
      && (q.members == p.members || q.members == p.members[(tenant, u) := false])
  {
    hide AlreadyBound, IsMember, FindRole, BindingsOn, RevokeIn;
  }

  lemma RemoveTables(p: Plane, tenant: Id, caller: Id, u: Id, now: Time)
    ensures var q := RemoveTenant(p, tenant, caller, u, now).0;
      && q.users == p.users && q.tenants == p.tenants && q.orgMembers == p.orgMembers
      && (q.members == p.members || q.members == p.members[(tenant, u) := false])
  {
    hide Require, Leave;
    RequireTables(p, caller, tenant, now);
    LeaveTables(Require(p, caller, tenant, now).0, tenant, u, now);
  }

  lemma GrantStable(p: Plane, tenant: Id, role: Id, caller: Id, principal: Option<Id>, user: Option<Id>,
                    expires: Option<Time>, now: Time)
    requires Inv(p)
    ensures Stable(p, DoGrant(tenant, role, caller, principal, user, expires, now),
                   Grant(p, tenant, role, caller, principal, user, expires, now).0)
  {
    hide Inv, Grant, Stable;
    GrantTables(p, tenant, role, caller, principal, user, expires, now);
    SameStable(p, DoGrant(tenant, role, caller, principal, user, expires, now),
               Grant(p, tenant, role, caller, principal, user, expires, now).0);
  }

  lemma RevokeStable(p: Plane, tenant: Id, role: Id, binding: Id, caller: Id, now: Time)
    ensures Stable(p, DoRevoke(tenant, role, binding, caller, now), Revoke(p, tenant, role, binding, caller, now).0)
  {
    hide Revoke, Admins, OnlyRevokes, Stable;
    RevokeShape(p, tenant, role, binding, caller, now);
    SameStable(p, DoRevoke(tenant, role, binding, caller, now), Revoke(p, tenant, role, binding, caller, now).0);
  }

  lemma StepStable(p: Plane, cmd: Command)
    requires Inv(p)
    ensures Stable(p, cmd, Apply(p, cmd).0)
  {
    hide Inv, Stable, Apply;
    if cmd.DoBootstrap? || cmd.DoSubmitUpgrade? || cmd.DoAttemptUpgrade? || cmd.DoSetAccess? || cmd.DoAddService?
       || cmd.DoProvision? {
      AccountStepStable(p, cmd);
    } else if cmd.DoInviteOrg? || cmd.DoAcceptOrg? || cmd.DoRemoveOrg? || cmd.DoSuspendTenant?
              || cmd.DoReinstateTenant? {
      OrgStepStable(p, cmd);
    } else {
      RoleStepStable(p, cmd);
    }
  }

  lemma AccountStepStable(p: Plane, cmd: Command)
    requires Inv(p)
    requires cmd.DoBootstrap? || cmd.DoSubmitUpgrade? || cmd.DoAttemptUpgrade? || cmd.DoSetAccess? || cmd.DoAddService?
             || cmd.DoProvision?
    ensures Stable(p, cmd, Apply(p, cmd).0)
  {
    hide Inv, Stable, Bootstrap, OpenTenant, SetAccess, Provision, SubmitUpgrade, AttemptUpgrade, Text.Lower,
         UserByEmail;
    SameStable(p, cmd, p);
    match cmd
    case DoBootstrap(email, now) => BootstrapStable(p, cmd, email, now);
    case DoSubmitUpgrade(org, user, valid) => SubmitStable(p, cmd, org, user, valid);
    case DoAttemptUpgrade(upgrade, commits, now) => AttemptStable(p, cmd, upgrade, commits, now);
    case DoSetAccess(user, status) => AccessStable(p, cmd, user, status);
    case DoAddService(_) => SameStable(p, cmd, Apply(p, cmd).0);
    case DoProvision(operator, email) => ProvisionCallStable(p, cmd, operator, email);
  }

  lemma OrgStepStable(p: Plane, cmd: Command)
    requires Inv(p)
    requires cmd.DoInviteOrg? || cmd.DoAcceptOrg? || cmd.DoRemoveOrg? || cmd.DoSuspendTenant? || cmd.DoReinstateTenant?
    ensures Stable(p, cmd, Apply(p, cmd).0)
  {
    hide Inv, Stable, InviteOrg, AcceptOrg, RemoveOrg, SuspendTenant, ReinstateTenant;
    match cmd
    case DoInviteOrg(_, _, _, _) => InviteOrgStable(p, cmd);
    case DoAcceptOrg(_, _) => AcceptStable(p, cmd);
    case DoRemoveOrg(_, _, _, _) => RemoveOrgStable(p, cmd);
    case DoSuspendTenant(_, _) => SuspensionStable(p, cmd);
    case DoReinstateTenant(_, _) => SuspensionStable(p, cmd);
  }

  lemma RoleStepStable(p: Plane, cmd: Command)
    requires Inv(p)
    requires cmd.DoAuthorize? || cmd.DoGrant? || cmd.DoRevoke? || cmd.DoInviteTenant? || cmd.DoRemoveTenant?
    ensures Stable(p, cmd, Apply(p, cmd).0)
  {
    hide Inv, Stable, Decide, Grant, Revoke, InviteTenant, RemoveTenant;
    match cmd
    case DoAuthorize(_, _) => SameStable(p, cmd, Apply(p, cmd).0);
    case DoGrant(tenant, role, caller, principal, user, expires, now) =>
      GrantStable(p, tenant, role, caller, principal, user, expires, now);
    case DoRevoke(tenant, role, binding, caller, now) => RevokeStable(p, tenant, role, binding, caller, now);
    case DoInviteTenant(tenant, caller, user, roleName, now) => InviteStable(p, tenant, caller, user, roleName, now);
    case DoRemoveTenant(tenant, caller, user, now) => RemoveStable(p, tenant, caller, user, now);
  }

  lemma SubmitStable(p: Plane, cmd: Command, org: Id, u: Id, valid: bool)
    requires !Asks(cmd)
    ensures Stable(p, cmd, SubmitUpgrade(p, org, u, valid).0)
  {
    hide Stable;
    SameStable(p, cmd, SubmitUpgrade(p, org, u, valid).0);
  }

  lemma AttemptStable(p: Plane, cmd: Command, r: Id, commits: bool, now: Time)
    requires Inv(p) && cmd.DoAttemptUpgrade?
    ensures Stable(p, cmd, AttemptUpgrade(p, r, commits, now).0)
  {
    hide Inv, Stable, Completed;
    SameStable(p, cmd, p);
    if AttemptUpgrade(p, r, commits, now).0 != p {
      CompletedStable(p, cmd, r, now);
    }
  }

  lemma ProvisionCallStable(p: Plane, cmd: Command, operator: bool, email: string)
    requires Inv(p) && cmd.DoProvision?
    ensures Stable(p, cmd, Provision(p, operator, email).0)
  {
    hide Inv, Stable, Provision, Provisioned, Text.Lower, Text.Strip, UserByEmail;
    SameStable(p, cmd, p);
    ProvisionShape(p, operator, email);
    if Provision(p, operator, email).0 != p {
      ProvisionStable(p, cmd, UserByEmail(p.users, Text.Lower(Text.Strip(email))).value);
    }
  }

  lemma ProvisionStable(p: Plane, cmd: Command, u: Id)
    requires Inv(p) && u in p.users && cmd.DoProvision?
    ensures Stable(p, cmd, Provisioned(p, u))
  {
    BelowNext(p);
    MembersOfOrgs(p);
    JoinedOnly(p.members, p.nextId + 1, u);
    hide Inv, IsMember, Reinvites;
  }

  lemma MembersOfOrgs(p: Plane)
    requires Inv(p)
    ensures forall m | m in p.orgMembers :: m.0 < p.nextId
  {
    hide UsersOk, RolesOk, BindingsOk, OneActive, BoundAreMembers, MembersOk, PermissionsOk, HasOwner;
  }

  lemma OpenFrame(p: Plane, org: Id, u: Id, now: Time)
    requires u in p.users
    ensures var q := OpenTenant(p, org, u, now);
      q.users == p.users && q.orgMembers == p.orgMembers && q.audit == p.audit
      && q.tenants == p.tenants[p.nextId := Tenant(org, true)] && q.members == p.members[(p.nextId, u) := true]
  {
  }

  lemma SetAccessFrame(p: Plane, u: Id, status: PrincipalStatus)
    ensures var q := SetAccess(p, u, status); q == p.(users := q.users, principals := q.principals)
    ensures forall v | v in p.users :: v in SetAccess(p, u, status).users
              && SetAccess(p, u, status).users[v].principal == p.users[v].principal
                  && SetAccess(p, u, status).users[v].email == p.users[v].email
  {
  }

  lemma InviteOrgShape(p: Plane, org: Id, caller: Id, email: string, role: Option<OrgRole>)
    ensures var (q, out) := InviteOrg(p, org, caller, email, role);
      && q == p.(orgMembers := q.orgMembers)
      && (q.orgMembers == p.orgMembers
          || exists u :: HasEmail(p.users, u, Text.Lower(Text.Strip(email)))
              && q.orgMembers.Keys == p.orgMembers.Keys + {(org, u)}
                         && forall k | k in p.orgMembers && k != (org, u) :: q.orgMembers[k] == p.orgMembers[k])
  {
    hide Text.Lower, Text.Strip, InOrg;
    var (q, out) := InviteOrg(p, org, caller, email, role);
    if out == Done {
      var u := UserByEmail(p.users, Text.Lower(Text.Strip(email))).value;
      assert HasEmail(p.users, u, Text.Lower(Text.Strip(email))) && q.orgMembers.Keys == p.orgMembers.Keys + {(org, u)};
    }
  }

  lemma AcceptOrgShape(p: Plane, org: Id, u: Id)
    ensures var (q, out) := AcceptOrg(p, org, u);
      if out != Done then q == p
      else
        && (org, u) in p.orgMembers && p.orgMembers[(org, u)].status == Invited
        && q == p.(orgMembers := p.orgMembers[(org, u) := p.orgMembers[(org, u)].(status := Joined)])
  {
  }

  lemma RemoveOrgShape(p: Plane, org: Id, caller: Id, u: Id, now: Time)
    ensures var (q, out) := RemoveOrg(p, org, caller, u, now);
      && q == p.(orgMembers := q.orgMembers, members := q.members, bindings := q.bindings)
      && (out != Done ==> q == p)
      && (out == Done ==> (org, u) in p.orgMembers
                          && q.orgMembers == p.orgMembers[(org, u) := p.orgMembers[(org, u)].(status := Removed)])
      && forall t, v :: IsMember(q.members, t, v) ==> IsMember(p.members, t, v)
  {
    hide RevokeIn, TenantsOf;
  }

  // ---------- the last administrator

  ghost predicate HasAdmin(p: Plane, tenant: Id) {
    exists k :: k in Admins(p.roles, p.bindings, tenant)
  }

  /** An administrator's binding of someone else. */
  ghost predicate HasOtherAdmin(p: Plane, tenant: Id, principal: Id) {
    exists k :: k in Admins(p.roles, p.bindings, tenant) && p.bindings[k].principal != principal
  }

  /** A call that has removed a user from the organization of the tenant. */
  ghost predicate TakesOut(p: Plane, cmd: Command, tenant: Id) {
    cmd.DoRemoveOrg? && Apply(p, cmd).1 == Done && tenant in p.tenants && p.tenants[tenant].org == cmd.org
        && cmd.user in p.users
  }

  /** A set of more than one element has another one. */
  lemma Another(s: set<Id>, k: Id) returns (j: Id)
    requires |s| > 1
    ensures j in s && j != k
  {
    if k in s {
      assert |s - {k}| == |s| - 1;
      j :| j in s - {k};
    } else {
      j :| j in s;
    }
  }

  /** The administrator role is the one found by name, and its bindings are the administrators. */
  lemma AdminRole(p: Plane, t: Id)
    requires Inv(p) && Seeded(p.roles, t)
    ensures FindRole(p.roles, t, TENANT_ADMIN) == Some(t + 1)
    ensures forall k | k in p.bindings ::
        k in Admins(p.roles, p.bindings, t) <==> ActiveBinding(p.bindings[k], p.bindings[k].principal, t + 1, t)
    ensures Admins(p.roles, p.bindings, t) == BindingsOn(p.bindings, t + 1, t)
  {
    hide Inv, OneName, BindingsOk, Seeded;
    OneNameOf(p);
    AdminRoleOnly(p.roles, t);
    AdminBindings(p.principals, p.roles, p.bindings, t);
  }

  lemma OneNameOf(p: Plane)
    requires Inv(p)
    ensures OneName(p.roles) && BindingsOk(p.principals, p.roles, p.bindings)
  {
    hide IdsOk, UsersOk, OneActive, BoundAreMembers, OwnersOk, MembersOk, PermissionsOk, OneName, Seeded, BindingsOk;
  }

  lemma AdminRoleOnly(roles: map<Id, Role>, t: Id)
    requires OneName(roles) && Seeded(roles, t)
    ensures FindRole(roles, t, TENANT_ADMIN) == Some(t + 1)
    ensures t + 1 in roles && roles[t + 1].name == TENANT_ADMIN && roles[t + 1].tenant == Some(t)
    ensures forall r | r in roles && roles[r].name == TENANT_ADMIN && roles[r].tenant == Some(t) :: r == t + 1
  {
    hide SystemRole;
    AdminRoleFields(t);
    assert IsRole(roles, t + 1, t, TENANT_ADMIN);
  }

  lemma AdminBindings(principals: map<Id, Principal>, roles: map<Id, Role>, bindings: map<Id, Binding>, t: Id)
    requires BindingsOk(principals, roles, bindings)
    requires t + 1 in roles && roles[t + 1].name == TENANT_ADMIN && roles[t + 1].tenant == Some(t)
    requires forall r | r in roles && roles[r].name == TENANT_ADMIN && roles[r].tenant == Some(t) :: r == t + 1
    ensures Admins(roles, bindings, t) == BindingsOn(bindings, t + 1, t)
    ensures forall k | k in bindings ::
        k in Admins(roles, bindings, t) <==> ActiveBinding(bindings[k], bindings[k].principal, t + 1, t)
  {
    hide BindingsOk;
    forall k | k in bindings ensures IsAdmin(roles, bindings[k], t)
        <==> ActiveBinding(bindings[k], bindings[k].principal, t + 1, t) {
    }
  }

  lemma AdminSeeds(p: Plane, t: Id)
    requires Inv(p) && HasAdmin(p, t)
    ensures Seeded(p.roles, t)
  {
    hide IdsOk, UsersOk, OneActive, BoundAreMembers, OwnersOk, MembersOk, BindingsOk, PermissionsOk, OneName;
  }

  lemma AdminRoleFields(t: Id)
    ensures var role := SystemRole(t, TENANT_ADMIN, ADMIN_CODES);
      role.tenant == Some(t) && role.name == TENANT_ADMIN && role.active
  {
  }

  /** Administrators are the same as long as the old roles and the tenant's active bindings are. */
  lemma SameAdmins(p: Plane, q: Plane, t: Id, k: Id)
    requires k in Admins(p.roles, p.bindings, t)
    requires k in q.bindings && q.bindings[k] == p.bindings[k]
    requires forall r | r in p.roles :: r in q.roles && q.roles[r] == p.roles[r]
    ensures k in Admins(q.roles, q.bindings, t) && HasAdmin(q, t)
  {
  }

  lemma RevokeKeepsAdmin(p: Plane, tenant: Id, role: Id, binding: Id, caller: Id, now: Time, t: Id)
    requires Inv(p) && t in p.tenants && HasAdmin(p, t)
    ensures HasAdmin(Revoke(p, tenant, role, binding, caller, now).0, t)
  {
    hide Inv, Revoke;
    RevokeShape(p, tenant, role, binding, caller, now);
    var q := Revoke(p, tenant, role, binding, caller, now).0;
    var k :| k in Admins(p.roles, p.bindings, t);
    if q.bindings != p.bindings && k == binding {
      k := Another(Admins(p.roles, p.bindings, t), k);
    }
    hide Admins;
    AdminsAreBindings(p, t);
    SameAdmins(p, q, t, k);
  }

  lemma AdminsAreBindings(p: Plane, t: Id)
    ensures forall k | k in Admins(p.roles, p.bindings, t) :: k in p.bindings
  {
  }

  lemma RemoveKeepsAdmin(p: Plane, tenant: Id, caller: Id, u: Id, now: Time, t: Id)
    requires Inv(p) && t in p.tenants && HasAdmin(p, t)
    ensures HasAdmin(RemoveTenant(p, tenant, caller, u, now).0, t)
  {
    hide Inv, RemoveTenant, IsAdmin, Admins, BindingsOn;
    RemoveShape(p, tenant, caller, u, now);
    AdminSeeds(p, t);
    AdminRole(p, t);
    AdminsAreBindings(p, t);
    var q := RemoveTenant(p, tenant, caller, u, now).0;
    var k :| k in Admins(p.roles, p.bindings, t);
    if q.bindings != p.bindings && tenant == t && p.bindings[k].principal == p.users[u].principal {
      assert ActiveBinding(p.bindings[k], p.users[u].principal, t + 1, t);
      RemoveGuard(p, tenant, caller, u, now, t + 1);
      var j := Another(Admins(p.roles, p.bindings, t), k);
      NotTheSame(p, j, k);
      k := j;
    }
    if q.bindings != p.bindings {
      Spared(p.bindings, p.users[u].principal, {tenant}, now, k);
    }
    SameAdmins(p, q, t, k);
  }

  lemma NotTheSame(p: Plane, j: Id, k: Id)
    requires Inv(p) && j in p.bindings && k in p.bindings && j != k && p.bindings[j].active && p.bindings[k].active
    requires p.bindings[j].role == p.bindings[k].role && p.bindings[j].tenant == p.bindings[k].tenant
    ensures p.bindings[j].principal != p.bindings[k].principal
  {
    hide IdsOk, UsersOk, RolesOk, BindingsOk, BoundAreMembers, OwnersOk, MembersOk, PermissionsOk;
  }

  lemma Spared(bindings: map<Id, Binding>, principal: Id, tenants: set<Id>, now: Time, k: Id)
    requires k in bindings
        && (bindings[k].principal != principal || bindings[k].tenant.None? || bindings[k].tenant.value !in tenants)
    ensures k in RevokeIn(bindings, principal, tenants, now)
        && RevokeIn(bindings, principal, tenants, now)[k] == bindings[k]
  {
  }

  /** Removing a user from an organization leaves a tenant of it with an administrator exactly when
      someone else is one: this call does not count administrators. */
  lemma RemoveOrgAdmins(p: Plane, org: Id, caller: Id, u: Id, now: Time, t: Id)
    requires Inv(p) && t in p.tenants && p.tenants[t].org == org && u in p.users
    requires RemoveOrg(p, org, caller, u, now).1 == Done
    ensures HasAdmin(RemoveOrg(p, org, caller, u, now).0, t) <==> HasOtherAdmin(p, t, p.users[u].principal)
  {
    hide Inv;
    var q := RemoveOrg(p, org, caller, u, now).0;
    var principal := p.users[u].principal;
    forall k ensures k in Admins(q.roles, q.bindings, t) <==>
        k in Admins(p.roles, p.bindings, t) && p.bindings[k].principal != principal {
      if k in p.bindings && IsAdmin(p.roles, p.bindings[k], t) && p.bindings[k].principal != principal {
        Spared(p.bindings, principal, TenantsOf(p.tenants, org), now, k);
      }
    }
  }

  lemma OtherRemoveOrg(p: Plane, org: Id, caller: Id, u: Id, now: Time, t: Id)
    requires HasAdmin(p, t) && (t !in p.tenants || p.tenants[t].org != org || u !in p.users)
    ensures HasAdmin(RemoveOrg(p, org, caller, u, now).0, t)
  {
    var q := RemoveOrg(p, org, caller, u, now).0;
    var k :| k in Admins(p.roles, p.bindings, t);
    if u in p.users {
      Spared(p.bindings, p.users[u].principal, TenantsOf(p.tenants, org), now, k);
    }
    SameAdmins(p, q, t, k);
  }

  lemma OpenedAdmin(p: Plane, org: Id, u: Id, now: Time, t: Id)
    requires u in p.users
    requires (forall k | k in p.bindings :: k < p.nextId) && (forall k | k in p.roles :: k < p.nextId)
    requires HasAdmin(p, t) || t == p.nextId
    ensures HasAdmin(OpenTenant(p, org, u, now), t)
  {
    var q := OpenTenant(p, org, u, now);
    SeededRoles(p.roles, p.nextId);
    if t == p.nextId {
      assert t + 4 in Admins(q.roles, q.bindings, t);
    } else {
      var k :| k in Admins(p.roles, p.bindings, t);
      SameAdmins(p, q, t, k);
    }
  }

  lemma CompletedAdmin(p: Plane, r: Id, now: Time, t: Id)
    requires Inv(p) && r in p.upgrades && p.upgrades[r].user in p.users && p.upgrades[r].org in p.orgs
    requires HasAdmin(p, t) || t == p.nextId
    ensures HasAdmin(Completed(p, r, now), t)
  {
    hide Inv, OpenTenant, Admins;
    BelowNext(p);
    OpenedAdmin(p, p.upgrades[r].org, p.upgrades[r].user, now, t);
  }

  lemma BelowNext(p: Plane)
    requires Inv(p)
    ensures forall k | k in p.bindings :: k < p.nextId
    ensures forall k | k in p.roles :: k < p.nextId
    ensures forall k | k in p.tenants :: k < p.nextId
    ensures forall k | k in p.users :: k < p.nextId
    ensures forall k | k in p.principals :: k < p.nextId
  {
  }

  lemma BootstrapAdmin(p: Plane, email: string, now: Time, t: Id)
    requires Inv(p) && UserByEmail(p.users, Text.Lower(email)).None?
    requires HasAdmin(p, t) || t == p.nextId + 3
    ensures HasAdmin(Bootstrap(p, email, now), t)
  {
    hide Inv, Bootstrap, OpenTenant, Text.Lower, HasAdmin;
    BelowNext(p);
    BootstrapFrame(p, email, now);
    var q := WithAccount(p, email);
    if HasAdmin(p, t) {
      AccountAdmin(p, email, t);
    }
    OpenedAdmin(q, p.nextId + 2, p.nextId + 1, now, t);
  }

  lemma AccountAdmin(p: Plane, email: string, t: Id)
    requires HasAdmin(p, t)
    ensures HasAdmin(WithAccount(p, email), t)
  {
    hide Admins, Text.Lower;
    assert WithAccount(p, email).roles == p.roles && WithAccount(p, email).bindings == p.bindings;
  }

  lemma GrantKeepsAdmin(p: Plane, tenant: Id, role: Id, caller: Id, principal: Option<Id>, user: Option<Id>,
                        expires: Option<Time>, now: Time, t: Id)
    requires Inv(p) && HasAdmin(p, t)
    ensures HasAdmin(Grant(p, tenant, role, caller, principal, user, expires, now).0, t)
  {
    hide Inv, Grant, AlreadyBound, Admins;
    BelowNext(p);
    AdminsAreBindings(p, t);
    GrantShape(p, tenant, role, caller, principal, user, expires, now);
    var k :| k in Admins(p.roles, p.bindings, t);
    SameAdmins(p, Grant(p, tenant, role, caller, principal, user, expires, now).0, t, k);
  }

  lemma InviteKeepsAdmin(p: Plane, tenant: Id, caller: Id, u: Id, roleName: string, now: Time, t: Id)
    requires Inv(p) && HasAdmin(p, t)
    ensures HasAdmin(InviteTenant(p, tenant, caller, u, roleName, now).0, t)
  {
    hide Inv, InviteTenant, Admins, InOrg, IsRole;
    BelowNext(p);
    AdminsAreBindings(p, t);
    InviteShape(p, tenant, caller, u, roleName, now);
    var k :| k in Admins(p.roles, p.bindings, t);
    SameAdmins(p, InviteTenant(p, tenant, caller, u, roleName, now).0, t, k);
  }

  lemma OthersKeepAdmin(p: Plane, cmd: Command, t: Id)
    requires HasAdmin(p, t)
    requires cmd.DoSetAccess? || cmd.DoAddService? || cmd.DoAuthorize? || cmd.DoInviteOrg? || cmd.DoAcceptOrg?
             || cmd.DoSuspendTenant? || cmd.DoReinstateTenant? || cmd.DoProvision? || cmd.DoSubmitUpgrade?
    ensures HasAdmin(Apply(p, cmd).0, t)
  {
    hide Decide, RowFor, Bootstrap, OpenTenant, Grant, Revoke, InviteTenant, RemoveTenant, RemoveOrg, UserByEmail,
         Text.Lower, Text.Strip, Admins;
    assert Apply(p, cmd).0.roles == p.roles && Apply(p, cmd).0.bindings == p.bindings;
  }

  /** A tenant with an administrator keeps one through every call, but for a removal from its
      organization, which keeps one exactly when someone else is an administrator too. */
  lemma AdminStep(p: Plane, cmd: Command, t: Id)
    requires Inv(p) && t in p.tenants && HasAdmin(p, t)
    ensures HasAdmin(Apply(p, cmd).0, t) <==> (TakesOut(p, cmd, t) ==> HasOtherAdmin(p, t, p.users[cmd.user].principal))
  {
    hide Inv, HasAdmin, HasOtherAdmin, Bootstrap, OpenTenant, Decide, Grant, Revoke, InviteTenant, RemoveTenant,
         InviteOrg, AcceptOrg, RemoveOrg, SuspendTenant, ReinstateTenant, Text.Lower, UserByEmail;
    match cmd
    case DoBootstrap(email, now) =>
      if UserByEmail(p.users, Text.Lower(email)).None? {
        BootstrapAdmin(p, email, now, t);
      }
    case DoAttemptUpgrade(upgrade, commits, now) =>
      if AttemptUpgrade(p, upgrade, commits, now).0 != p {
        CompletedAdmin(p, upgrade, now, t);
      }
    case DoGrant(tenant, role, caller, principal, user, expires, now) =>
      GrantKeepsAdmin(p, tenant, role, caller, principal, user, expires, now, t);
    case DoInviteTenant(tenant, caller, user, roleName, now) =>
      InviteKeepsAdmin(p, tenant, caller, user, roleName, now, t);
    case DoRevoke(tenant, role, binding, caller, now) => RevokeKeepsAdmin(p, tenant, role, binding, caller, now, t);
    case DoRemoveTenant(tenant, caller, user, now) => RemoveKeepsAdmin(p, tenant, caller, user, now, t);
    case DoRemoveOrg(org, owner, user, now) =>
      if TakesOut(p, cmd, t) {
        RemoveOrgAdmins(p, org, owner, user, now, t);
      } else {
        RefusedRemoval(p, org, owner, user, now);
        if RemoveOrg(p, org, owner, user, now).1 == Done {
          OtherRemoveOrg(p, org, owner, user, now, t);
        }
      }
    case _ => OthersKeepAdmin(p, cmd, t);
  }

  lemma RefusedRemoval(p: Plane, org: Id, owner: Id, user: Id, now: Time)
    ensures RemoveOrg(p, org, owner, user, now).1 != Done ==> RemoveOrg(p, org, owner, user, now).0 == p
  {
  }

  /** The tenant has no roles, and so nobody administers it. */
  ghost predicate Bare(p: Plane, t: Id) {
    t in p.tenants && forall r | r in p.roles :: p.roles[r].tenant != Some(t)
  }

  /** Tenants are only ever added, each with an administrator unless the operator has opened it. */
  lemma TenantStep(p: Plane, cmd: Command, t: Id)
    requires Inv(p)
    ensures t in p.tenants ==> t in Apply(p, cmd).0.tenants && Apply(p, cmd).0.tenants[t].org == p.tenants[t].org
    ensures t in Apply(p, cmd).0.tenants && t !in p.tenants ==>
              if cmd.DoProvision? then Bare(Apply(p, cmd).0, t) else HasAdmin(Apply(p, cmd).0, t)
  {
    hide Inv, HasAdmin, Apply, Bare;
    StepStable(p, cmd);
    if t in Apply(p, cmd).0.tenants && t !in p.tenants {
      if cmd.DoProvision? {
        ProvisionedBare(p, cmd, t);
      } else {
        NewTenant(p, cmd, t);
      }
    }
  }

  lemma ProvisionedBare(p: Plane, cmd: Command, t: Id)
    requires Inv(p) && cmd.DoProvision? && t in Apply(p, cmd).0.tenants && t !in p.tenants
    ensures Bare(Apply(p, cmd).0, t)
  {
    assert forall r | r in p.roles :: p.roles[r].tenant != Some(t) by { NoRolesYet(p.tenants, p.roles, t); }
    hide Inv, Text.Lower, Text.Strip, UserByEmail, Provision;
    ProvisionShape(p, cmd.operator, cmd.email);
  }

  lemma NewTenant(p: Plane, cmd: Command, t: Id)
    requires Inv(p) && t in Apply(p, cmd).0.tenants && t !in p.tenants && !cmd.DoProvision?
    ensures HasAdmin(Apply(p, cmd).0, t)
  {
    hide Inv, HasAdmin, Apply;
    if cmd.DoBootstrap? {
      BootstrapTenant(p, cmd.email, cmd.now, t);
    } else if cmd.DoAttemptUpgrade? {
      AttemptTenant(p, cmd.upgrade, cmd.commits, cmd.now, t);
    } else {
      OnlyOpened(p, cmd, t);
    }
  }

  lemma BootstrapTenant(p: Plane, email: string, now: Time, t: Id)
    requires Inv(p) && t in Apply(p, DoBootstrap(email, now)).0.tenants && t !in p.tenants
    ensures HasAdmin(Apply(p, DoBootstrap(email, now)).0, t)
  {
    hide Inv, HasAdmin, Bootstrap, OpenTenant, Text.Lower, UserByEmail;
    BootstrapFrame(p, email, now);
    OpenFrame(WithAccount(p, email), p.nextId + 2, p.nextId + 1, now);
    BootstrapAdmin(p, email, now, t);
  }

  lemma AttemptTenant(p: Plane, r: Id, commits: bool, now: Time, t: Id)
    requires Inv(p) && t in Apply(p, DoAttemptUpgrade(r, commits, now)).0.tenants && t !in p.tenants
    ensures HasAdmin(Apply(p, DoAttemptUpgrade(r, commits, now)).0, t)
  {
    hide Inv, HasAdmin, Completed;
    CompletedFrame(p, r, now);
    CompletedAdmin(p, r, now, p.nextId);
  }

  lemma OnlyOpened(p: Plane, cmd: Command, t: Id)
    requires Inv(p) && !cmd.DoBootstrap? && !cmd.DoAttemptUpgrade? && !cmd.DoProvision?
    ensures t in Apply(p, cmd).0.tenants ==> t in p.tenants
  {
    if cmd.DoSubmitUpgrade? {
      SubmitFrame(p, cmd.org, cmd.user, cmd.valid);
    } else {
      OnlyTenants(p, cmd);
      hide Inv, Apply;
    }
  }

  lemma SubmitFrame(p: Plane, org: Id, u: Id, valid: bool)
    ensures var q := SubmitUpgrade(p, org, u, valid).0; q == p.(nextId := q.nextId, upgrades := q.upgrades)
  {
  }

  ghost predicate SameTenancy(p: Plane, q: Plane) {
    q.tenants.Keys == p.tenants.Keys && q.roles == p.roles && q.upgrades == p.upgrades
  }

  lemma TenancyKept(p: Plane, q: Plane)
    requires q == p.(users := q.users, principals := q.principals, orgs := q.orgs, orgMembers := q.orgMembers,
                     members := q.members,
                     bindings := q.bindings, services := q.services, audit := q.audit, nextId := q.nextId)
    ensures SameTenancy(p, q)
  {
  }

  lemma GrantTenancy(p: Plane, tenant: Id, role: Id, caller: Id, principal: Option<Id>, user: Option<Id>,
                     expires: Option<Time>, now: Time)
    requires Inv(p)
    ensures SameTenancy(p, Grant(p, tenant, role, caller, principal, user, expires, now).0)
  {
    hide Inv, Grant, AlreadyBound, IsMember, SameTenancy;
    GrantShape(p, tenant, role, caller, principal, user, expires, now);
    TenancyKept(p, Grant(p, tenant, role, caller, principal, user, expires, now).0);
  }

  lemma RevokeTenancy(p: Plane, tenant: Id, role: Id, binding: Id, caller: Id, now: Time)
    ensures SameTenancy(p, Revoke(p, tenant, role, binding, caller, now).0)
  {
    hide Revoke, OnlyRevokes, Admins, SameTenancy;
    RevokeShape(p, tenant, role, binding, caller, now);
    TenancyKept(p, Revoke(p, tenant, role, binding, caller, now).0);
  }

  lemma InviteTenancy(p: Plane, tenant: Id, caller: Id, u: Id, roleName: string, now: Time)
    requires Inv(p)
    ensures SameTenancy(p, InviteTenant(p, tenant, caller, u, roleName, now).0)
  {
    hide Inv, InviteTenant, IsRole, InOrg, IsMember, SameTenancy;
    InviteShape(p, tenant, caller, u, roleName, now);
    TenancyKept(p, InviteTenant(p, tenant, caller, u, roleName, now).0);
  }

  lemma RemoveTenancy(p: Plane, tenant: Id, caller: Id, u: Id, now: Time)
    requires Inv(p)
    ensures SameTenancy(p, RemoveTenant(p, tenant, caller, u, now).0)
  {
    hide Inv, RemoveTenant, IsMember, FindRole, AlreadyBound, BindingsOn, RevokeIn, SameTenancy;
    RemoveShape(p, tenant, caller, u, now);
    TenancyKept(p, RemoveTenant(p, tenant, caller, u, now).0);
  }

  lemma SuspensionTenancy(p: Plane, cmd: Command)
    requires cmd.DoSuspendTenant? || cmd.DoReinstateTenant?
    ensures SameTenancy(p, Apply(p, cmd).0)
  {
    hide Apply;
    SuspensionShape(p, cmd);
  }

  /** Apart from the calls that open a tenant, none adds one or changes a role. */
  lemma OnlyTenants(p: Plane, cmd: Command)
    requires Inv(p) && !cmd.DoBootstrap? && !cmd.DoSubmitUpgrade? && !cmd.DoAttemptUpgrade? && !cmd.DoProvision?
    ensures SameTenancy(p, Apply(p, cmd).0)
  {
    hide Inv, SameTenancy, Bootstrap, OpenTenant, Grant, Revoke, InviteTenant, RemoveTenant, InviteOrg, AcceptOrg,
         RemoveOrg, SuspendTenant, ReinstateTenant, SetAccess, Provision, Decide, RowFor, Text.Lower, UserByEmail;
    match cmd
    case DoSetAccess(user, status) =>
      SetAccessFrame(p, user, status);
      TenancyKept(p, SetAccess(p, user, status));
    case DoGrant(tenant, role, caller, principal, user, expires, now) =>
      GrantTenancy(p, tenant, role, caller, principal, user, expires, now);
    case DoRevoke(tenant, role, binding, caller, now) => RevokeTenancy(p, tenant, role, binding, caller, now);
    case DoInviteTenant(tenant, caller, user, roleName, now) => InviteTenancy(p, tenant, caller, user, roleName, now);
    case DoRemoveTenant(tenant, caller, user, now) => RemoveTenancy(p, tenant, caller, user, now);
    case DoInviteOrg(org, owner, email, orgRole) => InviteOrgTenancy(p, org, owner, email, orgRole);
    case DoAcceptOrg(org, user) => AcceptOrgTenancy(p, org, user);
    case DoRemoveOrg(org, owner, user, now) => RemoveOrgTenancy(p, org, owner, user, now);
    case DoSuspendTenant(_, _) => SuspensionTenancy(p, cmd);
    case DoReinstateTenant(_, _) => SuspensionTenancy(p, cmd);
    case _ => TenancyKept(p, Apply(p, cmd).0);
  }

  lemma InviteOrgTenancy(p: Plane, org: Id, owner: Id, email: string, role: Option<OrgRole>)
    ensures SameTenancy(p, InviteOrg(p, org, owner, email, role).0)
  {
    hide InviteOrg, Text.Lower, Text.Strip;
    InviteOrgShape(p, org, owner, email, role);
  }

  lemma AcceptOrgTenancy(p: Plane, org: Id, u: Id)
    ensures SameTenancy(p, AcceptOrg(p, org, u).0)
  {
  }

  lemma RemoveOrgTenancy(p: Plane, org: Id, owner: Id, u: Id, now: Time)
    ensures SameTenancy(p, RemoveOrg(p, org, owner, u, now).0)
  {
    hide RemoveOrg;
    RemoveOrgShape(p, org, owner, u, now);
  }

  /** No call gives roles to a tenant that has none. */
  lemma BareStep(p: Plane, cmd: Command, t: Id)
    requires Inv(p) && Bare(p, t)
    ensures Bare(Apply(p, cmd).0, t)
  {
    hide Inv, Apply, Bare;
    BelowNext(p);
    match cmd
    case DoBootstrap(email, now) => BootstrapBare(p, email, now, t);
    case DoSubmitUpgrade(org, user, valid) => SubmitBare(p, org, user, valid, t);
    case DoAttemptUpgrade(upgrade, commits, now) => AttemptBare(p, upgrade, commits, now, t);
    case DoProvision(operator, email) => ProvisionBare(p, operator, email, t);
    case _ =>
      OnlyTenants(p, cmd);
      BareIsTenant(p, t);
      TenantStep(p, cmd, t);
      SameBare(p, Apply(p, cmd).0, t);
  }

  lemma SameBare(p: Plane, q: Plane, t: Id)
    requires Bare(p, t) && t in q.tenants && q.roles == p.roles
    ensures Bare(q, t)
  {
  }

  lemma OpenBare(p: Plane, org: Id, u: Id, now: Time, t: Id)
    requires Bare(p, t) && u in p.users && t != p.nextId
    ensures Bare(OpenTenant(p, org, u, now), t)
  {
  }

  lemma SubmitBare(p: Plane, org: Id, u: Id, valid: bool, t: Id)
    requires Bare(p, t)
    ensures Bare(Apply(p, DoSubmitUpgrade(org, u, valid)).0, t)
  {
    SubmitFrame(p, org, u, valid);
    hide SubmitUpgrade;
  }

  lemma AttemptBare(p: Plane, r: Id, commits: bool, now: Time, t: Id)
    requires Inv(p) && Bare(p, t)
    ensures Bare(Apply(p, DoAttemptUpgrade(r, commits, now)).0, t)
  {
    BelowNext(p);
    hide Inv, OpenTenant;
    if AttemptUpgrade(p, r, commits, now).0 != p {
      OpenBare(p, p.upgrades[r].org, p.upgrades[r].user, now, t);
    }
  }

  lemma BootstrapBare(p: Plane, email: string, now: Time, t: Id)
    requires Inv(p) && Bare(p, t)
    ensures Bare(Apply(p, DoBootstrap(email, now)).0, t)
  {
    hide Inv, OpenTenant, Bootstrap, Bare, UserByEmail, Text.Lower;
    BelowNext(p);
    BootstrapFrame(p, email, now);
    assert Bare(WithAccount(p, email), t) by { AccountBare(p, email, t); }
    OpenBare(WithAccount(p, email), p.nextId + 2, p.nextId + 1, now, t) by { BareIsTenant(p, t); }
  }

  lemma BareIsTenant(p: Plane, t: Id)
    requires Bare(p, t)
    ensures t in p.tenants
  {
  }

  lemma AccountBare(p: Plane, email: string, t: Id)
    requires Bare(p, t)
    ensures Bare(WithAccount(p, email), t)
  {
    hide Text.Lower;
  }

  lemma ProvisionBare(p: Plane, operator: bool, email: string, t: Id)
    requires Inv(p) && Bare(p, t)
    ensures Bare(Apply(p, DoProvision(operator, email)).0, t)
  {
    hide Inv, Provision, Text.Lower, Text.Strip, UserByEmail;
    ProvisionShape(p, operator, email);
  }

  lemma BareHasNoAdmin(p: Plane, t: Id)
    requires Inv(p) && Bare(p, t)
    ensures !HasAdmin(p, t) && forall k | k in p.bindings :: p.bindings[k].tenant != Some(t)
  {
    hide IdsOk, UsersOk, OneActive, BoundAreMembers, OwnersOk, MembersOk, PermissionsOk, RolesOk;
  }

  /** Over every run without a removal from an organization, every tenant has an administrator's binding,
      except those that the operator has opened, which have no roles. */
  lemma {:induction false} AdminsKept(cmds: seq<Command>, t: Id)
    requires forall i | 0 <= i < |cmds| :: !cmds[i].DoRemoveOrg?
    requires t in Run(EMPTY, cmds).tenants
    ensures HasAdmin(Run(EMPTY, cmds), t) <==> !Bare(Run(EMPTY, cmds), t)
    decreases |cmds|
  {
    EmptyOk();
    RunKeeps(EMPTY, cmds);
    hide Inv, Apply, HasAdmin, Bare;
    if cmds != [] {
      var prior, last := cmds[..|cmds| - 1], cmds[|cmds| - 1];
      var p := Run(EMPTY, prior);
      RunKeeps(EMPTY, prior);
      TenantStep(p, last, t);
      if t in p.tenants {
        AdminsKept(prior, t);
        if Bare(p, t) {
          BareStep(p, last, t);
        } else {
          AdminStep(p, last, t);
        }
      }
      if Bare(Run(EMPTY, cmds), t) {
        BareHasNoAdmin(Run(EMPTY, cmds), t);
      }
    }
  }

  // ---------- removals and suspensions take effect

  /** No request of this principal in this tenant is allowed, whatever it asks. */
  ghost predicate Denied(p: Plane, principal: Id, tenant: Id) {
    forall q: Request, found | q.principal == principal && q.surface.Public? && q.tenant == Some(tenant) ::
        !Authorize(p, q, found).1
  }

  lemma NonMemberDenied(p: Plane, u: Id, t: Id)
    requires Inv(p) && u in p.users && !IsMember(p.members, t, u)
    ensures Denied(p, p.users[u].principal, t)
  {
    FoundUser(p.users, p.principals, u);
    assert p.principals[p.users[u].principal].kind == Human;
    hide Inv;
    forall q: Request, found | q.principal == p.users[u].principal && q.surface.Public? && q.tenant == Some(t)
      ensures !Authorize(p, q, found).1
    {
      AuthorizeExactly(p, q, found);
    }
  }

  lemma SuspendedDenied(p: Plane, principal: Id, t: Id)
    requires t in p.tenants && !p.tenants[t].active
    ensures Denied(p, principal, t)
  {
    forall q: Request, found | q.principal == principal && q.surface.Public? && q.tenant == Some(t)
      ensures !Authorize(p, q, found).1
    {
      AuthorizeExactly(p, q, found);
    }
  }

  lemma UserStep(p: Plane, cmd: Command, u: Id)
    requires Inv(p) && u in p.users
    ensures var q := Apply(p, cmd).0;
      u in q.users && q.users[u].principal == p.users[u].principal && q.users[u].email == p.users[u].email
  {
    hide Inv, Apply, IsMember, Reinvites;
    StepStable(p, cmd);
  }

  lemma StillOut(p: Plane, cmd: Command, t: Id, u: Id)
    requires Inv(p) && t in p.tenants && u in p.users && !IsMember(p.members, t, u)
    requires !(cmd.DoInviteTenant? && cmd.tenant == t && cmd.user == u)
    ensures !IsMember(Apply(p, cmd).0.members, t, u)
  {
    hide Inv, Apply, IsMember;
    StepStable(p, cmd);
  }

  lemma {:induction false} StaysOut(p: Plane, t: Id, u: Id, cmds: seq<Command>)
    requires Inv(p) && t in p.tenants && u in p.users && !IsMember(p.members, t, u)
    requires forall i | 0 <= i < |cmds| :: !(cmds[i].DoInviteTenant? && cmds[i].tenant == t && cmds[i].user == u)
    ensures var z := Run(p, cmds);
      Inv(z) && t in z.tenants && u in z.users && z.users[u].principal == p.users[u].principal
          && !IsMember(z.members, t, u)
    decreases |cmds|
  {
    hide Inv, Apply, IsMember;
    if cmds != [] {
      var prior, last := cmds[..|cmds| - 1], cmds[|cmds| - 1];
      StaysOut(p, t, u, prior);
      StillOut(Run(p, prior), last, t, u);
      UserStep(Run(p, prior), last, u);
      TenantStep(Run(p, prior), last, t);
      StepKeeps(Run(p, prior), last);
    }
  }

  /** After a removal from a tenant, every request of the user there is denied until an invitation back. */
  lemma RemovalTakesEffect(p: Plane, t: Id, caller: Id, u: Id, now: Time, cmds: seq<Command>)
    requires Inv(p) && RemoveTenant(p, t, caller, u, now).1 == Done && u in p.users
    requires forall i | 0 <= i < |cmds| :: !(cmds[i].DoInviteTenant? && cmds[i].tenant == t && cmds[i].user == u)
    ensures Denied(Run(RemoveTenant(p, t, caller, u, now).0, cmds), p.users[u].principal, t)
  {
    hide Inv, RemoveTenant, Denied;
    RemoveShape(p, t, caller, u, now);
    RemoveTenantKeeps(p, t, caller, u, now);
    MemberIsUser(p, t, u);
    var q := RemoveTenant(p, t, caller, u, now).0;
    StaysOut(q, t, u, cmds);
    NonMemberDenied(Run(q, cmds), u, t);
  }

  lemma StillSuspended(p: Plane, cmd: Command, t: Id)
    requires Inv(p) && t in p.tenants && !p.tenants[t].active
    requires !(cmd.DoReinstateTenant? && cmd.tenant == t)
    ensures var q := Apply(p, cmd).0; t in q.tenants && !q.tenants[t].active
  {
    hide Inv, Apply, IsMember, Reinvites;
    StepStable(p, cmd);
  }

  /** While a tenant is suspended every request in it is denied, in every run until it is reinstated. */
  lemma {:induction false} SuspensionTakesEffect(p: Plane, t: Id, cmds: seq<Command>, principal: Id)
    requires Inv(p) && t in p.tenants && !p.tenants[t].active
    requires forall i | 0 <= i < |cmds| :: !(cmds[i].DoReinstateTenant? && cmds[i].tenant == t)
    ensures var z := Run(p, cmds); Inv(z) && t in z.tenants && !z.tenants[t].active && Denied(z, principal, t)
    decreases |cmds|
  {
    hide Inv, Apply, Denied;
    if cmds != [] {
      var prior, last := cmds[..|cmds| - 1], cmds[|cmds| - 1];
      SuspensionTakesEffect(p, t, prior, principal);
      StillSuspended(Run(p, prior), last, t);
      StepKeeps(Run(p, prior), last);
    }
    SuspendedDenied(Run(p, cmds), principal, t);
  }

  /** In a tenant that the operator has opened every request is denied, its first member's too, in
      every run: it has no roles, no call gives it any, and there is nothing to bind. */
  lemma {:induction false} ProvisionedIsShut(p: Plane, t: Id, cmds: seq<Command>, principal: Id)
    requires Inv(p) && Bare(p, t)
    ensures var z := Run(p, cmds); Inv(z) && Bare(z, t) && Denied(z, principal, t)
    decreases |cmds|
  {
    hide Inv, Apply, Denied, Bare;
    if cmds != [] {
      var prior, last := cmds[..|cmds| - 1], cmds[|cmds| - 1];
      ProvisionedIsShut(p, t, prior, principal);
      BareStep(Run(p, prior), last, t);
      StepKeeps(Run(p, prior), last);
    }
    BareDenied(Run(p, cmds), principal, t);
  }

  lemma BareDenied(p: Plane, principal: Id, t: Id)
    requires Inv(p) && Bare(p, t)
    ensures Denied(p, principal, t)
  {
    BareHasNoAdmin(p, t);
    hide Inv;
    forall q: Request, found | q.principal == principal && q.surface.Public? && q.tenant == Some(t)
      ensures !Authorize(p, q, found).1
    {
      AuthorizeExactly(p, q, found);
    }
  }

  // ---------- what a binding gives

  /** Everything that a request on the public surface needs, besides a binding. */
  ghost predicate Eligible(p: Plane, q: Request) {
    var code := Text.Strip(q.code);
    && q.surface.Public? && code != "" && !Text.StartsWith(code, PLATFORM_PREFIX)
    && q.principal in p.principals && p.principals[q.principal].status == Active
    && code in p.permissions && p.permissions[code] == Permission(TenantScope, true)
    && q.tenant.Some? && q.tenant.value in p.tenants && p.tenants[q.tenant.value].active
    && HasActiveMembership(p, q.principal, q.tenant.value)
  }

  lemma EligibleMay(p: Plane, q: Request)
    requires q.surface.Public?
    ensures MayAct(p, q, None) <==>
              Eligible(p, q) && HasGrant(p, q.principal, Text.Strip(q.code), TenantScope, q.tenant, None, q.at)
  {
    hide HasGrant, HasActiveMembership, Text.Strip, Text.StartsWith;
  }

  /** One binding more grants what it grants itself, and nothing else. */
  lemma OneMoreBinding(p: Plane, q: Plane, b: Binding, ask: Request, code: string)
    requires p.nextId !in p.bindings && q.bindings == p.bindings[p.nextId := b]
    requires q.roles == p.roles && q.permissions == p.permissions
    ensures HasGrant(q, ask.principal, code, TenantScope, ask.tenant, None, ask.at)
            <==> HasGrant(p, ask.principal, code, TenantScope, ask.tenant, None, ask.at)
                 || Grants(p, b, ask.principal, code, TenantScope, ask.tenant, None, ask.at)
  {
    assert q.bindings[p.nextId] == b;
    assert forall k | k in p.bindings :: k in q.bindings && q.bindings[k] == p.bindings[k];
  }

  /** A granted binding lets its principal do what the role allows, in the tenant, from now until it
      expires, and changes the answer to no other request. */
  lemma GrantAdds(p: Plane, tenant: Id, role: Id, caller: Id, principal: Option<Id>, user: Option<Id>,
                  expires: Option<Time>, now: Time, ask: Request)
    requires Inv(p) && Grant(p, tenant, role, caller, principal, user, expires, now).1 == Done && ask.surface.Public?
    ensures var q := Grant(p, tenant, role, caller, principal, user, expires, now).0;
      && p.nextId in q.bindings && role in p.roles
      && (MayAct(q, ask, None) <==>
            || MayAct(p, ask, None)
            || (&& Eligible(p, ask) && ask.principal == q.bindings[p.nextId].principal && ask.tenant == Some(tenant)
                && Text.Strip(ask.code) in p.roles[role].codes
                && now <= ask.at && (expires.None? || ask.at < expires.value)))
  {
    GrantShape(p, tenant, role, caller, principal, user, expires, now);
    GrantRole(p, tenant, role, caller, principal, user, expires, now);
    NextFresh(p, p.bindings[p.nextId := NewBinding(0, role, tenant, now, expires)]);
    hide *;
    OneGrantMore(p, Grant(p, tenant, role, caller, principal, user, expires, now).0, tenant, role, expires, now, ask);
  }

  lemma OneGrantMore(p: Plane, q: Plane, tenant: Id, role: Id, expires: Option<Time>, now: Time, ask: Request)
    requires role in p.roles && p.roles[role].active && p.roles[role].tenant == Some(tenant)
    requires p.roles[role].scope == TenantScope && p.roles[role].operator.None?
    requires p.nextId !in p.bindings && p.nextId in q.bindings && ask.surface.Public?
    requires q.bindings[p.nextId] == NewBinding(q.bindings[p.nextId].principal, role, tenant, now, expires)
    requires q == p.(nextId := q.nextId, bindings := p.bindings[p.nextId := q.bindings[p.nextId]], audit := q.audit)
    ensures MayAct(q, ask, None) <==>
            || MayAct(p, ask, None)
            || (&& Eligible(p, ask) && ask.principal == q.bindings[p.nextId].principal && ask.tenant == Some(tenant)
                && Text.Strip(ask.code) in p.roles[role].codes
                && now <= ask.at && (expires.None? || ask.at < expires.value))
  {
    hide MayAct, HasGrant, Text.Strip, Grants, Eligible;
    NewBindingGrants(p, q.bindings[p.nextId].principal, role, tenant, now, expires, ask);
    OneMoreBinding(p, q, q.bindings[p.nextId], ask, Text.Strip(ask.code));
    EligibleMay(p, ask);
    EligibleMay(q, ask);
    SameEligible(p, q, ask);
  }

  lemma NewBindingGrants(p: Plane, principal: Id, role: Id, tenant: Id, now: Time, expires: Option<Time>, ask: Request)
    requires role in p.roles && p.roles[role].active && p.roles[role].tenant == Some(tenant)
        && p.roles[role].scope == TenantScope
    requires p.roles[role].operator.None?
    ensures Eligible(p, ask) ==>
              (Grants(p, NewBinding(principal, role, tenant, now, expires), ask.principal, Text.Strip(ask.code),
                      TenantScope, ask.tenant,
                      None, ask.at)
               <==>
                   ask.principal == principal && ask.tenant == Some(tenant)
                   && Text.Strip(ask.code) in p.roles[role].codes && now <= ask.at
                   && (expires.None? || ask.at < expires.value))
  {
    hide Text.Strip, Text.StartsWith, HasActiveMembership;
  }

  lemma SameEligible(p: Plane, q: Plane, ask: Request)
    requires q == p.(nextId := q.nextId, bindings := q.bindings, audit := q.audit)
    ensures Eligible(p, ask) <==> Eligible(q, ask)
  {
  }

  lemma GrantRole(p: Plane, tenant: Id, role: Id, caller: Id, principal: Option<Id>, user: Option<Id>,
                  expires: Option<Time>, now: Time)
    requires Inv(p) && Grant(p, tenant, role, caller, principal, user, expires, now).1 == Done
    ensures role in p.roles && p.roles[role].active && p.roles[role].tenant == Some(tenant)
        && p.roles[role].scope == TenantScope
    ensures p.roles[role].operator.None?
  {
    hide Decide, RowFor, AlreadyBound, OneActive, OwnersOk, BoundAreMembers, MembersOk, IdsOk, BindingsOk, UsersOk;
  }

  /** Revoking a binding that was just granted undoes the grant: every request is answered as before. */
  lemma RevokeUndoesGrant(p: Plane, tenant: Id, role: Id, caller: Id, principal: Option<Id>, user: Option<Id>,
                          expires: Option<Time>, now: Time, other: Id, at: Time, ask: Request, found: Option<Id>)
    requires Inv(p) && Grant(p, tenant, role, caller, principal, user, expires, now).1 == Done
    requires Revoke(Grant(p, tenant, role, caller, principal, user, expires, now).0, tenant, role, p.nextId, other,
                    at).1 == Done
    ensures var z := Revoke(Grant(p, tenant, role, caller, principal, user, expires, now).0, tenant, role, p.nextId,
                            other, at).0;
      && z.bindings - {p.nextId} == p.bindings
      && (MayAct(z, ask, found) <==> MayAct(p, ask, found))
  {
    hide Inv, Grant, Revoke, MayAct, AlreadyBound, OnlyRevokes, Admins;
    var q := Grant(p, tenant, role, caller, principal, user, expires, now).0;
    GrantShape(p, tenant, role, caller, principal, user, expires, now);
    NextFresh(p, p.bindings[p.nextId := NewBinding(0, role, tenant, now, expires)]);
    RevokeShape(q, tenant, role, p.nextId, other, at);
    SameAnswers(p, Revoke(q, tenant, role, p.nextId, other, at).0, ask, found);
  }

  lemma SameAnswers(p: Plane, z: Plane, ask: Request, found: Option<Id>)
    requires z == p.(nextId := z.nextId, bindings := z.bindings, audit := z.audit)
    requires p.nextId !in p.bindings && p.nextId in z.bindings && !z.bindings[p.nextId].active
    requires z.bindings == p.bindings[p.nextId := z.bindings[p.nextId]]
    ensures z.bindings - {p.nextId} == p.bindings
    ensures MayAct(z, ask, found) <==> MayAct(p, ask, found)
  {
    assert forall code, scope, tenant, operator ::
        HasGrant(z, ask.principal, code, scope, tenant, operator, ask.at) <==>
            HasGrant(p, ask.principal, code, scope, tenant, operator, ask.at) by {
      hide Grants;
      assert forall k | k in p.bindings :: k in z.bindings && z.bindings[k] == p.bindings[k];
      assert forall b: Binding, code, scope, tenant, operator ::
        Grants(z, b, ask.principal, code, scope, tenant, operator, ask.at) <==>
            Grants(p, b, ask.principal, code, scope, tenant, operator, ask.at);
    }
    hide HasGrant, Text.Strip, Text.StartsWith;
  }

  /** An invited user may do in the tenant, from now on, exactly what the role named allows: nothing is
      left of an earlier membership. */
  lemma InvitationGives(p: Plane, tenant: Id, caller: Id, u: Id, roleName: string, now: Time, ask: Request)
    requires Inv(p) && InviteTenant(p, tenant, caller, u, roleName, now).1 == Done
    requires u in p.users && ask.principal == p.users[u].principal && ask.tenant == Some(tenant) && ask.surface.Public?
    ensures var q := InviteTenant(p, tenant, caller, u, roleName, now).0;
      && p.nextId in q.bindings && IsRole(p.roles, q.bindings[p.nextId].role, tenant, roleName)
      && (MayAct(q, ask, None) <==>
            Eligible(q, ask) && Text.Strip(ask.code) in p.roles[q.bindings[p.nextId].role].codes && now <= ask.at)
  {
    hide Inv, InviteTenant, MayAct, HasGrant, Text.Strip, Grants, Eligible, IsRole, InOrg, IsMember;
    InviteShape(p, tenant, caller, u, roleName, now);
    NextFresh(p, p.bindings[p.nextId := NewBinding(0, 0, tenant, now, None)]);
    InvitedRole(p, tenant, caller, u, roleName, now);
    var q := InviteTenant(p, tenant, caller, u, roleName, now).0;
    var code := Text.Strip(ask.code);
    var b := q.bindings[p.nextId];
    OneMoreBinding(p, q, b, ask, code);
    EligibleMay(q, ask);
    OutsiderHasNone(p, tenant, u, ask, code);
    NewBindingGrants(q, b.principal, b.role, tenant, now, None, ask);
    SameGrants(p, q, b, ask, code);
  }

  lemma InvitedRole(p: Plane, tenant: Id, caller: Id, u: Id, roleName: string, now: Time)
    requires Inv(p) && InviteTenant(p, tenant, caller, u, roleName, now).1 == Done
    ensures var q := InviteTenant(p, tenant, caller, u, roleName, now).0;
      && p.nextId in q.bindings
      && var role := q.bindings[p.nextId].role;
         && role in p.roles && p.roles[role].active && p.roles[role].tenant == Some(tenant)
         && p.roles[role].scope == TenantScope && p.roles[role].operator.None?
  {
    hide Inv, InviteTenant;
    InviteShape(p, tenant, caller, u, roleName, now);
    TenantRole(p, InviteTenant(p, tenant, caller, u, roleName, now).0.bindings[p.nextId].role);
  }

  lemma TenantRole(p: Plane, role: Id)
    requires Inv(p) && role in p.roles
    ensures p.roles[role].scope == TenantScope && p.roles[role].operator.None?
  {
  }

  lemma SameGrants(p: Plane, q: Plane, b: Binding, ask: Request, code: string)
    requires q.roles == p.roles && q.permissions == p.permissions
    ensures Grants(p, b, ask.principal, code, TenantScope, ask.tenant, None, ask.at)
            == Grants(q, b, ask.principal, code, TenantScope, ask.tenant, None, ask.at)
  {
  }

  lemma OutsiderHasNone(p: Plane, tenant: Id, u: Id, ask: Request, code: string)
    requires Inv(p) && u in p.users && !IsMember(p.members, tenant, u)
    requires ask.principal == p.users[u].principal && ask.tenant == Some(tenant)
    ensures !HasGrant(p, ask.principal, code, TenantScope, ask.tenant, None, ask.at)
  {
    forall k | k in p.bindings ensures !Grants(p, p.bindings[k], ask.principal, code, TenantScope, ask.tenant, None,
                                               ask.at) {
      assert HasPrincipal(p.users, u, ask.principal);
    }
  }

  // ---------- registrations

  /** A registered user administers the tenant that came with the registration, from the moment
      the account is activated and not before. */
  lemma FounderAdministers(p: Plane, email: string, now: Time, at: Time)
    requires Inv(p) && UserByEmail(p.users, Text.Lower(email)).None? && now <= at
    ensures var q := Bootstrap(p, email, now);
      var u, t := p.nextId + 1, p.nextId + 3;
      && u in q.users && t in q.tenants
      && !Require(q, q.users[u].principal, t, at).1
      && Require(SetAccess(q, u, Active), q.users[u].principal, t, at).1
  {
    hide Inv, Bootstrap, UsersOk, Authorize;
    BootstrapKeeps(p, email, now);
    var q := Bootstrap(p, email, now);
    var u, t := p.nextId + 1, p.nextId + 3;
    Founder(p, email, now);
    SetAccessKeeps(q, u, Active);
    var r := SetAccess(q, u, Active);
    var ask := Request(q.users[u].principal, "tenant.admin", Public, Some(t), None, at);
    AuthorizeExactly(q, ask, None);
    AuthorizeExactly(r, ask, None);
    hide MayAct, SetAccess;
    assert !MayAct(q, ask, None) by { InactiveMayNot(q, ask); }
    FounderMay(r, u, t, q.users[u].principal, now, at) by {
      assert r.users[u].principal == q.users[u].principal by { SetAccessFrame(q, u, Active); }
    }
  }

  lemma InactiveMayNot(p: Plane, q: Request)
    requires q.principal in p.principals && p.principals[q.principal].status != Active
    ensures !MayAct(p, q, None)
  {
  }

  lemma FounderMay(p: Plane, u: Id, t: Id, principal: Id, from: Time, at: Time)
    requires Inv(p) && u in p.users && p.users[u].principal == principal && from <= at
    requires principal in p.principals && p.principals[principal] == Principal(Human, Active)
    requires t in p.tenants && p.tenants[t].active && IsMember(p.members, t, u)
    requires t + 1 in p.roles && p.roles[t + 1] == SystemRole(t, TENANT_ADMIN, ADMIN_CODES)
    requires t + 4 in p.bindings && p.bindings[t + 4] == NewBinding(principal, t + 1, t, from, None)
    ensures MayAct(p, Request(principal, "tenant.admin", Public, Some(t), None, at), None)
  {
    InCatalog(p);
    FoundUser(p.users, p.principals, u);
    NotPlatform();
    hide Inv, UsersOk, Text.Strip, Text.StartsWith;
    assert Grants(p, p.bindings[t + 4], principal, "tenant.admin", TenantScope, Some(t), None, at);
  }

  lemma NotPlatform()
    ensures Text.Strip("tenant.admin") == "tenant.admin" && !Text.StartsWith("tenant.admin", PLATFORM_PREFIX)
  {
    assert "tenant.admin"[0] == 't' && PLATFORM_PREFIX[0] == 'p';
  }

  lemma InCatalog(p: Plane)
    requires Inv(p)
    ensures "tenant.admin" in p.permissions && p.permissions["tenant.admin"] == Permission(TenantScope, true)
  {
    assert forall c | c in PLATFORM_CODES :: c[0] == 'p';
    assert "tenant.admin"[0] == 't';
  }

  lemma Founder(p: Plane, email: string, now: Time)
    ensures var q := Bootstrap(p, email, now);
      var u, t := p.nextId + 1, p.nextId + 3;
      && u in q.users && q.users[u].principal == p.nextId && p.nextId in q.principals
          && q.principals[p.nextId] == Principal(Human, Inactive)
      && t in q.tenants && q.tenants[t].active && IsMember(q.members, t, u)
      && t + 1 in q.roles && q.roles[t + 1] == SystemRole(t, TENANT_ADMIN, ADMIN_CODES)
      && t + 4 in q.bindings && q.bindings[t + 4] == NewBinding(p.nextId, t + 1, t, now, None)
  {
    BootstrapFrame(p, email, now);
    SeededRoles(p.roles, p.nextId + 3);
    hide Text.Lower, SeedRoles;
  }
}
