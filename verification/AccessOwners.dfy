/** Who owns an organization, and what the roles of a tenant allow, over every run. */
module AccessOwners {
  import opened Errors
  import opened Access
  import opened AccessLaws
  import opened AccessRuns
  import Text

  // ---------- a user's row in an organization

  function RowOf(p: Plane, org: Id, u: Id): Option<OrgMembership> {
    if (org, u) in p.orgMembers then Some(p.orgMembers[(org, u)]) else None
  }

  /** The user does not belong to the organization, and is not invited to it. */
  predicate Outside(p: Plane, org: Id, u: Id) {
    RowOf(p, org, u) == None || RowOf(p, org, u).value.status == Removed
  }

  predicate Named(p: Plane, u: Id, email: string) {
    u in p.users && p.users[u].email == Text.Lower(Text.Strip(email))
  }

  /** An organization's owner invites the user, who is outside, in the role given. */
  predicate Invites(p: Plane, cmd: Command, org: Id, u: Id, role: OrgRole) {
    && cmd.DoInviteOrg? && cmd.org == org && cmd.orgRole == Some(role) && Named(p, u, cmd.email)
    && org in p.orgs && RowOf(p, org, cmd.owner) == Some(OrgMembership(Owner, Joined)) && Outside(p, org, u)
  }

  /** Another owner takes the user out of the organization. */
  predicate Ousts(p: Plane, cmd: Command, org: Id, u: Id) {
    && cmd.DoRemoveOrg? && cmd.org == org && cmd.user == u && cmd.owner != u
    && org in p.orgs && RowOf(p, org, cmd.owner) == Some(OrgMembership(Owner, Joined)) && !Outside(p, org, u)
  }

  predicate IsAcceptanceOf(cmd: Command, org: Id, u: Id) {
    cmd.DoAcceptOrg? && cmd.org == org && cmd.user == u
  }

  /** The user's row after the call. */
  ghost predicate RowStepped(p: Plane, cmd: Command, org: Id, u: Id, row: Option<OrgMembership>) {
    var before := RowOf(p, org, u);
    if IsAcceptanceOf(cmd, org, u) && before.Some? && before.value.status == Invited then
      row == Some(OrgMembership(before.value.role, Joined))
    else if Ousts(p, cmd, org, u) then row == Some(OrgMembership(before.value.role, Removed))
    else if exists role :: Invites(p, cmd, org, u, role) then
      exists role :: Invites(p, cmd, org, u, role) && row == Some(OrgMembership(role, Invited))
    else row == before
  }

  /** An invitation is accepted exactly from an owner, in one of the two roles, for the address of a user who
      is outside. It leaves that user's row invited in that role, whatever it was, and changes nothing else. */
  lemma InviteOrgExactly(p: Plane, org: Id, caller: Id, email: string, role: Option<OrgRole>)
    requires Inv(p)
    ensures var (q, out) := InviteOrg(p, org, caller, email, role);
      && (out == Done <==>
            && org in p.orgs && RowOf(p, org, caller) == Some(OrgMembership(Owner, Joined)) && role.Some?
            && exists u :: Named(p, u, email) && Outside(p, org, u))
      && (out != Done ==> q == p)
      && (forall u | out == Done && Named(p, u, email) ::
            q == p.(orgMembers := p.orgMembers[(org, u) := OrgMembership(role.value, Invited)]))
  {
    var address := Text.Lower(Text.Strip(email));
    OneAddress(p, address);
    hide Inv, Text.Lower, Text.Strip;
    assert forall u :: Named(p, u, email) <==> HasEmail(p.users, u, address);
    hide HasEmail, Named;
    var found := UserByEmail(p.users, address);
    if found.Some? {
      assert HasEmail(p.users, found.value, address);
      assert InOrg(p.orgMembers, org, found.value) <==> !Outside(p, org, found.value);
    }
  }

  lemma OneAddress(p: Plane, address: string)
    requires Inv(p)
    ensures forall u, v | HasEmail(p.users, u, address) && HasEmail(p.users, v, address) :: u == v
  {
  }

  lemma InviteOrgRow(p: Plane, cmd: Command, org: Id, u: Id)
    requires Inv(p) && cmd.DoInviteOrg?
    ensures RowStepped(p, cmd, org, u, RowOf(Apply(p, cmd).0, org, u))
  {
    InviteOrgExactly(p, cmd.org, cmd.owner, cmd.email, cmd.orgRole);
    OneNamed(p, cmd.email);
    hide Inv, InviteOrg, Named, Outside, RowStepped;
    var (q, out) := InviteOrg(p, cmd.org, cmd.owner, cmd.email, cmd.orgRole);
    if out == Done {
      var v :| Named(p, v, cmd.email) && Outside(p, cmd.org, v);
      InvitedRow(p, cmd, org, u, v, q);
    } else {
      assert forall role :: !Invites(p, cmd, org, u, role);
      NotInvitedRow(p, cmd, org, u);
    }
  }

  lemma OneNamed(p: Plane, email: string)
    requires Inv(p)
    ensures forall u, v | Named(p, u, email) && Named(p, v, email) :: u == v
  {
  }

  lemma InvitedRow(p: Plane, cmd: Command, org: Id, u: Id, v: Id, q: Plane)
    requires cmd.DoInviteOrg? && cmd.orgRole.Some? && Invites(p, cmd, cmd.org, v, cmd.orgRole.value)
    requires q == p.(orgMembers := p.orgMembers[(cmd.org, v) := OrgMembership(cmd.orgRole.value, Invited)])
    requires Named(p, u, cmd.email) ==> u == v
    ensures RowStepped(p, cmd, org, u, RowOf(q, org, u))
  {
    hide Named, Outside;
    if org == cmd.org && u == v {
      assert Invites(p, cmd, org, u, cmd.orgRole.value);
    }
  }

  lemma NotInvitedRow(p: Plane, cmd: Command, org: Id, u: Id)
    requires cmd.DoInviteOrg? && forall role :: !Invites(p, cmd, org, u, role)
    ensures RowStepped(p, cmd, org, u, RowOf(p, org, u))
  {
    hide Invites;
  }

  lemma AcceptOrgRow(p: Plane, cmd: Command, org: Id, u: Id)
    requires cmd.DoAcceptOrg?
    ensures RowStepped(p, cmd, org, u, RowOf(Apply(p, cmd).0, org, u))
  {
    hide Ousts, Invites, AcceptOrg;
    AcceptOrgShape(p, cmd.org, cmd.user);
    AcceptRefused(p, cmd.org, cmd.user);
    NotAsked(p, cmd, org, u);
  }

  lemma AcceptRefused(p: Plane, org: Id, u: Id)
    ensures AcceptOrg(p, org, u).1 == Done <==> (org, u) in p.orgMembers && p.orgMembers[(org, u)].status == Invited
  {
  }

  lemma NotAsked(p: Plane, cmd: Command, org: Id, u: Id)
    requires cmd.DoAcceptOrg?
    ensures !Ousts(p, cmd, org, u) && forall role :: !Invites(p, cmd, org, u, role)
  {
  }

  lemma RemoveOrgRow(p: Plane, cmd: Command, org: Id, u: Id)
    requires cmd.DoRemoveOrg?
    ensures RowStepped(p, cmd, org, u, RowOf(Apply(p, cmd).0, org, u))
  {
    NotInvited(p, cmd, org, u);
    hide RevokeIn, TenantsOf, LeaveAll, Invites;
  }

  lemma NotInvited(p: Plane, cmd: Command, org: Id, u: Id)
    requires !cmd.DoInviteOrg?
    ensures forall role :: !Invites(p, cmd, org, u, role)
  {
  }

  /** Exactly which calls change a user's row in an organization that is there, and how: invitations,
      acceptances and removals. */
  lemma RowStep(p: Plane, cmd: Command, org: Id, u: Id)
    requires Inv(p) && org in p.orgs
    ensures RowStepped(p, cmd, org, u, RowOf(Apply(p, cmd).0, org, u))
  {
    hide Inv, Apply, RowStepped;
    if cmd.DoInviteOrg? {
      InviteOrgRow(p, cmd, org, u);
    } else if cmd.DoAcceptOrg? {
      AcceptOrgRow(p, cmd, org, u);
    } else if cmd.DoRemoveOrg? {
      RemoveOrgRow(p, cmd, org, u);
    } else {
      OtherRow(p, cmd, org, u);
      SameRow(p, cmd, org, u);
    }
  }

  lemma SameRow(p: Plane, cmd: Command, org: Id, u: Id)
    requires !cmd.DoInviteOrg? && !cmd.DoAcceptOrg? && !cmd.DoRemoveOrg?
    ensures RowStepped(p, cmd, org, u, RowOf(p, org, u))
  {
  }

  /** Every other call leaves the memberships of an organization that is there as they are. */
  lemma OtherRow(p: Plane, cmd: Command, org: Id, u: Id)
    requires Inv(p) && org in p.orgs && !cmd.DoInviteOrg? && !cmd.DoAcceptOrg? && !cmd.DoRemoveOrg?
    ensures RowOf(Apply(p, cmd).0, org, u) == RowOf(p, org, u)
  {
    hide Inv, Apply;
    if cmd.DoBootstrap? || cmd.DoProvision? {
      FoundingRow(p, cmd, org, u);
    } else {
      SameRows(p, cmd);
    }
  }

  lemma FoundingRow(p: Plane, cmd: Command, org: Id, u: Id)
    requires Inv(p) && org in p.orgs && (cmd.DoBootstrap? || cmd.DoProvision?)
    ensures RowOf(Apply(p, cmd).0, org, u) == RowOf(p, org, u)
  {
    OrgsBelow(p);
    hide Inv, Bootstrap, Provision, Text.Lower, UserByEmail, Named;
    match cmd
    case DoBootstrap(email, now) => BootstrapRows(p, email, now);
    case DoProvision(operator, email) => ProvisionRows(p, operator, email);
  }

  ghost predicate SameOrgTables(p: Plane, q: Plane) {
    q.orgMembers == p.orgMembers && q.orgs.Keys == p.orgs.Keys
  }

  /** No membership and no organization is added or taken away. */
  lemma SameRows(p: Plane, cmd: Command)
    requires Inv(p) && !cmd.DoInviteOrg? && !cmd.DoAcceptOrg? && !cmd.DoRemoveOrg?
    requires !cmd.DoBootstrap? && !cmd.DoProvision?
    ensures SameOrgTables(p, Apply(p, cmd).0)
  {
    hide Inv, SameOrgTables, Bootstrap, Provision, Grant, Revoke, InviteTenant, RemoveTenant, InviteOrg, AcceptOrg,
         RemoveOrg, SuspendTenant, ReinstateTenant, SetAccess, SubmitUpgrade, AttemptUpgrade, Decide, RowFor,
         Text.Lower, UserByEmail;
    match cmd
    case DoSubmitUpgrade(org, user, valid) => SubmitOrgs(p, org, user, valid);
    case DoAttemptUpgrade(upgrade, commits, now) => AttemptOrgs(p, upgrade, commits, now);
    case DoSetAccess(user, status) => AccessOrgs(p, user, status);
    case DoGrant(tenant, role, caller, principal, user, expires, now) =>
      GrantOrgs(p, tenant, role, caller, principal, user, expires, now);
    case DoRevoke(tenant, role, binding, caller, now) => RevokeOrgs(p, tenant, role, binding, caller, now);
    case DoInviteTenant(tenant, caller, user, roleName, now) => InviteOrgs(p, tenant, caller, user, roleName, now);
    case DoRemoveTenant(tenant, caller, user, now) => RemoveOrgs(p, tenant, caller, user, now);
    case DoSuspendTenant(_, _) => SuspensionOrgs(p, cmd);
    case DoReinstateTenant(_, _) => SuspensionOrgs(p, cmd);
    case _ => OtherOrgs(p, Apply(p, cmd).0);
  }

  lemma OtherOrgs(p: Plane, q: Plane)
    requires q.orgMembers == p.orgMembers && q.orgs == p.orgs
    ensures SameOrgTables(p, q)
  {
  }

  lemma SubmitOrgs(p: Plane, org: Id, u: Id, valid: bool)
    ensures SameOrgTables(p, SubmitUpgrade(p, org, u, valid).0)
  {
  }

  lemma AttemptOrgs(p: Plane, r: Id, commits: bool, now: Time)
    ensures SameOrgTables(p, AttemptUpgrade(p, r, commits, now).0)
  {
    hide SeedRoles;
  }

  lemma AccessOrgs(p: Plane, u: Id, status: PrincipalStatus)
    ensures SameOrgTables(p, SetAccess(p, u, status))
  {
  }

  lemma GrantOrgs(p: Plane, tenant: Id, role: Id, caller: Id, principal: Option<Id>, user: Option<Id>,
                  expires: Option<Time>, now: Time)
    requires Inv(p)
    ensures SameOrgTables(p, Grant(p, tenant, role, caller, principal, user, expires, now).0)
  {
    hide Require, Bind;
    RequireTables(p, caller, tenant, now);
    BindTables(Require(p, caller, tenant, now).0, tenant, role, principal, user, expires, now);
  }

  lemma RevokeOrgs(p: Plane, tenant: Id, role: Id, binding: Id, caller: Id, now: Time)
    ensures SameOrgTables(p, Revoke(p, tenant, role, binding, caller, now).0)
  {
    hide Revoke, OnlyRevokes, Admins;
    RevokeShape(p, tenant, role, binding, caller, now);
  }

  lemma InviteOrgs(p: Plane, tenant: Id, caller: Id, u: Id, roleName: string, now: Time)
    requires Inv(p)
    ensures SameOrgTables(p, InviteTenant(p, tenant, caller, u, roleName, now).0)
  {
    hide Inv, InviteTenant, IsRole, InOrg, IsMember;
    InviteShape(p, tenant, caller, u, roleName, now);
  }

  lemma RemoveOrgs(p: Plane, tenant: Id, caller: Id, u: Id, now: Time)
    requires Inv(p)
    ensures SameOrgTables(p, RemoveTenant(p, tenant, caller, u, now).0)
  {
    hide Inv, RemoveTenant, IsMember, FindRole, AlreadyBound, BindingsOn, RevokeIn;
    RemoveShape(p, tenant, caller, u, now);
  }

  lemma SuspensionOrgs(p: Plane, cmd: Command)
    requires cmd.DoSuspendTenant? || cmd.DoReinstateTenant?
    ensures SameOrgTables(p, Apply(p, cmd).0)
  {
    hide Apply;
    SuspensionShape(p, cmd);
  }

  lemma OrgsBelow(p: Plane)
    requires Inv(p)
    ensures forall o | o in p.orgs :: o < p.nextId
  {
  }

  lemma BootstrapRows(p: Plane, email: string, now: Time)
    ensures Bootstrap(p, email, now).orgMembers ==
            p.orgMembers[(p.nextId + 2, p.nextId + 1) := OrgMembership(Owner, Joined)]
    ensures Bootstrap(p, email, now).orgs == p.orgs[p.nextId + 2 := Org(false, true, true)]
  {
    hide SeedRoles, Text.Lower;
  }

  lemma ProvisionRows(p: Plane, operator: bool, email: string)
    ensures var (q, out) := Provision(p, operator, email);
      (q.orgMembers == p.orgMembers && q.orgs == p.orgs)
      || (operator && out == Done && q.orgs == p.orgs[p.nextId := Org(false, true, false)]
          && exists u :: Named(p, u, email)
                && q.orgMembers == p.orgMembers[(p.nextId, u) := OrgMembership(Owner, Joined)])
  {
    hide HasTenant, Text.Lower, Text.Strip;
    var q := Provision(p, operator, email).0;
    if q != p {
      var u := UserByEmail(p.users, Text.Lower(Text.Strip(email))).value;
      assert Named(p, u, email);
    }
  }

  // ---------- how a user comes to own an organization

  ghost predicate InvitedAsOwner(p: Plane, org: Id, u: Id) {
    RowOf(p, org, u) == Some(OrgMembership(Owner, Invited))
  }

  /** The user accepts an invitation to own the organization. */
  ghost predicate TakesOver(p: Plane, cmd: Command, org: Id, u: Id) {
    IsAcceptanceOf(cmd, org, u) && InvitedAsOwner(p, org, u)
  }

  /** A user owns an organization after a call exactly if the call accepts an invitation to own it, or the
      user did before and is not removed. */
  lemma OwnerStep(p: Plane, cmd: Command, org: Id, u: Id)
    requires Inv(p) && org in p.orgs
    ensures IsOwner(Apply(p, cmd).0, org, u) <==>
            TakesOver(p, cmd, org, u) || (IsOwner(p, org, u) && !Ousts(p, cmd, org, u))
  {
    RowStep(p, cmd, org, u);
    hide Inv, Apply, RowStepped, Ousts, IsOwner;
    OwnerRow(p, org, u);
    OwnerRow(Apply(p, cmd).0, org, u);
    RowOwned(p, cmd, org, u, RowOf(Apply(p, cmd).0, org, u));
  }

  lemma RowOwned(p: Plane, cmd: Command, org: Id, u: Id, row: Option<OrgMembership>)
    requires RowStepped(p, cmd, org, u, row)
    ensures row == Some(OrgMembership(Owner, Joined)) <==>
            || TakesOver(p, cmd, org, u)
            || (RowOf(p, org, u) == Some(OrgMembership(Owner, Joined)) && !Ousts(p, cmd, org, u))
    ensures row == Some(OrgMembership(Owner, Invited)) ==>
              InvitedAsOwner(p, org, u) || Invites(p, cmd, org, u, Owner)
  {
    hide Named, IsOwner;
  }

  lemma OwnerRow(p: Plane, org: Id, u: Id)
    ensures IsOwner(p, org, u) <==> RowOf(p, org, u) == Some(OrgMembership(Owner, Joined))
  {
  }

  lemma InvitedStep(p: Plane, cmd: Command, org: Id, u: Id)
    requires Inv(p)
    ensures Inv(Apply(p, cmd).0)
    ensures InvitedAsOwner(Apply(p, cmd).0, org, u) ==> InvitedAsOwner(p, org, u) || Invites(p, cmd, org, u, Owner)
  {
    StepKeeps(p, cmd);
    hide Inv, Apply, RowStepped, Invites, Founds;
    if org in p.orgs {
      RowStep(p, cmd, org, u);
      RowOwned(p, cmd, org, u, RowOf(Apply(p, cmd).0, org, u));
    } else if org in Apply(p, cmd).0.orgs {
      FoundedStep(p, cmd, org, u);
    } else {
      NoRows(Apply(p, cmd).0, org, u);
    }
  }

  lemma OrgStays(p: Plane, cmds: seq<Command>, org: Id)
    requires Inv(p) && org in p.orgs
    ensures Inv(Run(p, cmds)) && org in Run(p, cmds).orgs
  {
    RunKeeps(p, cmds);
    OrgStaysIn(p, cmds, org);
  }

  lemma {:induction false} OrgStaysIn(p: Plane, cmds: seq<Command>, org: Id)
    requires Inv(p) && org in p.orgs
    ensures org in Run(p, cmds).orgs
    decreases |cmds|
  {
    hide Inv, Apply;
    if cmds != [] {
      var prior := cmds[..|cmds| - 1];
      OrgStaysIn(p, prior, org);
      RunKeeps(p, prior);
      OrgsGrow(Run(p, prior), cmds[|cmds| - 1]);
    }
  }

  /** A pending invitation to own the organization goes back to one that an owner has made; since then it
      has been pending all along. */
  lemma {:induction false} InvitedSince(p: Plane, cmds: seq<Command>, org: Id, u: Id) returns (i: nat)
    requires Inv(p) && !InvitedAsOwner(p, org, u) && InvitedAsOwner(Run(p, cmds), org, u)
    ensures i < |cmds| && Invites(Run(p, cmds[..i]), cmds[i], org, u, Owner)
    ensures forall k | i < k <= |cmds| :: InvitedAsOwner(Run(p, cmds[..k]), org, u)
    decreases |cmds|
  {
    hide Inv, Apply, Invites, InvitedAsOwner;
    assert cmds[..|cmds|] == cmds;
    assert cmds != [];
    var prior := cmds[..|cmds| - 1];
    RunKeeps(p, prior);
    InvitedStep(Run(p, prior), cmds[|cmds| - 1], org, u);
    if InvitedAsOwner(Run(p, prior), org, u) {
      i := InvitedSince(p, prior, org, u);
      assert prior[..i] == cmds[..i];
      forall k | i < k <= |cmds| ensures InvitedAsOwner(Run(p, cmds[..k]), org, u) {
        assert k < |cmds| ==> prior[..k] == cmds[..k];
      }
    } else {
      i := |cmds| - 1;
    }
  }

  /** An owner has invited the user to own the organization, and the user has accepted that invitation. */
  ghost predicate TookOver(p: Plane, cmds: seq<Command>, i: nat, j: nat, org: Id, u: Id) {
    && i < j < |cmds| && Invites(Run(p, cmds[..i]), cmds[i], org, u, Owner) && IsAcceptanceOf(cmds[j], org, u)
    && forall k | i < k <= j :: InvitedAsOwner(Run(p, cmds[..k]), org, u)
  }

  lemma TakenOver(p: Plane, cmds: seq<Command>, org: Id, u: Id)
    requires Inv(p) && !InvitedAsOwner(p, org, u)
    requires cmds != []
    requires TakesOver(Run(p, cmds[..|cmds| - 1]), cmds[|cmds| - 1], org, u)
    ensures exists i: nat, j: nat :: TookOver(p, cmds, i, j, org, u)
  {
    hide Inv, Run, Invites, InvitedAsOwner;
    var prior := cmds[..|cmds| - 1];
    var i := InvitedSince(p, prior, org, u);
    assert forall k | 0 <= k <= |prior| :: prior[..k] == cmds[..k];
    assert TookOver(p, cmds, i, |cmds| - 1, org, u);
  }

  lemma StillTookOver(p: Plane, prior: seq<Command>, cmds: seq<Command>, org: Id, u: Id)
    requires prior <= cmds && exists i: nat, j: nat :: TookOver(p, prior, i, j, org, u)
    ensures exists i: nat, j: nat :: TookOver(p, cmds, i, j, org, u)
  {
    hide Run, Invites, InvitedAsOwner;
    var i: nat, j: nat :| TookOver(p, prior, i, j, org, u);
    assert forall k | 0 <= k <= |prior| :: prior[..k] == cmds[..k];
    assert TookOver(p, cmds, i, j, org, u);
  }

  /** A user who comes to own an organization has accepted an invitation, made by an owner, to own it: the
      last one that the user had. */
  lemma {:induction false} OwnerComes(p: Plane, cmds: seq<Command>, org: Id, u: Id)
    requires Inv(p) && org in p.orgs && !InvitedAsOwner(p, org, u)
    requires !IsOwner(p, org, u) && IsOwner(Run(p, cmds), org, u)
    ensures exists i: nat, j: nat :: TookOver(p, cmds, i, j, org, u)
    decreases |cmds|
  {
    hide Inv, Apply, Invites, InvitedAsOwner, IsOwner, TookOver;
    assert cmds != [];
    var prior := cmds[..|cmds| - 1];
    OrgStays(p, prior, org);
    OwnerStep(Run(p, prior), cmds[|cmds| - 1], org, u);
    if IsOwner(Run(p, prior), org, u) {
      OwnerComes(p, prior, org, u);
      StillTookOver(p, prior, cmds, org, u);
    } else {
      TakenOver(p, cmds, org, u);
    }
  }

  /** The call founds the organization, with the user as its owner: a registration for the one that comes
      with it, or the operator for the user with the address given. */
  ghost predicate Founds(p: Plane, cmd: Command, org: Id, u: Id) {
    match cmd
    case DoBootstrap(_, _) => org == p.nextId + 2 && u == p.nextId + 1
    case DoProvision(operator, email) => operator && org == p.nextId && Named(p, u, email)
    case _ => false
  }

  /** A new organization is active, has the one owner who founded it and no other member, and is an
      individual's exactly if it comes with a registration. */
  lemma FoundedStep(p: Plane, cmd: Command, org: Id, u: Id)
    requires Inv(p) && org !in p.orgs && org in Apply(p, cmd).0.orgs
    ensures Apply(p, cmd).0.orgs[org] == Org(false, true, cmd.DoBootstrap?)
    ensures if Founds(p, cmd, org, u) then RowOf(Apply(p, cmd).0, org, u) == Some(OrgMembership(Owner, Joined))
            else RowOf(Apply(p, cmd).0, org, u) == None
  {
    NoRows(p, org, u);
    hide Inv, Bootstrap, Provision, AttemptUpgrade, Text.Lower, UserByEmail, Apply;
    if cmd.DoBootstrap? || cmd.DoProvision? {
      FoundingStep(p, cmd, org, u);
    } else {
      SameOrgs(p, cmd);
    }
  }

  lemma NoRows(p: Plane, org: Id, u: Id)
    requires Inv(p) && org !in p.orgs
    ensures RowOf(p, org, u) == None
    ensures forall v, email | Named(p, u, email) && Named(p, v, email) :: u == v
  {
  }

  lemma FoundingStep(p: Plane, cmd: Command, org: Id, u: Id)
    requires org !in p.orgs && org in Apply(p, cmd).0.orgs && (cmd.DoBootstrap? || cmd.DoProvision?)
    requires RowOf(p, org, u) == None && forall v, email | Named(p, u, email) && Named(p, v, email) :: u == v
    ensures Apply(p, cmd).0.orgs[org] == Org(false, true, cmd.DoBootstrap?)
    ensures if Founds(p, cmd, org, u) then RowOf(Apply(p, cmd).0, org, u) == Some(OrgMembership(Owner, Joined))
            else RowOf(Apply(p, cmd).0, org, u) == None
  {
    hide Bootstrap, Provision, Text.Lower, UserByEmail, Named;
    match cmd
    case DoBootstrap(email, now) => BootstrapRows(p, email, now);
    case DoProvision(operator, email) => ProvisionRows(p, operator, email);
  }

  ghost predicate FoundedIn(cmds: seq<Command>, org: Id, u: Id) {
    exists j | 0 <= j < |cmds| :: Founds(Run(EMPTY, cmds[..j]), cmds[j], org, u)
  }

  /** In every reachable state an owner of an organization has founded it, or has accepted an invitation,
      made by an owner of it, to own it: the last one that the user had. */
  lemma {:induction false} OwnersExplained(cmds: seq<Command>, org: Id, u: Id)
    requires IsOwner(Run(EMPTY, cmds), org, u)
    ensures FoundedIn(cmds, org, u) || exists i: nat, j: nat :: TookOver(EMPTY, cmds, i, j, org, u)
    decreases |cmds|
  {
    hide Inv, Apply, Invites, InvitedAsOwner, IsOwner, Founds, TookOver;
    EmptyOk();
    NothingYet(org, u);
    assert cmds != [];
    var prior, last := cmds[..|cmds| - 1], cmds[|cmds| - 1];
    assert forall k | 0 <= k <= |prior| :: prior[..k] == cmds[..k];
    RunKeeps(EMPTY, prior);
    if org in Run(EMPTY, prior).orgs {
      OwnerStep(Run(EMPTY, prior), last, org, u);
      if IsOwner(Run(EMPTY, prior), org, u) {
        OwnersExplained(prior, org, u);
        if !FoundedIn(prior, org, u) {
          StillTookOver(EMPTY, prior, cmds, org, u);
        }
      } else {
        TakenOver(EMPTY, cmds, org, u);
      }
    } else {
      RunKeeps(EMPTY, cmds);
      OwnersOrg(Run(EMPTY, cmds), org, u);
      FoundedStep(Run(EMPTY, prior), last, org, u);
      OwnerRow(Run(EMPTY, cmds), org, u);
    }
  }

  lemma NothingYet(org: Id, u: Id)
    ensures !IsOwner(EMPTY, org, u) && !InvitedAsOwner(EMPTY, org, u)
  {
  }

  lemma OwnersOrg(p: Plane, org: Id, u: Id)
    requires Inv(p) && IsOwner(p, org, u)
    ensures org in p.orgs
  {
  }

  /** Only a registration and the operator's provisioning found an organization, and none is ever deleted. */
  lemma SameOrgs(p: Plane, cmd: Command)
    requires Inv(p) && !cmd.DoBootstrap? && !cmd.DoProvision?
    ensures Apply(p, cmd).0.orgs.Keys == p.orgs.Keys
  {
    hide Inv, InviteOrg, AcceptOrg, RemoveOrg, Text.Strip, Text.Lower, UserByEmail, Named;
    match cmd
    case DoInviteOrg(org, owner, email, role) => InviteOrgExactly(p, org, owner, email, role);
    case DoAcceptOrg(org, user) => AcceptOrgShape(p, org, user);
    case DoRemoveOrg(org, owner, user, now) => RemoveOrgShape(p, org, owner, user, now);
    case _ =>
      hide Apply;
      SameRows(p, cmd);
  }

  lemma OrgsGrow(p: Plane, cmd: Command)
    requires Inv(p)
    ensures p.orgs.Keys <= Apply(p, cmd).0.orgs.Keys
  {
    hide Inv, Bootstrap, Provision, Text.Lower, UserByEmail;
    if cmd.DoBootstrap? {
      BootstrapRows(p, cmd.email, cmd.now);
    } else if cmd.DoProvision? {
      ProvisionRows(p, cmd.operator, cmd.email);
    } else {
      hide Apply;
      SameOrgs(p, cmd);
    }
  }

  // ---------- what the roles of a tenant allow

  predicate EndsWith(s: string, suffix: string) {
    |suffix| <= |s| && s[|s| - |suffix|..] == suffix
  }

  /** The permissions of the tenant scope, by what they are about. */
  const TENANT_CODES := {
    "resource.read", "resource.create", "resource.update", "resource.delete", "tenant.member.read",
    "tenant.member.invite", "tenant.member.revoke", "tenant.settings.update", "vendor.read", "vendor.manage",
    "billing.invoice.read", "tenant.admin", "resource.allocation.create", "resource.allocation.approve", "audit.read"}

  const OPERATOR_CODES := {
    "platform.tenant.read", "platform.tenant.suspend", "platform.plugin.review", "platform.plugin.manage_standard",
    "platform.user.manage", "platform.audit.read"}

  /** The permissions are these, all active; exactly those that say so are of the platform's scope. */
  lemma CatalogExactly(code: string)
    ensures code in Catalog() <==> code in TENANT_CODES || code in OPERATOR_CODES
    ensures code in Catalog() ==>
              Catalog()[code] == Permission(if Text.StartsWith(code, "platform.") then PlatformScope else TenantScope,
                                            true)
  {
    assert TENANT_CODES == ADMIN_CODES && OPERATOR_CODES == PLATFORM_CODES;
    assert "platform."[0] == 'p';
    if code in OPERATOR_CODES {
      assert "platform." <= code;
    } else if code in TENANT_CODES {
      assert code[0] != 'p';
    }
  }

  /** An administrator may do everything; who administers resources, everything about them and vendors; a
      viewer may read everything but the audit log. */
  predicate Allows(name: string, code: string) {
    && code in TENANT_CODES
    && (|| name == "tenant-admin"
        || (name == "resource-admin" && (Text.StartsWith(code, "resource.") || Text.StartsWith(code, "vendor.")))
        || (name == "viewer" && EndsWith(code, ".read") && code != "audit.read"))
  }

  lemma NamesApart()
    ensures "tenant-admin" != "resource-admin" && "tenant-admin" != "viewer" && "viewer" != "resource-admin"
  {
    assert |"tenant-admin"| == 12 && |"resource-admin"| == 14 && |"viewer"| == 6;
  }

  lemma ResourceCodes(code: string)
    ensures code in RESOURCE_ADMIN_CODES <==> Allows("resource-admin", code)
  {
    NamesApart();
    if code in TENANT_CODES {
      assert "resource."[0] == 'r' && "vendor."[0] == 'v';
      assert code[0] == 'r' ==> "resource." <= code;
      assert code[0] == 'v' ==> "vendor." <= code;
    }
  }

  lemma ViewerCodes(code: string)
    ensures code in VIEWER_CODES <==> Allows("viewer", code)
  {
    NamesApart();
    if code in TENANT_CODES {
      assert ".read"[4] == 'd';
    }
  }

  lemma AdminCodes(code: string)
    ensures code in ADMIN_CODES <==> Allows("tenant-admin", code)
  {
  }

  /** A role under one of the three names, allowing what the name says. */
  ghost predicate Standard(role: Role) {
    && (role.name == "tenant-admin" || role.name == "resource-admin" || role.name == "viewer")
    && forall code :: code in role.codes <==> Allows(role.name, code)
  }

  ghost predicate AllStandard(roles: map<Id, Role>) {
    forall r | r in roles :: Standard(roles[r])
  }

  lemma SeededStandard(roles: map<Id, Role>, t: Id)
    requires AllStandard(roles)
    ensures AllStandard(SeedRoles(roles, t))
  {
    hide Allows, ADMIN_CODES, RESOURCE_ADMIN_CODES, VIEWER_CODES;
    forall code
      ensures code in ADMIN_CODES <==> Allows("tenant-admin", code)
      ensures code in RESOURCE_ADMIN_CODES <==> Allows("resource-admin", code)
      ensures code in VIEWER_CODES <==> Allows("viewer", code)
    {
      AdminCodes(code);
      ResourceCodes(code);
      ViewerCodes(code);
    }
  }

  lemma StandardStep(p: Plane, cmd: Command)
    requires Inv(p) && AllStandard(p.roles)
    ensures AllStandard(Apply(p, cmd).0.roles)
  {
    hide Inv, Bootstrap, Provision, AttemptUpgrade, AllStandard, Text.Lower, UserByEmail;
    match cmd
    case DoBootstrap(email, now) =>
      SeededStandard(p.roles, p.nextId + 3);
      BootstrapRoles(p, email, now);
    case DoSubmitUpgrade(org, user, valid) => SubmitFrame(p, org, user, valid);
    case DoAttemptUpgrade(upgrade, commits, now) =>
      SeededStandard(p.roles, p.nextId);
      AttemptRoles(p, upgrade, commits, now);
    case DoProvision(operator, email) => ProvisionRoles(p, operator, email);
    case _ =>
      hide Apply;
      OnlyTenants(p, cmd);
  }

  lemma BootstrapRoles(p: Plane, email: string, now: Time)
    ensures Bootstrap(p, email, now).roles == SeedRoles(p.roles, p.nextId + 3)
  {
    hide SeedRoles, Text.Lower;
  }

  lemma AttemptRoles(p: Plane, r: Id, commits: bool, now: Time)
    ensures AttemptUpgrade(p, r, commits, now).0.roles == p.roles
            || AttemptUpgrade(p, r, commits, now).0.roles == SeedRoles(p.roles, p.nextId)
  {
    hide SeedRoles;
  }

  lemma ProvisionRoles(p: Plane, operator: bool, email: string)
    ensures Provision(p, operator, email).0.roles == p.roles
  {
    hide HasTenant, Text.Lower, Text.Strip;
  }

  lemma {:induction false} StandardRun(cmds: seq<Command>)
    ensures Inv(Run(EMPTY, cmds)) && AllStandard(Run(EMPTY, cmds).roles)
    decreases |cmds|
  {
    EmptyOk();
    RunKeeps(EMPTY, cmds);
    hide Inv, Apply, Standard;
    if cmds != [] {
      StandardRun(cmds[..|cmds| - 1]);
      StandardStep(Run(EMPTY, cmds[..|cmds| - 1]), cmds[|cmds| - 1]);
    }
  }

  /** In every reachable state a user is invited to a tenant in one of three roles, and may then do there
      exactly what the role is for. */
  lemma InvitedMay(cmds: seq<Command>, tenant: Id, caller: Id, u: Id, roleName: string, now: Time, ask: Request)
    requires InviteTenant(Run(EMPTY, cmds), tenant, caller, u, roleName, now).1 == Done
    requires u in Run(EMPTY, cmds).users && ask.principal == Run(EMPTY, cmds).users[u].principal
    requires ask.tenant == Some(tenant) && ask.surface.Public?
    ensures var q := InviteTenant(Run(EMPTY, cmds), tenant, caller, u, roleName, now).0;
      && (roleName == "tenant-admin" || roleName == "resource-admin" || roleName == "viewer")
      && (MayAct(q, ask, None) <==> Eligible(q, ask) && Allows(roleName, Text.Strip(ask.code)) && now <= ask.at)
  {
    var p := Run(EMPTY, cmds);
    StandardRun(cmds);
    hide Run, Inv, InviteTenant, MayAct, Eligible, Allows, Text.Strip;
    InvitationGives(p, tenant, caller, u, roleName, now, ask);
    var role := InviteTenant(p, tenant, caller, u, roleName, now).0.bindings[p.nextId].role;
    assert Standard(p.roles[role]);
  }
}
