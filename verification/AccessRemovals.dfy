/** What is left of a user after a removal from an organization, over every run of calls. */
module AccessRemovals {
  import opened Errors
  import opened Access
  import opened AccessLaws
  import opened AccessRuns
  import opened AccessAdmins
  import Text

  // ---------- how upgrades and new tenants come about

  /** The request is the user's for the organization, and not completed. */
  predicate Pends(upgrades: map<Id, Upgrade>, r: Id, org: Id, u: Id) {
    r in upgrades && upgrades[r] == Upgrade(org, u, None)
  }

  ghost predicate HasPending(p: Plane, org: Id, u: Id) {
    exists r :: Pends(p.upgrades, r, org, u)
  }

  /** Requests are submitted by owners and change only by their completion. */
  ghost predicate UpgradesMove(p: Plane, q: Plane) {
    && (forall r | r in p.upgrades ::
          r in q.upgrades && (q.upgrades[r] == p.upgrades[r]
                              || (p.upgrades[r].tenant.None?
                                  && q.upgrades[r] == p.upgrades[r].(tenant := Some(p.nextId)))))
    && (forall r | r in q.upgrades && r !in p.upgrades ::
          q.upgrades[r].tenant.None? && IsOwner(p, q.upgrades[r].org, q.upgrades[r].user))
  }

  /** A new tenant of an old organization comes with a completed request, whose submitter is its only member. */
  ghost predicate TenantsMove(p: Plane, q: Plane) {
    forall t | t in q.tenants && t !in p.tenants && q.tenants[t].org in p.orgs ::
      forall v | IsMember(q.members, t, v) :: exists r :: CompletedBy(p, q, r, t, v)
  }

  predicate CompletedBy(p: Plane, q: Plane, r: Id, t: Id, v: Id) {
    t in q.tenants && Pends(p.upgrades, r, q.tenants[t].org, v) && r in q.upgrades
        && q.upgrades[r] == Upgrade(q.tenants[t].org, v, Some(t))
  }

  ghost predicate Moves(p: Plane, q: Plane) {
    UpgradesMove(p, q) && TenantsMove(p, q)
  }

  lemma NothingMoves(p: Plane, q: Plane)
    requires q.upgrades == p.upgrades && q.tenants.Keys == p.tenants.Keys
    ensures Moves(p, q)
  {
    hide IsMember, IsOwner;
  }

  lemma SubmitMoves(p: Plane, org: Id, u: Id, valid: bool)
    requires Inv(p)
    ensures Moves(p, SubmitUpgrade(p, org, u, valid).0)
  {
    NewRequest(p);
    hide Inv, IsMember, IsOwner;
  }

  lemma NewRequest(p: Plane)
    requires Inv(p)
    ensures p.nextId !in p.upgrades && p.nextId !in p.tenants
  {
    hide UsersOk, RolesOk, BindingsOk, OneActive, BoundAreMembers, OwnersOk, MembersOk, PermissionsOk;
  }

  lemma CompletedMoves(p: Plane, r: Id, now: Time)
    requires Inv(p) && r in p.upgrades && p.upgrades[r].user in p.users && p.upgrades[r].org in p.orgs
        && p.upgrades[r].tenant.None?
    ensures Moves(p, Completed(p, r, now))
  {
    hide Inv, Completed, IsMember, IsOwner, CompletedBy;
    var x, q, t := p.upgrades[r], Completed(p, r, now), p.nextId;
    NewRequest(p);
    CompletedFrame(p, r, now);
    OnlyMember(p, q.members, t, x.user);
    assert CompletedBy(p, q, r, t, x.user) by { CompletedRequest(p, q, r); }
  }

  lemma CompletedRequest(p: Plane, q: Plane, r: Id)
    requires r in p.upgrades && p.upgrades[r].tenant.None?
    requires q.tenants == p.tenants[p.nextId := Tenant(p.upgrades[r].org, true)]
    requires q.upgrades == p.upgrades[r := p.upgrades[r].(tenant := Some(p.nextId))]
    ensures CompletedBy(p, q, r, p.nextId, p.upgrades[r].user)
  {
  }

  lemma OnlyMember(p: Plane, after: map<(Id, Id), bool>, t: Id, u: Id)
    requires Inv(p) && t !in p.tenants && after == p.members[(t, u) := true]
    ensures forall v: Id | IsMember(after, t, v) :: v == u
  {
    NoMemberYet(p, t);
    JoinedOnly(p.members, t, u);
    hide Inv, IsMember;
    forall v: Id | IsMember(after, t, v) ensures v == u {
      assert !IsMember(p.members, t, v);
    }
  }

  /** Nobody is a member of a tenant that does not exist. */
  lemma NoMemberYet(p: Plane, t: Id)
    requires Inv(p) && t !in p.tenants
    ensures forall v: Id :: !IsMember(p.members, t, v)
  {
    forall v: Id ensures !IsMember(p.members, t, v) {
      MemberIsUser(p, t, v);
    }
  }

  /** Registrations and the operator open tenants of new organizations. */
  lemma ForeignTenant(p: Plane, q: Plane, org: Id)
    requires q.upgrades == p.upgrades && org !in p.orgs
    requires forall t | t in q.tenants && t !in p.tenants :: q.tenants[t].org == org
    ensures Moves(p, q)
  {
    hide IsMember, IsOwner;
  }

  lemma StepMoves(p: Plane, cmd: Command)
    requires Inv(p)
    ensures Moves(p, Apply(p, cmd).0)
  {
    hide Inv, Moves, Bootstrap, OpenTenant, SubmitUpgrade, Completed, Provision, Provisioned, Grant, Revoke,
         InviteTenant, RemoveTenant, InviteOrg, AcceptOrg, RemoveOrg, SuspendTenant, ReinstateTenant, SetAccess, Decide,
         RowFor, Text.Lower, UserByEmail;
    BelowNext(p);
    NothingMoves(p, p);
    match cmd
    case DoBootstrap(email, now) => BootstrapMoves(p, email, now);
    case DoSubmitUpgrade(org, user, valid) => SubmitMoves(p, org, user, valid);
    case DoAttemptUpgrade(upgrade, commits, now) =>
      if AttemptUpgrade(p, upgrade, commits, now).0 != p {
        CompletedMoves(p, upgrade, now);
      }
    case DoProvision(operator, email) => ProvisionMoves(p, operator, email);
    case _ =>
      OnlyTenants(p, cmd);
      hide Apply;
      NothingMoves(p, Apply(p, cmd).0);
  }

  lemma BootstrapMoves(p: Plane, email: string, now: Time)
    requires Inv(p)
    ensures Moves(p, Bootstrap(p, email, now))
  {
    hide Inv, Bootstrap, OpenTenant, WithAccount, Moves, Text.Lower;
    BelowNext(p);
    NewOrg(p);
    AccountTables(p, email);
    BootstrapFrame(p, email, now);
    OpenFrame(WithAccount(p, email), p.nextId + 2, p.nextId + 1, now);
    OpenUpgrades(WithAccount(p, email), p.nextId + 2, p.nextId + 1, now);
    ForeignTenant(p, Bootstrap(p, email, now), p.nextId + 2);
  }

  lemma AccountTables(p: Plane, email: string)
    ensures var q := WithAccount(p, email);
      q.tenants == p.tenants && q.upgrades == p.upgrades && q.nextId == p.nextId + 3 && p.nextId + 1 in q.users
  {
    hide Text.Lower;
  }

  lemma NewOrg(p: Plane)
    requires Inv(p)
    ensures p.nextId !in p.orgs && p.nextId + 2 !in p.orgs
  {
    hide UsersOk, RolesOk, BindingsOk, OneActive, BoundAreMembers, OwnersOk, MembersOk, UpgradesOk, PermissionsOk;
  }

  lemma ProvisionMoves(p: Plane, operator: bool, email: string)
    requires Inv(p)
    ensures Moves(p, Provision(p, operator, email).0)
  {
    NewOrg(p);
    ProvisionShape(p, operator, email);
    hide Inv, Provision, Moves, UserByEmail, Text.Lower, Text.Strip;
    NothingMoves(p, p);
    if Provision(p, operator, email).0 != p {
      ForeignTenant(p, Provision(p, operator, email).0, p.nextId);
    }
  }

  // ---------- gone for good, but for upgrades

  /** An upgrade that was pending in the earlier state has opened the tenant for the user. */
  ghost predicate CameBack(q: Plane, z: Plane, org: Id, u: Id, t: Id) {
    exists r :: Pends(q.upgrades, r, org, u) && r in z.upgrades && z.upgrades[r] == Upgrade(org, u, Some(t))
  }

  /** Since the state `q` the user has not been taken back into the organization: what is pending for the
      user was pending then, and memberships in its tenants come from that. */
  ghost predicate Gone(q: Plane, z: Plane, org: Id, u: Id) {
    && u in q.users && u in z.users && z.users[u].principal == q.users[u].principal
        && z.users[u].email == q.users[u].email
    && org in z.orgs && (org, u) in z.orgMembers && z.orgMembers[(org, u)].status == Removed
    && q.tenants.Keys <= z.tenants.Keys
    && (forall r | Pends(z.upgrades, r, org, u) :: Pends(q.upgrades, r, org, u))
    && (forall t | t in z.tenants && z.tenants[t].org == org && IsMember(z.members, t, u) ::
          t !in q.tenants && CameBack(q, z, org, u, t))
  }

  /** A member of an old tenant comes only through the organization, one of a new tenant only through a
      request that was pending. */
  lemma MemberCame(z: Plane, cmd: Command, org: Id, u: Id, t: Id)
    requires Inv(z) && org in z.orgs && (org, u) in z.orgMembers && z.orgMembers[(org, u)].status == Removed
    requires var w := Apply(z, cmd).0; t in w.tenants && w.tenants[t].org == org && IsMember(w.members, t, u)
    ensures if t in z.tenants then z.tenants[t].org == org && IsMember(z.members, t, u)
            else exists r :: CompletedBy(z, Apply(z, cmd).0, r, t, u)
  {
    StepStable(z, cmd);
    StepMoves(z, cmd);
    if cmd.DoInviteTenant? && cmd.tenant == t && cmd.user == u && t in z.tenants && z.tenants[t].org == org {
      NotInvited(z, cmd);
    }
    hide Inv, Apply, IsMember, CompletedBy, UpgradesMove, OrgStable, UsersStable;
  }

  lemma NotInvited(z: Plane, cmd: Command)
    requires Inv(z) && cmd.DoInviteTenant? && cmd.tenant in z.tenants
    requires !InOrg(z.orgMembers, z.tenants[cmd.tenant].org, cmd.user)
    ensures Apply(z, cmd).0.members == z.members
  {
    hide Inv, InviteTenant, IsRole, IsMember, InOrg;
    InviteShape(z, cmd.tenant, cmd.caller, cmd.user, cmd.roleName, cmd.now);
  }

  lemma StillPends(z: Plane, cmd: Command, org: Id, u: Id)
    requires Inv(z) && (org, u) in z.orgMembers && z.orgMembers[(org, u)].status == Removed
    ensures forall r | Pends(Apply(z, cmd).0.upgrades, r, org, u) :: Pends(z.upgrades, r, org, u)
    ensures forall r, x: Upgrade | r in z.upgrades && z.upgrades[r] == x && x.tenant.Some? ::
              r in Apply(z, cmd).0.upgrades && Apply(z, cmd).0.upgrades[r] == x
  {
    StepMoves(z, cmd);
    hide Inv, Apply, TenantsMove;
  }

  lemma StillCame(q: Plane, z: Plane, w: Plane, org: Id, u: Id, t: Id)
    requires CameBack(q, z, org, u, t)
    requires forall r, x: Upgrade | r in z.upgrades && z.upgrades[r] == x && x.tenant.Some? ::
        r in w.upgrades && w.upgrades[r] == x
    ensures CameBack(q, w, org, u, t)
  {
    var r :| Pends(q.upgrades, r, org, u) && r in z.upgrades && z.upgrades[r] == Upgrade(org, u, Some(t));
    assert w.upgrades[r] == Upgrade(org, u, Some(t));
  }

  lemma GoneMembers(q: Plane, z: Plane, cmd: Command, org: Id, u: Id, t: Id)
    requires Inv(z) && Gone(q, z, org, u)
    requires var w := Apply(z, cmd).0; t in w.tenants && w.tenants[t].org == org && IsMember(w.members, t, u)
    ensures t !in q.tenants && CameBack(q, Apply(z, cmd).0, org, u, t)
  {
    hide Inv, Apply, IsMember, CompletedBy;
    var w := Apply(z, cmd).0;
    MemberCame(z, cmd, org, u, t);
    if t in z.tenants {
      StillPends(z, cmd, org, u);
      StillCame(q, z, w, org, u, t);
    } else {
      var r :| CompletedBy(z, w, r, t, u);
      assert Pends(z.upgrades, r, org, u) && r in w.upgrades && w.upgrades[r] == Upgrade(org, u, Some(t)) by {
        Unfolded(z, w, r, t, u);
      }
    }
  }

  lemma Unfolded(z: Plane, w: Plane, r: Id, t: Id, u: Id)
    requires CompletedBy(z, w, r, t, u)
    ensures t in w.tenants && Pends(z.upgrades, r, w.tenants[t].org, u)
    ensures r in w.upgrades && w.upgrades[r] == Upgrade(w.tenants[t].org, u, Some(t))
  {
  }

  lemma GoneStep(q: Plane, z: Plane, cmd: Command, org: Id, u: Id)
    requires Inv(z) && Gone(q, z, org, u) && !Reinvites(cmd, org, q.users[u].email)
    ensures Gone(q, Apply(z, cmd).0, org, u)
  {
    var w := Apply(z, cmd).0;
    StepStable(z, cmd);
    StillPends(z, cmd, org, u);
    StepKeeps(z, cmd);
    assert org in w.orgs by { MemberOrg(w, org, u); }
    hide Inv, Apply, IsMember, Reinvites, CameBack;
    forall t | t in w.tenants && w.tenants[t].org == org && IsMember(w.members, t, u) ensures t !in q.tenants
        && CameBack(q, w, org, u, t) {
      GoneMembers(q, z, cmd, org, u, t);
    }
  }

  lemma MemberOrg(p: Plane, org: Id, u: Id)
    requires Inv(p)
    ensures (org, u) in p.orgMembers ==> org in p.orgs
  {
    hide UsersOk, RolesOk, BindingsOk, OneActive, BoundAreMembers, MembersOk, UpgradesOk, PermissionsOk, IdsOk,
         HasOwner;
  }

  lemma {:induction false} GoneRun(q: Plane, org: Id, u: Id, cmds: seq<Command>)
    requires Inv(q) && Gone(q, q, org, u)
    requires forall i | 0 <= i < |cmds| :: !Reinvites(cmds[i], org, q.users[u].email)
    ensures Inv(Run(q, cmds)) && Gone(q, Run(q, cmds), org, u)
    decreases |cmds|
  {
    hide Inv, Apply, Reinvites, Gone;
    if cmds != [] {
      var prior, last := cmds[..|cmds| - 1], cmds[|cmds| - 1];
      GoneRun(q, org, u, prior);
      assert u in q.users by { GoneUser(q, q, org, u); }
      GoneStep(q, Run(q, prior), last, org, u);
      StepKeeps(Run(q, prior), last);
    }
  }

  lemma GoneUser(q: Plane, z: Plane, org: Id, u: Id)
    requires Gone(q, z, org, u)
    ensures u in q.users
  {
  }

  /** Right after the removal the user is in none of the organization's tenants. */
  lemma RemovedIsGone(p: Plane, org: Id, caller: Id, u: Id, now: Time)
    requires Inv(p) && u in p.users && RemoveOrg(p, org, caller, u, now).1 == Done
    ensures var q := RemoveOrg(p, org, caller, u, now).0;
      Inv(q) && Gone(q, q, org, u) && q.upgrades == p.upgrades && q.tenants == p.tenants && q.users == p.users
  {
    RemoveOrgKeeps(p, org, caller, u, now);
    hide Inv, RevokeIn;
  }

  // ---------- the effect of a removal

  /** No call of the run invites the user to the organization again. */
  ghost predicate NoInvitation(cmds: seq<Command>, org: Id, email: string) {
    forall i | 0 <= i < |cmds| :: !Reinvites(cmds[i], org, email)
  }

  /** After a removal from an organization every request of the user in a tenant of it is denied, over any
      run until the organization invites the user again, except in a tenant that an upgrade opens which
      the user had pending at the removal: never in the tenants of that moment, and nowhere if nothing
      was pending. */
  lemma OrgRemovalTakesEffect(p: Plane, org: Id, caller: Id, u: Id, now: Time, cmds: seq<Command>, t: Id)
    requires Inv(p) && u in p.users && RemoveOrg(p, org, caller, u, now).1 == Done
        && NoInvitation(cmds, org, p.users[u].email)
    ensures var z := Run(RemoveOrg(p, org, caller, u, now).0, cmds);
      t in z.tenants && z.tenants[t].org == org
          && (t in p.tenants || !HasPending(p, org, u) || !CameBack(p, z, org, u, t)) ==>
        Denied(z, p.users[u].principal, t)
  {
    RemovedIsGone(p, org, caller, u, now);
    hide Inv, RemoveOrg, Denied, IsMember, Reinvites;
    var q := RemoveOrg(p, org, caller, u, now).0;
    GoneRun(q, org, u, cmds);
    var z := Run(q, cmds);
    if t in z.tenants && z.tenants[t].org == org
        && (t in p.tenants || !HasPending(p, org, u) || !CameBack(p, z, org, u, t)) {
      assert !IsMember(z.members, t, u);
      NonMemberDenied(z, u, t);
    }
  }

  /** The run brings the user back into a tenant of the organization, without an invitation. */
  ghost predicate Returns(q: Plane, org: Id, u: Id, cmds: seq<Command>, t: Id)
    requires u in q.users
  {
    var z := Run(q, cmds);
    NoInvitation(cmds, org, q.users[u].email) && t in z.tenants && z.tenants[t].org == org
        && !Denied(z, q.users[u].principal, t)
  }

  /** A removal can be undone without an invitation exactly when the user has an upgrade of the
      organization pending: something to look up before the removal. */
  lemma RemovalHolds(p: Plane, org: Id, caller: Id, u: Id, now: Time)
    requires Inv(p) && u in p.users && RemoveOrg(p, org, caller, u, now).1 == Done
    ensures u in RemoveOrg(p, org, caller, u, now).0.users
    ensures (exists cmds, t :: Returns(RemoveOrg(p, org, caller, u, now).0, org, u, cmds, t)) <==> HasPending(p, org, u)
  {
    hide *;
    RemovedIsGone(p, org, caller, u, now);
    var q := RemoveOrg(p, org, caller, u, now).0;
    if cmds, t :| Returns(q, org, u, cmds, t) {
      ReturnsPending(p, org, caller, u, now, cmds, t);
    }
    if HasPending(p, org, u) {
      var r := SomePending(p, org, u);
      PendingReturns(q, r, org, u, now);
    }
  }

  lemma SomePending(p: Plane, org: Id, u: Id) returns (r: Id)
    requires HasPending(p, org, u)
    ensures Pends(p.upgrades, r, org, u)
  {
    r :| Pends(p.upgrades, r, org, u);
  }

  lemma ReturnsPending(p: Plane, org: Id, caller: Id, u: Id, now: Time, cmds: seq<Command>, t: Id)
    requires Inv(p) && u in p.users && RemoveOrg(p, org, caller, u, now).1 == Done
        && RemoveOrg(p, org, caller, u, now).0.users == p.users
    requires Returns(RemoveOrg(p, org, caller, u, now).0, org, u, cmds, t)
    ensures HasPending(p, org, u)
  {
    hide Inv, RemoveOrg, Denied, Run, CameBack, NoInvitation, HasPending;
    OrgRemovalTakesEffect(p, org, caller, u, now, cmds, t);
  }

  /** The account is active, the worker's attempt goes through, and the user administers the new tenant. */
  lemma PendingReturns(q: Plane, r: Id, org: Id, u: Id, now: Time)
    requires Inv(q) && u in q.users && Pends(q.upgrades, r, org, u)
    ensures Returns(q, org, u, [DoSetAccess(u, Active), DoAttemptUpgrade(r, true, now)], q.nextId)
  {
    hide Inv, Run, SetAccess, AttemptUpgrade, MayAct, Authorize, Denied;
    var a, cmds := SetAccess(q, u, Active), [DoSetAccess(u, Active), DoAttemptUpgrade(r, true, now)];
    TwoCalls(q, u, r, now);
    SetAccessKeeps(q, u, Active);
    SetAccessFrame(q, u, Active);
    ActiveHuman(q, u);
    CompletedMay(a, r, org, u, now, now);
    NotDenied(AttemptUpgrade(a, r, true, now).0, a.users[u].principal, q.nextId, now);
    assert NoInvitation(cmds, org, q.users[u].email);
  }

  lemma TwoCalls(q: Plane, u: Id, r: Id, now: Time)
    ensures Run(q, [DoSetAccess(u, Active), DoAttemptUpgrade(r, true, now)])
            == AttemptUpgrade(SetAccess(q, u, Active), r, true, now).0
  {
    hide SetAccess, AttemptUpgrade;
    var one, two := DoSetAccess(u, Active), DoAttemptUpgrade(r, true, now);
    assert [one, two][..1] == [one] && [one][..0] == [];
    assert Run(q, []) == q && Run(q, [one]) == SetAccess(q, u, Active);
  }

  lemma NotDenied(z: Plane, principal: Id, t: Id, at: Time)
    requires MayAct(z, Request(principal, "tenant.admin", Public, Some(t), None, at), None)
    ensures !Denied(z, principal, t)
  {
    hide MayAct, Authorize;
    AuthorizeExactly(z, Request(principal, "tenant.admin", Public, Some(t), None, at), None);
  }

  lemma ActiveHuman(q: Plane, u: Id)
    requires Inv(q) && u in q.users
    ensures var a := SetAccess(q, u, Active);
      && u in a.users && a.users[u].principal == q.users[u].principal && a.users[u].principal in a.principals
      && a.principals[a.users[u].principal] == Principal(Human, Active)
  {
    hide IdsOk, RolesOk, BindingsOk, OneActive, BoundAreMembers, OwnersOk, MembersOk, UpgradesOk, PermissionsOk;
  }

  /** Whoever has an upgrade pending administers the tenant that its completion opens. */
  lemma CompletedMay(a: Plane, r: Id, org: Id, u: Id, now: Time, at: Time)
    requires Inv(a) && Pends(a.upgrades, r, org, u) && u in a.users && now <= at
    requires a.users[u].principal in a.principals && a.principals[a.users[u].principal] == Principal(Human, Active)
    ensures var z := AttemptUpgrade(a, r, true, now).0;
      && a.nextId in z.tenants && z.tenants[a.nextId].org == org
      && MayAct(z, Request(a.users[u].principal, "tenant.admin", Public, Some(a.nextId), None, at), None)
  {
    hide Inv, Completed, AttemptUpgrade, MayAct, IsMember, SystemRole, NewBinding;
    UpgradeOrg(a, r);
    Attempted(a, r, org, u, now);
    CompletedKeeps(a, r, now);
    CompletedFrame(a, r, now);
    CompletedRows(a, r, now);
    NewMember(a.members, a.nextId, u);
    FounderMay(Completed(a, r, now), u, a.nextId, a.users[u].principal, now, at);
  }

  lemma NewMember(members: map<(Id, Id), bool>, t: Id, u: Id)
    ensures IsMember(members[(t, u) := true], t, u)
  {
  }

  lemma Attempted(a: Plane, r: Id, org: Id, u: Id, now: Time)
    requires Pends(a.upgrades, r, org, u) && u in a.users && org in a.orgs
    ensures AttemptUpgrade(a, r, true, now) == (Completed(a, r, now), Done)
  {
    hide Completed;
  }

  lemma UpgradeOrg(a: Plane, r: Id)
    requires Inv(a) && r in a.upgrades
    ensures a.upgrades[r].org in a.orgs && a.upgrades[r].user in a.users
  {
    hide UsersOk, RolesOk, BindingsOk, OneActive, BoundAreMembers, OwnersOk, MembersOk, PermissionsOk, IdsOk;
  }

  lemma CompletedRows(p: Plane, r: Id, now: Time)
    requires r in p.upgrades && p.upgrades[r].user in p.users && p.upgrades[r].org in p.orgs
    ensures var x, q, t := p.upgrades[r], Completed(p, r, now), p.nextId;
      && t + 1 in q.roles && q.roles[t + 1] == SystemRole(t, TENANT_ADMIN, ADMIN_CODES)
      && t + 4 in q.bindings && q.bindings[t + 4] == NewBinding(p.users[x.user].principal, t + 1, t, now, None)
  {
    SeededRoles(p.roles, p.nextId);
    hide SeedRoles;
  }

  // ---------- such a run

  // The first user makes the second one an owner too, asks for the upgrade of their organization, and is
  // removed by the other before the worker gets to it.
  const LATE := [
    DoBootstrap("a@x", 0), DoSetAccess(1, Active), DoBootstrap("b@x", 0), DoSetAccess(9, Active),
    DoInviteOrg(2, 1, "b@x", Some(Owner)), DoAcceptOrg(2, 9), DoSubmitUpgrade(2, 1, true), DoRemoveOrg(2, 9, 1, 5),
    DoAttemptUpgrade(16, true, 6)]

  const OWNERS := TWO.(orgMembers := TWO.orgMembers[(2, 9) := OrgMembership(Owner, Joined)])

  const ASKED := OWNERS.(nextId := 17, upgrades := map[16 := Upgrade(2, 1, None)])

  lemma OneCall(n: nat)
    requires n < |LATE|
    ensures Run(EMPTY, LATE[..n + 1]) == Apply(Run(EMPTY, LATE[..n]), LATE[n]).0
    ensures Inv(Run(EMPTY, LATE[..n]))
  {
    hide Apply, Inv;
    EmptyOk();
    RunKeeps(EMPTY, LATE[..n]);
    assert LATE[..n + 1][..n] == LATE[..n];
  }

  lemma InvitedOwner()
    ensures Run(EMPTY, LATE[..5]) == TWO.(orgMembers := TWO.orgMembers[(2, 9) := OrgMembership(Owner, Invited)])
  {
    hide Run, Inv, Catalog, SeedRoles, Apply;
    SecondRegistered();
    assert LATE[..4] == PAIR[..4];
    OneCall(4);
    OwnerCall();
  }

  lemma OwnerCall()
    ensures Apply(TWO, LATE[4]).0 == TWO.(orgMembers := TWO.orgMembers[(2, 9) := OrgMembership(Owner, Invited)])
  {
    hide Catalog, SeedRoles;
    Addresses();
    assert HasEmail(TWO.users, 9, "b@x");
    assert UserByEmail(TWO.users, "b@x") == Some(9);
  }

  lemma TwoOwners()
    ensures Run(EMPTY, LATE[..6]) == OWNERS
  {
    hide Run, Inv, Catalog, SeedRoles;
    InvitedOwner();
    OneCall(5);
    var before, after := TWO.orgMembers[(2, 9) := OrgMembership(Owner, Invited)], OWNERS.orgMembers;
    assert before[(2, 9) := OrgMembership(Owner, Joined)] == after;
  }

  lemma Asked()
    ensures Run(EMPTY, LATE[..7]) == ASKED && Inv(ASKED)
  {
    hide Run, Inv, Catalog, SeedRoles;
    TwoOwners();
    OneCall(6);
    OneCall(7);
  }

  lemma FirstRemoved()
    ensures var p := RemoveOrg(ASKED, 2, 9, 1, 5).0;
      && p.orgMembers == ASKED.orgMembers[(2, 1) := OrgMembership(Owner, Removed)] && p.upgrades == ASKED.upgrades
          && p.nextId == 17
      && p.users == ASKED.users && p.principals == ASKED.principals
  {
    hide Catalog, SeedRoles, RevokeIn, LeaveAll;
  }

  /** After that run the removed user is allowed everything of an administrator in the new tenant, and
      nobody has invited the user back. */
  lemma RemovedReturns()
    ensures var z := Run(EMPTY, LATE);
      && (2, 1) in z.orgMembers && z.orgMembers[(2, 1)].status == Removed && 17 in z.tenants && z.tenants[17].org == 2
      && Require(z, 0, 17, 6).1
  {
    hide Run, Inv, Catalog, SeedRoles, Authorize, MayAct, RemoveOrg, AttemptUpgrade;
    Asked();
    OneCall(7);
    OneCall(8);
    assert LATE[..9] == LATE;
    FirstRemoved();
    Returned(RemoveOrg(ASKED, 2, 9, 1, 5).0);
  }

  lemma Returned(p: Plane)
    requires Inv(p) && p.orgMembers == ASKED.orgMembers[(2, 1) := OrgMembership(Owner, Removed)]
        && p.upgrades == ASKED.upgrades
    requires p.nextId == 17 && p.users == ASKED.users && p.principals == ASKED.principals
    ensures var z := AttemptUpgrade(p, 16, true, 6).0;
      && (2, 1) in z.orgMembers && z.orgMembers[(2, 1)].status == Removed && 17 in z.tenants && z.tenants[17].org == 2
      && Require(z, 0, 17, 6).1
  {
    hide Inv, Catalog, SeedRoles, Authorize, MayAct, Completed;
    UpgradeOrg(p, 16);
    CompletedMay(p, 16, 2, 1, 6, 6);
    CompletedFrame(p, 16, 6);
    AuthorizeExactly(AttemptUpgrade(p, 16, true, 6).0, Request(0, "tenant.admin", Public, Some(17), None, 6), None);
  }
}
