/** The upgrade of an individual organization, under retried and failing attempts: values, runs and service. */
module OrgUpgrade {
  import opened Errors

  type Id = nat

  datatype Org = Org(slug: string, individual: bool, realm: Option<string>)
  datatype Tenant = Tenant(org: Id, slug: string)
  datatype Status = Processing | Completed | Failed
  datatype Request = Request(org: Id, user: Id, slug: string, status: Status)
  datatype Binding = Binding(tenant: Id, principal: Id)

  /** The audit row of a registered organization, with the request and tenant of its payload. */
  datatype Registered = Registered(request: Id, tenant: Id)

  /** `realms` maps the realm rows to the organization they were added for; `idp` is the set of
      realms at the provider, which no rollback touches. */
  datatype World = World(
    nextId: Id, orgs: map<Id, Org>, tenants: map<Id, Tenant>, members: set<(Id, Id)>, bindings: map<Id, Binding>,
    realms: map<string, Option<Id>>, requests: map<Id, Request>, audit: seq<Registered>, idp: set<string>)

  /** What goes wrong in an attempt: the provider is unavailable, it fails otherwise, or the worker
      dies just before or just after the commit. */
  datatype Fault = NoFault | IdpDown | IdpError | CrashBeforeCommit | CrashAfterCommit

  const PLATFORM := "platform"

  const EMPTY := World(0, map[], map[], {}, map[], map[PLATFORM := None], map[], [], {PLATFORM})

  function DefaultSlug(slug: string): string {
    slug + "-default"
  }

  predicate TakenByOther(orgs: map<Id, Org>, org: Id, slug: string) {
    exists o | o in orgs :: o != org && orgs[o].slug == slug
  }

  predicate HasTenant(tenants: map<Id, Tenant>, org: Id, slug: string) {
    exists t | t in tenants :: tenants[t] == Tenant(org, slug)
  }

  /** The rows of the pipeline break a unique index: the organization's slug or the tenant's. */
  predicate Collides(w: World, q: Request) {
    TakenByOther(w.orgs, q.org, q.slug) || HasTenant(w.tenants, q.org, DefaultSlug(q.slug))
  }

  /** The request marked failed; a rollback may have taken its row away, which is then put back. */
  function MarkFailedAs(w: World, r: Id, q: Request): World {
    w.(requests := w.requests[r := (if r in w.requests then w.requests[r] else q).(status := Failed)])
  }

  function MarkFailed(w: World, r: Id): World
    requires r in w.requests
  {
    MarkFailedAs(w, r, w.requests[r])
  }

  /** The rows that an attempt commits. */
  function Pipeline(w: World, r: Id, principal: Id): World
    requires r in w.requests && w.requests[r].org in w.orgs
  {
    var q, t := w.requests[r], w.nextId;
    w.(nextId := t + 2,
       realms := if q.slug in w.realms then w.realms else w.realms[q.slug := Some(q.org)],
       orgs := w.orgs[q.org := Org(q.slug, false, Some(q.slug))],
       tenants := w.tenants[t := Tenant(q.org, DefaultSlug(q.slug))],
       members := w.members + {(t, q.user)},
       bindings := w.bindings[t + 1 := Binding(t, principal)],
       requests := w.requests[r := q.(status := Completed)],
       audit := w.audit + [Registered(r, t)])
  }

  function Attempt(w: World, r: Id, principal: Id, fault: Fault): World {
    if r !in w.requests || w.requests[r].status == Completed || w.requests[r].org !in w.orgs then w
    else if fault == IdpDown then w
    else if fault == IdpError then MarkFailed(w, r)
    else
      var v := w.(idp := w.idp + {w.requests[r].slug});
      if fault == CrashBeforeCommit then v
      else if Collides(w, w.requests[r]) then MarkFailed(v, r)
      else Pipeline(v, r, principal)
  }

  predicate Pending(requests: map<Id, Request>, slug: string) {
    exists r | r in requests :: requests[r].slug == slug && requests[r].status != Failed
  }

  /** The checks of a submission; `valid` is the outcome of the validators. */
  predicate Accepts(w: World, org: Id, slug: string, valid: bool) {
    valid && org in w.orgs && w.orgs[org].individual && !TakenByOther(w.orgs, org, slug) && !Pending(w.requests, slug)
  }

  function Submitted(w: World, org: Id, user: Id, slug: string, status: Status): World {
    w.(nextId := w.nextId + 1, requests := w.requests[w.nextId := Request(org, user, slug, status)])
  }

  /** A submission that hands the pipeline to the workflow, which may fail to start. */
  function Submit(w: World, org: Id, user: Id, slug: string, valid: bool, starts: bool): World {
    if !Accepts(w, org, slug, valid) then w else Submitted(w, org, user, slug, if starts then Processing else Failed)
  }

  /** A submission that runs the pipeline in its own transaction: what is rolled back includes the request. */
  function SubmitInline(w: World, org: Id, user: Id, slug: string, valid: bool, principal: Id, fault: Fault): World {
    if !Accepts(w, org, slug, valid) || fault == IdpDown then w
    else if fault == CrashBeforeCommit then w.(idp := w.idp + {slug})
    else Attempt(Submitted(w, org, user, slug, Processing), w.nextId, principal, fault)
  }

  /** An individual's organization and first tenant, as a registration makes them. */
  function Founded(w: World, user: Id, principal: Id, slug: string, base: string): World {
    if TakenByOther(w.orgs, w.nextId, slug) then w
    else
      var t := w.nextId + 1;
      w.(nextId := t + 2,
         orgs := w.orgs[w.nextId := Org(slug, true, None)],
         tenants := w.tenants[t := Tenant(w.nextId, DefaultSlug(base))],
         members := w.members + {(t, user)},
         bindings := w.bindings[t + 1 := Binding(t, principal)])
  }

  datatype Command =
    | DoFound(founder: Id, founderPrincipal: Id, orgSlug: string, base: string)
    | DoSubmit(org: Id, user: Id, slug: string, valid: bool, starts: bool)
    | DoSubmitInline(org: Id, user: Id, slug: string, valid: bool, principal: Id, fault: Fault)
    | DoAttempt(request: Id, principal: Id, fault: Fault)
    | DoLoseStart(request: Id)
    | DoRestart

  /** `DoRestart` is a restart of the provider, which forgets every realm but the platform's.
      `DoLoseStart` is a start of the workflow that succeeded but whose answer was lost: the
      submission then marks the request failed, whatever its attempts have done meanwhile. */
  function Apply(w: World, cmd: Command): World {
    match cmd
    case DoFound(user, principal, slug, base) => Founded(w, user, principal, slug, base)
    case DoSubmit(org, user, slug, valid, starts) => Submit(w, org, user, slug, valid, starts)
    case DoSubmitInline(org, user, slug, valid, principal, fault) =>
      SubmitInline(w, org, user, slug, valid, principal, fault)
    case DoAttempt(request, principal, fault) => Attempt(w, request, principal, fault)
    case DoLoseStart(request) => if request in w.requests then MarkFailed(w, request) else w
    case DoRestart => w.(idp := {PLATFORM})
  }

  function Run(w: World, cmds: seq<Command>): World
    decreases |cmds|
  {
    if cmds == [] then w else Apply(Run(w, cmds[..|cmds| - 1]), cmds[|cmds| - 1])
  }

  // ---------- the invariant

  ghost predicate IdsOk(n: Id, orgs: map<Id, Org>, tenants: map<Id, Tenant>, members: set<(Id, Id)>,
                        bindings: map<Id, Binding>, requests: map<Id, Request>) {
    && (forall k | k in orgs :: k < n)
    && (forall k | k in tenants :: k < n && tenants[k].org in orgs)
    && (forall m | m in members :: m.0 < n)
    && (forall k | k in bindings :: k < n)
    && (forall k | k in requests :: k < n && requests[k].org in orgs)
  }

  /** The unique indexes. */
  ghost predicate Unique(orgs: map<Id, Org>, tenants: map<Id, Tenant>) {
    && (forall o, p | o in orgs && p in orgs && orgs[o].slug == orgs[p].slug :: o == p)
    && (forall t, u | t in tenants && u in tenants && tenants[t] == tenants[u] :: t == u)
  }

  /** Every row of the audit log names a request, and a tenant of its own with the request's
      organization and slug, its requester as a member and a realm row for the slug. */
  ghost predicate RowsOk(audit: seq<Registered>, requests: map<Id, Request>, tenants: map<Id, Tenant>,
                         members: set<(Id, Id)>, realms: map<string, Option<Id>>) {
    && (forall i | 0 <= i < |audit| ::
          && audit[i].request in requests && audit[i].tenant in tenants
          && var q := requests[audit[i].request];
             tenants[audit[i].tenant] == Tenant(q.org, DefaultSlug(q.slug)) && (audit[i].tenant, q.user) in members
                 && q.slug in realms)
    && (forall i, j | 0 <= i < j < |audit| :: audit[i].tenant != audit[j].tenant)
  }

  function Upgraded(audit: seq<Registered>): set<Id> {
    set i | 0 <= i < |audit| :: audit[i].request
  }

  ghost predicate CompletedOk(requests: map<Id, Request>, audit: seq<Registered>) {
    forall r | r in requests && requests[r].status == Completed :: r in Upgraded(audit)
  }

  /** Tenants, memberships and administrators' bindings are made together, one of each for every
      organization founded and every upgrade recorded. */
  ghost predicate Counted(w: World) {
    |w.tenants| == |w.members| == |w.bindings| == |w.orgs| + |w.audit|
  }

  /** Every tenant has one membership and one binding, that of its first administrator. */
  ghost predicate TenantRowsOk(tenants: map<Id, Tenant>, members: set<(Id, Id)>, bindings: map<Id, Binding>) {
    && (forall m | m in members :: m.0 in tenants)
    && (forall m, o | m in members && o in members && m.0 == o.0 :: m == o)
    && (forall b | b in bindings :: bindings[b].tenant in tenants && b == bindings[b].tenant + 1)
    && (forall t | t in tenants :: t + 1 in bindings && bindings[t + 1].tenant == t)
  }

  ghost predicate Inv(w: World) {
    && IdsOk(w.nextId, w.orgs, w.tenants, w.members, w.bindings, w.requests)
    && Unique(w.orgs, w.tenants)
    && RowsOk(w.audit, w.requests, w.tenants, w.members, w.realms)
    && CompletedOk(w.requests, w.audit)
    && Counted(w)
    && TenantRowsOk(w.tenants, w.members, w.bindings)
  }

  lemma RequestsKeep(w: World, requests: map<Id, Request>, n: Id)
    requires Inv(w) && n >= w.nextId && w.requests.Keys <= requests.Keys
    requires forall r | r in w.requests :: requests[r] == w.requests[r].(status := requests[r].status)
    requires forall r | r in requests && requests[r].status == Completed ::
        r in w.requests && w.requests[r].status == Completed
    requires forall r | r in requests :: r < n && requests[r].org in w.orgs
    ensures Inv(w.(nextId := n, requests := requests))
  {
    hide Unique, Upgraded, DefaultSlug, TenantRowsOk;
    assert IdsOk(n, w.orgs, w.tenants, w.members, w.bindings, requests) by { hide RowsOk, CompletedOk; }
    forall i | 0 <= i < |w.audit|
      ensures w.audit[i].request in requests && requests[w.audit[i].request].org == w.requests[w.audit[i].request].org
      ensures requests[w.audit[i].request].user == w.requests[w.audit[i].request].user
      ensures requests[w.audit[i].request].slug == w.requests[w.audit[i].request].slug
    {
      assert w.audit[i].request in w.requests;
    }
  }

  lemma IdpFree(w: World, idp: set<string>)
    requires Inv(w)
    ensures Inv(w.(idp := idp))
  {
  }

  lemma MarkFailedKeeps(w: World, r: Id)
    requires Inv(w) && r in w.requests
    ensures Inv(MarkFailed(w, r))
  {
    hide Inv;
    Fresh(w);
    BelowNext(w);
    RequestsKeep(w, MarkFailed(w, r).requests, w.nextId);
  }

  lemma BelowNext(w: World)
    requires Inv(w)
    ensures forall r | r in w.requests :: r < w.nextId
  {
    hide Unique, RowsOk, CompletedOk, Counted, TenantRowsOk;
  }

  lemma UpgradedGrows(audit: seq<Registered>, row: Registered)
    ensures Upgraded(audit + [row]) == Upgraded(audit) + {row.request}
  {
    var after := audit + [row];
    forall x | x in Upgraded(audit) + {row.request} ensures x in Upgraded(after) {
      if x == row.request {
        assert after[|audit|].request == x;
      } else {
        var i :| 0 <= i < |audit| && audit[i].request == x;
        assert after[i].request == x;
      }
    }
  }

  lemma PipelineRows(w: World, r: Id, principal: Id)
    requires Inv(w) && r in w.requests
    ensures w.requests[r].org in w.orgs
    ensures var v := Pipeline(w, r, principal); RowsOk(v.audit, v.requests, v.tenants, v.members, v.realms)
  {
    hide Unique, CompletedOk, Counted, TenantRowsOk;
  }

  lemma PipelineUnique(w: World, r: Id, principal: Id)
    requires Inv(w) && r in w.requests && !Collides(w, w.requests[r]) && w.requests[r].org in w.orgs
    ensures var v := Pipeline(w, r, principal); Unique(v.orgs, v.tenants)
  {
    hide RowsOk, CompletedOk, Counted, IdsOk, TenantRowsOk;
  }

  lemma PipelineCounted(w: World, r: Id, principal: Id)
    requires Inv(w) && r in w.requests && w.requests[r].org in w.orgs
    ensures var v := Pipeline(w, r, principal);
      Counted(v) && IdsOk(v.nextId, v.orgs, v.tenants, v.members, v.bindings, v.requests)
  {
    hide RowsOk, CompletedOk, Unique, DefaultSlug, TenantRowsOk;
    var q, t := w.requests[r], w.nextId;
    Fresh(w);
    OneMoreRow(w.tenants, t, Tenant(q.org, DefaultSlug(q.slug)));
    OneMoreRow(w.bindings, t + 1, Binding(t, principal));
    var m := (t, q.user);
    assert m !in w.members;
    OneMoreMember(w.members, m);
    SameSize(w.orgs, w.orgs[q.org := Org(q.slug, false, Some(q.slug))]);
  }

  lemma SameSize<V>(a: map<Id, V>, b: map<Id, V>)
    requires a.Keys == b.Keys
    ensures |a| == |b|
  {
    assert |a| == |a.Keys| && |b| == |b.Keys|;
  }

  lemma PipelineKeeps(w: World, r: Id, principal: Id)
    requires Inv(w) && r in w.requests && !Collides(w, w.requests[r])
    ensures w.requests[r].org in w.orgs && Inv(Pipeline(w, r, principal))
  {
    hide IdsOk, Unique, RowsOk, Counted, TenantRowsOk, Upgraded, Collides, DefaultSlug;
    Fresh(w);
    PipelineRows(w, r, principal);
    PipelineUnique(w, r, principal);
    PipelineCounted(w, r, principal);
    UpgradedGrows(w.audit, Registered(r, w.nextId));
    TenantRowsGrow(w.tenants, w.members, w.bindings, w.nextId,
                   Tenant(w.requests[r].org, DefaultSlug(w.requests[r].slug)),
                   w.requests[r].user, principal);
  }

  lemma TenantRowsGrow(tenants: map<Id, Tenant>, members: set<(Id, Id)>, bindings: map<Id, Binding>, t: Id,
                       tenant: Tenant, user: Id, principal: Id)
    requires TenantRowsOk(tenants, members, bindings) && t !in tenants
    ensures TenantRowsOk(tenants[t := tenant], members + {(t, user)}, bindings[t + 1 := Binding(t, principal)])
  {
  }

  lemma AttemptKeeps(w: World, r: Id, principal: Id, fault: Fault)
    requires Inv(w)
    ensures Inv(Attempt(w, r, principal, fault))
  {
    hide Inv, MarkFailed, Pipeline, Collides;
    if r in w.requests && w.requests[r].org in w.orgs {
      var v := w.(idp := w.idp + {w.requests[r].slug});
      IdpFree(w, v.idp);
      MarkFailedKeeps(w, r);
      MarkFailedKeeps(v, r);
      SameCollision(w, v, w.requests[r]);
      if !Collides(w, w.requests[r]) {
        PipelineKeeps(v, r, principal);
      }
    }
  }

  lemma SameCollision(w: World, v: World, q: Request)
    requires v.orgs == w.orgs && v.tenants == w.tenants
    ensures Collides(v, q) == Collides(w, q)
  {
  }

  lemma SubmittedKeeps(w: World, org: Id, user: Id, slug: string, status: Status)
    requires Inv(w) && org in w.orgs && status != Completed
    ensures Inv(Submitted(w, org, user, slug, status))
  {
    hide Unique, Counted, RowsOk, CompletedOk;
    var v := Submitted(w, org, user, slug, status);
    assert w.nextId !in w.requests;
    RequestsKeep(w, v.requests, v.nextId);
  }

  lemma FoundedKeeps(w: World, user: Id, principal: Id, slug: string, base: string)
    requires Inv(w)
    ensures Inv(Founded(w, user, principal, slug, base))
  {
    hide IdsOk, Unique, RowsOk, Counted, TenantRowsOk, DefaultSlug, TakenByOther, Upgraded;
    if !TakenByOther(w.orgs, w.nextId, slug) {
      Fresh(w);
      FoundedTables(w, user, principal, slug, base);
      FoundedRows(w, user, principal, slug, base);
      TenantRowsGrow(w.tenants, w.members, w.bindings, w.nextId + 1, Tenant(w.nextId, DefaultSlug(base)), user,
                     principal);
    }
  }

  lemma FoundedTables(w: World, user: Id, principal: Id, slug: string, base: string)
    requires Inv(w) && !TakenByOther(w.orgs, w.nextId, slug)
    ensures var v := Founded(w, user, principal, slug, base);
      && IdsOk(v.nextId, v.orgs, v.tenants, v.members, v.bindings, v.requests)
      && Unique(v.orgs, v.tenants) && Counted(v)
  {
    hide RowsOk, CompletedOk, DefaultSlug, Unique, Counted, TakenByOther, TenantRowsOk;
    FoundedUnique(w, user, principal, slug, base);
    FoundedCounted(w, user, principal, slug, base);
  }

  lemma FoundedUnique(w: World, user: Id, principal: Id, slug: string, base: string)
    requires Inv(w) && !TakenByOther(w.orgs, w.nextId, slug)
    ensures var v := Founded(w, user, principal, slug, base); Unique(v.orgs, v.tenants)
  {
    hide RowsOk, CompletedOk, DefaultSlug, Counted, TenantRowsOk;
    assert w.nextId !in w.orgs;
    var v := Founded(w, user, principal, slug, base);
    forall t | t in w.tenants ensures w.tenants[t].org != w.nextId && t != w.nextId + 1 {
    }
  }

  lemma FoundedCounted(w: World, user: Id, principal: Id, slug: string, base: string)
    requires Inv(w) && !TakenByOther(w.orgs, w.nextId, slug)
    ensures var v := Founded(w, user, principal, slug, base); Counted(v)
  {
    hide Inv, TakenByOther, Founded;
    CountedOf(w);
    Fresh(w);
    FoundedFields(w, user, principal, slug, base);
    OneMoreRow(w.orgs, w.nextId, Org(slug, true, None));
    FoundedGrows(w, w.nextId + 1, Tenant(w.nextId, DefaultSlug(base)), user, Binding(w.nextId + 1, principal));
  }

  lemma FoundedFields(w: World, user: Id, principal: Id, slug: string, base: string)
    requires !TakenByOther(w.orgs, w.nextId, slug)
    ensures var v, t := Founded(w, user, principal, slug, base), w.nextId + 1;
      && v.orgs == w.orgs[w.nextId := Org(slug, true, None)]
      && v.tenants == w.tenants[t := Tenant(w.nextId, DefaultSlug(base))]
      && v.members == w.members + {(t, user)}
      && v.bindings == w.bindings[t + 1 := Binding(t, principal)]
      && v.audit == w.audit
  {
    hide TakenByOther, DefaultSlug;
  }

  lemma FoundedGrows(w: World, t: Id, tenant: Tenant, user: Id, binding: Binding)
    requires t !in w.tenants && t + 1 !in w.bindings && (forall m | m in w.members :: m.0 < t)
    ensures |w.tenants[t := tenant]| == |w.tenants| + 1
    ensures |w.members + {(t, user)}| == |w.members| + 1
    ensures |w.bindings[t + 1 := binding]| == |w.bindings| + 1
  {
    var m := (t, user);
    assert m !in w.members;
    AllGrow(w.tenants, w.members, w.bindings, t, tenant, m, t + 1, binding);
  }

  lemma CountedOf(w: World)
    requires Inv(w)
    ensures Counted(w)
  {
    hide IdsOk, Unique, RowsOk, CompletedOk, TenantRowsOk;
  }

  lemma AllGrow(tenants: map<Id, Tenant>, members: set<(Id, Id)>, bindings: map<Id, Binding>, t: Id, tenant: Tenant,
                m: (Id, Id), b: Id, binding: Binding)
    requires t !in tenants && m !in members && b !in bindings
    ensures |tenants[t := tenant]| == |tenants| + 1 && |members + {m}| == |members| + 1
        && |bindings[b := binding]| == |bindings| + 1
  {
    OneMoreRow(tenants, t, tenant);
    OneMoreMember(members, m);
    OneMoreRow(bindings, b, binding);
  }

  lemma OneMoreRow<V>(a: map<Id, V>, k: Id, v: V)
    requires k !in a
    ensures |a[k := v]| == |a| + 1
  {
    assert a[k := v].Keys == a.Keys + {k};
    assert |a| == |a.Keys| && |a[k := v]| == |a[k := v].Keys|;
  }

  lemma OneMoreMember(members: set<(Id, Id)>, m: (Id, Id))
    requires m !in members
    ensures |members + {m}| == |members| + 1
  {
  }

  lemma FoundedRows(w: World, user: Id, principal: Id, slug: string, base: string)
    requires Inv(w)
    ensures var v := Founded(w, user, principal, slug, base);
      RowsOk(v.audit, v.requests, v.tenants, v.members, v.realms)
  {
    hide Unique, CompletedOk, Counted, DefaultSlug, TakenByOther, TenantRowsOk;
  }

  lemma StepKeeps(w: World, cmd: Command)
    requires Inv(w)
    ensures Inv(Apply(w, cmd))
  {
    hide Inv, Founded, Submitted, Attempt, MarkFailed, TakenByOther, Pending;
    match cmd
    case DoFound(user, principal, slug, base) => FoundedKeeps(w, user, principal, slug, base);
    case DoSubmit(org, user, slug, valid, starts) =>
      if org in w.orgs {
        SubmittedKeeps(w, org, user, slug, if starts then Processing else Failed);
      }
    case DoSubmitInline(org, user, slug, valid, principal, fault) =>
      IdpFree(w, w.idp + {slug});
      if org in w.orgs {
        SubmittedKeeps(w, org, user, slug, Processing);
        AttemptKeeps(Submitted(w, org, user, slug, Processing), w.nextId, principal, fault);
      }
    case DoAttempt(request, principal, fault) => AttemptKeeps(w, request, principal, fault);
    case DoLoseStart(request) =>
      if request in w.requests {
        MarkFailedKeeps(w, request);
      }
    case DoRestart => IdpFree(w, {PLATFORM});
  }

  lemma {:induction false} RunKeeps(w: World, cmds: seq<Command>)
    requires Inv(w)
    ensures Inv(Run(w, cmds))
    decreases |cmds|
  {
    hide Inv, Apply;
    if cmds != [] {
      RunKeeps(w, cmds[..|cmds| - 1]);
      StepKeeps(Run(w, cmds[..|cmds| - 1]), cmds[|cmds| - 1]);
    }
  }

  lemma EmptyOk()
    ensures Inv(EMPTY)
  {
  }

  // ---------- whose upgrade it was

  /** The audit log has a registration of the organization. */
  ghost predicate HasRegistered(requests: map<Id, Request>, audit: seq<Registered>, org: Id) {
    exists i :: 0 <= i < |audit| && audit[i].request in requests && requests[audit[i].request].org == org
  }

  /** The first registration under the slug. */
  ghost predicate First(requests: map<Id, Request>, audit: seq<Registered>, slug: string, i: int) {
    && 0 <= i < |audit| && audit[i].request in requests && requests[audit[i].request].slug == slug
    && forall j | 0 <= j < i && audit[j].request in requests :: requests[audit[j].request].slug != slug
  }

  /** An organization is an individual's exactly as long as it has not been registered. */
  ghost predicate OrgsMarked(orgs: map<Id, Org>, requests: map<Id, Request>, audit: seq<Registered>) {
    forall o | o in orgs :: orgs[o].individual <==> !HasRegistered(requests, audit, o)
  }

  /** The platform's realm row belongs to no organization, and any other to the one first registered under its name. */
  ghost predicate RealmsOwned(realms: map<string, Option<Id>>, requests: map<Id, Request>, audit: seq<Registered>) {
    && PLATFORM in realms && realms[PLATFORM] == None
    && forall s | s in realms && s != PLATFORM ::
         exists i :: First(requests, audit, s, i) && realms[s] == Some(requests[audit[i].request].org)
  }

  ghost predicate Marked(w: World) {
    && OrgsMarked(w.orgs, w.requests, w.audit)
    && RealmsOwned(w.realms, w.requests, w.audit)
  }

  ghost predicate SameRequests(a: map<Id, Request>, b: map<Id, Request>) {
    forall r | r in a :: r in b && b[r] == a[r].(status := b[r].status)
  }

  ghost predicate AllKnown(requests: map<Id, Request>, audit: seq<Registered>) {
    forall i | 0 <= i < |audit| :: audit[i].request in requests
  }

  lemma Known(w: World)
    requires Inv(w)
    ensures AllKnown(w.requests, w.audit)
  {
    hide IdsOk, Unique, CompletedOk, Counted, TenantRowsOk;
  }

  lemma SameHistory(a: map<Id, Request>, b: map<Id, Request>, audit: seq<Registered>)
    requires SameRequests(a, b) && AllKnown(a, audit)
    ensures forall o :: HasRegistered(a, audit, o) <==> HasRegistered(b, audit, o)
    ensures forall s, i :: First(a, audit, s, i) <==> First(b, audit, s, i)
    ensures AllKnown(b, audit)
  {
  }

  /** Only the states of known requests change, and the provider's realms. */
  lemma MarkedFrame(w: World, v: World)
    requires Inv(w) && Marked(w) && SameRequests(w.requests, v.requests)
    requires v.orgs == w.orgs && v.realms == w.realms && v.audit == w.audit
    ensures Marked(v)
  {
    hide Inv, HasRegistered;
    Known(w);
    SameHistory(w.requests, v.requests, w.audit);
  }

  lemma OneMoreRegistered(requests: map<Id, Request>, audit: seq<Registered>, row: Registered)
    requires AllKnown(requests, audit) && row.request in requests
    ensures AllKnown(requests, audit + [row])
    ensures forall o :: HasRegistered(requests, audit + [row], o) <==>
        HasRegistered(requests, audit, o) || requests[row.request].org == o
    ensures forall s, i | First(requests, audit, s, i) :: First(requests, audit + [row], s, i)
    ensures (forall i :: !First(requests, audit, requests[row.request].slug, i))
            ==> First(requests, audit + [row], requests[row.request].slug, |audit|)
  {
    var after := audit + [row];
    assert after[|audit|] == row && forall i | 0 <= i < |audit| :: after[i] == audit[i];
    forall o ensures HasRegistered(requests, after, o) <==>
        HasRegistered(requests, audit, o) || requests[row.request].org == o {
      if HasRegistered(requests, audit, o) {
        var i :| 0 <= i < |audit| && audit[i].request in requests && requests[audit[i].request].org == o;
        assert after[i].request in requests && requests[after[i].request].org == o;
      }
    }
    if forall i :: !First(requests, audit, requests[row.request].slug, i) {
      NoneUnder(requests, audit, requests[row.request].slug, |audit|);
    }
  }

  lemma {:induction false} NoneUnder(requests: map<Id, Request>, audit: seq<Registered>, slug: string, n: nat)
    requires n <= |audit| && forall i :: !First(requests, audit, slug, i)
    ensures forall j | 0 <= j < n && audit[j].request in requests :: requests[audit[j].request].slug != slug
  {
    if n > 0 {
      NoneUnder(requests, audit, slug, n - 1);
      assert !First(requests, audit, slug, n - 1);
    }
  }

  lemma OneFirst(requests: map<Id, Request>, audit: seq<Registered>, slug: string, i: int, j: int)
    requires First(requests, audit, slug, i) && First(requests, audit, slug, j)
    ensures i == j
  {
  }

  lemma PipelineMarked(w: World, r: Id, principal: Id)
    requires Inv(w) && Marked(w) && r in w.requests && w.requests[r].org in w.orgs
    ensures Marked(Pipeline(w, r, principal))
  {
    Known(w);
    PipelineFields(w, r, principal);
    hide Inv, DefaultSlug, OrgsMarked, RealmsOwned, AllKnown, SameRequests, Pipeline;
    var q, row, v := w.requests[r], Registered(r, w.nextId), Pipeline(w, r, principal);
    PipelineOrgs(w.orgs, w.requests, v.requests, w.audit, row, Org(q.slug, false, Some(q.slug)));
    PipelineRealms(w, v.requests, row);
  }

  lemma PipelineFields(w: World, r: Id, principal: Id)
    requires r in w.requests && w.requests[r].org in w.orgs
    ensures var v, q := Pipeline(w, r, principal), w.requests[r];
      && v.idp == w.idp && v.audit == w.audit + [Registered(r, w.nextId)]
      && v.orgs == w.orgs[q.org := Org(q.slug, false, Some(q.slug))]
      && SameRequests(w.requests, v.requests)
      && v.realms == if q.slug in w.realms then w.realms else w.realms[q.slug := Some(q.org)]
  {
    hide DefaultSlug;
  }

  lemma PipelineOrgs(orgs: map<Id, Org>, before: map<Id, Request>, requests: map<Id, Request>, audit: seq<Registered>,
                     row: Registered, org: Org)
    requires OrgsMarked(orgs, before, audit) && AllKnown(before, audit) && SameRequests(before, requests)
    requires row.request in before && !org.individual
    ensures OrgsMarked(orgs[before[row.request].org := org], requests, audit + [row])
  {
    SameHistory(before, requests, audit);
    OneMoreRegistered(requests, audit, row);
    hide HasRegistered, First, AllKnown;
  }

  lemma PipelineRealms(w: World, requests: map<Id, Request>, row: Registered)
    requires Inv(w) && RealmsOwned(w.realms, w.requests, w.audit) && AllKnown(w.requests, w.audit)
    requires SameRequests(w.requests, requests) && row.request in w.requests
    ensures var q := w.requests[row.request];
      RealmsOwned(if q.slug in w.realms then w.realms else w.realms[q.slug := Some(q.org)], requests, w.audit + [row])
  {
    hide Inv;
    var q, after := w.requests[row.request], w.audit + [row];
    SameHistory(w.requests, requests, w.audit);
    OneMoreRegistered(requests, w.audit, row);
    var realms := if q.slug in w.realms then w.realms else w.realms[q.slug := Some(q.org)];
    forall s | s in realms && s != PLATFORM
      ensures exists i :: First(requests, after, s, i) && realms[s] == Some(requests[after[i].request].org)
    {
      if s in w.realms {
        var i :| First(w.requests, w.audit, s, i) && w.realms[s] == Some(w.requests[w.audit[i].request].org);
        assert First(requests, after, s, i) && after[i] == w.audit[i];
      } else {
        Unregistered(w, s);
        assert First(requests, after, s, |w.audit|);
      }
    }
  }

  lemma Unregistered(w: World, slug: string)
    requires Inv(w) && slug !in w.realms
    ensures forall i :: !First(w.requests, w.audit, slug, i)
  {
    hide IdsOk, Unique, CompletedOk, Counted, TenantRowsOk, DefaultSlug;
  }

  lemma AttemptMarked(w: World, r: Id, principal: Id, fault: Fault)
    requires Inv(w) && Marked(w)
    ensures Marked(Attempt(w, r, principal, fault))
  {
    hide Inv, Marked, Pipeline, Collides;
    if r in w.requests && w.requests[r].org in w.orgs {
      var v := w.(idp := w.idp + {w.requests[r].slug});
      IdpFree(w, v.idp);
      MarkedFrame(w, v);
      MarkedFrame(w, MarkFailed(w, r));
      MarkedFrame(v, MarkFailed(v, r));
      PipelineMarked(v, r, principal);
    }
  }

  lemma SubmittedMarked(w: World, org: Id, user: Id, slug: string, status: Status)
    requires Inv(w) && Marked(w)
    ensures Marked(Submitted(w, org, user, slug, status))
  {
    hide Inv, Marked, SameRequests;
    assert SameRequests(w.requests, Submitted(w, org, user, slug, status).requests) by {
      SubmittedSame(w, org, user, slug, status);
    }
    MarkedFrame(w, Submitted(w, org, user, slug, status));
  }

  lemma SubmittedSame(w: World, org: Id, user: Id, slug: string, status: Status)
    requires Inv(w)
    ensures SameRequests(w.requests, Submitted(w, org, user, slug, status).requests)
  {
    Fresh(w);
    hide Inv;
  }

  lemma FoundedMarked(w: World, user: Id, principal: Id, slug: string, base: string)
    requires Inv(w) && Marked(w)
    ensures Marked(Founded(w, user, principal, slug, base))
  {
    FoundedOrgs(w, slug);
    hide Inv, DefaultSlug, TakenByOther, OrgsMarked, RealmsOwned;
  }

  lemma FoundedOrgs(w: World, slug: string)
    requires Inv(w) && OrgsMarked(w.orgs, w.requests, w.audit)
    ensures OrgsMarked(w.orgs[w.nextId := Org(slug, true, None)], w.requests, w.audit)
  {
    NotYetRegistered(w);
    hide Inv, HasRegistered;
  }

  lemma NotYetRegistered(w: World)
    requires Inv(w)
    ensures !HasRegistered(w.requests, w.audit, w.nextId)
  {
    Fresh(w);
    hide Inv;
  }

  lemma StepMarked(w: World, cmd: Command)
    requires Inv(w) && Marked(w)
    ensures Marked(Apply(w, cmd))
  {
    hide Inv, Marked, Founded, Submitted, Attempt, MarkFailed, TakenByOther, Pending;
    match cmd
    case DoFound(user, principal, slug, base) => FoundedMarked(w, user, principal, slug, base);
    case DoSubmit(org, user, slug, valid, starts) =>
      SubmittedMarked(w, org, user, slug, if starts then Processing else Failed);
    case DoSubmitInline(org, user, slug, valid, principal, fault) =>
      MarkedFrame(w, w.(idp := w.idp + {slug}));
      if org in w.orgs {
        SubmittedMarked(w, org, user, slug, Processing);
        SubmittedKeeps(w, org, user, slug, Processing);
        AttemptMarked(Submitted(w, org, user, slug, Processing), w.nextId, principal, fault);
      }
    case DoAttempt(request, principal, fault) => AttemptMarked(w, request, principal, fault);
    case DoLoseStart(request) =>
      if request in w.requests {
        MarkedOnly(w, request);
        MarkedFrame(w, MarkFailed(w, request));
      }
    case DoRestart => MarkedFrame(w, w.(idp := {PLATFORM}));
  }

  lemma {:induction false} RunMarked(cmds: seq<Command>)
    ensures Inv(Run(EMPTY, cmds)) && Marked(Run(EMPTY, cmds))
    decreases |cmds|
  {
    EmptyOk();
    RunKeeps(EMPTY, cmds);
    hide Inv, Apply, HasRegistered, First;
    if cmds != [] {
      hide Marked;
      RunMarked(cmds[..|cmds| - 1]);
      StepMarked(Run(EMPTY, cmds[..|cmds| - 1]), cmds[|cmds| - 1]);
    } else {
      assert forall o :: !HasRegistered(map[], [], o) by { NobodyRegistered(); }
    }
  }

  lemma NobodyRegistered()
    ensures forall o :: !HasRegistered(map[], [], o)
  {
  }
  // ---------- realms at the provider

  /** The call creates the realm at the provider, whatever becomes of its rows. */
  predicate Creates(w: World, cmd: Command, slug: string) {
    match cmd
    case DoAttempt(r, _, fault) =>
      && r in w.requests && w.requests[r].status != Completed && w.requests[r].org in w.orgs
          && w.requests[r].slug == slug
      && fault != IdpDown && fault != IdpError
    case DoSubmitInline(org, _, s, valid, _, fault) =>
      Accepts(w, org, s, valid) && s == slug && fault != IdpDown && fault != IdpError
    case _ => false
  }

  lemma AttemptProvider(w: World, r: Id, principal: Id, fault: Fault, slug: string)
    ensures slug in Attempt(w, r, principal, fault).idp <==>
        slug in w.idp || Creates(w, DoAttempt(r, principal, fault), slug)
  {
    hide Collides, DefaultSlug;
  }

  lemma ProviderStep(w: World, cmd: Command, slug: string)
    requires Inv(w)
    ensures slug in Apply(w, cmd).idp <==> if cmd.DoRestart? then
      slug == PLATFORM else slug in w.idp || Creates(w, cmd, slug)
  {
    hide Inv, Attempt, Founded, Accepts, Submitted;
    match cmd
    case DoFound(user, principal, s, base) => FoundedProvider(w, user, principal, s, base);
    case DoSubmit(org, user, s, valid, starts) =>
      SubmittedProvider(w, org, user, s, if starts then Processing else Failed);
    case DoSubmitInline(org, user, s, valid, principal, fault) =>
      SubmittedProvider(w, org, user, s, Processing);
      if Accepts(w, org, s, valid) {
        AcceptsIndividual(w, org, s, valid);
        AttemptProvider(Submitted(w, org, user, s, Processing), w.nextId, principal, fault, slug);
      }
    case DoAttempt(r, principal, fault) => AttemptProvider(w, r, principal, fault, slug);
    case DoLoseStart(r) =>
    case DoRestart =>
  }

  lemma FoundedProvider(w: World, user: Id, principal: Id, slug: string, base: string)
    ensures Founded(w, user, principal, slug, base).idp == w.idp
  {
  }

  lemma SubmittedProvider(w: World, org: Id, user: Id, slug: string, status: Status)
    ensures var v := Submitted(w, org, user, slug, status);
      v.idp == w.idp && v.orgs == w.orgs && w.nextId in v.requests
          && v.requests[w.nextId] == Request(org, user, slug, status)
  {
  }

  /** The `i`-th call of the run creates the realm, and the provider does not restart afterwards. */
  ghost predicate CreatedAt(cmds: seq<Command>, slug: string, i: int) {
    && 0 <= i < |cmds| && Creates(Run(EMPTY, cmds[..i]), cmds[i], slug)
    && forall j | i < j < |cmds| :: !cmds[j].DoRestart?
  }

  ghost predicate Present(cmds: seq<Command>, slug: string) {
    (slug == PLATFORM) || exists i :: CreatedAt(cmds, slug, i)
  }

  /** Over any run a realm is at the provider exactly if it is the platform's, or has been created since
      the provider last restarted. */
  lemma {:induction false} RealmAtProvider(cmds: seq<Command>, slug: string)
    ensures slug in Run(EMPTY, cmds).idp <==> Present(cmds, slug)
    decreases |cmds|
  {
    EmptyOk();
    if cmds == [] {
      return;
    }
    var n := |cmds| - 1;
    RunKeeps(EMPTY, cmds[..n]);
    RealmAtProvider(cmds[..n], slug);
    ProviderStep(Run(EMPTY, cmds[..n]), cmds[n], slug);
    OneMoreCreation(cmds, slug);
    hide Inv, Apply, Present, Creates;
  }

  lemma OneMoreCreation(cmds: seq<Command>, slug: string)
    requires cmds != []
    ensures var n := |cmds| - 1;
      Present(cmds, slug) <==> if cmds[n].DoRestart? then slug == PLATFORM
                               else Present(cmds[..n], slug) || Creates(Run(EMPTY, cmds[..n]), cmds[n], slug)
  {
    hide Run;
    var n := |cmds| - 1;
    assert cmds[n].DoRestart? ==> !Creates(Run(EMPTY, cmds[..n]), cmds[n], slug);
    hide Creates;
    SamePrefix(cmds, slug);
    if i :| CreatedAt(cmds, slug, i) {
      assert i < n ==> !cmds[n].DoRestart? && CreatedAt(cmds[..n], slug, i);
    }
    if !cmds[n].DoRestart? {
      if i :| CreatedAt(cmds[..n], slug, i) {
        assert CreatedAt(cmds, slug, i);
      }
      assert Creates(Run(EMPTY, cmds[..n]), cmds[n], slug) ==> CreatedAt(cmds, slug, n);
    }
  }

  lemma SamePrefix(cmds: seq<Command>, slug: string)
    requires cmds != []
    ensures var n := |cmds| - 1;
      forall i | 0 <= i < n :: CreatedAt(cmds, slug, i) <==> CreatedAt(cmds[..n], slug, i) && !cmds[n].DoRestart?
  {
    hide Run, Creates;
    var n := |cmds| - 1;
    forall i | 0 <= i < n ensures CreatedAt(cmds, slug, i) <==> CreatedAt(cmds[..n], slug, i) && !cmds[n].DoRestart? {
      assert cmds[..n][..i] == cmds[..i] && forall j | 0 <= j < n :: cmds[..n][j] == cmds[j];
    }
  }

  /** A call that registers a request creates its realm. */
  lemma RegistrationCreates(w: World, cmd: Command, r: Id)
    requires Inv(w) && r !in Upgraded(w.audit) && r in Upgraded(Apply(w, cmd).audit)
    ensures r in Apply(w, cmd).requests && Creates(w, cmd, Apply(w, cmd).requests[r].slug)
  {
    hide Inv, Upgraded, Founded, Submit, Attempt, MarkFailed, Accepts, Submitted;
    match cmd
    case DoFound(user, principal, s, base) => FoundedCompletion(w, user, principal, s, base, r);
    case DoSubmit(org, user, s, valid, starts) => SubmitAudit(w, org, user, s, valid, starts);
    case DoSubmitInline(org, user, s, valid, principal, fault) =>
      if Accepts(w, org, s, valid) {
        AcceptsIndividual(w, org, s, valid);
        SubmittedKeeps(w, org, user, s, Processing);
        SubmittedProvider(w, org, user, s, Processing);
        SubmittedRow(w, org, user, s, Processing);
        AttemptCreates(Submitted(w, org, user, s, Processing), w.nextId, principal, fault, r);
      }
    case DoAttempt(x, principal, fault) => AttemptCreates(w, x, principal, fault, r);
    case DoLoseStart(x) =>
      if x in w.requests {
        MarkedOnly(w, x);
      }
    case DoRestart =>
  }

  lemma AttemptCreates(w: World, x: Id, principal: Id, fault: Fault, r: Id)
    requires Inv(w) && r !in Upgraded(w.audit) && r in Upgraded(Attempt(w, x, principal, fault).audit)
    ensures r == x && r in w.requests && r in Attempt(w, x, principal, fault).requests
    ensures Attempt(w, x, principal, fault).requests[r].slug == w.requests[r].slug
    ensures Creates(w, DoAttempt(x, principal, fault), w.requests[r].slug)
  {
    AttemptAudit(w, x, principal, fault);
    UpgradedGrows(w.audit, Registered(x, w.nextId));
    Fresh(w);
    hide Inv, Upgraded, Collides, Attempt;
    AttemptRequests(w, x, principal, fault, r);
  }

  /** Some call of the run creates the realm. */
  ghost predicate Made(cmds: seq<Command>, slug: string) {
    exists i :: 0 <= i < |cmds| && Creates(Run(EMPTY, cmds[..i]), cmds[i], slug)
  }

  lemma MadeBefore(cmds: seq<Command>, slug: string)
    requires cmds != [] && Made(cmds[..|cmds| - 1], slug)
    ensures Made(cmds, slug)
  {
    hide Run, Creates;
    var n := |cmds| - 1;
    var i :| 0 <= i < n && Creates(Run(EMPTY, cmds[..n][..i]), cmds[..n][i], slug);
    assert cmds[..n][..i] == cmds[..i] && cmds[..n][i] == cmds[i];
  }

  lemma {:induction false} RealmMade(cmds: seq<Command>, r: Id)
    requires r in Upgraded(Run(EMPTY, cmds).audit)
    ensures r in Run(EMPTY, cmds).requests && Made(cmds, Run(EMPTY, cmds).requests[r].slug)
    decreases |cmds|
  {
    if cmds == [] {
      return;
    }
    var n := |cmds| - 1;
    var w := Run(EMPTY, cmds[..n]);
    EmptyOk();
    RunKeeps(EMPTY, cmds[..n]);
    hide Inv, Apply, Upgraded, Creates, Made;
    if r in Upgraded(w.audit) {
      RealmMade(cmds[..n], r);
      RequestStays(w, cmds[n], r);
      MadeBefore(cmds, w.requests[r].slug);
    } else {
      RegistrationCreates(w, cmds[n], r);
      MadeNow(cmds, Run(EMPTY, cmds).requests[r].slug);
    }
  }

  lemma MadeNow(cmds: seq<Command>, slug: string)
    requires cmds != [] && Creates(Run(EMPTY, cmds[..|cmds| - 1]), cmds[|cmds| - 1], slug)
    ensures Made(cmds, slug)
  {
  }

  /** A registered request has had its realm created: without a restart the realm is still there. */
  lemma RegisteredCreated(cmds: seq<Command>, r: Id)
    requires r in Upgraded(Run(EMPTY, cmds).audit)
    ensures var z := Run(EMPTY, cmds);
      && r in z.requests && Made(cmds, z.requests[r].slug)
      && ((forall i | 0 <= i < |cmds| :: !cmds[i].DoRestart?) ==> z.requests[r].slug in z.idp)
  {
    RealmMade(cmds, r);
    hide Run, Creates;
    var slug := Run(EMPTY, cmds).requests[r].slug;
    RealmAtProvider(cmds, slug);
    var k :| 0 <= k < |cmds| && Creates(Run(EMPTY, cmds[..k]), cmds[k], slug);
    assert (forall i | 0 <= i < |cmds| :: !cmds[i].DoRestart?) ==> CreatedAt(cmds, slug, k);
  }

  lemma RequestStays(w: World, cmd: Command, r: Id)
    requires Inv(w) && r in w.requests
    ensures r in Apply(w, cmd).requests && Apply(w, cmd).requests[r].slug == w.requests[r].slug
  {
    hide Inv, Founded, Submit, SubmitInline, Attempt, MarkFailed;
    Fresh(w);
    match cmd
    case DoFound(user, principal, s, base) => FoundedRequests(w, user, principal, s, base);
    case DoSubmit(org, user, s, valid, starts) => SubmitStays(w, org, user, s, valid, starts);
    case DoSubmitInline(org, user, s, valid, principal, fault) =>
      InlineRequests(w, org, user, s, valid, principal, fault, r);
    case DoAttempt(x, principal, fault) => AttemptRequests(w, x, principal, fault, r);
    case DoLoseStart(x) =>
      if x in w.requests {
        MarkedOnly(w, x);
      }
    case DoRestart =>
  }

  lemma FoundedRequests(w: World, user: Id, principal: Id, slug: string, base: string)
    ensures Founded(w, user, principal, slug, base).requests == w.requests
  {
  }

  lemma AttemptRequests(w: World, x: Id, principal: Id, fault: Fault, r: Id)
    requires r in w.requests
    ensures var v := Attempt(w, x, principal, fault); r in v.requests && v.requests[r].slug == w.requests[r].slug
  {
    hide Collides, DefaultSlug;
  }

  lemma InlineRequests(w: World, org: Id, user: Id, slug: string, valid: bool, principal: Id, fault: Fault, r: Id)
    requires Inv(w) && r in w.requests
    ensures var v := SubmitInline(w, org, user, slug, valid, principal, fault);
      r in v.requests && v.requests[r].slug == w.requests[r].slug
  {
    Fresh(w);
    hide Inv, Accepts, Attempt;
    AttemptRequests(Submitted(w, org, user, slug, Processing), w.nextId, principal, fault, r);
  }

  // ---------- exactly once

  /** For any schedule of outages, crashes and retries, a request is registered at most once, and
      once if it is completed; the registration comes with the realm's row and a tenant of its own, whose
      one member is the requester and which has one administrator's binding, and its realm is at the
      provider exactly if the provider has not restarted since the last attempt that created it. Over
      the whole run there is one tenant, one membership and one administrator's binding for every
      organization founded and every registration. */
  lemma AtMostOnce(cmds: seq<Command>, r: Id)
    requires r in Run(EMPTY, cmds).requests
    ensures var z := Run(EMPTY, cmds);
      && Counted(z)
      && (forall i, j | 0 <= i < |z.audit| && 0 <= j < |z.audit| && z.audit[i].request == z.audit[j].request == r ::
            i == j)
      && (z.requests[r].status == Completed ==> r in Upgraded(z.audit))
      && (forall i | 0 <= i < |z.audit| && z.audit[i].request == r ::
            var q, t := z.requests[r], z.audit[i].tenant;
            && t in z.tenants && z.tenants[t] == Tenant(q.org, DefaultSlug(q.slug)) && q.slug in z.realms
            && (q.slug in z.idp <==> Present(cmds, q.slug))
            && (forall u :: (t, u) in z.members <==> u == q.user)
            && (forall b | b in z.bindings :: z.bindings[b].tenant == t <==> b == t + 1) && t + 1 in z.bindings)
  {
    RunMarked(cmds);
    hide Counted, IdsOk, DefaultSlug, Run, OrgsMarked, RealmsOwned, Present;
    var z := Run(EMPTY, cmds);
    RealmAtProvider(cmds, z.requests[r].slug);
    forall i, j | 0 <= i < |z.audit| && 0 <= j < |z.audit|
        && z.audit[i].request == z.audit[j].request == r ensures i == j {
      assert z.tenants[z.audit[i].tenant] == z.tenants[z.audit[j].tenant];
      assert z.audit[i].tenant == z.audit[j].tenant;
    }
  }

  /** The answer from the request's start was lost when the request had been completed already. */
  ghost predicate LostTooLate(cmds: seq<Command>, r: Id) {
    exists i :: 0 <= i < |cmds| && cmds[i] == DoLoseStart(r) && CompletedIn(Run(EMPTY, cmds[..i]), r)
  }

  predicate CompletedIn(w: World, r: Id) {
    r in w.requests && w.requests[r].status == Completed
  }

  /** For any schedule, a request is completed exactly when it has been registered, unless the answer
      from its own start was lost after it completed; then it stays registered and failed for good. */
  lemma {:induction false} ExactlyOnce(cmds: seq<Command>, r: Id)
    ensures var z := Run(EMPTY, cmds);
      && (CompletedIn(z, r) <==> r in Upgraded(z.audit) && !LostTooLate(cmds, r))
      && (LostTooLate(cmds, r) ==> r in Upgraded(z.audit))
    decreases |cmds|
  {
    EmptyOk();
    if cmds == [] {
      return;
    }
    var prior, cmd := cmds[..|cmds| - 1], cmds[|cmds| - 1];
    var w := Run(EMPTY, prior);
    RunKeeps(EMPTY, prior);
    ExactlyOnce(prior, r);
    OneMoreCommand(cmds, r);
    hide Inv, Apply, Upgraded, LostTooLate, CompletedIn;
    CompletionStep(w, cmd, r);
  }

  lemma OneMoreCommand(cmds: seq<Command>, r: Id)
    requires cmds != []
    ensures var n := |cmds| - 1;
      LostTooLate(cmds, r) <==>
          LostTooLate(cmds[..n], r) || (cmds[n] == DoLoseStart(r) && CompletedIn(Run(EMPTY, cmds[..n]), r))
  {
    hide Run, CompletedIn;
    var n := |cmds| - 1;
    assert forall i | 0 <= i < n :: cmds[..n][..i] == cmds[..i] && cmds[..n][i] == cmds[i];
    if LostTooLate(cmds[..n], r) {
      var i :| 0 <= i < n && cmds[..n][i] == DoLoseStart(r) && CompletedIn(Run(EMPTY, cmds[..n][..i]), r);
      assert cmds[i] == DoLoseStart(r) && CompletedIn(Run(EMPTY, cmds[..i]), r);
    }
    if LostTooLate(cmds, r) {
      var i :| 0 <= i < |cmds| && cmds[i] == DoLoseStart(r) && CompletedIn(Run(EMPTY, cmds[..i]), r);
      if i < n {
        assert cmds[..n][i] == DoLoseStart(r) && CompletedIn(Run(EMPTY, cmds[..n][..i]), r);
      }
    }
  }

  /** How one call moves a request between waiting, registered and completed. */
  lemma CompletionStep(w: World, cmd: Command, r: Id)
    requires Inv(w)
    ensures var v := Apply(w, cmd);
      && (r in Upgraded(w.audit) ==> r in Upgraded(v.audit))
      && (CompletedIn(w, r) ==> r in Upgraded(w.audit))
      && (CompletedIn(w, r) ==> (CompletedIn(v, r) <==> cmd != DoLoseStart(r)))
      && (r in Upgraded(w.audit) && !CompletedIn(w, r) ==> !CompletedIn(v, r))
      && (r !in Upgraded(w.audit) ==> (CompletedIn(v, r) <==> r in Upgraded(v.audit)))
  {
    CompletedRegistered(w, r);
    hide Inv, Upgraded, Founded, Submit, SubmitInline, Attempt, MarkFailed, CompletedIn;
    match cmd
    case DoFound(user, principal, slug, base) => FoundedCompletion(w, user, principal, slug, base, r);
    case DoSubmit(org, user, slug, valid, starts) => SubmitCompletion(w, org, user, slug, valid, starts, r);
    case DoSubmitInline(org, user, slug, valid, principal, fault) =>
      InlineCompletion(w, org, user, slug, valid, principal, fault, r);
    case DoAttempt(request, principal, fault) => AttemptCompletion(w, request, principal, fault, r);
    case DoLoseStart(request) => LostCompletion(w, request, r);
    case DoRestart => RestartCompletion(w, r);
  }

  lemma RestartCompletion(w: World, r: Id)
    ensures var v := Apply(w, DoRestart); v.audit == w.audit && (CompletedIn(v, r) <==> CompletedIn(w, r))
  {
  }

  lemma LostCompletion(w: World, x: Id, r: Id)
    ensures var v := Apply(w, DoLoseStart(x));
      v.audit == w.audit && (CompletedIn(v, r) <==> CompletedIn(w, r) && x != r)
  {
  }

  lemma SubmitCompletion(w: World, org: Id, user: Id, slug: string, valid: bool, starts: bool, r: Id)
    requires Inv(w)
    ensures var v := Submit(w, org, user, slug, valid, starts);
      v.audit == w.audit && (CompletedIn(v, r) <==> CompletedIn(w, r))
  {
    hide Inv, Accepts, Submitted, CompletedIn;
    SubmittedCompletion(w, org, user, slug, if starts then Processing else Failed, r);
  }

  lemma InlineCompletion(w: World, org: Id, user: Id, slug: string, valid: bool, principal: Id, fault: Fault, r: Id)
    requires Inv(w)
    ensures var v := SubmitInline(w, org, user, slug, valid, principal, fault);
      && (r in Upgraded(w.audit) ==> r in Upgraded(v.audit))
      && (CompletedIn(w, r) ==> CompletedIn(v, r))
      && (r in Upgraded(w.audit) && !CompletedIn(w, r) ==> !CompletedIn(v, r))
      && (r !in Upgraded(w.audit) && !CompletedIn(w, r) ==> (CompletedIn(v, r) <==> r in Upgraded(v.audit)))
  {
    hide Inv, Accepts, Submitted, Attempt, Upgraded;
    if Accepts(w, org, slug, valid) {
      AcceptsIndividual(w, org, slug, valid);
      SubmittedCompletion(w, org, user, slug, Processing, r);
      SubmittedKeeps(w, org, user, slug, Processing);
      hide CompletedIn;
      AttemptCompletion(Submitted(w, org, user, slug, Processing), w.nextId, principal, fault, r);
    }
  }

  lemma CompletedRegistered(w: World, r: Id)
    requires Inv(w)
    ensures CompletedIn(w, r) ==> r in Upgraded(w.audit)
  {
    hide IdsOk, Unique, RowsOk, Counted, TenantRowsOk, Upgraded;
  }

  lemma FoundedCompletion(w: World, user: Id, principal: Id, slug: string, base: string, r: Id)
    ensures var v := Founded(w, user, principal, slug, base);
      v.audit == w.audit && (CompletedIn(v, r) <==> CompletedIn(w, r))
  {
    hide TakenByOther, DefaultSlug;
  }

  lemma SubmittedCompletion(w: World, org: Id, user: Id, slug: string, status: Status, r: Id)
    requires Inv(w) && status != Completed
    ensures var v := Submitted(w, org, user, slug, status);
      v.audit == w.audit && (CompletedIn(v, r) <==> CompletedIn(w, r))
  {
    Fresh(w);
    hide Inv;
  }

  lemma AttemptCompletion(w: World, x: Id, principal: Id, fault: Fault, r: Id)
    requires Inv(w)
    ensures var v := Attempt(w, x, principal, fault);
      && (r in Upgraded(w.audit) ==> r in Upgraded(v.audit))
      && (CompletedIn(w, r) ==> CompletedIn(v, r))
      && (r in Upgraded(w.audit) && !CompletedIn(w, r) ==> !CompletedIn(v, r))
      && (r !in Upgraded(w.audit) ==> (CompletedIn(v, r) <==> r in Upgraded(v.audit)))
  {
    CompletedRegistered(w, r);
    if x !in w.requests {
      assert Attempt(w, x, principal, fault) == w;
      return;
    }
    AttemptExactly(w, x, principal, fault);
    AttemptOthers(w, x, principal, fault, r);
    UpgradedGrows(w.audit, Registered(x, w.nextId));
    if x in Upgraded(w.audit) {
      RegisteredBlocks(w, x);
    }
    hide Inv, Attempt, Upgraded, Collides;
  }

  lemma AttemptOthers(w: World, x: Id, principal: Id, fault: Fault, r: Id)
    requires x != r ==> true
    ensures x != r ==> (CompletedIn(Attempt(w, x, principal, fault), r) <==> CompletedIn(w, r))
  {
    hide Collides, DefaultSlug;
  }

  /** The tenant of a request's own registration stands in the way of a second one. */
  lemma RegisteredBlocks(w: World, r: Id)
    requires Inv(w) && r in Upgraded(w.audit) && r in w.requests
    ensures Collides(w, w.requests[r])
  {
    hide IdsOk, Unique, CompletedOk, Counted, TenantRowsOk, DefaultSlug;
    var i :| 0 <= i < |w.audit| && w.audit[i].request == r;
    assert w.tenants[w.audit[i].tenant] == Tenant(w.requests[r].org, DefaultSlug(w.requests[r].slug));
  }

  /** The call adds a registration of the organization to the audit log. */
  ghost predicate Registers(w: World, cmd: Command, org: Id) {
    var v := Apply(w, cmd);
    |v.audit| == |w.audit| + 1 && v.audit[|w.audit|].request in v.requests
        && v.requests[v.audit[|w.audit|].request].org == org
  }

  /** Exactly which calls upgrade an organization that has been upgraded before: attempts at another
      request of it, which nothing but a clash of slugs stops. A submission never does. */
  lemma UpgradedAgain(w: World, cmd: Command, org: Id)
    requires Inv(w) && Marked(w) && org in w.orgs
    ensures HasRegistered(w.requests, w.audit, org) <==> !w.orgs[org].individual
    ensures Registers(w, cmd, org) && HasRegistered(w.requests, w.audit, org) <==>
              && cmd.DoAttempt? && cmd.request in w.requests && w.requests[cmd.request].org == org
              && w.requests[cmd.request].status != Completed && (cmd.fault == NoFault || cmd.fault == CrashAfterCommit)
              && !Collides(w, w.requests[cmd.request]) && !w.orgs[org].individual
  {
    hide Inv, RealmsOwned, HasRegistered, Collides, Submit, SubmitInline, Attempt, Founded, MarkFailed;
    match cmd
    case DoFound(user, principal, slug, base) => FoundedCompletion(w, user, principal, slug, base, 0);
    case DoSubmit(o, user, slug, valid, starts) =>
      assert Submit(w, o, user, slug, valid, starts).audit == w.audit by {
        SubmitAudit(w, o, user, slug, valid, starts);
      }
    case DoSubmitInline(o, user, slug, valid, principal, fault) =>
      InlineAudit(w, o, user, slug, valid, principal, fault);
    case DoAttempt(request, principal, fault) => AttemptAudit(w, request, principal, fault);
    case DoLoseStart(request) =>
      if request in w.requests {
        MarkedOnly(w, request);
      }
    case DoRestart =>
  }

  lemma SubmitAudit(w: World, org: Id, user: Id, slug: string, valid: bool, starts: bool)
    ensures Submit(w, org, user, slug, valid, starts).audit == w.audit
  {
    hide Accepts;
  }

  lemma AttemptAudit(w: World, r: Id, principal: Id, fault: Fault)
    requires Inv(w)
    ensures var v := Attempt(w, r, principal, fault);
      if r in w.requests && w.requests[r].status != Completed && (fault == NoFault || fault == CrashAfterCommit)
         && !Collides(w, w.requests[r])
      then v.audit == w.audit + [Registered(r, w.nextId)] && r in v.requests && v.requests[r].org == w.requests[r].org
      else v.audit == w.audit
  {
    hide Inv, Collides, Attempt;
    if r in w.requests {
      AttemptExactly(w, r, principal, fault);
      AttemptOrg(w, r, principal, fault);
    } else {
      AttemptUnknown(w, r, principal, fault);
    }
  }

  lemma AttemptOrg(w: World, r: Id, principal: Id, fault: Fault)
    requires r in w.requests
    ensures var v := Attempt(w, r, principal, fault); r in v.requests && v.requests[r].org == w.requests[r].org
  {
    hide Collides, DefaultSlug;
  }

  lemma AttemptUnknown(w: World, r: Id, principal: Id, fault: Fault)
    requires r !in w.requests
    ensures Attempt(w, r, principal, fault) == w
  {
  }

  /** An upgrade within a submission is of an organization that is still an individual's. */
  lemma InlineAudit(w: World, org: Id, user: Id, slug: string, valid: bool, principal: Id, fault: Fault)
    requires Inv(w)
    ensures var v := SubmitInline(w, org, user, slug, valid, principal, fault);
      || v.audit == w.audit
      || (&& org in w.orgs && w.orgs[org].individual && |v.audit| == |w.audit| + 1
          && v.audit[|w.audit|].request in v.requests && v.requests[v.audit[|w.audit|].request].org == org)
  {
    hide Inv, Attempt, Collides, Accepts, Submitted;
    if Accepts(w, org, slug, valid) {
      AcceptsIndividual(w, org, slug, valid);
      SubmittedKeeps(w, org, user, slug, Processing);
      SubmittedRow(w, org, user, slug, Processing);
      AttemptAudit(Submitted(w, org, user, slug, Processing), w.nextId, principal, fault);
    }
  }

  lemma AcceptsIndividual(w: World, org: Id, slug: string, valid: bool)
    requires Accepts(w, org, slug, valid)
    ensures org in w.orgs && w.orgs[org].individual
  {
  }

  lemma SubmittedRow(w: World, org: Id, user: Id, slug: string, status: Status)
    ensures var v := Submitted(w, org, user, slug, status);
      v.audit == w.audit && w.nextId in v.requests && v.requests[w.nextId].org == org
  {
  }

  /** Two rows of the audit log register the organization. */
  ghost predicate RegisteredTwice(requests: map<Id, Request>, audit: seq<Registered>, org: Id) {
    exists i, j :: 0 <= i < j < |audit| && audit[i].request in requests && audit[j].request in requests
                   && requests[audit[i].request].org == org && requests[audit[j].request].org == org
  }

  ghost predicate TwoUpgraded(requests: map<Id, Request>, audit: seq<Registered>, org: Id) {
    exists r, q :: r in Upgraded(audit) && q in Upgraded(audit) && r != q && r in requests && q in requests
                   && requests[r].org == org && requests[q].org == org
  }

  /** Over any run, an organization is an individual's exactly until it is upgraded, and it is upgraded
      more than once exactly when two of its requests are. */
  lemma UpgradesOf(cmds: seq<Command>, org: Id)
    requires org in Run(EMPTY, cmds).orgs
    ensures var z := Run(EMPTY, cmds);
      && (z.orgs[org].individual <==> !HasRegistered(z.requests, z.audit, org))
      && (RegisteredTwice(z.requests, z.audit, org) <==> TwoUpgraded(z.requests, z.audit, org))
  {
    RunMarked(cmds);
    hide Inv, Run, RealmsOwned, HasRegistered, RegisteredTwice, TwoUpgraded;
    var z := Run(EMPTY, cmds);
    if RegisteredTwice(z.requests, z.audit, org) {
      TwoRequests(z, org);
    }
    if TwoUpgraded(z.requests, z.audit, org) {
      TwoRows(z, org);
    }
  }

  lemma TwoRows(w: World, org: Id)
    requires TwoUpgraded(w.requests, w.audit, org)
    ensures RegisteredTwice(w.requests, w.audit, org)
  {
    var r, q :| r in Upgraded(w.audit) && q in Upgraded(w.audit) && r != q && r in w.requests && q in w.requests
                && w.requests[r].org == org && w.requests[q].org == org;
    var i :| 0 <= i < |w.audit| && w.audit[i].request == r;
    var j :| 0 <= j < |w.audit| && w.audit[j].request == q;
    assert i < j || j < i;
  }

  lemma TwoRequests(w: World, org: Id)
    requires Inv(w) && RegisteredTwice(w.requests, w.audit, org)
    ensures TwoUpgraded(w.requests, w.audit, org)
  {
    hide Inv;
    var i, j :| 0 <= i < j < |w.audit| && w.audit[i].request in w.requests && w.audit[j].request in w.requests
                && w.requests[w.audit[i].request].org == org && w.requests[w.audit[j].request].org == org;
    AtMostOnceIn(w, i, j);
    var r, q := w.audit[i].request, w.audit[j].request;
    assert r in Upgraded(w.audit) && q in Upgraded(w.audit);
  }

  lemma AtMostOnceIn(w: World, i: nat, j: nat)
    requires Inv(w) && i < j < |w.audit|
    ensures w.audit[i].request != w.audit[j].request
  {
    hide IdsOk, CompletedOk, Counted, TenantRowsOk, DefaultSlug;
    assert w.audit[i].tenant != w.audit[j].tenant;
  }

  /** A registered organization has the realm row of its slug exactly when the slug is not the
      platform's and no other organization was registered under it before. */
  lemma RealmOwner(cmds: seq<Command>, r: Id)
    requires r in Upgraded(Run(EMPTY, cmds).audit)
    ensures var z := Run(EMPTY, cmds);
      && r in z.requests && z.requests[r].slug in z.realms
      && var q := z.requests[r];
         z.realms[q.slug] == Some(q.org)
         <==> q.slug != PLATFORM && forall i | First(z.requests, z.audit, q.slug, i) ::
             z.requests[z.audit[i].request].org == q.org
  {
    RunMarked(cmds);
    var z := Run(EMPTY, cmds);
    Known(z);
    var k :| 0 <= k < |z.audit| && z.audit[k].request == r;
    assert z.requests[r].slug in z.realms by {
      hide IdsOk, Unique, CompletedOk, Counted, TenantRowsOk, DefaultSlug, Run, Marked;
    }
    hide Inv, Run, OrgsMarked;
    var q := z.requests[r];
    if q.slug != PLATFORM {
      var i :| First(z.requests, z.audit, q.slug, i) && z.realms[q.slug] == Some(z.requests[z.audit[i].request].org);
      forall j | First(z.requests, z.audit, q.slug, j) ensures j == i {
        OneFirst(z.requests, z.audit, q.slug, i, j);
      }
    }
  }

  /** Exactly what an attempt does to the request: it completes it when the provider and the worker
      hold out and the rows collide with none, and only then; a completed request is left alone. */
  lemma AttemptExactly(w: World, r: Id, principal: Id, fault: Fault)
    requires Inv(w) && r in w.requests
    ensures var v := Attempt(w, r, principal, fault);
      && r in v.requests
      && (w.requests[r].status == Completed ==> v == w)
      && (w.requests[r].status != Completed ==>
            (v.requests[r].status == Completed <==>
                (fault == NoFault || fault == CrashAfterCommit) && !Collides(w, w.requests[r])))
      && (v.audit == w.audit || v.audit == w.audit + [Registered(r, w.nextId)])
      && (v.audit != w.audit <==> w.requests[r].status != Completed && v.requests[r].status == Completed)
  {
    hide Inv, Collides, DefaultSlug;
    Fresh(w);
    assert |w.audit + [Registered(r, w.nextId)]| == |w.audit| + 1;
  }

  /** However the attempts go, a request is never completed once its organization has another tenant
      with the request's default slug, which a registration gives it when the slugs are alike. */
  lemma {:induction false} BlockedForever(w: World, r: Id, cmds: seq<Command>)
    requires Inv(w) && r in w.requests && w.requests[r].status != Completed
    requires HasTenant(w.tenants, w.requests[r].org, DefaultSlug(w.requests[r].slug))
    ensures var z := Run(w, cmds);
      && Inv(z) && r in z.requests && z.requests[r] == w.requests[r].(status := z.requests[r].status)
      && z.requests[r].status != Completed && HasTenant(z.tenants, w.requests[r].org, DefaultSlug(w.requests[r].slug))
    decreases |cmds|
  {
    hide Inv, Apply, DefaultSlug;
    if cmds != [] {
      var prior := cmds[..|cmds| - 1];
      BlockedForever(w, r, prior);
      StillBlocked(Run(w, prior), cmds[|cmds| - 1], r);
      StepKeeps(Run(w, prior), cmds[|cmds| - 1]);
    }
  }

  lemma StillBlocked(w: World, cmd: Command, r: Id)
    requires Inv(w) && r in w.requests && w.requests[r].status != Completed
    requires HasTenant(w.tenants, w.requests[r].org, DefaultSlug(w.requests[r].slug))
    ensures var v := Apply(w, cmd);
      && r in v.requests && v.requests[r] == w.requests[r].(status := v.requests[r].status)
          && v.requests[r].status != Completed
      && HasTenant(v.tenants, w.requests[r].org, DefaultSlug(w.requests[r].slug))
  {
    Fresh(w);
    hide Inv, TakenByOther, Pending, DefaultSlug, Apply;
    var t :| t in w.tenants && w.tenants[t] == Tenant(w.requests[r].org, DefaultSlug(w.requests[r].slug));
    TenantsStay(w, cmd, t);
    BlockedRequest(w, cmd, r);
  }

  lemma Fresh(w: World)
    requires Inv(w)
    ensures w.nextId !in w.requests && w.nextId !in w.tenants && w.nextId + 1 !in w.tenants && w.nextId !in w.orgs
    ensures w.nextId + 1 !in w.bindings && w.nextId + 2 !in w.bindings
    ensures forall m | m in w.members :: m.0 < w.nextId
    ensures forall r | r in w.requests :: w.requests[r].org in w.orgs
  {
    hide Unique, RowsOk, CompletedOk, Counted, TenantRowsOk;
  }

  lemma TenantsStay(w: World, cmd: Command, t: Id)
    requires Inv(w) && t in w.tenants
    ensures t in Apply(w, cmd).tenants && Apply(w, cmd).tenants[t] == w.tenants[t]
  {
    hide Inv, Founded, Attempt, Submit, SubmitInline, MarkFailed;
    Fresh(w);
    match cmd
    case DoFound(user, principal, slug, base) =>
      assert w.nextId + 1 != t; FoundedStays(w, user, principal, slug, base, t);
    case DoSubmit(org, user, slug, valid, starts) =>
      assert Submit(w, org, user, slug, valid, starts).tenants == w.tenants by {
      SubmitStays(w, org, user, slug, valid, starts);
    }
    case DoSubmitInline(org, user, slug, valid, principal, fault) =>
      InlineStays(w, org, user, slug, valid, principal, fault, t);
    case DoAttempt(request, principal, fault) => AttemptStays(w, request, principal, fault, t);
    case DoLoseStart(request) =>
      if request in w.requests {
        MarkedOnly(w, request);
      }
    case DoRestart =>
  }

  lemma FoundedStays(w: World, user: Id, principal: Id, slug: string, base: string, t: Id)
    requires t in w.tenants && t != w.nextId + 1
    ensures var v := Founded(w, user, principal, slug, base);
      v.requests == w.requests && t in v.tenants && v.tenants[t] == w.tenants[t]
  {
    hide TakenByOther, DefaultSlug;
  }

  lemma SubmitStays(w: World, org: Id, user: Id, slug: string, valid: bool, starts: bool)
    ensures var v := Submit(w, org, user, slug, valid, starts);
      && v.tenants == w.tenants
      && (v.requests == w.requests
          || v.requests == w.requests[w.nextId := Request(org, user, slug, if starts then Processing else Failed)])
  {
    hide Accepts;
  }

  lemma MarkedOnly(w: World, r: Id)
    requires r in w.requests
    ensures MarkFailed(w, r) == w.(requests := w.requests[r := w.requests[r].(status := Failed)])
  {
  }

  lemma AttemptStays(w: World, r: Id, principal: Id, fault: Fault, t: Id)
    requires t in w.tenants && t != w.nextId
    ensures var v := Attempt(w, r, principal, fault); t in v.tenants && v.tenants[t] == w.tenants[t]
    ensures var v := Attempt(w, r, principal, fault);
      && v.requests.Keys == w.requests.Keys
      && forall x | x in w.requests :: if x == r then
        v.requests[x] == w.requests[x].(status := v.requests[x].status) else v.requests[x] == w.requests[x]
  {
    hide Collides, DefaultSlug;
  }

  lemma InlineStays(w: World, org: Id, user: Id, slug: string, valid: bool, principal: Id, fault: Fault, t: Id)
    requires Inv(w) && t in w.tenants
    ensures var v := SubmitInline(w, org, user, slug, valid, principal, fault);
      t in v.tenants && v.tenants[t] == w.tenants[t]
    ensures var v := SubmitInline(w, org, user, slug, valid, principal, fault);
      forall x | x in w.requests :: x in v.requests && v.requests[x] == w.requests[x]
  {
    hide Inv, Accepts, Attempt;
    Fresh(w);
    assert t != w.nextId && t != w.nextId + 1;
    AttemptStays(Submitted(w, org, user, slug, Processing), w.nextId, principal, fault, t);
  }

  lemma BlockedRequest(w: World, cmd: Command, r: Id)
    requires Inv(w) && r in w.requests && w.requests[r].status != Completed
    requires HasTenant(w.tenants, w.requests[r].org, DefaultSlug(w.requests[r].slug))
    ensures var v := Apply(w, cmd);
      r in v.requests && v.requests[r] == w.requests[r].(status := v.requests[r].status)
          && v.requests[r].status != Completed
  {
    hide Inv, Founded, Submit, SubmitInline, MarkFailed, DefaultSlug, HasTenant, TakenByOther, Pipeline;
    Fresh(w);
    var t :| t in w.tenants && w.tenants[t] == Tenant(w.requests[r].org, DefaultSlug(w.requests[r].slug)) by {
      SomeTenant(w, r);
    }
    match cmd
    case DoFound(user, principal, slug, base) => FoundedStays(w, user, principal, slug, base, t);
    case DoSubmit(org, user, slug, valid, starts) => SubmitStays(w, org, user, slug, valid, starts);
    case DoSubmitInline(org, user, slug, valid, principal, fault) =>
      InlineStays(w, org, user, slug, valid, principal, fault, t);
    case DoAttempt(request, principal, fault) =>
      AttemptStays(w, request, principal, fault, t);
      if request == r {
        AttemptExactly(w, r, principal, fault);
      }
      hide Attempt;
    case DoLoseStart(request) =>
      if request in w.requests {
        MarkedOnly(w, request);
      }
    case DoRestart =>
  }

  lemma SomeTenant(w: World, r: Id)
    requires r in w.requests && HasTenant(w.tenants, w.requests[r].org, DefaultSlug(w.requests[r].slug))
    ensures exists t :: t in w.tenants && w.tenants[t] == Tenant(w.requests[r].org, DefaultSlug(w.requests[r].slug))
  {
  }

  // ---------- where one organization is upgraded twice, and a registration is disowned

  const CALLS := [DoFound(7, 8, "ada-0000", "a"), DoSubmit(0, 7, "one", true, true), DoSubmit(0, 7, "two", true, true),
                  DoAttempt(3, 8, NoFault), DoAttempt(4, 8, NoFault)]

  lemma OneMore(n: nat)
    requires n < |CALLS|
    ensures Run(EMPTY, CALLS[..n + 1]) == Apply(Run(EMPTY, CALLS[..n]), CALLS[n])
    ensures Inv(Run(EMPTY, CALLS[..n]))
  {
    hide Apply, Inv;
    EmptyOk();
    RunKeeps(EMPTY, CALLS[..n]);
    assert CALLS[..n + 1][..n] == CALLS[..n];
  }

  lemma OneFounded()
    ensures var z := Run(EMPTY, CALLS[..1]);
      && z.nextId == 3 && z.orgs == map[0 := Org("ada-0000", true, None)]
          && z.tenants == map[1 := Tenant(0, DefaultSlug("a"))]
      && z.requests == map[] && z.audit == []
  {
    hide DefaultSlug, Inv;
    OneMore(0);
    assert CALLS[..0] == [] && Run(EMPTY, []) == EMPTY;
    hide Run;
  }

  /** A submission of the only organization under a slug that no request has. */
  lemma SoleSubmission(w: World, slug: string)
    requires w.orgs == map[0 := Org("ada-0000", true, None)] && forall r | r in w.requests :: w.requests[r].slug != slug
    ensures Submit(w, 0, 7, slug, true, true) == Submitted(w, 0, 7, slug, Processing)
  {
  }

  lemma TwoSubmitted()
    ensures var z := Run(EMPTY, CALLS[..3]);
      && z.orgs == map[0 := Org("ada-0000", true, None)] && z.tenants == map[1 := Tenant(0, DefaultSlug("a"))]
      && z.requests == map[3 := Request(0, 7, "one", Processing), 4 := Request(0, 7, "two", Processing)]
          && z.audit == []
  {
    hide DefaultSlug, Inv, Run, Submit;
    TwoSlugs();
    OneFounded();
    OneMore(1);
    OneMore(2);
    SoleSubmission(Run(EMPTY, CALLS[..1]), "one");
    SoleSubmission(Run(EMPTY, CALLS[..2]), "two");
  }

  lemma SlugFree(w: World, r: Id)
    requires r in w.requests && w.requests[r].org == 0 && w.orgs.Keys == {0}
    requires forall t | t in w.tenants :: w.tenants[t].slug != DefaultSlug(w.requests[r].slug)
    ensures !Collides(w, w.requests[r])
  {
  }

  /** Only the submission asks whether the organization is still an individual's: two requests under
      different slugs both complete, and the organization has been upgraded twice. */
  lemma UpgradedTwice()
    ensures var z := Run(EMPTY, CALLS);
      && 3 in z.requests && 4 in z.requests && z.requests[3].org == z.requests[4].org == 0
      && z.requests[3].status == Completed && z.requests[4].status == Completed && |z.audit| == 2
  {
    hide DefaultSlug, Inv, Collides, Run;
    TwoSlugs();
    TwoSubmitted();
    OneMore(3);
    OneMore(4);
    var c, d := Run(EMPTY, CALLS[..3]), Run(EMPTY, CALLS[..4]);
    SlugFree(c, 3);
    AttemptExactly(c, 3, 8, NoFault);
    assert d == Pipeline(c.(idp := c.idp + {"one"}), 3, 8);
    SlugFree(d, 4);
    AttemptExactly(d, 4, 8, NoFault);
    assert CALLS[..5] == CALLS;
  }

  lemma TwoSlugs()
    ensures DefaultSlug("one") != DefaultSlug("two") && DefaultSlug("one") != DefaultSlug("a")
        && DefaultSlug("two") != DefaultSlug("a")
    ensures "one" != "two" && "one" != "ada-0000" && "two" != "ada-0000"
  {
    assert DefaultSlug("one")[0] == 'o' && DefaultSlug("two")[0] == 't' && DefaultSlug("a")[0] == 'a';
    assert "one"[0] == 'o' && "two"[0] == 't' && "ada-0000"[0] == 'a';
  }

  /** A lost answer from the workflow's start marks a completed request failed. */
  lemma LostStartDisowns(w: World, r: Id)
    requires Inv(w) && r in w.requests && w.requests[r].status == Completed
    ensures var v := Apply(w, DoLoseStart(r));
      r in v.requests && v.requests[r].status == Failed && r in Upgraded(v.audit)
  {
    hide IdsOk, Unique, RowsOk, Counted, Upgraded;
  }

  // ---------- the service

  class OrgUpgradeService {
    var nextId: Id
    var orgs: map<Id, Org>
    var tenants: map<Id, Tenant>
    var members: set<(Id, Id)>
    var bindings: map<Id, Binding>
    var realms: map<string, Option<Id>>
    var requests: map<Id, Request>
    var audit: seq<Registered>
    var idp: set<string>

    function State(): World
      reads this
    {
      World(nextId, orgs, tenants, members, bindings, realms, requests, audit, idp)
    }

    constructor ()
      ensures State() == EMPTY && Inv(State())
    {
      nextId, orgs, tenants, members, bindings, realms := 0, map[], map[], {}, map[], map[PLATFORM := None];
      requests, audit, idp := map[], [], {PLATFORM};
    }

    /** Whether inserting the organization's slug and its default tenant would break a unique index. */
    method ViolatesUnique(org: Id, slug: string) returns (violates: bool)
      ensures violates <==> TakenByOther(orgs, org, slug) || HasTenant(tenants, org, DefaultSlug(slug))
    {
      var left := orgs.Keys;
      while left != {}
        invariant left <= orgs.Keys
        invariant forall o | o in orgs && o !in left :: o == org || orgs[o].slug != slug
        decreases left
      {
        var o :| o in left;
        left := left - {o};
        if o != org && orgs[o].slug == slug {
          return true;
        }
      }
      left := tenants.Keys;
      while left != {}
        invariant left <= tenants.Keys
        invariant forall t | t in tenants && t !in left :: tenants[t] != Tenant(org, DefaultSlug(slug))
        decreases left
      {
        var t :| t in left;
        left := left - {t};
        if tenants[t] == Tenant(org, DefaultSlug(slug)) {
          return true;
        }
      }
      return false;
    }

    method AssertSlugAvailable(slug: string, org: Id) returns (available: bool)
      ensures available <==> !TakenByOther(orgs, org, slug) && !Pending(requests, slug)
    {
      var left := orgs.Keys;
      while left != {}
        invariant left <= orgs.Keys
        invariant forall o | o in orgs && o !in left :: o == org || orgs[o].slug != slug
        decreases left
      {
        var o :| o in left;
        left := left - {o};
        if o != org && orgs[o].slug == slug {
          return false;
        }
      }
      left := requests.Keys;
      while left != {}
        invariant left <= requests.Keys
        invariant forall r | r in requests && r !in left :: requests[r].slug != slug || requests[r].status == Failed
        decreases left
      {
        var r :| r in left;
        left := left - {r};
        if requests[r].slug == slug && requests[r].status != Failed {
          return false;
        }
      }
      return true;
    }

    method CheckSubmission(org: Id, slug: string, valid: bool) returns (accepted: bool)
      ensures accepted == Accepts(State(), org, slug, valid)
    {
      if !valid || org !in orgs || !orgs[org].individual {
        return false;
      }
      accepted := AssertSlugAvailable(slug, org);
    }

    /** The request is committed before the workflow starts, and marked failed when that fails. */
    method SubmitToWorkflow(org: Id, user: Id, slug: string, valid: bool, starts: bool)
      requires Inv(State())
      modifies this
      ensures State() == Submit(old(State()), org, user, slug, valid, starts)
    {
      hide Inv, Accepts;
      Fresh(State());
      var accepted := CheckSubmission(org, slug, valid);
      if accepted {
        var r, q := nextId, Request(org, user, slug, Processing);
        nextId := nextId + 1;
        requests := requests[r := q];
        if !starts {
          MarkAsFailed(r, q);
        }
      }
    }

    /** The request and the pipeline in one transaction: a rollback takes the request away too, and a
        failure that is not the provider's absence puts it back as failed. */
    method SubmitAndRun(org: Id, user: Id, slug: string, valid: bool, principal: Id, fault: Fault)
      requires Inv(State())
      modifies this
      ensures State() == SubmitInline(old(State()), org, user, slug, valid, principal, fault)
    {
      hide Inv, Accepts, Attempt, Submitted;
      Fresh(State());
      var accepted := CheckSubmission(org, slug, valid);
      if !accepted || fault == IdpDown {
        return;
      }
      AcceptsIndividual(State(), org, slug, valid);
      SubmittedKeeps(State(), org, user, slug, Processing);
      SubmittedFields(State(), org, user, slug);
      var r, q, before := nextId, Request(org, user, slug, Processing), requests;
      nextId := nextId + 1;
      requests := requests[r := q];
      RunSubmitted(r, q, before, principal, fault);
    }

    /** The rest of that transaction, once the request's row is inserted. */
    method RunSubmitted(r: Id, q: Request, before: map<Id, Request>, principal: Id, fault: Fault)
      requires Inv(State()) && r !in before && requests == before[r := q] && q.status == Processing && fault != IdpDown
      modifies this
      ensures State() == if fault == CrashBeforeCommit then
        old(State()).(nextId := r, requests := before, idp := old(idp) + {q.slug})
                         else Attempt(old(State()), r, principal, fault)
    {
      hide Inv, Pipeline, DefaultSlug, Collides;
      assert q.org in orgs by { RequestOrg(State(), r); }
      if fault == IdpError {
        requests := before;
        MarkAsFailed(r, q);
        return;
      }
      var committed := RunPipeline(r, principal, fault == CrashBeforeCommit);
      if !committed {
        requests := before;
        if fault == CrashBeforeCommit {
          nextId := r;
        } else {
          MarkAsFailed(r, q);
        }
      }
    }

    lemma SubmittedFields(w: World, org: Id, user: Id, slug: string)
      ensures Submitted(w, org, user, slug, Processing)
              == w.(nextId := w.nextId + 1, requests := w.requests[w.nextId := Request(org, user, slug, Processing)])
    {
    }

    /** The pipeline's inserts and updates; false when an index refuses them or the worker dies, and
        then everything but the provider's realm is rolled back. */
    method RunPipeline(r: Id, principal: Id, dies: bool) returns (committed: bool)
      requires Inv(State()) && r in requests && requests[r].status != Completed
      modifies this
      ensures var w := old(State());
        var v := w.(idp := w.idp + {w.requests[r].slug});
        && w.requests[r].org in w.orgs
        && committed == (!dies && !Collides(w, w.requests[r]))
        && State() == if committed then Pipeline(v, r, principal) else v
    {
      hide Inv, DefaultSlug, TakenByOther, HasTenant, Pipeline;
      assert requests[r].org in orgs by { RequestOrg(State(), r); }
      var slug := requests[r].slug;
      idp := idp + {slug};
      var refused := ViolatesUnique(requests[r].org, slug);
      var before := State();
      InsertRows(r, principal);
      if refused || dies {
        Rollback(before);
        return false;
      }
      return true;
    }

    /** The rows of the transaction, before its commit. */
    method InsertRows(r: Id, principal: Id)
      requires r in requests && requests[r].org in orgs
      modifies this
      ensures old(requests[r].org in orgs) && State() == Pipeline(old(State()), r, principal)
    {
      hide DefaultSlug;
      var q := requests[r];
      if q.slug !in realms {
        realms := realms[q.slug := Some(q.org)];
      }
      orgs := orgs[q.org := Org(q.slug, false, Some(q.slug))];
      var tenant := nextId;
      nextId := nextId + 2;
      tenants := tenants[tenant := Tenant(q.org, DefaultSlug(q.slug))];
      members := members + {(tenant, q.user)};
      bindings := bindings[tenant + 1 := Binding(tenant, principal)];
      requests := requests[r := q.(status := Completed)];
      audit := audit + [Registered(r, tenant)];
    }

    /** The provider's process restarts with the platform's realm only. */
    method RestartProvider()
      modifies this`idp
      ensures State() == Apply(old(State()), DoRestart)
    {
      idp := {PLATFORM};
    }

    method Rollback(before: World)
      modifies this
      ensures State() == before
    {
      nextId, orgs, tenants, members, bindings := before.nextId, before.orgs, before.tenants, before.members,
        before.bindings;
      realms, requests, audit, idp := before.realms, before.requests, before.audit, before.idp;
    }

    lemma RequestOrg(w: World, r: Id)
      requires Inv(w) && r in w.requests
      ensures w.requests[r].org in w.orgs
    {
    }

    /** One attempt of the worker at a stored request. */
    method RunForRequest(r: Id, principal: Id, fault: Fault)
      requires Inv(State())
      modifies this
      ensures State() == Attempt(old(State()), r, principal, fault) && Inv(State())
    {
      hide Inv, Pipeline, DefaultSlug;
      AttemptKeeps(State(), r, principal, fault);
      if r !in requests {
        return;
      }
      if requests[r].status == Completed {
        return;
      }
      assert requests[r].org in orgs by { RequestOrg(State(), r); }
      if fault == IdpDown {
        return;
      }
      if fault == IdpError {
        MarkAsFailed(r, requests[r]);
        return;
      }
      var committed := RunPipeline(r, principal, fault == CrashBeforeCommit);
      if !committed && fault != CrashBeforeCommit {
        MarkAsFailed(r, requests[r]);
      }
    }

    method MarkAsFailed(r: Id, q: Request)
      modifies this`requests
      ensures State() == MarkFailedAs(old(State()), r, q)
    {
      if r !in requests {
        requests := requests[r := q.(status := Failed)];
      } else {
        requests := requests[r := requests[r].(status := Failed)];
      }
    }
  }
}
