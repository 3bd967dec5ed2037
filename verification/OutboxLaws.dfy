/** What every outbox pass and every other writer of its tables keeps, over every run. */
module OutboxLaws {
  import opened Errors
  import opened Outbox

  // ---------- the invariant, table by table

  ghost predicate EventOk(e: Event) {
    && (e.status == Dead <==> e.retries == MAX_RETRIES)
    && e.retries <= MAX_RETRIES
    && (e.processedAt.Some? ==> e.status == Processed && e.payload.Keys !! SECRET_KEYS)
  }

  ghost predicate EventsOk(events: seq<Event>) {
    forall i | 0 <= i < |events| :: EventOk(events[i])
  }

  predicate PayloadBelow(n: Id, payload: Payload) {
    forall k | k in payload && payload[k].Uuid? :: payload[k].id < n
  }

  ghost predicate RefsOk(n: Id, events: seq<Event>) {
    forall i | 0 <= i < |events| :: PayloadBelow(n, events[i].payload)
  }

  /** Plaintext is absent exactly when the secret has been consumed. */
  ghost predicate SecretOk(s: Secret) {
    && (s.plain.None? <==> s.consumedAt.Some?)
    && (s.plain.Some? ==> s.plain.value != "")
  }

  ghost predicate SecretsOk(n: Id, secrets: map<Id, Secret>) {
    forall k | k in secrets :: k < n && SecretOk(secrets[k])
  }

  function Deliveries(sink: seq<Message>, secret: Id): nat {
    if sink == [] then 0 else
      var last := sink[|sink| - 1];
      Deliveries(sink[..|sink| - 1], secret) + if last.Delivery? && last.secret == secret then 1 else 0
  }

  ghost predicate DeliveryOk(secrets: map<Id, Secret>, m: Message) {
    m.Delivery? ==>
      && m.secret in secrets && m.purpose == secrets[m.secret].purpose
      && m.at <= secrets[m.secret].expiresAt && m.body != ""
  }

  ghost predicate SinkOk(lost: nat, secrets: map<Id, Secret>, sink: seq<Message>) {
    && (forall i | 0 <= i < |sink| :: DeliveryOk(secrets, sink[i]))
    && (forall k | k in secrets :: Deliveries(sink, k) <= lost + if secrets[k].consumedAt.Some? then 1 else 0)
  }

  /** The event names an existing secret of the purpose it asks for. */
  predicate NamesSecret(secrets: map<Id, Secret>, e: Event) {
    && e.kind.SendSecret?
    && "delivery_secret_id" in e.payload && e.payload["delivery_secret_id"].Uuid?
    && e.payload["delivery_secret_id"].id in secrets
    && secrets[e.payload["delivery_secret_id"].id].purpose == e.kind.purpose
  }

  ghost predicate SecretEventOk(secrets: map<Id, Secret>, e: Event) {
    NamesSecret(secrets, e) ==>
      e.retries <= if secrets[e.payload["delivery_secret_id"].id].consumedAt.Some? then 1 else 0
  }

  ghost predicate SecretEventsOk(secrets: map<Id, Secret>, events: seq<Event>) {
    forall i | 0 <= i < |events| :: SecretEventOk(secrets, events[i])
  }

  predicate NeedsInstance(status: InstallStatus) { status == Active || status == CancelAtPeriodEnd }

  ghost predicate InstancesOk(n: Id, installs: map<Id, Installation>, instances: map<Id, Id>) {
    && (forall i | i in installs :: i < n && (NeedsInstance(installs[i].status) <==> HasInstance(instances, i)))
    && (forall k | k in instances :: k < n && instances[k] in installs)
    && (forall k, l | k in instances && l in instances && instances[k] == instances[l] :: k == l)
  }

  ghost predicate OneLive(installs: map<Id, Installation>) {
    forall i, j | i in installs && j in installs && IsLive(installs[i], installs[i].tenant, installs[i].offering)
                  && IsLive(installs[j], installs[i].tenant, installs[i].offering) :: i == j
  }

  predicate Awaits(e: Event, install: Id) {
    && e.kind == ProvisionService && e.status == Pending
    && "installation_id" in e.payload && e.payload["installation_id"] == Uuid(install)
  }

  ghost predicate Awaited(events: seq<Event>, install: Id) {
    exists i :: 0 <= i < |events| && Awaits(events[i], install)
  }

  ghost predicate AllAwaited(events: seq<Event>, installs: map<Id, Installation>) {
    forall i | i in installs && installs[i].status == Provisioning :: Awaited(events, i)
  }

  ghost predicate Inv(w: World) {
    && EventsOk(w.events)
    && RefsOk(w.nextId, w.events)
    && SecretsOk(w.nextId, w.secrets)
    && SinkOk(w.lost, w.secrets, w.sink)
    && SecretEventsOk(w.secrets, w.events)
    && InstancesOk(w.nextId, w.installs, w.instances)
    && OneLive(w.installs)
    && AllAwaited(w.events, w.installs)
  }

  // ---------- how the tables may differ later on

  ghost predicate SecretsLater(before: map<Id, Secret>, after: map<Id, Secret>) {
    forall k | k in before :: k in after && after[k].purpose == before[k].purpose
      && after[k].expiresAt == before[k].expiresAt
      && (before[k].consumedAt.Some? ==> after[k] == before[k])
  }

  ghost predicate InstallsLater(before: map<Id, Installation>, after: map<Id, Installation>) {
    forall i | i in before :: i in after && after[i].tenant == before[i].tenant
        && after[i].offering == before[i].offering
      && (before[i].status != Provisioning ==> after[i].status != Provisioning)
  }

  // ---------- one row

  lemma SettleKeeps(n: Id, events: seq<Event>, i: nat, ok: bool, now: Time)
    requires EventsOk(events) && RefsOk(n, events)
    requires i < |events| && events[i].status == Pending
    ensures EventsOk(events[i := Settle(events[i], ok, now)])
    ensures RefsOk(n, events[i := Settle(events[i], ok, now)])
  {
    var e, f := events[i], Settle(events[i], ok, now);
    assert EventOk(e) && PayloadBelow(n, e.payload);
    assert EventOk(f);
    assert forall k | k in f.payload && f.payload[k].Uuid? :: k in e.payload && f.payload[k] == e.payload[k];
  }

  lemma RefsGrow(n: Id, m: Id, events: seq<Event>)
    requires RefsOk(n, events) && n <= m
    ensures RefsOk(m, events)
  {
    forall i | 0 <= i < |events| ensures PayloadBelow(m, events[i].payload) {
      assert PayloadBelow(n, events[i].payload);
    }
  }

  lemma DeliveredOnce(lost: nat, before: map<Id, Secret>, after: map<Id, Secret>, sink: seq<Message>, m: Message)
    requires SinkOk(lost, before, sink) && SecretsLater(before, after) && before.Keys == after.Keys
    requires m.Delivery? && DeliveryOk(after, m) && before[m.secret].consumedAt.None?
        && after[m.secret].consumedAt.Some?
    ensures SinkOk(lost, after, sink + [m])
  {
    assert (sink + [m])[..|sink|] == sink;
    forall k | k in after ensures Deliveries(sink + [m], k) <= lost + if after[k].consumedAt.Some? then 1 else 0 {
      assert Deliveries(sink + [m], k) == Deliveries(sink, k) + if m.secret == k then 1 else 0;
    }
    forall i | 0 <= i < |sink| ensures DeliveryOk(after, sink[i]) {
      assert DeliveryOk(before, sink[i]);
    }
  }

  lemma SinkFrame(lost: nat, before: map<Id, Secret>, after: map<Id, Secret>, sink: seq<Message>)
    requires SinkOk(lost, before, sink) && SecretsLater(before, after) && before.Keys == after.Keys
    ensures SinkOk(lost, after, sink)
  {
    forall i | 0 <= i < |sink| ensures DeliveryOk(after, sink[i]) {
      assert DeliveryOk(before, sink[i]);
    }
  }

  lemma SecretEventsFrame(before: map<Id, Secret>, after: map<Id, Secret>, events: seq<Event>)
    requires SecretEventsOk(before, events) && SecretsLater(before, after) && before.Keys == after.Keys
    ensures SecretEventsOk(after, events)
  {
    forall i | 0 <= i < |events| ensures SecretEventOk(after, events[i]) {
      assert SecretEventOk(before, events[i]);
    }
  }

  /** A delivery attempt: the sink gains at most the one message, and the secret is wiped with it. */
  lemma DeliverStep(w: World, e: Event, now: Time)
    requires SecretsOk(w.nextId, w.secrets) && SinkOk(w.lost, w.secrets, w.sink)
    requires e.kind.SendSecret? && e.status == Pending && SecretEventOk(w.secrets, e)
    ensures var (v, ok) := DeliverSecret(w, e.kind.purpose, e.payload, now);
      && v == w.(secrets := v.secrets, sink := v.sink)
      && v.secrets.Keys == w.secrets.Keys && SecretsLater(w.secrets, v.secrets)
      && SecretsOk(w.nextId, v.secrets) && SinkOk(w.lost, v.secrets, v.sink)
      && SecretEventOk(v.secrets, Settle(e, ok, now))
      && (NamesSecret(w.secrets, e) ==> v.secrets[e.payload["delivery_secret_id"].id].consumedAt.Some?)
  {
    hide SinkOk, Deliveries, DeliveryOk;
    var (v, ok) := DeliverSecret(w, e.kind.purpose, e.payload, now);
    if NamesSecret(w.secrets, e) {
      var id := e.payload["delivery_secret_id"].id;
      assert SecretOk(w.secrets[id]);
      if w.secrets[id].consumedAt.None? && w.secrets[id].expiresAt >= now {
        var m := Delivery(e.kind.purpose, Email(e.payload), w.secrets[id].plain.value, id, now);
        DeliveryIsOk(v.secrets, m);
        DeliveredOnce(w.lost, w.secrets, v.secrets, w.sink, m);
      } else {
        SinkFrame(w.lost, w.secrets, v.secrets, w.sink);
      }
    }
  }

  lemma DeliveryIsOk(secrets: map<Id, Secret>, m: Message)
    requires m.Delivery? && m.secret in secrets && m.purpose == secrets[m.secret].purpose
    requires m.at <= secrets[m.secret].expiresAt && m.body != ""
    ensures DeliveryOk(secrets, m)
  {
  }

  /** A message that delivers no secret. */
  lemma RetryMessage(lost: nat, secrets: map<Id, Secret>, sink: seq<Message>, payload: Payload)
    requires SinkOk(lost, secrets, sink)
    ensures SinkOk(lost, secrets, sink + [SetPasswordRetry(payload)])
  {
    assert (sink + [SetPasswordRetry(payload)])[..|sink|] == sink;
  }

  /** Provisioning: an installation that waits becomes active with exactly one instance. */
  lemma ProvisionStep(w: World, payload: Payload)
    requires InstancesOk(w.nextId, w.installs, w.instances) && OneLive(w.installs)
    ensures var (v, ok) := HandleProvision(w, payload);
      && v == w.(nextId := v.nextId, installs := v.installs, instances := v.instances) && w.nextId <= v.nextId
      && InstancesOk(v.nextId, v.installs, v.instances) && OneLive(v.installs)
      && v.installs.Keys == w.installs.Keys && InstallsLater(w.installs, v.installs)
      && (forall i | i in w.installs && payload == payload["installation_id" := Uuid(i)]
          && w.installs[i].status == Provisioning ::
            ok && v.installs[i].status == Active)
  {
    hide OneLive;
    var (v, ok) := HandleProvision(w, payload);
    OneLiveFrame(w.installs, v.installs) by {
      assert forall i, t, f | i in v.installs && IsLive(v.installs[i], t, f) :: IsLive(w.installs[i], t, f);
    }
    if "installation_id" in payload && payload["installation_id"].Uuid? && payload["installation_id"].id in w.installs {
      var id := payload["installation_id"].id;
      if w.installs[id].status == Provisioning {
        assert !HasInstance(w.instances, id);
        assert v.instances[w.nextId] == id;
        forall i | i in v.installs ensures NeedsInstance(v.installs[i].status) <==> HasInstance(v.instances, i) {
          if HasInstance(w.instances, i) {
            var k :| k in w.instances && w.instances[k] == i;
            assert v.instances[k] == i;
          }
        }
      }
    }
  }

  lemma OneLiveFrame(before: map<Id, Installation>, after: map<Id, Installation>)
    requires OneLive(before)
    requires forall i, t, f | i in after && IsLive(after[i], t, f) :: i in before && IsLive(before[i], t, f)
    ensures OneLive(after)
  {
    forall i, j | i in after && j in after && IsLive(after[i], after[i].tenant, after[i].offering)
                  && IsLive(after[j], after[i].tenant, after[i].offering) ensures i == j {
      assert IsLive(before[i], after[i].tenant, after[i].offering);
      assert IsLive(before[j], after[i].tenant, after[i].offering);
    }
  }

  lemma AwaitedFrame(before: seq<Event>, after: seq<Event>, i: nat, installs: map<Id, Installation>,
                     installs': map<Id, Installation>)
    requires AllAwaited(before, installs) && i < |before| && |after| == |before|
    requires forall j | 0 <= j < |before| && j != i :: after[j] == before[j]
    requires forall k | k in installs' && installs'[k].status == Provisioning ::
      k in installs && installs[k].status == Provisioning && !Awaits(before[i], k)
    ensures AllAwaited(after, installs')
  {
    forall k | k in installs' && installs'[k].status == Provisioning ensures Awaited(after, k) {
      assert Awaited(before, k);
      var j :| 0 <= j < |before| && Awaits(before[j], k);
      assert after[j] == before[j];
      assert Awaits(after[j], k);
    }
  }

  /** What one row of a pass leaves of the world. */
  ghost predicate RowDone(w: World, v: World, i: nat) {
    && Inv(v)
    && |v.events| == |w.events| && i < |w.events|
    && (forall j | 0 <= j < |w.events| && j != i :: v.events[j] == w.events[j])
    && w.nextId <= v.nextId && v.lost == w.lost
    && v.secrets.Keys == w.secrets.Keys && SecretsLater(w.secrets, v.secrets)
    && InstallsLater(w.installs, v.installs)
  }

  lemma SendRow(w: World, i: nat, now: Time)
    requires Inv(w) && i < |w.events| && w.events[i].status == Pending && w.events[i].kind.SendSecret?
    ensures RowDone(w, ProcessOne(w, i, now), i)
  {
    hide EventsOk, RefsOk, SecretsOk, SinkOk, InstancesOk, OneLive, SecretEventOk, SecretsLater, DeliverSecret,
         NamesSecret, Settle;
    var e, v := w.events[i], ProcessOne(w, i, now);
    var ok := DeliverSecret(w, e.kind.purpose, e.payload, now).1;
    assert SecretEventOk(w.secrets, e);
    DeliverStep(w, e, now);
    SettleKeeps(w.nextId, w.events, i, ok, now);
    SecretEventsFrame(w.secrets, v.secrets, w.events);
    AwaitedFrame(w.events, v.events, i, w.installs, v.installs);
    assert v.events == w.events[i := Settle(e, ok, now)];
  }

  lemma ProvisionRow(w: World, i: nat, now: Time)
    requires Inv(w) && i < |w.events| && w.events[i].status == Pending && w.events[i].kind == ProvisionService
    ensures RowDone(w, ProcessOne(w, i, now), i)
  {
    hide EventsOk, RefsOk, SinkOk, InstancesOk, OneLive, HandleProvision;
    var e, v := w.events[i], ProcessOne(w, i, now);
    var (u, ok) := HandleProvision(w, e.payload);
    ProvisionStep(w, e.payload);
    SettleKeeps(w.nextId, w.events, i, ok, now);
    RefsGrow(w.nextId, v.nextId, v.events);
    forall k | k in v.installs && v.installs[k].status == Provisioning ensures !Awaits(e, k) {
      assert Awaits(e, k) ==> e.payload == e.payload["installation_id" := Uuid(k)];
    }
    AwaitedFrame(w.events, v.events, i, w.installs, v.installs);
    assert SecretEventsOk(v.secrets, v.events);
  }

  lemma OtherRow(w: World, i: nat, now: Time)
    requires Inv(w) && i < |w.events| && w.events[i].status == Pending
    requires !w.events[i].kind.SendSecret? && w.events[i].kind != ProvisionService
    ensures RowDone(w, ProcessOne(w, i, now), i)
  {
    hide EventsOk, RefsOk, SinkOk, InstancesOk, OneLive;
    var e, v := w.events[i], ProcessOne(w, i, now);
    SettleKeeps(w.nextId, w.events, i, Handle(w, e, now).1, now);
    RetryMessage(w.lost, w.secrets, w.sink, e.payload);
    AwaitedFrame(w.events, v.events, i, w.installs, v.installs);
    assert SecretEventsOk(v.secrets, v.events);
  }

  lemma RowKeeps(w: World, i: nat, now: Time)
    requires Inv(w) && i < |w.events| && w.events[i].status == Pending
    ensures RowDone(w, ProcessOne(w, i, now), i)
  {
    hide Inv, RowDone, ProcessOne;
    match w.events[i].kind
    case SendSecret(_) => SendRow(w, i, now);
    case ProvisionService => ProvisionRow(w, i, now);
    case _ => OtherRow(w, i, now);
  }

  // ---------- one pass

  function Spent(e: Event): nat {
    e.retries + if e.status == Processed then 1 else 0
  }

  /** The steps left to a row before it is processed or dead. */
  function Weight(e: Event): int {
    if e.status == Pending then MAX_RETRIES - e.retries else 0
  }

  lemma SettleSpends(e: Event, ok: bool, now: Time)
    requires EventOk(e) && e.status == Pending
    ensures Spent(Settle(e, ok, now)) == Spent(e) + 1
    ensures Weight(Settle(e, ok, now)) <= Weight(e) - 1
  {
  }

  ghost predicate IsBatch(events: seq<Event>, rows: seq<nat>) {
    && (forall j | 0 <= j < |rows| :: rows[j] < |events| && events[rows[j]].status == Pending)
    && (forall j, k | 0 <= j < k < |rows| :: rows[j] < rows[k])
  }

  function Measure(events: seq<Event>): int {
    if events == [] then 0 else Measure(events[..|events| - 1]) + Weight(events[|events| - 1])
  }

  lemma {:induction false} MeasureUpdate(events: seq<Event>, i: nat, e: Event)
    requires i < |events|
    ensures Measure(events[i := e]) == Measure(events) - Weight(events[i]) + Weight(e)
  {
    var n := |events| - 1;
    if i < n {
      assert events[i := e][..n] == events[..n][i := e];
      MeasureUpdate(events[..n], i, e);
    } else {
      assert events[i := e][..n] == events[..n];
    }
  }

  /** After `k` rows of a batch: those rows have moved on by one, the others have not been touched. */
  ghost predicate RowsDone(w: World, rows: seq<nat>, k: nat, v: World)
    requires k <= |rows|
  {
    && Inv(v)
    && |v.events| == |w.events|
    && (forall j | 0 <= j < |w.events| && j !in rows[..k] :: v.events[j] == w.events[j])
    && (forall j | 0 <= j < |w.events| && j in rows[..k] ::
          Spent(v.events[j]) == Spent(w.events[j]) + 1 && v.events[j].kind == w.events[j].kind)
    && Measure(v.events) <= Measure(w.events) - k
    && w.nextId <= v.nextId && v.lost == w.lost
    && v.secrets.Keys == w.secrets.Keys && SecretsLater(w.secrets, v.secrets)
    && InstallsLater(w.installs, v.installs)
  }

  lemma NextRow(w: World, rows: seq<nat>, k: nat, u: World, now: Time)
    requires IsBatch(w.events, rows) && k < |rows| && RowsDone(w, rows, k, u)
    ensures u.events[rows[k]] == w.events[rows[k]]
    ensures RowsDone(w, rows, k + 1, ProcessOne(u, rows[k], now))
  {
    hide Inv, Handle, Settle, Spent, Weight;
    var i := rows[k];
    assert i !in rows[..k];
    var v := ProcessOne(u, i, now);
    RowKeeps(u, i, now);
    var ok := Handle(u, u.events[i], now).1;
    RowSettled(u, i, now);
    SettleSpends(u.events[i], ok, now);
    MeasureUpdate(u.events, i, v.events[i]);
    assert rows[..k + 1] == rows[..k] + [i];
    SettleKind(u.events[i], ok, now);
  }

  lemma SettleKind(e: Event, ok: bool, now: Time)
    ensures Settle(e, ok, now).kind == e.kind
  {
  }

  lemma RowSettled(u: World, i: nat, now: Time)
    requires Inv(u) && i < |u.events|
    ensures EventOk(u.events[i])
    ensures ProcessOne(u, i, now).events == u.events[i := Settle(u.events[i], Handle(u, u.events[i], now).1, now)]
  {
    hide Handle, Settle;
  }

  lemma {:induction false} AfterKeeps(w: World, rows: seq<nat>, clock: nat -> Time, k: nat)
    requires Inv(w) && IsBatch(w.events, rows) && k <= |rows|
    ensures RowsDone(w, rows, k, After(w, rows, clock, k))
  {
    hide Inv, ProcessOne;
    if k > 0 {
      AfterKeeps(w, rows, clock, k - 1);
      NextRow(w, rows, k - 1, After(w, rows, clock, k - 1), clock(k - 1));
    }
  }

  function PendingCount(events: seq<Event>): nat {
    if events == [] then 0 else
      PendingCount(events[..|events| - 1]) + if events[|events| - 1].status == Pending then 1 else 0
  }

  lemma {:induction false} PendingSplit(events: seq<Event>, from: nat)
    requires from < |events|
    ensures PendingCount(events[from..]) == PendingCount(events[from + 1..]) + if events[from].status == Pending then
      1 else 0
    decreases |events|
  {
    var n := |events| - 1;
    var tail := events[from..];
    assert tail[..|tail| - 1] == events[..n][from..];
    if from < n {
      assert events[from + 1..][..n - from - 1] == events[..n][from + 1..];
      PendingSplit(events[..n], from);
    } else {
      assert tail == [events[from]];
    }
  }

  /** A batch is as large as the limit and the pending rows allow. */
  lemma {:induction false} BatchSize(events: seq<Event>, from: nat, limit: nat)
    requires from <= |events|
    ensures var pending := PendingCount(events[from..]);
      |Batch(events, from, limit)| == if limit < pending then limit else pending
    decreases |events| - from
  {
    if from < |events| {
      PendingSplit(events, from);
      if limit > 0 {
        BatchSize(events, from + 1, if events[from].status == Pending then limit - 1 else limit);
      }
    }
  }

  /** Each pass lowers the retries left over pending events by at least the smaller of its limit
      and the number of pending events. */
  lemma PassLowers(w: World, limit: nat, clock: nat -> Time)
    requires Inv(w)
    ensures var v, pending := Pass(w, limit, clock), PendingCount(w.events);
      && Inv(v)
      && Measure(v.events) <= Measure(w.events) - if limit < pending then limit else pending
  {
    hide Inv;
    var rows := Batch(w.events, 0, limit);
    AfterKeeps(w, rows, clock, |rows|);
    BatchSize(w.events, 0, limit);
    assert w.events[0..] == w.events;
  }

  lemma {:induction false} MeasureBounds(events: seq<Event>)
    requires EventsOk(events)
    ensures PendingCount(events) <= Measure(events) <= MAX_RETRIES * PendingCount(events)
  {
    if events != [] {
      MeasureBounds(events[..|events| - 1]);
      assert EventOk(events[|events| - 1]);
    }
  }

  ghost function Passes(w: World, limit: nat, clocks: seq<nat -> Time>): World
    decreases |clocks|
  {
    if clocks == [] then w else Passes(Pass(w, limit, clocks[0]), limit, clocks[1..])
  }

  lemma {:induction false} PassesLower(w: World, limit: nat, clocks: seq<nat -> Time>)
    requires Inv(w) && limit >= 1
    ensures var v := Passes(w, limit, clocks);
      Inv(v) && (PendingCount(v.events) == 0 || Measure(v.events) <= Measure(w.events) - |clocks|)
    decreases |clocks|
  {
    hide Inv, Pass;
    if clocks != [] {
      PassLowers(w, limit, clocks[0]);
      var u := Pass(w, limit, clocks[0]);
      PassesLower(u, limit, clocks[1..]);
      if PendingCount(w.events) == 0 {
        InvEvents(w);
        InvEvents(u);
        InvEvents(Passes(w, limit, clocks));
        MeasureBounds(w.events);
        MeasureBounds(Passes(w, limit, clocks).events);
      }
    }
  }

  lemma InvEvents(w: World)
    requires Inv(w)
    ensures EventsOk(w.events)
  {
  }

  /** With nothing enqueued meanwhile, 5n passes leave none of n pending events pending, and no
      installation waiting to be provisioned. */
  lemma DrainedIn5n(w: World, limit: nat, clocks: seq<nat -> Time>)
    requires Inv(w) && limit >= 1 && |clocks| >= MAX_RETRIES * PendingCount(w.events)
    ensures var v := Passes(w, limit, clocks);
      && (forall i | 0 <= i < |v.events| :: v.events[i].status != Pending)
      && (forall k | k in v.installs :: v.installs[k].status != Provisioning)
  {
    var v := Passes(w, limit, clocks);
    PassesLower(w, limit, clocks);
    MeasureBounds(w.events);
    MeasureBounds(v.events);
    NonePending(v.events);
    assert AllAwaited(v.events, v.installs);
  }

  lemma {:induction false} NonePending(events: seq<Event>)
    requires PendingCount(events) == 0
    ensures forall i | 0 <= i < |events| :: events[i].status != Pending
  {
    if events != [] {
      NonePending(events[..|events| - 1]);
      assert forall i | 0 <= i < |events| - 1 :: events[i] == events[..|events| - 1][i];
    }
  }
}
