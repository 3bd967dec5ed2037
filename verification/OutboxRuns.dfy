/** The outbox over every run of passes, lost passes and other writers. */
module OutboxRuns {
  import opened Errors
  import opened Outbox
  import opened OutboxLaws

  // ---------- the other writers keep the invariant

  lemma EnqueueKeeps(w: World, kind: EventKind, payload: Payload)
    requires Inv(w) && RefsKnown(w, payload)
    ensures Inv(Enqueue(w, kind, payload))
  {
    hide SecretsOk, SinkOk, InstancesOk, OneLive, EventOk;
    var v := Enqueue(w, kind, payload);
    var last := |w.events|;
    NewEventOk(kind, payload);
    assert EventOk(v.events[last]);
    forall i | 0 <= i < |v.events|
      ensures EventOk(v.events[i]) && PayloadBelow(v.nextId, v.events[i].payload)
          && SecretEventOk(v.secrets, v.events[i])
    {
      if i < last {
        assert v.events[i] == w.events[i];
        assert EventOk(w.events[i]) && PayloadBelow(w.nextId, w.events[i].payload)
            && SecretEventOk(w.secrets, w.events[i]);
      }
    }
    forall k | k in v.installs && v.installs[k].status == Provisioning ensures Awaited(v.events, k) {
      StillAwaited(w.events, v.events, k);
    }
  }

  lemma NewEventOk(kind: EventKind, payload: Payload)
    ensures EventOk(Event(kind, payload, Pending, 0, None)) && EventOk(Event(kind, payload, Processed, 0, None))
  {
  }

  lemma StillAwaited(before: seq<Event>, after: seq<Event>, k: Id)
    requires before <= after && Awaited(before, k)
    ensures Awaited(after, k)
  {
    var i :| 0 <= i < |before| && Awaits(before[i], k);
    assert after[i] == before[i];
  }

  /** A fresh secret is named by no event and no message yet. */
  lemma NewSecretKeeps(w: World, secret: Secret)
    requires Inv(w) && SecretOk(secret) && secret.consumedAt.None?
    ensures Inv(w.(nextId := w.nextId + 1, secrets := w.secrets[w.nextId := secret]))
  {
    hide EventsOk, OneLive, AllAwaited;
    var v := w.(nextId := w.nextId + 1, secrets := w.secrets[w.nextId := secret]);
    RefsGrow(w.nextId, v.nextId, w.events);
    assert w.nextId !in w.secrets;
    forall i | 0 <= i < |w.sink| ensures DeliveryOk(v.secrets, w.sink[i]) {
      assert DeliveryOk(w.secrets, w.sink[i]);
    }
    NoDeliveries(w.secrets, w.sink, w.nextId);
    forall i | 0 <= i < |w.events| ensures SecretEventOk(v.secrets, w.events[i]) {
      assert SecretEventOk(w.secrets, w.events[i]) && PayloadBelow(w.nextId, w.events[i].payload);
    }
  }

  lemma {:induction false} NoDeliveries(secrets: map<Id, Secret>, sink: seq<Message>, k: Id)
    requires k !in secrets && forall i | 0 <= i < |sink| :: DeliveryOk(secrets, sink[i])
    ensures Deliveries(sink, k) == 0
  {
    if sink != [] {
      NoDeliveries(secrets, sink[..|sink| - 1], k);
      assert DeliveryOk(secrets, sink[|sink| - 1]);
    }
  }

  lemma IssueSecretKeeps(w: World, purpose: Purpose, plain: string, expiresAt: Time, email: string)
    requires Inv(w) && plain != ""
    ensures Inv(IssueSecret(w, purpose, plain, expiresAt, email))
  {
    hide Inv, Enqueue;
    NewSecretKeeps(w, Secret(purpose, Some(plain), expiresAt, None));
    var u := w.(nextId := w.nextId + 1,
                secrets := w.secrets[w.nextId := Secret(purpose, Some(plain), expiresAt, None)]);
    EnqueueKeeps(u, SendSecret(purpose), map["email" := Plain(email), "delivery_secret_id" := Uuid(w.nextId)]);
  }

  /** A new installation and the event that will provision it. */
  lemma InstallKeeps(w: World, tenant: Id, offering: Id, inline: bool)
    requires Inv(w)
    ensures Inv(Install(w, tenant, offering, inline).0)
  {
    hide EventsOk, SecretsOk, SinkOk, SecretEventOk, OneLive, InstancesOk, HandleProvision;
    var (v, out) := Install(w, tenant, offering, inline);
    if out == Done {
      var payload := map["installation_id" := Uuid(w.nextId)];
      var created := w.(nextId := w.nextId + 1,
                        installs := w.installs[w.nextId := Installation(tenant, offering, Provisioning)]);
      NewInstallOk(w, tenant, offering);
      assert payload == payload["installation_id" := Uuid(w.nextId)];
      ProvisionStep(created, payload);
      var status := if inline then Processed else Pending;
      assert v.events == w.events + [Event(ProvisionService, payload, status, 0, None)];
      EventAdded(w.nextId, v.nextId, w.events, Event(ProvisionService, payload, status, 0, None));
      assert SecretsOk(v.nextId, v.secrets) by { SecretsGrow(w.nextId, v.nextId, w.secrets); }
      forall i | 0 <= i < |v.events| ensures SecretEventOk(v.secrets, v.events[i]) {
        OtherEventOk(v.secrets, v.events[|w.events|]);
        if i < |w.events| {
          assert v.events[i] == w.events[i] && SecretEventOk(w.secrets, w.events[i]);
        }
      }
      forall k | k in v.installs && v.installs[k].status == Provisioning ensures Awaited(v.events, k) {
        if k == w.nextId {
          assert Awaits(v.events[|w.events|], k);
        } else {
          StillAwaited(w.events, v.events, k);
        }
      }
    }
  }

  lemma OtherEventOk(secrets: map<Id, Secret>, e: Event)
    requires !e.kind.SendSecret?
    ensures SecretEventOk(secrets, e)
  {
  }

  lemma SecretsGrow(n: Id, m: Id, secrets: map<Id, Secret>)
    requires SecretsOk(n, secrets) && n <= m
    ensures SecretsOk(m, secrets)
  {
  }

  lemma EventAdded(n: Id, m: Id, events: seq<Event>, e: Event)
    requires EventsOk(events) && RefsOk(n, events) && n <= m
    requires EventOk(e) && PayloadBelow(m, e.payload)
    ensures EventsOk(events + [e]) && RefsOk(m, events + [e])
  {
    RefsGrow(n, m, events);
    forall i | 0 <= i < |events| + 1 ensures EventOk((events + [e])[i]) && PayloadBelow(m, (events + [e])[i].payload) {
      if i < |events| {
        assert EventOk(events[i]) && PayloadBelow(m, events[i].payload);
      }
    }
  }

  lemma NewInstallOk(w: World, tenant: Id, offering: Id)
    requires InstancesOk(w.nextId, w.installs, w.instances) && OneLive(w.installs)
    requires forall i | i in w.installs :: !IsLive(w.installs[i], tenant, offering)
    ensures var installs := w.installs[w.nextId := Installation(tenant, offering, Provisioning)];
      InstancesOk(w.nextId + 1, installs, w.instances) && OneLive(installs)
  {
    assert w.nextId !in w.installs;
    assert !HasInstance(w.instances, w.nextId);
  }

  lemma CancelKeeps(w: World, tenant: Id, offering: Id)
    requires Inv(w)
    ensures Inv(CancelSubscription(w, tenant, offering).0)
  {
    hide EventsOk, RefsOk, SecretsOk, SinkOk, SecretEventsOk, OneLive;
    var (v, out) := CancelSubscription(w, tenant, offering);
    if out == Done {
      OneLiveFrame(w.installs, v.installs) by {
        assert forall i, t, f | i in v.installs && IsLive(v.installs[i], t, f) :: IsLive(w.installs[i], t, f);
      }
    }
  }

  lemma NewVersionKeeps(w: World)
    requires Inv(w)
    ensures Inv(Apply(w, NewVersion))
  {
    hide EventsOk, SinkOk, SecretEventsOk, OneLive, AllAwaited;
    RefsGrow(w.nextId, w.nextId + 1, w.events);
  }

  // ---------- passes, kept and lost

  lemma PassRows(w: World, limit: nat, clock: nat -> Time)
    requires Inv(w)
    ensures var rows := Batch(w.events, 0, limit);
      IsBatch(w.events, rows) && RowsDone(w, rows, |rows|, Pass(w, limit, clock))
  {
    hide Inv, RowsDone;
    var rows := Batch(w.events, 0, limit);
    AfterKeeps(w, rows, clock, |rows|);
  }

  /** A lost pass leaves the tables as they were and at most one more delivery per secret. */
  lemma LostPassKeeps(w: World, limit: nat, clock: nat -> Time, k: nat)
    requires Inv(w)
    ensures Inv(LostPass(w, limit, clock, k))
  {
    hide EventsOk, RefsOk, SecretsOk, SecretEventsOk, InstancesOk, OneLive, AllAwaited, After;
    var rows := Batch(w.events, 0, limit);
    var n := if k <= |rows| then k else |rows|;
    AfterKeeps(w, rows, clock, n);
    var v := After(w, rows, clock, n);
    var lost := LostPass(w, limit, clock, k);
    forall i | 0 <= i < |v.sink| ensures DeliveryOk(w.secrets, v.sink[i]) {
      assert DeliveryOk(v.secrets, v.sink[i]);
    }
  }

  lemma StepKeeps(w: World, cmd: Command)
    requires Inv(w)
    ensures Inv(Apply(w, cmd))
  {
    hide Inv, Pass, LostPass, Enqueue, IssueSecret, Install, CancelSubscription, RowsDone;
    match cmd
    case DoPass(limit, clock) => PassLowers(w, limit, clock);
    case DoLostPass(limit, clock, rows) => LostPassKeeps(w, limit, clock, rows);
    case DoEnqueue(kind, payload) => if RefsKnown(w, payload) { EnqueueKeeps(w, kind, payload); }
    case DoIssueSecret(purpose, plain, expiresAt, email) =>
      if plain != "" { IssueSecretKeeps(w, purpose, plain, expiresAt, email); }
    case DoInstall(tenant, offering, inline) => InstallKeeps(w, tenant, offering, inline);
    case DoCancelSubscription(tenant, offering) => CancelKeeps(w, tenant, offering);
    case NewVersion => NewVersionKeeps(w);
  }

  // ---------- every run

  const EMPTY := World(0, [], map[], map[], map[], map[], [], 0)

  ghost function Run(w: World, cmds: seq<Command>): World
    decreases |cmds|
  {
    if cmds == [] then w else Run(Apply(w, cmds[0]), cmds[1..])
  }

  lemma {:induction false} RunKeeps(w: World, cmds: seq<Command>)
    requires Inv(w)
    ensures Inv(Run(w, cmds))
    decreases |cmds|
  {
    hide Inv, Apply;
    if cmds != [] {
      StepKeeps(w, cmds[0]);
      RunKeeps(Apply(w, cmds[0]), cmds[1..]);
    }
  }

  lemma Reachable(cmds: seq<Command>)
    ensures Inv(Run(EMPTY, cmds))
  {
    assert Inv(EMPTY);
    RunKeeps(EMPTY, cmds);
  }

  function LostIn(cmds: seq<Command>): nat {
    if cmds == [] then 0 else (if cmds[0].DoLostPass? then 1 else 0) + LostIn(cmds[1..])
  }

  lemma LostStep(w: World, cmd: Command)
    ensures Apply(w, cmd).lost == w.lost + if cmd.DoLostPass? then 1 else 0
  {
    if cmd.DoPass? {
      var rows := Batch(w.events, 0, cmd.limit);
      LostAfter(w, rows, cmd.clock, |rows|);
    }
  }

  lemma {:induction false} LostAfter(w: World, rows: seq<nat>, clock: nat -> Time, k: nat)
    requires k <= |rows| && forall j | 0 <= j < |rows| :: rows[j] < |w.events|
    ensures After(w, rows, clock, k).lost == w.lost
  {
    hide Handle, Settle;
    if k > 0 {
      LostAfter(w, rows, clock, k - 1);
      var v := After(w, rows, clock, k - 1);
      HandleKeepsLost(v, v.events[rows[k - 1]], clock(k - 1));
    }
  }

  lemma HandleKeepsLost(w: World, e: Event, now: Time)
    ensures Handle(w, e, now).0.lost == w.lost
  {
  }

  lemma {:induction false} LostCounted(w: World, cmds: seq<Command>)
    ensures Run(w, cmds).lost == w.lost + LostIn(cmds)
    decreases |cmds|
  {
    if cmds != [] {
      LostStep(w, cmds[0]);
      LostCounted(Apply(w, cmds[0]), cmds[1..]);
    }
  }

  /** In every reachable world a secret has reached the sink at most once more than the number of
      passes lost before their commit, always before its expiry and for its own purpose; its plaintext
      is gone exactly when it has been consumed. Without a lost pass: at most once. */
  lemma DeliveredAtMostOnce(cmds: seq<Command>, k: Id)
    ensures var w := Run(EMPTY, cmds);
      k in w.secrets ==>
        && Deliveries(w.sink, k) <= 1 + LostIn(cmds)
        && (w.secrets[k].plain.None? <==> w.secrets[k].consumedAt.Some?)
        && (forall i | 0 <= i < |w.sink| && w.sink[i].Delivery? && w.sink[i].secret == k ::
              w.sink[i].at <= w.secrets[k].expiresAt && w.sink[i].purpose == w.secrets[k].purpose)
  {
    hide Run, Apply, LostIn;
    var w := Run(EMPTY, cmds);
    Reachable(cmds);
    LostCounted(EMPTY, cmds);
    if k in w.secrets {
      assert SecretOk(w.secrets[k]);
      forall i | 0 <= i < |w.sink| && w.sink[i].Delivery? && w.sink[i].secret == k
        ensures w.sink[i].at <= w.secrets[k].expiresAt && w.sink[i].purpose == w.secrets[k].purpose
      {
        assert DeliveryOk(w.secrets, w.sink[i]);
      }
    }
  }

  /** One lost pass is enough for a second delivery: here of a code that expires at time 10. */
  lemma LostPassDeliversTwice(clock: nat -> Time)
    requires clock(0) <= 10
    ensures var cmds := [DoIssueSecret(VerificationEmail, "123456", 10, "a@b.c"), DoLostPass(1, clock, 1),
                         DoPass(1, clock)];
      0 in Run(EMPTY, cmds).secrets && Deliveries(Run(EMPTY, cmds).sink, 0) == 2
  {
    var c1, c2, c3 := DoIssueSecret(VerificationEmail, "123456", 10, "a@b.c"), DoLostPass(1, clock, 1),
      DoPass(1, clock);
    var w1 := Apply(EMPTY, c1);
    var e := Event(SendSecret(VerificationEmail), map["email" := Plain("a@b.c"), "delivery_secret_id" := Uuid(0)],
                   Pending, 0, None);
    assert w1.events == [e];
    var m := Delivery(VerificationEmail, "a@b.c", "123456", 0, clock(0));
    OneRow(w1, clock, m);
    var w2 := w1.(sink := [m], lost := 1);
    assert Apply(w1, c2) == w2;
    OneRow(w2, clock, m);
    var w3 := Apply(w2, c3);
    assert [c1, c2, c3][1..] == [c2, c3] && [c2, c3][1..] == [c3] && [c3][1..] == [];
    assert Run(w2, [c3]) == w3 && Run(w1, [c2, c3]) == w3;
    assert [m, m][..1] == [m] && [m][..0] == [];
    assert Deliveries([m], 0) == 1;
  }

  lemma OneRow(w: World, clock: nat -> Time, m: Message)
    requires |w.events| == 1 && w.events[0].status == Pending
    requires ProcessOne(w, 0, clock(0)).sink == w.sink + [m]
    ensures Batch(w.events, 0, 1) == [0]
    ensures Pass(w, 1, clock) == ProcessOne(w, 0, clock(0))
    ensures LostPass(w, 1, clock, 1) == w.(sink := w.sink + [m], lost := w.lost + 1)
  {
    hide ProcessOne;
    assert Batch(w.events, 0, 1) == [0] + Batch(w.events, 1, 0);
    assert After(w, [0], clock, 0) == w;
    assert After(w, [0], clock, 1) == ProcessOne(w, 0, clock(0));
  }

  /** A fresh, unexpired secret is delivered whole, to the address in the event, by the row that names it. */
  lemma FreshSecretDelivered(w: World, i: nat, now: Time)
    requires Inv(w) && i < |w.events| && w.events[i].status == Pending && NamesSecret(w.secrets, w.events[i])
    ensures var e, v := w.events[i], ProcessOne(w, i, now);
      var k := e.payload["delivery_secret_id"].id;
      && v.secrets[k].consumedAt.Some?
      && (w.secrets[k].consumedAt.None? && now <= w.secrets[k].expiresAt ==>
            && v.sink == w.sink + [Delivery(e.kind.purpose, Email(e.payload), w.secrets[k].plain.value, k, now)]
            && v.events[i].status == Processed)
      && (w.secrets[k].consumedAt.Some? || w.secrets[k].expiresAt < now ==> v.sink == w.sink)
  {
    hide EventsOk, RefsOk, SinkOk, SecretEventsOk, InstancesOk, OneLive, AllAwaited;
    var k := w.events[i].payload["delivery_secret_id"].id;
    assert SecretOk(w.secrets[k]);
  }

  /** An event that names an existing secret of its purpose never goes dead. */
  lemma SecretEventNeverDies(cmds: seq<Command>, i: nat)
    ensures var w := Run(EMPTY, cmds);
      i < |w.events| && NamesSecret(w.secrets, w.events[i]) ==> w.events[i].status != Dead
  {
    hide Run, NamesSecret;
    var w := Run(EMPTY, cmds);
    Reachable(cmds);
    if i < |w.events| {
      assert EventOk(w.events[i]) && SecretEventOk(w.secrets, w.events[i]);
    }
  }

  // ---------- attempts

  /** How many committed passes of the run took the event up. */
  ghost function Attempts(w: World, cmds: seq<Command>, i: nat): nat
    decreases |cmds|
  {
    if cmds == [] then 0 else
      (if cmds[0].DoPass? && i in Batch(w.events, 0, cmds[0].limit) then 1
       else 0) + Attempts(Apply(w, cmds[0]), cmds[1..], i)
  }

  lemma StepSpends(w: World, cmd: Command, i: nat)
    requires Inv(w) && i < |w.events|
    ensures var v := Apply(w, cmd);
      && |w.events| <= |v.events|
      && Spent(v.events[i]) == Spent(w.events[i]) + if cmd.DoPass? && i in Batch(w.events, 0, cmd.limit) then 1 else 0
  {
    hide Inv, Pass;
    match cmd
    case DoPass(limit, clock) =>
      var rows := Batch(w.events, 0, limit);
      PassRows(w, limit, clock);
      assert rows[..|rows|] == rows;
    case DoInstall(tenant, offering, inline) => assert w.events <= Install(w, tenant, offering, inline).0.events;
    case _ =>
  }

  /** Every committed attempt is on the row's own record, so no event is handled more than 5 times. */
  lemma {:induction false} AttemptsRecorded(w: World, cmds: seq<Command>, i: nat)
    requires Inv(w) && i < |w.events|
    ensures var v := Run(w, cmds);
      && i < |v.events| && EventOk(v.events[i])
      && Spent(v.events[i]) == Spent(w.events[i]) + Attempts(w, cmds, i)
      && Attempts(w, cmds, i) <= MAX_RETRIES
    decreases |cmds|
  {
    hide Inv, Apply, Batch, Spent;
    InvEvents(w);
    assert EventOk(w.events[i]);
    if cmds != [] {
      StepKeeps(w, cmds[0]);
      StepSpends(w, cmds[0], i);
      AttemptsRecorded(Apply(w, cmds[0]), cmds[1..], i);
    }
    SpentAtMost(Run(w, cmds).events[i]);
  }

  lemma SpentAtMost(e: Event)
    requires EventOk(e)
    ensures 0 <= Spent(e) <= MAX_RETRIES
  {
  }

  // ---------- provisioning

  /** In every reachable world: an installation has exactly one instance when it is active or ends with
      its period, none otherwise, and a tenant has one live installation of an offering at most. */
  lemma InstancesMatch(cmds: seq<Command>)
    ensures var w := Run(EMPTY, cmds);
      && (forall i | i in w.installs ::
            NeedsInstance(w.installs[i].status) <==> HasInstance(w.instances, i))
      && (forall k, l | k in w.instances && l in w.instances && w.instances[k] == w.instances[l] :: k == l)
      && OneLive(w.installs)
  {
    hide Run;
    Reachable(cmds);
  }

  /** Redelivering a provision event to an active installation changes nothing. */
  lemma ProvisionTwice(w: World, payload: Payload)
    requires HandleProvision(w, payload).1
    ensures HandleProvision(HandleProvision(w, payload).0, payload) == (HandleProvision(w, payload).0, true)
  {
  }
}
