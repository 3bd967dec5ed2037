/** Exactly which passes deliver a secret, and how often it reaches the sink over a run. */
module OutboxDeliveries {
  import opened Errors
  import opened Outbox
  import opened OutboxLaws
  import opened OutboxRuns

  // ---------- one row

  /** The event names this secret, for its own purpose. */
  predicate Names(secrets: map<Id, Secret>, e: Event, k: Id) {
    NamesSecret(secrets, e) && e.payload["delivery_secret_id"].id == k
  }

  predicate Consumed(w: World, k: Id) {
    k in w.secrets && w.secrets[k].consumedAt.Some?
  }

  lemma RowDelivers(w: World, i: nat, now: Time, k: Id)
    requires Inv(w) && i < |w.events| && w.events[i].status == Pending && k in w.secrets
    ensures var v, named := ProcessOne(w, i, now), Names(w.secrets, w.events[i], k);
      && k in v.secrets && v.secrets[k].expiresAt == w.secrets[k].expiresAt
      && (Consumed(v, k) <==> Consumed(w, k) || named)
      && Deliveries(v.sink, k) == Deliveries(w.sink, k) + if named && !Consumed(w, k)
          && now <= w.secrets[k].expiresAt then 1 else 0
  {
    hide EventsOk, RefsOk, SinkOk, SecretEventsOk, InstancesOk, OneLive, AllAwaited, HandleScan, HandleProvision,
         Settle;
    var e := w.events[i];
    match e.kind
    case SendSecret(purpose) =>
      hide Handle;
      SendDelivers(w, e, now, k);
      assert ProcessOne(w, i, now).sink == DeliverSecret(w, purpose, e.payload, now).0.sink
             && ProcessOne(w, i, now).secrets == DeliverSecret(w, purpose, e.payload, now).0.secrets by {
               SendRowOnly(w, i, now);
             }
    case RetrySetPassword => OneMoreMessage(w.sink, SetPasswordRetry(e.payload), k);
    case ScanArtifact => ScanFrame(w, e.payload);
    case ProvisionService => ProvisionFrame(w, e.payload);
    case OtherKind(_) =>
  }

  lemma SendRowOnly(w: World, i: nat, now: Time)
    requires i < |w.events| && w.events[i].kind.SendSecret?
    ensures var e, v := w.events[i], ProcessOne(w, i, now);
      v == DeliverSecret(w, e.kind.purpose, e.payload, now).0.(events := v.events)
  {
    hide DeliverSecret, Settle;
  }

  lemma OneMoreMessage(sink: seq<Message>, m: Message, k: Id)
    ensures Deliveries(sink + [m], k) == Deliveries(sink, k) + if m.Delivery? && m.secret == k then 1 else 0
  {
    assert (sink + [m])[..|sink|] == sink;
  }

  lemma ScanFrame(w: World, payload: Payload)
    ensures HandleScan(w, payload).0 == w.(scans := HandleScan(w, payload).0.scans)
  {
  }

  lemma ProvisionFrame(w: World, payload: Payload)
    ensures HandleProvision(w, payload).0.secrets == w.secrets && HandleProvision(w, payload).0.sink == w.sink
  {
  }

  lemma SendDelivers(w: World, e: Event, now: Time, k: Id)
    requires SecretsOk(w.nextId, w.secrets) && k in w.secrets && e.kind.SendSecret?
    ensures var v, named := DeliverSecret(w, e.kind.purpose, e.payload, now).0, Names(w.secrets, e, k);
      && k in v.secrets && v.secrets[k].expiresAt == w.secrets[k].expiresAt
      && (Consumed(v, k) <==> Consumed(w, k) || named)
      && Deliveries(v.sink, k) == Deliveries(w.sink, k) + if named && !Consumed(w, k)
          && now <= w.secrets[k].expiresAt then 1 else 0
  {
    hide Deliveries;
    if !NamesSecret(w.secrets, e) {
      assert DeliverSecret(w, e.kind.purpose, e.payload, now).0 == w;
      return;
    }
    var id := e.payload["delivery_secret_id"].id;
    var s := w.secrets[id];
    assert SecretOk(s);
    if s.consumedAt.None? && now <= s.expiresAt {
      OneMoreMessage(w.sink, Delivery(e.kind.purpose, Email(e.payload), s.plain.value, id, now), k);
    }
  }

  // ---------- one pass

  /** Row `j` is the first of the rows that names the secret. */
  ghost predicate FirstNaming(w: World, rows: seq<nat>, j: nat, k: Id)
    requires forall i | 0 <= i < |rows| :: rows[i] < |w.events|
  {
    && j < |rows| && Names(w.secrets, w.events[rows[j]], k)
    && forall i | 0 <= i < j :: !Names(w.secrets, w.events[rows[i]], k)
  }

  /** The rows taken up deliver the secret: it has not been consumed, one of them names it, and the clock
      has not passed its expiry when the first that does is reached. */
  ghost predicate RowsDeliver(w: World, rows: seq<nat>, clock: nat -> Time, k: Id)
    requires forall i | 0 <= i < |rows| :: rows[i] < |w.events|
  {
    k in w.secrets && !Consumed(w, k) && exists j: nat ::
        FirstNaming(w, rows, j, k) && clock(j) <= w.secrets[k].expiresAt
  }

  ghost predicate RowsName(w: World, rows: seq<nat>, k: Id)
    requires forall i | 0 <= i < |rows| :: rows[i] < |w.events|
  {
    exists j :: 0 <= j < |rows| && Names(w.secrets, w.events[rows[j]], k)
  }

  lemma {:induction false} RowsDelivered(w: World, rows: seq<nat>, clock: nat -> Time, n: nat, k: Id)
    requires Inv(w) && IsBatch(w.events, rows) && n <= |rows| && k in w.secrets
    ensures var v := After(w, rows, clock, n);
      && k in v.secrets && v.secrets[k].expiresAt == w.secrets[k].expiresAt
      && (Consumed(v, k) <==> Consumed(w, k) || RowsName(w, rows[..n], k))
      && Deliveries(v.sink, k) == Deliveries(w.sink, k) + if RowsDeliver(w, rows[..n], clock, k) then 1 else 0
  {
    hide Inv, ProcessOne, Names, Deliveries, RowsDone, SecretsLater, RowsDeliver, RowsName;
    if n == 0 {
      NoRows(w, rows, clock, k);
    } else {
      var u := After(w, rows, clock, n - 1);
      RowsDelivered(w, rows, clock, n - 1, k);
      AfterKeeps(w, rows, clock, n - 1);
      NextUntouched(w, rows, n - 1, u);
      RowDelivers(u, rows[n - 1], clock(n - 1), k);
      SameNames(w, u, w.events[rows[n - 1]], k);
      OneMoreNaming(w, rows, clock, n, k);
    }
  }

  lemma NoRows(w: World, rows: seq<nat>, clock: nat -> Time, k: Id)
    requires IsBatch(w.events, rows)
    ensures !RowsName(w, rows[..0], k) && !RowsDeliver(w, rows[..0], clock, k)
  {
  }

  lemma NextUntouched(w: World, rows: seq<nat>, n: nat, u: World)
    requires IsBatch(w.events, rows) && n < |rows| && RowsDone(w, rows, n, u)
    ensures Inv(u) && |u.events| == |w.events| && u.events[rows[n]] == w.events[rows[n]]
    ensures u.secrets.Keys == w.secrets.Keys && SecretsLater(w.secrets, u.secrets)
  {
    hide Inv, Spent, Measure, SecretsLater;
    assert rows[n] !in rows[..n];
  }

  lemma SameNames(w: World, u: World, e: Event, k: Id)
    requires u.secrets.Keys == w.secrets.Keys && SecretsLater(w.secrets, u.secrets)
    ensures Names(u.secrets, e, k) <==> Names(w.secrets, e, k)
  {
  }

  lemma OneMoreNaming(w: World, rows: seq<nat>, clock: nat -> Time, n: nat, k: Id)
    requires IsBatch(w.events, rows) && 0 < n <= |rows| && k in w.secrets
    ensures var named := Names(w.secrets, w.events[rows[n - 1]], k);
      && (RowsName(w, rows[..n], k) <==> RowsName(w, rows[..n - 1], k) || named)
      && (RowsDeliver(w, rows[..n - 1], clock, k) ==> RowsName(w, rows[..n - 1], k))
      && (RowsDeliver(w, rows[..n], clock, k) <==>
            || RowsDeliver(w, rows[..n - 1], clock, k)
            || (named && !Consumed(w, k) && !RowsName(w, rows[..n - 1], k) && clock(n - 1) <= w.secrets[k].expiresAt))
  {
    hide Names, Consumed;
    var before, after := rows[..n - 1], rows[..n];
    assert forall i | 0 <= i < n - 1 :: before[i] == after[i] == rows[i];
    assert after[n - 1] == rows[n - 1];
    NamingGrows(w, before, after, k);
    assert RowsName(w, after, k) <==> RowsName(w, before, k) || Names(w.secrets, w.events[rows[n - 1]], k);
    hide RowsName, FirstNaming;
    if RowsDeliver(w, before, clock, k) {
      var j: nat :| FirstNaming(w, before, j, k) && clock(j) <= w.secrets[k].expiresAt;
      assert FirstNaming(w, after, j, k);
    }
    if RowsDeliver(w, after, clock, k) {
      var j: nat :| FirstNaming(w, after, j, k) && clock(j) <= w.secrets[k].expiresAt;
      assert j < n - 1 ==> FirstNaming(w, before, j, k);
    }
  }

  lemma NamingGrows(w: World, before: seq<nat>, after: seq<nat>, k: Id)
    requires |after| == |before| + 1 && before == after[..|before|]
    requires forall i | 0 <= i < |after| :: after[i] < |w.events|
    requires forall i | 0 <= i < |before| :: before[i] < |w.events|
    ensures forall j: nat | j < |before| :: FirstNaming(w, before, j, k) <==> FirstNaming(w, after, j, k)
    ensures forall j: nat | FirstNaming(w, after, j, k) || FirstNaming(w, before, j, k) :: j < |after|
    ensures FirstNaming(w, after, |before|, k) <==>
        Names(w.secrets, w.events[after[|before|]], k) && !RowsName(w, before, k)
    ensures forall j: nat | FirstNaming(w, before, j, k) :: j < |before| && RowsName(w, before, k)
  {
    hide Names;
    assert forall i | 0 <= i < |before| :: before[i] == after[i];
  }

  // ---------- one call

  /** The rows that a pass takes up: a lost pass does not get to the end of its batch. */
  function RowsOf(w: World, cmd: Command): (rows: seq<nat>)
    ensures forall i | 0 <= i < |rows| :: rows[i] < |w.events|
  {
    match cmd
    case DoPass(limit, clock) => Batch(w.events, 0, limit)
    case DoLostPass(limit, clock, n) =>
      var rows := Batch(w.events, 0, limit);
      rows[..if n <= |rows| then n else |rows|]
    case _ => []
  }

  /** The call is a pass, committed or lost, that delivers the secret. */
  ghost predicate Delivers(w: World, cmd: Command, k: Id) {
    (cmd.DoPass? || cmd.DoLostPass?) && RowsDeliver(w, RowsOf(w, cmd), cmd.clock, k)
  }

  /** The call is a committed pass over a row that names the secret, which is consumed from then on. */
  ghost predicate Consumes(w: World, cmd: Command, k: Id) {
    cmd.DoPass? && k in w.secrets && RowsName(w, RowsOf(w, cmd), k)
  }

  lemma OtherCalls(w: World, cmd: Command, k: Id)
    requires Inv(w) && !cmd.DoPass? && !cmd.DoLostPass?
    ensures var v := Apply(w, cmd);
      v.sink == w.sink && (k in w.secrets ==> k in v.secrets && v.secrets[k] == w.secrets[k])
      && (k !in w.secrets && k in v.secrets ==> v.secrets[k].consumedAt.None?)
  {
    hide InstancesOk, OneLive, AllAwaited, SinkOk, EventsOk, RefsOk, SecretEventsOk, HandleProvision;
    if cmd.DoInstall? {
      var payload := map["installation_id" := Uuid(w.nextId)];
      ProvisionFrame(w.(nextId := w.nextId + 1,
                        installs := w.installs[w.nextId := Installation(cmd.tenant, cmd.offering, Provisioning)]),
                          payload);
    }
  }

  lemma Undelivered(w: World, k: Id)
    requires Inv(w) && k !in w.secrets
    ensures Deliveries(w.sink, k) == 0
  {
    hide EventsOk, RefsOk, SecretsOk, SecretEventsOk, InstancesOk, OneLive, AllAwaited;
    NoDeliveries(w.secrets, w.sink, k);
  }

  lemma PassDelivers(w: World, cmd: Command, k: Id)
    requires Inv(w) && (cmd.DoPass? || cmd.DoLostPass?) && k in w.secrets
    ensures var v := Apply(w, cmd);
      && k in v.secrets && Deliveries(v.sink, k) == Deliveries(w.sink, k) + (if Delivers(w, cmd, k) then 1 else 0)
      && (Consumed(v, k) <==> Consumed(w, k) || Consumes(w, cmd, k))
  {
    hide Inv, Deliveries, After, RowsDeliver, RowsName;
    var rows := Batch(w.events, 0, cmd.limit);
    var n := if cmd.DoPass? || |rows| < cmd.rows then |rows| else cmd.rows;
    RowsDelivered(w, rows, cmd.clock, n, k);
    assert rows[..|rows|] == rows;
  }

  /** Exactly when a call delivers the secret, once, and when it is consumed by it. */
  lemma StepDelivers(w: World, cmd: Command, k: Id)
    requires Inv(w)
    ensures var v := Apply(w, cmd);
      && Deliveries(v.sink, k) == Deliveries(w.sink, k) + (if Delivers(w, cmd, k) then 1 else 0)
      && (Consumed(v, k) <==> Consumed(w, k) || Consumes(w, cmd, k))
  {
    StepKeeps(w, cmd);
    hide Inv, Deliveries, Apply, Delivers, Consumes;
    if cmd.DoPass? || cmd.DoLostPass? {
      if k in w.secrets {
        PassDelivers(w, cmd, k);
      } else {
        SameSecrets(w, cmd, k);
        Undelivered(w, k);
        Undelivered(Apply(w, cmd), k);
      }
    } else {
      OtherCalls(w, cmd, k);
      assert !Delivers(w, cmd, k) && !Consumes(w, cmd, k) by { NotAPass(w, cmd, k); }
    }
  }

  lemma NotAPass(w: World, cmd: Command, k: Id)
    requires !cmd.DoPass? && !cmd.DoLostPass?
    ensures !Delivers(w, cmd, k) && !Consumes(w, cmd, k)
  {
  }

  lemma SameSecrets(w: World, cmd: Command, k: Id)
    requires Inv(w) && (cmd.DoPass? || cmd.DoLostPass?) && k !in w.secrets
    ensures k !in Apply(w, cmd).secrets && !Delivers(w, cmd, k) && !Consumes(w, cmd, k)
  {
    hide Inv, After;
    if cmd.DoPass? {
      PassRows(w, cmd.limit, cmd.clock);
      hide RowsDeliver, RowsName, Batch, Pass;
    }
  }

  // ---------- every run

  lemma {:induction false} RunLast(w: World, cmds: seq<Command>)
    requires cmds != []
    ensures Run(w, cmds) == Apply(Run(w, cmds[..|cmds| - 1]), cmds[|cmds| - 1])
    decreases |cmds|
  {
    hide Apply;
    var n := |cmds| - 1;
    if n > 0 {
      RunLast(Apply(w, cmds[0]), cmds[1..]);
      assert cmds[1..][..n - 1] == cmds[..n][1..] && cmds[..n][0] == cmds[0];
    } else {
      assert cmds[1..] == [] && cmds[..n] == [];
    }
  }

  /** The `i`-th call of the run delivers the secret. */
  ghost predicate DeliversAt(cmds: seq<Command>, i: nat, k: Id)
    requires i < |cmds|
  {
    Delivers(Run(EMPTY, cmds[..i]), cmds[i], k)
  }

  /** How many of the run's calls deliver the secret. */
  ghost function DeliveringCalls(cmds: seq<Command>, k: Id): nat {
    if cmds == [] then 0
    else DeliveringCalls(cmds[..|cmds| - 1], k) + if DeliversAt(cmds, |cmds| - 1, k) then 1 else 0
  }

  /** Over any run a secret reaches the sink exactly once for every pass, committed or lost, that takes
      up a row naming it while it is neither consumed nor expired. */
  lemma {:induction false} DeliveredExactly(cmds: seq<Command>, k: Id)
    ensures Deliveries(Run(EMPTY, cmds).sink, k) == DeliveringCalls(cmds, k)
    decreases |cmds|
  {
    if cmds != [] {
      var prior := cmds[..|cmds| - 1];
      DeliveredExactly(prior, k);
      Reachable(prior);
      RunLast(EMPTY, cmds);
      hide Inv, Run, Apply, Delivers;
      StepDelivers(Run(EMPTY, prior), cmds[|cmds| - 1], k);
    }
  }

  lemma {:induction false} ConsumedStays(cmds: seq<Command>, i: nat, j: nat, k: Id)
    requires i <= j <= |cmds| && Consumed(Run(EMPTY, cmds[..i]), k)
    ensures Consumed(Run(EMPTY, cmds[..j]), k)
    decreases j
  {
    hide Run, Apply, Inv, Consumed, Consumes, Delivers;
    if i < j {
      ConsumedStays(cmds, i, j - 1, k);
      assert cmds[..j][..j - 1] == cmds[..j - 1];
      RunLast(EMPTY, cmds[..j]);
      Reachable(cmds[..j - 1]);
      StepDelivers(Run(EMPTY, cmds[..j - 1]), cmds[j - 1], k);
    }
  }

  /** A committed pass that delivers a secret is the last to do so. */
  lemma CommittedIsLast(cmds: seq<Command>, i: nat, j: nat, k: Id)
    requires i < j < |cmds| && DeliversAt(cmds, i, k) && DeliversAt(cmds, j, k)
    ensures cmds[i].DoLostPass?
  {
    if cmds[i].DoPass? {
      var w := Run(EMPTY, cmds[..i]);
      assert cmds[..i + 1][..i] == cmds[..i];
      RunLast(EMPTY, cmds[..i + 1]);
      Reachable(cmds[..i]);
      hide Run, Apply, Inv;
      assert Consumes(w, cmds[i], k);
      StepDelivers(w, cmds[i], k);
      ConsumedStays(cmds, i + 1, j, k);
      assert false;
    }
  }

  /** Some lost pass of the run delivers the secret before another pass does. */
  ghost predicate DeliveredAgain(cmds: seq<Command>, k: Id) {
    exists i, j :: 0 <= i < j < |cmds| && cmds[i].DoLostPass? && DeliversAt(cmds, i, k) && DeliversAt(cmds, j, k)
  }

  lemma {:induction false} SomeDelivers(cmds: seq<Command>, k: Id)
    ensures DeliveringCalls(cmds, k) > 0 <==> exists i :: 0 <= i < |cmds| && DeliversAt(cmds, i, k)
  {
    hide Run, Delivers;
    if cmds != [] {
      var n := |cmds| - 1;
      SomeDelivers(cmds[..n], k);
      SamePrefix(cmds, k);
    }
  }

  lemma SamePrefix(cmds: seq<Command>, k: Id)
    requires cmds != []
    ensures var n := |cmds| - 1; forall i | 0 <= i < n ::
        cmds[..n][i] == cmds[i] && (DeliversAt(cmds[..n], i, k) <==> DeliversAt(cmds, i, k))
  {
    hide Run, Delivers;
    var n := |cmds| - 1;
    assert forall i | 0 <= i < n :: cmds[..n][..i] == cmds[..i];
  }

  /** A secret is delivered more than once exactly when a pass that is lost delivers it before another one does. */
  lemma {:induction false} DeliveredTwice(cmds: seq<Command>, k: Id)
    ensures Deliveries(Run(EMPTY, cmds).sink, k) >= 2 <==> DeliveredAgain(cmds, k)
  {
    hide Run, Deliveries, DeliversAt;
    DeliveredExactly(cmds, k);
    TwoCalls(cmds, k);
    if i, j :| 0 <= i < j < |cmds| && DeliversAt(cmds, i, k) && DeliversAt(cmds, j, k) {
      CommittedIsLast(cmds, i, j, k);
    }
  }

  lemma {:induction false} TwoCalls(cmds: seq<Command>, k: Id)
    ensures DeliveringCalls(cmds, k) >= 2 <==> exists i, j ::
        0 <= i < j < |cmds| && DeliversAt(cmds, i, k) && DeliversAt(cmds, j, k)
  {
    hide DeliversAt;
    if cmds != [] {
      var n := |cmds| - 1;
      TwoCalls(cmds[..n], k);
      SomeDelivers(cmds[..n], k);
      SamePrefix(cmds, k);
    }
  }
}
