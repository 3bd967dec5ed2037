/** Whose turn it is in an outbox pass, told from the events before and after it, and how long an event
    waits for its turn over any run. */
module OutboxTurns {
  import opened Errors
  import opened Outbox
  import opened OutboxLaws
  import opened OutboxRuns
  import opened OutboxDeliveries

  // ---------- one pass

  /** The event is pending, and fewer than `limit` pending events stand before it. */
  predicate HasTurn(events: seq<Event>, i: nat, limit: nat)
    requires i < |events|
  {
    events[i].status == Pending && PendingCount(events[..i]) < limit
  }

  const SECRET_WORDS := ["otp_code", "reset_token", "secret", "password"]

  /** The payload without its secrets, and marked as such. */
  ghost predicate Cleansed(before: Payload, after: Payload) {
    && (forall key :: key in after <==> key == "secret_redacted" || (key in before && key !in SECRET_WORDS))
    && after["secret_redacted"] == Flag(true)
    && forall key | key in after && key != "secret_redacted" :: after[key] == before[key]
  }

  /** One attempt later: processed, with its time and without its secrets, or with one more retry on it, the
      fifth of which is its last. */
  ghost predicate MovedOn(before: Event, after: Event) {
    && after.kind == before.kind
    && (after.status == Dead <==> after.retries == 5)
    && if after.status == Processed then
         after.retries == before.retries && after.processedAt.Some? && Cleansed(before.payload, after.payload)
       else after == before.(retries := before.retries + 1, status := after.status)
  }

  lemma {:induction false} InBatch(events: seq<Event>, from: nat, i: nat, limit: nat)
    requires from <= i < |events|
    ensures i in Batch(events, from, limit) <==>
            events[i].status == Pending && PendingCount(events[from..i]) < limit
    decreases |events| - from
  {
    if from < i && limit > 0 {
      assert events[..i][from..] == events[from..i] && events[..i][from + 1..] == events[from + 1..i];
      PendingSplit(events[..i], from);
      InBatch(events, from + 1, i, if events[from].status == Pending then limit - 1 else limit);
    }
  }

  lemma SettleMovesOn(e: Event, ok: bool, now: Time)
    requires EventOk(e) && e.status == Pending
    ensures MovedOn(e, Settle(e, ok, now)) && Weight(Settle(e, ok, now)) <= Weight(e) - 1
  {
    RedactCleanses(e.payload);
    hide Redact, Cleansed;
  }

  lemma RedactCleanses(payload: Payload)
    ensures Cleansed(payload, Redact(payload))
  {
    assert forall key :: key in SECRET_WORDS <==> key in SECRET_KEYS;
  }

  lemma {:induction false} RowsSettle(w: World, rows: seq<nat>, clock: nat -> Time, n: nat, j: nat)
    requires Inv(w) && IsBatch(w.events, rows) && j < n <= |rows|
    ensures var v := After(w, rows, clock, n);
      |v.events| == |w.events| && exists ok :: v.events[rows[j]] == Settle(w.events[rows[j]], ok, clock(j))
  {
    hide Inv, RowsDone, Handle, Settle;
    var u := After(w, rows, clock, n - 1);
    AfterKeeps(w, rows, clock, n - 1);
    NextUntouched(w, rows, n - 1, u);
    if j < n - 1 {
      RowsSettle(w, rows, clock, n - 1, j);
    }
  }

  /** A committed pass moves an event on exactly if it is pending with fewer than `limit` pending events
      before it, and leaves every other event as it is. */
  lemma TurnExactly(w: World, limit: nat, clock: nat -> Time)
    requires Inv(w)
    ensures var v := Pass(w, limit, clock);
      && |v.events| == |w.events|
      && forall i: nat | i < |w.events| ::
          if HasTurn(w.events, i, limit) then MovedOn(w.events[i], v.events[i]) else v.events[i] == w.events[i]
  {
    hide Inv, Pass, HasTurn, MovedOn;
    PassRows(w, limit, clock);
    forall i: nat | i < |w.events|
      ensures if HasTurn(w.events, i, limit) then MovedOn(w.events[i], Pass(w, limit, clock).events[i])
              else Pass(w, limit, clock).events[i] == w.events[i]
    {
      OneTurn(w, limit, clock, i);
    }
  }

  lemma OneTurn(w: World, limit: nat, clock: nat -> Time, i: nat)
    requires Inv(w) && i < |w.events|
    ensures var v := Pass(w, limit, clock);
      && |v.events| == |w.events|
      && (if HasTurn(w.events, i, limit)
          then MovedOn(w.events[i], v.events[i]) && Weight(v.events[i]) <= Weight(w.events[i]) - 1
          else v.events[i] == w.events[i])
  {
    var rows, v := Batch(w.events, 0, limit), Pass(w, limit, clock);
    PassRows(w, limit, clock);
    InBatch(w.events, 0, i, limit);
    assert w.events[0..i] == w.events[..i] && rows[..|rows|] == rows;
    InvEvents(w);
    hide Inv, Batch, Measure, Spent, Weight, MovedOn, EventOk, Settle;
    assert EventOk(w.events[i]);
    if HasTurn(w.events, i, limit) {
      var j :| 0 <= j < |rows| && rows[j] == i;
      RowsSettle(w, rows, clock, |rows|, j);
      var ok :| v.events[i] == Settle(w.events[i], ok, clock(j));
      SettleMovesOn(w.events[i], ok, clock(j));
    }
  }

  // ---------- the events before

  /** A pass lowers the retries left over the first `n` events by at least the smaller of its limit and
      the number of pending ones among them. */
  lemma {:induction false} PrefixLowers(w: World, limit: nat, clock: nat -> Time, n: nat)
    requires Inv(w) && n <= |w.events|
    ensures var v, pending := Pass(w, limit, clock), PendingCount(w.events[..n]);
      && |v.events| == |w.events|
      && Measure(v.events[..n]) <= Measure(w.events[..n]) - if limit < pending then limit else pending
  {
    var v := Pass(w, limit, clock);
    hide Inv, Pass, MovedOn, Weight;
    if n == 0 {
      PassRows(w, limit, clock);
    } else {
      PrefixLowers(w, limit, clock, n - 1);
      OneTurn(w, limit, clock, n - 1);
      assert w.events[..n][..n - 1] == w.events[..n - 1] && v.events[..n][..n - 1] == v.events[..n - 1];
    }
  }

  /** Every other call leaves the events as they are, or adds one behind them. */
  lemma OthersAppend(w: World, cmd: Command)
    requires !cmd.DoPass?
    ensures w.events <= Apply(w, cmd).events
  {
    hide HandleProvision, After;
  }

  // ---------- every run

  /** The committed passes of the run. */
  function PassesIn(cmds: seq<Command>): nat {
    if cmds == [] then 0 else (if cmds[0].DoPass? then 1 else 0) + PassesIn(cmds[1..])
  }

  /** How many rows they may take up between them. */
  function Capacity(cmds: seq<Command>): nat {
    if cmds == [] then 0 else (if cmds[0].DoPass? then cmds[0].limit else 0) + Capacity(cmds[1..])
  }

  lemma PrefixStep(w: World, cmd: Command, n: nat)
    requires Inv(w) && n <= |w.events|
    ensures var v, pending := Apply(w, cmd), PendingCount(w.events[..n]);
      && n <= |v.events|
      && Measure(v.events[..n]) <=
         Measure(w.events[..n]) - if cmd.DoPass? then (if cmd.limit < pending then cmd.limit else pending) else 0
  {
    hide Inv;
    if cmd.DoPass? {
      PrefixLowers(w, cmd.limit, cmd.clock, n);
    } else {
      OthersAppend(w, cmd);
      assert Apply(w, cmd).events[..n] == w.events[..n];
    }
  }

  /** Until its turn comes the event waits, and what stands before it wears out. */
  lemma {:induction false} Waits(w: World, cmds: seq<Command>, i: nat)
    requires Inv(w) && i < |w.events| && w.events[i].status == Pending
    ensures var v := Run(w, cmds);
      && i < |v.events|
      && (|| Spent(v.events[i]) > Spent(w.events[i])
          || (v.events[i] == w.events[i]
              && Measure(v.events[..i]) + Capacity(cmds) <= Measure(w.events[..i])))
    decreases |cmds|
  {
    hide Inv, Apply, Spent, Measure, Batch;
    if cmds != [] {
      var cmd, next := cmds[0], Apply(w, cmds[0]);
      StepKeeps(w, cmd);
      PrefixStep(w, cmd, i);
      WaitStep(w, cmd, i);
      if next.events[i] == w.events[i] {
        Waits(next, cmds[1..], i);
      } else {
        AttemptsRecorded(next, cmds[1..], i);
      }
    }
  }

  lemma WaitStep(w: World, cmd: Command, i: nat)
    requires Inv(w) && i < |w.events| && w.events[i].status == Pending
    ensures var e := Apply(w, cmd).events;
      && |w.events| <= |e|
      && (e[i] != w.events[i] ==> Spent(e[i]) > Spent(w.events[i]))
      && (cmd.DoPass? && PendingCount(w.events[..i]) < cmd.limit ==> e[i] != w.events[i])
  {
    hide Inv, Pass;
    if cmd.DoPass? {
      OneTurn(w, cmd.limit, cmd.clock, i);
    } else {
      OthersAppend(w, cmd);
    }
  }

  lemma PrefixBounds(w: World, n: nat)
    requires Inv(w) && n <= |w.events|
    ensures PendingCount(w.events[..n]) <= Measure(w.events[..n]) <= 5 * PendingCount(w.events[..n])
  {
    InvEvents(w);
    hide Inv, EventOk;
    forall j | 0 <= j < n ensures EventOk(w.events[..n][j]) {
      assert EventOk(w.events[j]);
    }
    MeasureBounds(w.events[..n]);
  }

  /** A pending event with n pending events before it has been taken up as soon as the committed passes may
      have taken up more than 5n rows, whatever else is called and enqueued meanwhile. */
  lemma TakenUp(w: World, cmds: seq<Command>, i: nat)
    requires Inv(w) && i < |w.events| && w.events[i].status == Pending
    requires Capacity(cmds) > 5 * PendingCount(w.events[..i])
    ensures var v := Run(w, cmds);
      && i < |v.events|
      && (v.events[i].status == Processed || v.events[i].retries > w.events[i].retries)
  {
    hide Inv, Run, Capacity, Measure, PendingCount;
    Waits(w, cmds, i);
    PrefixBounds(w, i);
    RunKeeps(w, cmds);
    PrefixBounds(Run(w, cmds), i);
  }

  lemma {:induction false} CapacityOf(cmds: seq<Command>, limit: nat)
    requires forall j | 0 <= j < |cmds| && cmds[j].DoPass? :: cmds[j].limit >= limit
    ensures Capacity(cmds) >= PassesIn(cmds) * limit
  {
    if cmds != [] {
      CapacityOf(cmds[1..], limit);
      assert (PassesIn(cmds[1..]) + 1) * limit == PassesIn(cmds[1..]) * limit + limit;
    }
  }

  /** So with passes of at least `limit` rows an event waits for 5n / limit of them at most, and after
      5(n + 1) passes it is pending no more. */
  lemma TurnComes(w: World, cmds: seq<Command>, i: nat, limit: nat)
    requires Inv(w) && i < |w.events| && w.events[i].status == Pending && limit >= 1
    requires forall j | 0 <= j < |cmds| && cmds[j].DoPass? :: cmds[j].limit >= limit
    ensures var v, before := Run(w, cmds), PendingCount(w.events[..i]);
      && i < |v.events|
      && (PassesIn(cmds) * limit > 5 * before ==>
          v.events[i].status == Processed || v.events[i].retries > w.events[i].retries)
      && (PassesIn(cmds) >= 5 * (before + 1) ==> v.events[i].status != Pending)
  {
    hide Inv, Run, Capacity, Measure, PassesIn;
    CapacityOf(cmds, limit);
    if PassesIn(cmds) * limit > 5 * PendingCount(w.events[..i]) {
      TakenUp(w, cmds, i);
    }
    PrefixDrains(w, cmds, i + 1);
    PrefixBounds(w, i + 1);
    OneMorePending(w.events, i);
    RunKeeps(w, cmds);
    PrefixBounds(Run(w, cmds), i + 1);
    OneMorePending(Run(w, cmds).events, i);
  }

  lemma OneMorePending(events: seq<Event>, i: nat)
    requires i < |events|
    ensures PendingCount(events[..i + 1]) == PendingCount(events[..i]) + if events[i].status == Pending then 1 else 0
  {
    assert events[..i + 1][..i] == events[..i];
  }

  lemma {:induction false} PrefixDrains(w: World, cmds: seq<Command>, n: nat)
    requires Inv(w) && n <= |w.events|
    requires forall j | 0 <= j < |cmds| && cmds[j].DoPass? :: cmds[j].limit >= 1
    ensures var v := Run(w, cmds);
      && n <= |v.events| && Measure(v.events[..n]) <= Measure(w.events[..n])
      && (PendingCount(v.events[..n]) == 0 || Measure(v.events[..n]) + PassesIn(cmds) <= Measure(w.events[..n]))
    decreases |cmds|
  {
    hide Inv, Apply, Measure, PendingCount;
    if cmds != [] {
      var next := Apply(w, cmds[0]);
      StepKeeps(w, cmds[0]);
      PrefixStep(w, cmds[0], n);
      PrefixDrains(next, cmds[1..], n);
      PrefixBounds(w, n);
      PrefixBounds(next, n);
      RunKeeps(next, cmds[1..]);
      PrefixBounds(Run(next, cmds[1..]), n);
    }
  }

  // ---------- what a turn achieves

  predicate ScanOf(e: Event, version: Id) {
    e.kind == ScanArtifact && "version_id" in e.payload && e.payload["version_id"] == Uuid(version)
  }

  predicate ProvisionOf(e: Event, install: Id) {
    e.kind == ProvisionService && "installation_id" in e.payload && e.payload["installation_id"] == Uuid(install)
  }

  predicate Scanned(w: World, version: Id) {
    version in w.scans && w.scans[version]
  }

  /** A waiting installation becomes active if it is provisioned; any other stays as it is. */
  function Provisioned(i: Installation, done: bool): Installation {
    if done && i.status == Provisioning then i.(status := Active) else i
  }

  ghost predicate SomeScan(events: seq<Event>, rows: seq<nat>, version: Id)
    requires forall j | 0 <= j < |rows| :: rows[j] < |events|
  {
    exists j | 0 <= j < |rows| :: ScanOf(events[rows[j]], version)
  }

  ghost predicate SomeProvision(events: seq<Event>, rows: seq<nat>, install: Id)
    requires forall j | 0 <= j < |rows| :: rows[j] < |events|
  {
    exists j | 0 <= j < |rows| :: ProvisionOf(events[rows[j]], install)
  }

  lemma RowAchieves(w: World, i: nat, now: Time, k: Id)
    requires i < |w.events|
    ensures var v := ProcessOne(w, i, now);
      && v.scans.Keys == w.scans.Keys && v.installs.Keys == w.installs.Keys
      && (k in w.scans ==> (Scanned(v, k) <==> Scanned(w, k) || ScanOf(w.events[i], k)))
      && (k in w.installs ==>
          v.installs[k] == Provisioned(w.installs[k], ProvisionOf(w.events[i], k)))
  {
    hide Settle, HasInstance, DeliverSecret, NamesSecret;
    if w.events[i].kind.SendSecret? {
      DeliverFrame(w, w.events[i].kind.purpose, w.events[i].payload, now);
    }
  }

  lemma DeliverFrame(w: World, purpose: Purpose, payload: Payload, now: Time)
    ensures var v := DeliverSecret(w, purpose, payload, now).0;
      v.scans == w.scans && v.installs == w.installs
  {
  }

  lemma {:induction false} RowsAchieve(w: World, rows: seq<nat>, clock: nat -> Time, n: nat, k: Id)
    requires Inv(w) && IsBatch(w.events, rows) && n <= |rows|
    ensures var v := After(w, rows, clock, n);
      && v.scans.Keys == w.scans.Keys && v.installs.Keys == w.installs.Keys
      && (k in w.scans ==> (Scanned(v, k) <==> Scanned(w, k) || SomeScan(w.events, rows[..n], k)))
      && (k in w.installs ==>
          v.installs[k] == Provisioned(w.installs[k], SomeProvision(w.events, rows[..n], k)))
  {
    hide Inv, ProcessOne, RowsDone, ScanOf, ProvisionOf, Scanned;
    if n > 0 {
      var u := After(w, rows, clock, n - 1);
      RowsAchieve(w, rows, clock, n - 1, k);
      AfterKeeps(w, rows, clock, n - 1);
      NextUntouched(w, rows, n - 1, u);
      RowAchieves(u, rows[n - 1], clock(n - 1), k);
      OneMoreRow(w.events, rows, n, k);
    }
  }

  lemma OneMoreRow(events: seq<Event>, rows: seq<nat>, n: nat, k: Id)
    requires 0 < n <= |rows| && forall j | 0 <= j < |rows| :: rows[j] < |events|
    ensures SomeScan(events, rows[..n], k) <==> SomeScan(events, rows[..n - 1], k) || ScanOf(events[rows[n - 1]], k)
    ensures SomeProvision(events, rows[..n], k) <==>
            SomeProvision(events, rows[..n - 1], k) || ProvisionOf(events[rows[n - 1]], k)
  {
    hide ScanOf, ProvisionOf;
    var before, after := rows[..n - 1], rows[..n];
    assert forall j | 0 <= j < n - 1 :: before[j] == after[j];
    assert after[n - 1] == rows[n - 1];
  }

  /** A committed pass lets a version's scan pass, and makes a waiting installation active, exactly if an
      event that names it has its turn. */
  lemma TurnAchieves(w: World, limit: nat, clock: nat -> Time, k: Id)
    requires Inv(w)
    ensures var v := Pass(w, limit, clock);
      && v.scans.Keys == w.scans.Keys && v.installs.Keys == w.installs.Keys
      && (k in w.scans ==>
          (v.scans[k] <==> w.scans[k] || exists i: nat | i < |w.events| ::
               HasTurn(w.events, i, limit) && ScanOf(w.events[i], k)))
      && (k in w.installs ==>
          v.installs[k] == Provisioned(w.installs[k], exists i: nat | i < |w.events| ::
                                         HasTurn(w.events, i, limit) && ProvisionOf(w.events[i], k)))
  {
    var rows := Batch(w.events, 0, limit);
    hide Inv, ProcessOne, ScanOf, ProvisionOf, HasTurn, Provisioned;
    PassRows(w, limit, clock);
    RowsAchieve(w, rows, clock, |rows|, k);
    assert rows[..|rows|] == rows;
    forall i: nat | i < |w.events| ensures HasTurn(w.events, i, limit) <==> i in rows {
      assert w.events[0..i] == w.events[..i];
      InBatch(w.events, 0, i, limit);
      TurnOf(w.events, i, limit);
    }
    RowsWithTurn(w.events, rows, limit, k);
  }

  lemma TurnOf(events: seq<Event>, i: nat, limit: nat)
    requires i < |events|
    ensures HasTurn(events, i, limit) <==> events[i].status == Pending && PendingCount(events[..i]) < limit
  {
  }

  lemma RowsWithTurn(events: seq<Event>, rows: seq<nat>, limit: nat, k: Id)
    requires forall j | 0 <= j < |rows| :: rows[j] < |events|
    requires forall i: nat | i < |events| :: HasTurn(events, i, limit) <==> i in rows
    ensures SomeScan(events, rows, k) <==>
            exists i: nat | i < |events| :: HasTurn(events, i, limit) && ScanOf(events[i], k)
    ensures SomeProvision(events, rows, k) <==>
            exists i: nat | i < |events| :: HasTurn(events, i, limit) && ProvisionOf(events[i], k)
  {
    hide ScanOf, ProvisionOf, HasTurn;
    if i: nat :| i < |events| && HasTurn(events, i, limit) && ScanOf(events[i], k) {
      var j :| 0 <= j < |rows| && rows[j] == i;
    }
    if i: nat :| i < |events| && HasTurn(events, i, limit) && ProvisionOf(events[i], k) {
      var j :| 0 <= j < |rows| && rows[j] == i;
    }
  }

  /** The retries of setting a password that the sink has received, in their order. */
  function Retried(sink: seq<Message>): seq<Payload> {
    if sink == [] then []
    else
      var last := sink[|sink| - 1];
      Retried(sink[..|sink| - 1]) + if last.SetPasswordRetry? then [last.payload] else []
  }

  /** The retries that the events of a batch ask for. */
  function RetriesAsked(events: seq<Event>, rows: seq<nat>): seq<Payload>
    requires forall j | 0 <= j < |rows| :: rows[j] < |events|
  {
    if rows == [] then []
    else
      var last := events[rows[|rows| - 1]];
      RetriesAsked(events, rows[..|rows| - 1]) + if last.kind == RetrySetPassword then [last.payload] else []
  }

  lemma RowRetries(w: World, i: nat, now: Time)
    requires i < |w.events|
    ensures Retried(ProcessOne(w, i, now).sink) ==
            Retried(w.sink) + if w.events[i].kind == RetrySetPassword then [w.events[i].payload] else []
  {
    hide Settle, HasInstance, NamesSecret, HandleScan, HandleProvision;
    var e := w.events[i];
    match e.kind
    case SendSecret(purpose) =>
      hide Handle;
      SendRowOnly(w, i, now);
      SecretRetries(w, purpose, e.payload, now);
    case RetrySetPassword => assert (w.sink + [SetPasswordRetry(e.payload)])[..|w.sink|] == w.sink;
    case ScanArtifact => ScanFrame(w, e.payload);
    case ProvisionService => ProvisionFrame(w, e.payload);
    case OtherKind(_) =>
  }

  lemma SecretRetries(w: World, purpose: Purpose, payload: Payload, now: Time)
    ensures Retried(DeliverSecret(w, purpose, payload, now).0.sink) == Retried(w.sink)
  {
    var sink := DeliverSecret(w, purpose, payload, now).0.sink;
    assert |sink| > |w.sink| ==> sink[..|sink| - 1] == w.sink;
  }

  lemma {:induction false} RowsRetry(w: World, rows: seq<nat>, clock: nat -> Time, n: nat)
    requires Inv(w) && IsBatch(w.events, rows) && n <= |rows|
    ensures Retried(After(w, rows, clock, n).sink) == Retried(w.sink) + RetriesAsked(w.events, rows[..n])
  {
    hide Inv, ProcessOne, RowsDone, Retried;
    if n > 0 {
      var u := After(w, rows, clock, n - 1);
      RowsRetry(w, rows, clock, n - 1);
      AfterKeeps(w, rows, clock, n - 1);
      NextUntouched(w, rows, n - 1, u);
      RowRetries(u, rows[n - 1], clock(n - 1));
      assert rows[..n][..n - 1] == rows[..n - 1];
    }
  }

  /** A pass hands on every retry that its events ask for, in their order, and no other. */
  lemma RetriesHandedOn(w: World, limit: nat, clock: nat -> Time)
    requires Inv(w)
    ensures var rows := Batch(w.events, 0, limit);
      && (forall i: nat | i < |w.events| :: i in rows <==> HasTurn(w.events, i, limit))
      && Retried(Pass(w, limit, clock).sink) == Retried(w.sink) + RetriesAsked(w.events, rows)
  {
    var rows := Batch(w.events, 0, limit);
    PassRows(w, limit, clock);
    forall i: nat | i < |w.events| ensures i in rows <==> HasTurn(w.events, i, limit) {
      InBatch(w.events, 0, i, limit);
      assert w.events[0..i] == w.events[..i];
    }
    hide Inv, Batch, RetriesAsked;
    RowsRetry(w, rows, clock, |rows|);
    assert rows[..|rows|] == rows;
  }

  /** In every reachable world no secret is left in the payload of an event that a pass has processed. */
  lemma NoSecretLeft(cmds: seq<Command>, i: nat)
    ensures var events := Run(EMPTY, cmds).events;
      i < |events| && events[i].processedAt.Some? ==>
        && events[i].status == Processed
        && forall key | key in SECRET_WORDS :: key !in events[i].payload
  {
    Reachable(cmds);
    InvEvents(Run(EMPTY, cmds));
    hide Run, Inv;
    var events := Run(EMPTY, cmds).events;
    assert SECRET_KEYS == {"otp_code", "reset_token", "secret", "password"};
    if i < |events| {
      assert EventOk(events[i]);
    }
  }

  // ---------- installations begin and end

  predicate IsCustomers(i: Installation, tenant: Id, offering: Id) {
    i.tenant == tenant && i.offering == offering
  }

  /** An installation is accepted exactly if every earlier one of the offering by the tenant ends with its
      period; it is active with an instance at once, or waits for the event that will provision it. */
  lemma InstallExactly(w: World, tenant: Id, offering: Id, inline: bool)
    requires Inv(w)
    ensures var (v, out) := Install(w, tenant, offering, inline);
      && (out == Done <==> forall i | i in w.installs && IsCustomers(w.installs[i], tenant, offering) ::
            w.installs[i].status == CancelAtPeriodEnd)
      && (out != Done ==> v == w)
      && (out == Done ==>
            && w.nextId !in w.installs
            && v.installs ==
               w.installs[w.nextId := Installation(tenant, offering, if inline then Active else Provisioning)]
            && |v.events| == |w.events| + 1 && v.events[..|w.events|] == w.events
            && ProvisionOf(v.events[|w.events|], w.nextId)
            && v.events[|w.events|].status == (if inline then Processed else Pending)
            && (HasInstance(v.instances, w.nextId) <==> inline))
  {
    NewInstall(w);
    hide Inv, HandleProvision, HasInstance, ProvisionOf;
    assert forall i | i in w.installs && IsCustomers(w.installs[i], tenant, offering) ::
        IsLive(w.installs[i], tenant, offering) <==> w.installs[i].status != CancelAtPeriodEnd;
    hide IsLive, IsCustomers;
    if Install(w, tenant, offering, inline).1 == Done {
      InstallRows(w, tenant, offering, inline);
    }
  }

  lemma InstallRows(w: World, tenant: Id, offering: Id, inline: bool)
    requires Install(w, tenant, offering, inline).1 == Done && !HasInstance(w.instances, w.nextId)
    ensures var v := Install(w, tenant, offering, inline).0;
      && v.installs ==
         w.installs[w.nextId := Installation(tenant, offering, if inline then Active else Provisioning)]
      && |v.events| == |w.events| + 1 && v.events[..|w.events|] == w.events
      && ProvisionOf(v.events[|w.events|], w.nextId)
      && v.events[|w.events|].status == (if inline then Processed else Pending)
      && (HasInstance(v.instances, w.nextId) <==> inline)
  {
    hide IsLive;
    var v := Install(w, tenant, offering, inline).0;
    if inline {
      assert v.instances[w.nextId + 1] == w.nextId;
    }
  }

  lemma NewInstall(w: World)
    requires Inv(w)
    ensures w.nextId !in w.installs && !HasInstance(w.instances, w.nextId)
  {
    hide EventsOk, RefsOk, SecretsOk, SinkOk, SecretEventsOk, OneLive, AllAwaited;
  }

  /** A cancellation is accepted exactly if the tenant has an active installation of the offering; that one
      ends with its period, and nothing else changes. */
  lemma CancelExactly(w: World, tenant: Id, offering: Id)
    requires Inv(w)
    ensures var (v, out) := CancelSubscription(w, tenant, offering);
      && (out == Done <==> Installation(tenant, offering, Active) in w.installs.Values)
      && (out != Done ==> v == w)
      && (forall i | i in w.installs && w.installs[i] == Installation(tenant, offering, Active) ::
            v == w.(installs := w.installs[i := Installation(tenant, offering, CancelAtPeriodEnd)]))
  {
    hide EventsOk, RefsOk, SecretsOk, SinkOk, SecretEventsOk, InstancesOk, AllAwaited;
    forall i | i in w.installs && IsActiveFor(w.installs[i], tenant, offering)
      ensures w.installs[i] == Installation(tenant, offering, Active) && w.installs[i] in w.installs.Values {
    }
  }
}
