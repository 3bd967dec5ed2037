/** The outbox processor: it changes the tables in place and is proved against `Outbox`. */
module OutboxProcessor {
  import opened Errors
  import opened Outbox
  import opened OutboxLaws
  import opened OutboxRuns

  class Processor {
    var nextId: Id
    var events: seq<Event>
    var secrets: map<Id, Secret>
    var installs: map<Id, Installation>
    var instances: map<Id, Id>
    var scans: map<Id, bool>
    var sink: seq<Message>
    ghost var lost: nat

    ghost function State(): World
      reads this
    {
      World(nextId, events, secrets, installs, instances, scans, sink, lost)
    }

    constructor ()
      ensures State() == EMPTY && Inv(State())
    {
      nextId, events, secrets, installs, instances, scans, sink, lost := 0, [], map[], map[], map[], map[], [], 0;
    }

    /** Handles one pending row and records on it whether the handler returned or raised. */
    method ProcessRow(i: nat, now: Time) returns (ok: bool)
      requires i < |events| && events[i].status == Pending
      modifies this
      ensures State() == ProcessOne(old(State()), i, now)
      ensures ok <==> events[i].status == Processed
      ensures |events| == |old(events)| && forall j | 0 <= j < |events| && j != i :: events[j] == old(events)[j]
    {
      hide Handle, Redact;
      var row := events[i];
      HandleFrame(State(), row, now);
      ok := HandleRow(row, now);
      if ok {
        row := row.(status := Processed, processedAt := Some(now), payload := Redact(row.payload));
      } else {
        row := row.(retries := row.retries + 1);
        if row.retries >= MAX_RETRIES {
          row := row.(status := Dead);
        }
      }
      events := events[i := row];
    }

    /** One pass over the first `limit` pending rows; returns how many of them it processed. */
    method ProcessPending(limit: nat, clock: nat -> Time) returns (processed: nat)
      requires Inv(State())
      modifies this
      ensures State() == Pass(old(State()), limit, clock)
      ensures Inv(State())
      ensures var rows := Batch(old(events), 0, limit);
        |events| == |old(events)| && processed == ProcessedAmong(events, rows, |rows|)
    {
      hide Inv, ProcessOne, Batch, Measure, PendingCount;
      PassLowers(State(), limit, clock);
      var rows := Batch(events, 0, limit);
      processed := 0;
      for k := 0 to |rows|
        invariant State() == After(old(State()), rows, clock, k)
        invariant processed == ProcessedAmong(events, rows, k)
        invariant forall j | k <= j < |rows| :: events[rows[j]] == old(events)[rows[j]]
      {
        ghost var before := events;
        var now := clock(k);
        var ok := ProcessRow(rows[k], now);
        if ok {
          processed := processed + 1;
        }
        ProcessedFrame(before, events, rows, k);
      }
    }

    method HandleRow(row: Event, now: Time) returns (ok: bool)
      modifies this
      ensures (State(), ok) == Handle(old(State()), row, now)
    {
      match row.kind
      case SendSecret(purpose) => ok := DeliverSecret(purpose, row.payload, now);
      case RetrySetPassword =>
        sink := sink + [SetPasswordRetry(row.payload)];
        ok := true;
      case ScanArtifact => ok := HandleScan(row.payload);
      case ProvisionService => ok := HandleProvision(row.payload);
      case OtherKind(_) => ok := true;
    }

    method DeliverSecret(purpose: Purpose, payload: Payload, now: Time) returns (ok: bool)
      modifies this`secrets, this`sink
      ensures (State(), ok) == Outbox.DeliverSecret(old(State()), purpose, payload, now)
    {
      if "delivery_secret_id" !in payload || !payload["delivery_secret_id"].Uuid? {
        return false;
      }
      var id := payload["delivery_secret_id"].id;
      if id !in secrets || secrets[id].purpose != purpose {
        return false;
      }
      if secrets[id].consumedAt.Some? {
        return true;
      }
      if secrets[id].expiresAt < now {
        secrets := secrets[id := secrets[id].(plain := None, consumedAt := Some(now))];
        return false;
      }
      if secrets[id].plain.None? || secrets[id].plain.value == "" {
        return false;
      }
      sink := sink + [Delivery(purpose, Email(payload), secrets[id].plain.value, id, now)];
      secrets := secrets[id := secrets[id].(plain := None, consumedAt := Some(now))];
      return true;
    }

    method HandleScan(payload: Payload) returns (ok: bool)
      modifies this`scans
      ensures (State(), ok) == Outbox.HandleScan(old(State()), payload)
    {
      if "version_id" !in payload || payload["version_id"] == Plain("") || payload["version_id"] == Flag(false) {
        return true;
      }
      if !payload["version_id"].Uuid? {
        return false;
      }
      if payload["version_id"].id in scans {
        scans := scans[payload["version_id"].id := true];
      }
      return true;
    }

    method HandleProvision(payload: Payload) returns (ok: bool)
      modifies this`nextId, this`installs, this`instances
      ensures (State(), ok) == Outbox.HandleProvision(old(State()), payload)
    {
      if "installation_id" !in payload || !payload["installation_id"].Uuid? {
        return false;
      }
      var id := payload["installation_id"].id;
      if id !in installs {
        return false;
      }
      if installs[id].status == Active {
        return true;
      }
      if installs[id].status != Provisioning {
        return false;
      }
      var existing := exists k | k in instances :: instances[k] == id;
      if !existing {
        instances := instances[nextId := id];
        nextId := nextId + 1;
      }
      installs := installs[id := installs[id].(status := Active)];
      return true;
    }

    /** The install step, once its authorization and catalogue checks have passed. */
    method Install(tenant: Id, offering: Id, inline: bool) returns (out: Outcome)
      requires Inv(State())
      modifies this
      ensures (State(), out) == Outbox.Install(old(State()), tenant, offering, inline)
      ensures Inv(State())
    {
      hide Inv, Outbox.HandleProvision;
      InstallKeeps(State(), tenant, offering, inline);
      if exists i | i in installs :: IsLive(installs[i], tenant, offering) {
        return Refused(Conflict);
      }
      var id := nextId;
      nextId := nextId + 1;
      installs := installs[id := Installation(tenant, offering, Provisioning)];
      var payload := map["installation_id" := Uuid(id)];
      ghost var created := State();
      if inline {
        var provisioned := HandleProvision(payload);
        HandleFrame(created, Event(ProvisionService, payload, Pending, 0, None), 0);
      }
      events := events + [Event(ProvisionService, payload, if inline then Processed else Pending, 0, None)];
      return Done;
    }

    method CancelSubscription(tenant: Id, offering: Id) returns (out: Outcome)
      requires Inv(State())
      modifies this`installs
      ensures (State(), out) == Outbox.CancelSubscription(old(State()), tenant, offering)
      ensures Inv(State())
    {
      hide EventsOk, RefsOk, SecretsOk, SinkOk, SecretEventsOk, AllAwaited, InstancesOk;
      CancelKeeps(State(), tenant, offering);
      if exists i | i in installs :: IsActiveFor(installs[i], tenant, offering) {
        var i :| i in installs && IsActiveFor(installs[i], tenant, offering);
        installs := installs[i := installs[i].(status := CancelAtPeriodEnd)];
        return Done;
      }
      return Refused(NotFound);
    }
  }

  // ---------- how many rows of a batch were processed

  function ProcessedAmong(events: seq<Event>, rows: seq<nat>, k: nat): nat
    requires k <= |rows| && forall j | 0 <= j < |rows| :: rows[j] < |events|
  {
    if k == 0 then 0 else
      ProcessedAmong(events, rows, k - 1) + if events[rows[k - 1]].status == Processed then 1 else 0
  }

  lemma {:induction false} ProcessedFrame(before: seq<Event>, after: seq<Event>, rows: seq<nat>, k: nat)
    requires k <= |rows| && |before| == |after| && forall j | 0 <= j < |rows| :: rows[j] < |before|
    requires forall j | 0 <= j < k :: after[rows[j]] == before[rows[j]]
    ensures ProcessedAmong(after, rows, k) == ProcessedAmong(before, rows, k)
  {
    if k > 0 {
      ProcessedFrame(before, after, rows, k - 1);
    }
  }

  lemma HandleFrame(w: World, e: Event, now: Time)
    ensures Handle(w, e, now).0.events == w.events
  {
  }
}
