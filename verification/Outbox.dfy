/** The outbox, its one-time secrets and the provisioning it drives, as values. */
module Outbox {
  import opened Errors

  type Id = nat
  type Time = int

  /** A JSON value of an event's payload; a text that parses as an identifier is a `Uuid`. */
  datatype Value = Plain(text: string) | Uuid(id: Id) | Flag(b: bool)

  type Payload = map<string, Value>

  datatype Purpose = VerificationEmail | PasswordResetEmail

  datatype EventKind = SendSecret(purpose: Purpose) | RetrySetPassword | ScanArtifact | ProvisionService
      | OtherKind(name: string)

  datatype EventStatus = Pending | Processed | Dead

  /** `processedAt` is set when the event has been processed. */
  datatype Event = Event(kind: EventKind, payload: Payload, status: EventStatus, retries: nat,
                         processedAt: Option<Time>)

  datatype Secret = Secret(purpose: Purpose, plain: Option<string>, expiresAt: Time, consumedAt: Option<Time>)

  datatype InstallStatus = Provisioning | Active | CancelAtPeriodEnd
  datatype Installation = Installation(tenant: Id, offering: Id, status: InstallStatus)

  /** What the sink received. A delivery is tagged with the secret it came from and its time. */
  datatype Message =
    | Delivery(purpose: Purpose, to: string, body: string, secret: Id, at: Time)
    | SetPasswordRetry(payload: Payload)

  /** Events are in creation order. `instances` maps each service instance to its installation,
      `scans` each plugin version to whether its scan has passed. `sink` outlives a rolled-back
      transaction; `lost` counts the passes that were rolled back. */
  datatype World = World(
    nextId: Id, events: seq<Event>, secrets: map<Id, Secret>, installs: map<Id, Installation>,
    instances: map<Id, Id>, scans: map<Id, bool>, sink: seq<Message>, lost: nat)

  const MAX_RETRIES := 5

  const SECRET_KEYS := {"otp_code", "reset_token", "secret", "password"}

  function Redact(payload: Payload): Payload {
    (payload - SECRET_KEYS)["secret_redacted" := Flag(true)]
  }

  function Email(payload: Payload): string {
    if "email" in payload && payload["email"].Plain? then payload["email"].text else ""
  }

  // ---------- handlers: the world afterwards, and whether the handler returned normally

  function DeliverSecret(w: World, purpose: Purpose, payload: Payload, now: Time): (World, bool) {
    if "delivery_secret_id" !in payload || !payload["delivery_secret_id"].Uuid? then (w, false)
    else
      var id := payload["delivery_secret_id"].id;
      if id !in w.secrets || w.secrets[id].purpose != purpose then (w, false)
      else
        var s := w.secrets[id];
        var wiped := w.secrets[id := s.(plain := None, consumedAt := Some(now))];
        if s.consumedAt.Some? then (w, true)
        else if s.expiresAt < now then (w.(secrets := wiped), false)
        else if s.plain.None? || s.plain.value == "" then (w, false)
        else (w.(secrets := wiped, sink := w.sink + [Delivery(purpose, Email(payload), s.plain.value, id, now)]), true)
  }

  function HandleScan(w: World, payload: Payload): (World, bool) {
    if "version_id" !in payload || payload["version_id"] == Plain("") || payload["version_id"] == Flag(false) then
      (w, true)
    else if !payload["version_id"].Uuid? then (w, false)
    else if payload["version_id"].id !in w.scans then (w, true)
    else (w.(scans := w.scans[payload["version_id"].id := true]), true)
  }

  predicate HasInstance(instances: map<Id, Id>, install: Id) {
    exists k | k in instances :: instances[k] == install
  }

  function HandleProvision(w: World, payload: Payload): (World, bool) {
    if "installation_id" !in payload || !payload["installation_id"].Uuid? then (w, false)
    else
      var id := payload["installation_id"].id;
      if id !in w.installs then (w, false)
      else if w.installs[id].status == Active then (w, true)
      else if w.installs[id].status != Provisioning then (w, false)
      else
        var installs := w.installs[id := w.installs[id].(status := Active)];
        if HasInstance(w.instances, id) then (w.(installs := installs), true)
        else (w.(nextId := w.nextId + 1, installs := installs, instances := w.instances[w.nextId := id]), true)
  }

  function Handle(w: World, e: Event, now: Time): (World, bool) {
    match e.kind
    case SendSecret(purpose) => DeliverSecret(w, purpose, e.payload, now)
    case RetrySetPassword => (w.(sink := w.sink + [SetPasswordRetry(e.payload)]), true)
    case ScanArtifact => HandleScan(w, e.payload)
    case ProvisionService => HandleProvision(w, e.payload)
    case OtherKind(_) => (w, true)
  }

  /** The row after its handler returned or raised. */
  function Settle(e: Event, ok: bool, now: Time): Event {
    if ok then e.(status := Processed, processedAt := Some(now), payload := Redact(e.payload))
    else e.(retries := e.retries + 1, status := if e.retries + 1 >= MAX_RETRIES then Dead else e.status)
  }

  function ProcessOne(w: World, i: nat, now: Time): World
    requires i < |w.events|
  {
    var (v, ok) := Handle(w, w.events[i], now);
    v.(events := w.events[i := Settle(w.events[i], ok, now)])
  }

  // ---------- passes

  /** The first `limit` pending rows, in creation order. */
  function Batch(events: seq<Event>, from: nat, limit: nat): (rows: seq<nat>)
    requires from <= |events|
    ensures forall j | 0 <= j < |rows| :: from <= rows[j] < |events| && events[rows[j]].status == Pending
    ensures forall j, k | 0 <= j < k < |rows| :: rows[j] < rows[k]
    ensures |rows| <= limit
    decreases |events| - from
  {
    if from == |events| || limit == 0 then []
    else if events[from].status == Pending then [from] + Batch(events, from + 1, limit - 1)
    else Batch(events, from + 1, limit)
  }

  /** The world after the first `k` rows of a batch; the clock is read once per row. */
  function After(w: World, rows: seq<nat>, clock: nat -> Time, k: nat): (v: World)
    requires k <= |rows|
    requires forall j | 0 <= j < |rows| :: rows[j] < |w.events|
    ensures |v.events| == |w.events|
  {
    if k == 0 then w else ProcessOne(After(w, rows, clock, k - 1), rows[k - 1], clock(k - 1))
  }

  function Pass(w: World, limit: nat, clock: nat -> Time): World {
    var rows := Batch(w.events, 0, limit);
    After(w, rows, clock, |rows|)
  }

  /** A pass that dies after `k` rows, before its commit: the tables roll back, the sink does not. */
  function LostPass(w: World, limit: nat, clock: nat -> Time, k: nat): World {
    var rows := Batch(w.events, 0, limit);
    w.(sink := After(w, rows, clock, if k <= |rows| then k else |rows|).sink, lost := w.lost + 1)
  }

  // ---------- the other writers of these tables

  function Enqueue(w: World, kind: EventKind, payload: Payload): World {
    w.(events := w.events + [Event(kind, payload, Pending, 0, None)])
  }

  /** Registration and reset requests: a fresh secret, and the event that names it. */
  function IssueSecret(w: World, purpose: Purpose, plain: string, expiresAt: Time, email: string): World {
    var payload := map["email" := Plain(email), "delivery_secret_id" := Uuid(w.nextId)];
    Enqueue(w.(nextId := w.nextId + 1,
               secrets := w.secrets[w.nextId := Secret(purpose, Some(plain), expiresAt, None)]),
            SendSecret(purpose), payload)
  }

  predicate IsLive(i: Installation, tenant: Id, offering: Id) {
    i.tenant == tenant && i.offering == offering && (i.status == Provisioning || i.status == Active)
  }

  /** The install step, once its authorization and catalogue checks have passed. */
  function Install(w: World, tenant: Id, offering: Id, inline: bool): (World, Outcome) {
    if exists i | i in w.installs :: IsLive(w.installs[i], tenant, offering) then (w, Refused(Conflict))
    else
      var payload := map["installation_id" := Uuid(w.nextId)];
      var created := w.(nextId := w.nextId + 1,
                        installs := w.installs[w.nextId := Installation(tenant, offering, Provisioning)]);
      if inline then
        (HandleProvision(created,
                         payload).0.(events := w.events + [Event(ProvisionService, payload, Processed, 0, None)]), Done)
      else (Enqueue(created, ProvisionService, payload), Done)
  }

  predicate IsActiveFor(i: Installation, tenant: Id, offering: Id) {
    i.tenant == tenant && i.offering == offering && i.status == Active
  }

  /** The installation branch of a cancelled subscription. */
  ghost function CancelSubscription(w: World, tenant: Id, offering: Id): (World, Outcome) {
    if exists i | i in w.installs :: IsActiveFor(w.installs[i], tenant, offering) then
      var i :| i in w.installs && IsActiveFor(w.installs[i], tenant, offering);
      (w.(installs := w.installs[i := w.installs[i].(status := CancelAtPeriodEnd)]), Done)
    else (w, Refused(NotFound))
  }

  /** Every identifier in the payload has been handed out. */
  predicate RefsKnown(w: World, payload: Payload) {
    forall k | k in payload && payload[k].Uuid? :: payload[k].id < w.nextId
  }

  datatype Command =
    | DoPass(limit: nat, clock: nat -> Time)
    | DoLostPass(limit: nat, clock: nat -> Time, rows: nat)
    | DoEnqueue(kind: EventKind, payload: Payload)
    | DoIssueSecret(purpose: Purpose, plain: string, expiresAt: Time, email: string)
    | DoInstall(tenant: Id, offering: Id, inline: bool)
    | DoCancelSubscription(tenant: Id, offering: Id)
    | NewVersion

  /** An event is only enqueued with identifiers of existing rows, and a secret is never empty. */
  ghost function Apply(w: World, cmd: Command): World {
    match cmd
    case DoPass(limit, clock) => Pass(w, limit, clock)
    case DoLostPass(limit, clock, rows) => LostPass(w, limit, clock, rows)
    case DoEnqueue(kind, payload) => if RefsKnown(w, payload) then Enqueue(w, kind, payload) else w
    case DoIssueSecret(purpose, plain, expiresAt, email) =>
      if plain == "" then w else IssueSecret(w, purpose, plain, expiresAt, email)
    case DoInstall(tenant, offering, inline) => Install(w, tenant, offering, inline).0
    case DoCancelSubscription(tenant, offering) => CancelSubscription(w, tenant, offering).0
    case NewVersion => w.(nextId := w.nextId + 1, scans := w.scans[w.nextId := false])
  }
}
