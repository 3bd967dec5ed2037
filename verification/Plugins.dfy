/** Plugins, their versions and the review of them, as values. */
module Plugins {
  import opened Errors
  import opened Slugs
  import Text

  type Id = nat

  datatype PluginStatus = Draft | Active | Unpublished | Deprecated
  datatype VersionStatus = PendingReview | ChangesRequested | Approved | Rejected
  datatype Risk = Low | Medium | High

  /** A plugin without a vendor belongs to the platform. */
  datatype Plugin = Plugin(vendor: Option<Id>, slug: string, category: string, status: PluginStatus)
  datatype Version = Version(plugin: Id, number: string, status: VersionStatus, risk: Risk, claimedBy: Option<Id>,
                             decidedBy: Option<Id>)

  /** `capabilities` holds the scope rows of each version, in the order of their declaration. */
  datatype Store = Store(nextId: Id, plugins: map<Id, Plugin>, versions: map<Id, Version>,
                         capabilities: map<Id, seq<string>>)

  const EMPTY := Store(0, map[], map[], map[])

  // ---------- risk

  const HIGH_TOKENS := ["payment", "payments", "webhook", "webhooks", "oauth", "oauth2"]
  const MEDIUM_TOKENS := ["pii", "identity", "network", "storage", "secret", "secrets"]

  predicate Mentions(scope: string, tokens: seq<string>) {
    exists i | 0 <= i < |tokens| :: Text.Contains(Text.Lower(scope), tokens[i])
  }

  function RiskOf(scopes: seq<string>): Risk {
    if exists i | 0 <= i < |scopes| :: Mentions(scopes[i], HIGH_TOKENS) then High
    else if exists i | 0 <= i < |scopes| :: Mentions(scopes[i], MEDIUM_TOKENS) then Medium
    else Low
  }

  function Rank(r: Risk): nat {
    match r case Low => 0 case Medium => 1 case High => 2
  }

  /** The risk of a list is the largest of its scopes' own: no scope exceeds it, and one reaches it,
      unless there is none. */
  lemma RiskIsMaximum(scopes: seq<string>)
    ensures forall i | 0 <= i < |scopes| :: Rank(RiskOf([scopes[i]])) <= Rank(RiskOf(scopes))
    ensures RiskOf(scopes) == Low || exists i | 0 <= i < |scopes| :: RiskOf([scopes[i]]) == RiskOf(scopes)
  {
    hide Mentions;
    forall i | 0 <= i < |scopes| ensures Rank(RiskOf([scopes[i]])) <= Rank(RiskOf(scopes)) {
      assert [scopes[i]][0] == scopes[i];
    }
    if RiskOf(scopes) == High {
      var i :| 0 <= i < |scopes| && Mentions(scopes[i], HIGH_TOKENS);
      assert [scopes[i]][0] == scopes[i];
    } else if RiskOf(scopes) == Medium {
      var i :| 0 <= i < |scopes| && Mentions(scopes[i], MEDIUM_TOKENS);
      assert [scopes[i]][0] == scopes[i];
    }
  }

  /** Neither order nor repetition matters, and more scopes are never less risky. */
  lemma RiskOrderless(a: seq<string>, b: seq<string>)
    ensures (forall s | s in a :: s in b) ==> Rank(RiskOf(a)) <= Rank(RiskOf(b))
    ensures (forall s :: s in a <==> s in b) ==> RiskOf(a) == RiskOf(b)
  {
    RiskMonotone(a, b);
    RiskMonotone(b, a);
  }

  lemma RiskMonotone(a: seq<string>, b: seq<string>)
    ensures (forall s | s in a :: s in b) ==> Rank(RiskOf(a)) <= Rank(RiskOf(b))
  {
    hide Mentions;
    if (forall s | s in a :: s in b) && RiskOf(a) != Low {
      var tokens := if RiskOf(a) == High then HIGH_TOKENS else MEDIUM_TOKENS;
      var i :| 0 <= i < |a| && Mentions(a[i], tokens);
      assert a[i] in b;
      var j :| 0 <= j < |b| && b[j] == a[i];
      assert Mentions(b[j], tokens);
    }
  }

  // ---------- registration and submission

  predicate SlugTaken(plugins: map<Id, Plugin>, slug: string) {
    exists p | p in plugins :: plugins[p].slug == slug
  }

  function TakenSlugs(plugins: map<Id, Plugin>): set<string> {
    set p | p in plugins :: plugins[p].slug
  }

  predicate NumberTaken(versions: map<Id, Version>, plugin: Id, number: string) {
    exists v | v in versions :: versions[v].plugin == plugin && versions[v].number == number
  }

  function Added(s: Store, plugin: Plugin): Store {
    s.(nextId := s.nextId + 1, plugins := s.plugins[s.nextId := plugin])
  }

  function WithVersion(s: Store, plugin: Id, number: string): Store {
    s.(nextId := s.nextId + 1,
       versions := s.versions[s.nextId := Version(plugin, number, PendingReview, Low, None, None)],
       capabilities := s.capabilities[s.nextId := []])
  }

  /** `permitted` is the outcome of the vendor checks; a pattern match needs the whole slug. */
  ghost function RegisterPlugin(s: Store, permitted: bool, vendor: Id, name: string, slug: string,
                                category: string): (Store, Outcome) {
    var clean := Text.Lower(Text.Strip(slug));
    if !permitted then (s, Refused(Forbidden))
    else if Text.Strip(name) == "" || Text.Strip(category) == "" then (s, Refused(Validation))
    else if !IsSlug(clean) then (s, Refused(Validation))
    else if SlugTaken(s.plugins, clean) then (s, Refused(Conflict))
    else (Added(s, Plugin(Some(vendor), clean, Text.Strip(category), Draft)), Done)
  }

  function SubmitVersion(s: Store, permitted: bool, plugin: Id, version: string, artifact: string): (Store, Outcome) {
    var number := Text.Strip(version);
    if plugin !in s.plugins then (s, Refused(NotFound))
    else if s.plugins[plugin].vendor.None? || !permitted then (s, Refused(Forbidden))
    else if number == "" || Text.Strip(artifact) == "" then (s, Refused(Validation))
    else if NumberTaken(s.versions, plugin, number) then (s, Refused(Conflict))
    else (WithVersion(s, plugin, number), Done)
  }

  function DropV(s: string): string {
    if s != "" && s[0] == 'v' then DropV(s[1..]) else s
  }

  /** The plugin of a bundle: the named one of the vendor, or a new one under a free slug. */
  function BundlePlugin(s: Store, vendor: Id, name: string, slug: Option<string>, category: string,
                        existing: Option<Id>)
    : (Store, Option<Id>, Error)
  {
    if existing.Some? then
      if existing.value !in s.plugins || s.plugins[existing.value].vendor != Some(vendor) then (s, None, NotFound)
      else
        (s.(plugins := s.plugins[existing.value := s.plugins[existing.value].(category := category)]), existing,
         NotFound)
    else
      var base := Normalized(if slug.Some? && slug.value != "" then slug.value else name);
      if base == "" then (s, None, Validation)
      else
        var free := Candidate(base, Smallest(base, TakenSlugs(s.plugins), 0));
        (Added(s, Plugin(Some(vendor), free, category, Draft)), Some(s.nextId), NotFound)
  }

  /** A refused bundle leaves nothing behind: its plugin is rolled back with it. */
  function SubmitBundle(s: Store, permitted: bool, vendor: Id, name: string, version: string, category: string,
                        artifact: string, slug: Option<string>, existing: Option<Id>): (Store, Outcome)
  {
    var number := DropV(Text.Strip(version));
    if !permitted then (s, Refused(Forbidden))
    else if Text.Strip(name) == "" || Text.Strip(category) == "" || number == "" || Text.Strip(artifact) == "" then
      (s, Refused(Validation))
    else
      var (t, plugin, error) := BundlePlugin(s, vendor, Text.Strip(name), slug, Text.Strip(category), existing);
      if plugin.None? then (s, Refused(error))
      else if NumberTaken(t.versions, plugin.value, number) then (s, Refused(Conflict))
      else (WithVersion(t, plugin.value, number), Done)
  }

  // ---------- capabilities

  /** The stripped scopes, if none is blank and no two are alike. */
  function Cleaned(declared: seq<string>): Option<seq<string>> {
    if declared == [] then Some([])
    else
      var scope := Text.Strip(declared[|declared| - 1]);
      match Cleaned(declared[..|declared| - 1])
      case None => None
      case Some(scopes) => if scope == "" || scope in scopes then None else Some(scopes + [scope])
  }

  predicate Decided(status: VersionStatus) {
    status == Approved || status == Rejected
  }

  function Declare(s: Store, permitted: bool, v: Id, declared: seq<string>): (Store, Outcome) {
    if v !in s.versions || s.versions[v].plugin !in s.plugins then (s, Refused(NotFound))
    else if s.plugins[s.versions[v].plugin].vendor.None? || !permitted then (s, Refused(Forbidden))
    else if Decided(s.versions[v].status) then (s, Refused(Conflict))
    else if declared == [] then (s, Refused(Validation))
    else
      match Cleaned(declared)
      case None => (s, Refused(Validation))
      case Some(scopes) =>
        (s.(capabilities := s.capabilities[v := scopes],
            versions := s.versions[v := s.versions[v].(risk := RiskOf(scopes))]), Done)
  }

  // ---------- review

  predicate ClaimedByOther(v: Version, caller: Id) {
    v.claimedBy.Some? && v.claimedBy.value != caller
  }

  function Claim(s: Store, operator: bool, v: Id, caller: Id): (Store, Outcome) {
    if !operator then (s, Refused(Forbidden))
    else if v !in s.versions then (s, Refused(NotFound))
    else if Decided(s.versions[v].status) || ClaimedByOther(s.versions[v], caller) then (s, Refused(Conflict))
    else (s.(versions := s.versions[v := s.versions[v].(claimedBy := Some(caller))]), Done)
  }

  function RequestChanges(s: Store, operator: bool, v: Id, caller: Id, notes: string): (Store, Outcome) {
    if !operator then (s, Refused(Forbidden))
    else if Text.Strip(notes) == "" then (s, Refused(Validation))
    else if v !in s.versions then (s, Refused(NotFound))
    else if s.versions[v].status != PendingReview || ClaimedByOther(s.versions[v], caller) then (s, Refused(Conflict))
    else (s.(versions := s.versions[v := s.versions[v].(status := ChangesRequested)]), Done)
  }

  function Decide(s: Store, operator: bool, v: Id, caller: Id, approved: bool): (Store, Outcome) {
    if !operator then (s, Refused(Forbidden))
    else if v !in s.versions then (s, Refused(NotFound))
    else if Decided(s.versions[v].status) || ClaimedByOther(s.versions[v], caller) then (s, Refused(Conflict))
    else if s.versions[v].plugin !in s.plugins then (s, Refused(NotFound))
    else
      var p := s.plugins[s.versions[v].plugin];
      (s.(versions := s.versions[v := s.versions[v].(status := if approved then Approved else Rejected,
                                                     decidedBy := Some(caller))],
          plugins := if approved && p.status == Draft then
            s.plugins[s.versions[v].plugin := p.(status := Active)] else s.plugins), Done)
  }

  // ---------- the platform's own plugins

  const CATEGORIES := {
    "SHIP_PHYSICAL", "DELIVER_DIGITAL", "LICENSE_SOFTWARE", "PROVISION_SOFTWARE", "PROVISION_CLOUD",
    "STREAM_LMS_COURSE", "DELIVER_MULTIMEDIA", "DISPATCH_SERVICE", "BOOK_APPOINTMENT"}

  predicate CategoryTaken(plugins: map<Id, Plugin>, category: string) {
    exists p | p in plugins :: plugins[p].vendor.None? && plugins[p].category == category
  }

  /** `valid` is the outcome of the other field checks. A standard plugin comes with an approved version. */
  ghost function CreateStandard(s: Store, operator: bool, valid: bool, slug: string, category: string, version: string,
                                caller: Id, publish: bool): (Store, Outcome)
  {
    var clean := Text.Lower(Text.Strip(slug));
    if !operator then (s, Refused(Forbidden))
    else if Text.Strip(category) !in CATEGORIES || !valid || !IsSlug(clean) then (s, Refused(Validation))
    else if CategoryTaken(s.plugins, Text.Strip(category)) || SlugTaken(s.plugins, clean) then (s, Refused(Conflict))
    else
      var t := Added(s, Plugin(None, clean, Text.Strip(category), if publish then Active else Draft));
      (t.(nextId := t.nextId + 1,
          versions := t.versions[t.nextId := Version(s.nextId, Text.Strip(version), Approved, Low, None, Some(caller))],
          capabilities := t.capabilities[t.nextId := []]), Done)
  }

  function DeleteStandard(s: Store, operator: bool, plugin: Id, inUse: bool): (Store, Outcome) {
    if !operator then (s, Refused(Forbidden))
    else if plugin !in s.plugins || s.plugins[plugin].vendor.Some? then (s, Refused(NotFound))
    else if inUse then (s, Refused(Conflict))
    else
      var gone := set v | v in s.versions && s.versions[v].plugin == plugin;
      (s.(plugins := s.plugins - {plugin}, versions := s.versions - gone, capabilities := s.capabilities - gone), Done)
  }

  // ---------- runs

  datatype Command =
    | DoRegister(permitted: bool, vendor: Id, name: string, slug: string, category: string)
    | DoSubmitVersion(permitted: bool, plugin: Id, version: string, artifact: string)
    | DoSubmitBundle(permitted: bool, vendor: Id, name: string, version: string, category: string, artifact: string,
                     bundleSlug: Option<string>, existing: Option<Id>)
    | DoDeclare(permitted: bool, versionId: Id, declared: seq<string>)
    | DoClaim(operator: bool, versionId: Id, caller: Id)
    | DoRequestChanges(operator: bool, versionId: Id, caller: Id, notes: string)
    | DoDecide(operator: bool, versionId: Id, caller: Id, approved: bool)
    | DoCreateStandard(operator: bool, valid: bool, slug: string, category: string, version: string, caller: Id,
                       publish: bool)
    | DoDeleteStandard(operator: bool, plugin: Id, inUse: bool)

  ghost function Apply(s: Store, cmd: Command): (Store, Outcome) {
    match cmd
    case DoRegister(permitted, vendor, name, slug, category) =>
      RegisterPlugin(s, permitted, vendor, name, slug, category)
    case DoSubmitVersion(permitted, plugin, version, artifact) => SubmitVersion(s, permitted, plugin, version, artifact)
    case DoSubmitBundle(permitted, vendor, name, version, category, artifact, slug, existing) =>
      SubmitBundle(s, permitted, vendor, name, version, category, artifact, slug, existing)
    case DoDeclare(permitted, v, declared) => Declare(s, permitted, v, declared)
    case DoClaim(operator, v, caller) => Claim(s, operator, v, caller)
    case DoRequestChanges(operator, v, caller, notes) => RequestChanges(s, operator, v, caller, notes)
    case DoDecide(operator, v, caller, approved) => Decide(s, operator, v, caller, approved)
    case DoCreateStandard(operator, valid, slug, category, version, caller, publish) =>
      CreateStandard(s, operator, valid, slug, category, version, caller, publish)
    case DoDeleteStandard(operator, plugin, inUse) => DeleteStandard(s, operator, plugin, inUse)
  }
}
