/** Slugs, risk levels, claims and decisions over every run, and the service that makes them. */
module PluginLaws {
  import opened Errors
  import opened Slugs
  import opened Plugins
  import Text

  // ---------- the invariant

  ghost predicate IdsOk(n: Id, plugins: map<Id, Plugin>, versions: map<Id, Version>) {
    && (forall p | p in plugins :: p < n)
    && (forall v | v in versions :: v < n && versions[v].plugin in plugins)
  }

  /** Every slug matches the pattern, and no two plugins share one. */
  ghost predicate SlugsOk(plugins: map<Id, Plugin>) {
    && (forall p | p in plugins :: SlugChars(plugins[p].slug))
    && (forall p, q | p in plugins && q in plugins && plugins[p].slug == plugins[q].slug :: p == q)
  }

  ghost predicate NumbersOk(versions: map<Id, Version>) {
    forall v, w | v in versions && w in versions && versions[v].plugin == versions[w].plugin
        && versions[v].number == versions[w].number ::
      v == w
  }

  /** The stored risk level is that of the current capability rows. */
  ghost predicate RisksOk(versions: map<Id, Version>, capabilities: map<Id, seq<string>>) {
    versions.Keys == capabilities.Keys && forall v | v in versions :: versions[v].risk == RiskOf(capabilities[v])
  }

  /** A version has a decider exactly when it is decided, and its claimer if it has one. */
  ghost predicate ClaimsOk(versions: map<Id, Version>) {
    forall v | v in versions ::
      && (versions[v].decidedBy.Some? <==> Decided(versions[v].status))
      && (versions[v].claimedBy.Some? && versions[v].decidedBy.Some? ==> versions[v].claimedBy == versions[v].decidedBy)
  }

  ghost predicate Inv(s: Store) {
    && IdsOk(s.nextId, s.plugins, s.versions)
    && SlugsOk(s.plugins)
    && NumbersOk(s.versions)
    && RisksOk(s.versions, s.capabilities)
    && ClaimsOk(s.versions)
  }

  lemma EmptyOk()
    ensures Inv(EMPTY)
  {
  }

  lemma NoScopes()
    ensures RiskOf([]) == Low
  {
  }

  lemma AddedKeeps(s: Store, plugin: Plugin)
    requires Inv(s) && IsSlug(plugin.slug) && !SlugTaken(s.plugins, plugin.slug)
    ensures Inv(Added(s, plugin))
  {
    SlugPattern(plugin.slug);
    hide NumbersOk, RisksOk, ClaimsOk, SlugChars, IsSlug;
  }

  lemma WithVersionKeeps(s: Store, plugin: Id, number: string)
    requires Inv(s) && plugin in s.plugins && !NumberTaken(s.versions, plugin, number)
    ensures Inv(WithVersion(s, plugin, number))
  {
    hide SlugsOk, RiskOf;
    assert s.nextId !in s.versions;
    NoScopes();
  }

  /** One version changed in what the review changes. */
  lemma VersionKeeps(s: Store, v: Id, x: Version, capabilities: map<Id, seq<string>>)
    requires Inv(s) && v in s.versions && x.plugin == s.versions[v].plugin && x.number == s.versions[v].number
    requires capabilities.Keys == s.capabilities.Keys && v in capabilities && x.risk == RiskOf(capabilities[v])
    requires forall w | w in s.capabilities && w != v :: capabilities[w] == s.capabilities[w]
    requires x.decidedBy.Some? <==> Decided(x.status)
    requires x.claimedBy.Some? && x.decidedBy.Some? ==> x.claimedBy == x.decidedBy
    ensures Inv(s.(versions := s.versions[v := x], capabilities := capabilities))
  {
    hide SlugsOk, RiskOf, Decided;
  }

  lemma PluginKeeps(s: Store, p: Id, x: Plugin)
    requires Inv(s) && p in s.plugins && x.slug == s.plugins[p].slug
    ensures Inv(s.(plugins := s.plugins[p := x]))
  {
    hide NumbersOk, RisksOk, ClaimsOk, SlugChars;
  }

  lemma FreeSlugFree(plugins: map<Id, Plugin>, slug: string)
    ensures slug in TakenSlugs(plugins) <==> SlugTaken(plugins, slug)
  {
  }

  /** The plugin of a bundle has a slug of its own that matches the pattern. */
  lemma BundleKeeps(s: Store, vendor: Id, name: string, slug: Option<string>, category: string, existing: Option<Id>)
    requires Inv(s)
    ensures var (t, plugin, error) := BundlePlugin(s, vendor, name, slug, category, existing);
      Inv(t) && (plugin.Some? ==> plugin.value in t.plugins)
  {
    hide Inv, Normalized, Candidate, Added;
    if existing.Some? {
      if existing.value in s.plugins {
        PluginKeeps(s, existing.value, s.plugins[existing.value].(category := category));
      }
    } else {
      var text := if slug.Some? && slug.value != "" then slug.value else name;
      var base := Normalized(text);
      if base != "" {
        var suffix := Smallest(base, TakenSlugs(s.plugins), 0);
        NormalizedWords(text);
        CandidateSlug(base, suffix);
        FreeSlugFree(s.plugins, Candidate(base, suffix));
        AddedKeeps(s, Plugin(Some(vendor), Candidate(base, suffix), category, Draft));
        AddedIn(s, Plugin(Some(vendor), Candidate(base, suffix), category, Draft));
      }
    }
  }

  lemma AddedIn(s: Store, plugin: Plugin)
    ensures s.nextId in Added(s, plugin).plugins
  {
  }

  lemma SubmitBundleKeeps(s: Store, permitted: bool, vendor: Id, name: string, version: string, category: string,
                          artifact: string, slug: Option<string>, existing: Option<Id>)
    requires Inv(s)
    ensures Inv(SubmitBundle(s, permitted, vendor, name, version, category, artifact, slug, existing).0)
  {
    hide Inv, BundlePlugin, WithVersion, NumberTaken, Text.Strip, DropV;
    BundleKeeps(s, vendor, Text.Strip(name), slug, Text.Strip(category), existing);
    var (t, plugin, error) := BundlePlugin(s, vendor, Text.Strip(name), slug, Text.Strip(category), existing);
    if plugin.Some? && !NumberTaken(t.versions, plugin.value, DropV(Text.Strip(version))) {
      WithVersionKeeps(t, plugin.value, DropV(Text.Strip(version)));
    }
  }

  lemma DeclareKeeps(s: Store, permitted: bool, v: Id, declared: seq<string>)
    requires Inv(s)
    ensures Inv(Declare(s, permitted, v, declared).0)
  {
    VersionFacts(s, v);
    hide Inv, Cleaned, RiskOf;
    if Declare(s, permitted, v, declared).1 == Done {
      var scopes := Cleaned(declared).value;
      VersionKeeps(s, v, s.versions[v].(risk := RiskOf(scopes)), s.capabilities[v := scopes]);
    }
  }

  lemma VersionFacts(s: Store, v: Id)
    requires Inv(s)
    ensures v in s.versions ==>
              && v in s.capabilities && s.versions[v].risk == RiskOf(s.capabilities[v])
                  && s.versions[v].plugin in s.plugins
              && (s.versions[v].decidedBy.Some? <==> Decided(s.versions[v].status))
  {
    hide SlugsOk, NumbersOk, RiskOf;
  }

  lemma ReviewKeeps(s: Store, cmd: Command)
    requires Inv(s) && (cmd.DoClaim? || cmd.DoRequestChanges? || cmd.DoDecide?)
    ensures Inv(Apply(s, cmd).0)
  {
    hide RegisterPlugin, SubmitVersion, SubmitBundle, Declare, CreateStandard, DeleteStandard, Inv, RiskOf, Text.Strip;
    var (t, out) := Apply(s, cmd);
    if out == Done {
      var v := cmd.versionId;
      VersionFacts(s, v);
      VersionKeeps(s, v, t.versions[v], s.capabilities);
      if t.plugins != s.plugins {
        var p := s.versions[v].plugin;
        PluginKeeps(s.(versions := t.versions), p, t.plugins[p]);
      }
    }
  }

  lemma CreateKeeps(s: Store, operator: bool, valid: bool, slug: string, category: string, version: string, caller: Id,
                    publish: bool)
    requires Inv(s)
    ensures Inv(CreateStandard(s, operator, valid, slug, category, version, caller, publish).0)
  {
    hide Inv, Text.Strip, Text.Lower, IsSlug, SlugTaken, CategoryTaken;
    var (t, out) := CreateStandard(s, operator, valid, slug, category, version, caller, publish);
    if out == Done {
      var plugin := Plugin(None, Text.Lower(Text.Strip(slug)), Text.Strip(category), if publish then Active else Draft);
      AddedKeeps(s, plugin);
      AddedIn(s, plugin);
      NewPluginUnused(s, plugin, Text.Strip(version));
      StandardVersionKeeps(Added(s, plugin), s.nextId, Text.Strip(version), caller);
    }
  }

  lemma NewPluginUnused(s: Store, plugin: Plugin, number: string)
    requires Inv(s)
    ensures !NumberTaken(Added(s, plugin).versions, s.nextId, number)
  {
    hide SlugsOk, NumbersOk, RisksOk, ClaimsOk;
  }

  lemma StandardVersionKeeps(s: Store, plugin: Id, number: string, caller: Id)
    requires Inv(s) && plugin in s.plugins && !NumberTaken(s.versions, plugin, number)
    ensures Inv(s.(nextId := s.nextId + 1,
                   versions := s.versions[s.nextId := Version(plugin, number, Approved, Low, None, Some(caller))],
                   capabilities := s.capabilities[s.nextId := []]))
  {
    hide SlugsOk, RiskOf;
    assert s.nextId !in s.versions;
    NoScopes();
  }

  lemma DeleteKeeps(s: Store, operator: bool, plugin: Id, inUse: bool)
    requires Inv(s)
    ensures Inv(DeleteStandard(s, operator, plugin, inUse).0)
  {
    hide RiskOf, Decided, SlugChars;
  }

  lemma StepKeeps(s: Store, cmd: Command)
    requires Inv(s)
    ensures Inv(Apply(s, cmd).0)
  {
    hide Inv, SubmitBundle, Declare, Claim, RequestChanges, Decide, CreateStandard, DeleteStandard, Added, WithVersion,
         IsSlug, SlugTaken, NumberTaken, Text.Strip, Text.Lower;
    match cmd
    case DoRegister(permitted, vendor, name, slug, category) =>
      var plugin := Plugin(Some(vendor), Text.Lower(Text.Strip(slug)), Text.Strip(category), Draft);
      if IsSlug(plugin.slug) && !SlugTaken(s.plugins, plugin.slug) {
        AddedKeeps(s, plugin);
      }
    case DoSubmitVersion(permitted, plugin, version, artifact) =>
      if plugin in s.plugins && !NumberTaken(s.versions, plugin, Text.Strip(version)) {
        WithVersionKeeps(s, plugin, Text.Strip(version));
      }
    case DoSubmitBundle(permitted, vendor, name, version, category, artifact, slug, existing) =>
      SubmitBundleKeeps(s, permitted, vendor, name, version, category, artifact, slug, existing);
    case DoDeclare(permitted, v, declared) => DeclareKeeps(s, permitted, v, declared);
    case DoClaim(_, _, _) => ReviewKeeps(s, cmd);
    case DoRequestChanges(_, _, _, _) => ReviewKeeps(s, cmd);
    case DoDecide(_, _, _, _) => ReviewKeeps(s, cmd);
    case DoCreateStandard(operator, valid, slug, category, version, caller, publish) =>
      CreateKeeps(s, operator, valid, slug, category, version, caller, publish);
    case DoDeleteStandard(operator, plugin, inUse) => DeleteKeeps(s, operator, plugin, inUse);
  }

  ghost function Run(s: Store, cmds: seq<Command>): Store
    decreases |cmds|
  {
    if cmds == [] then s else Apply(Run(s, cmds[..|cmds| - 1]), cmds[|cmds| - 1]).0
  }

  lemma {:induction false} RunKeeps(s: Store, cmds: seq<Command>)
    requires Inv(s)
    ensures Inv(Run(s, cmds))
    decreases |cmds|
  {
    hide Inv, Apply;
    if cmds != [] {
      RunKeeps(s, cmds[..|cmds| - 1]);
      StepKeeps(Run(s, cmds[..|cmds| - 1]), cmds[|cmds| - 1]);
    }
  }

  /** In every reachable state the slugs are distinct and match the pattern, and the risk level of
      every version, decided or not, is that of the scopes it declares now. */
  lemma SlugsAndRisks(cmds: seq<Command>)
    ensures var z := Run(EMPTY, cmds);
      && (forall p | p in z.plugins :: IsSlug(z.plugins[p].slug))
      && (forall p, q | p in z.plugins && q in z.plugins && z.plugins[p].slug == z.plugins[q].slug :: p == q)
      && (forall v | v in z.versions :: v in z.capabilities && z.versions[v].risk == RiskOf(z.capabilities[v]))
  {
    EmptyOk();
    RunKeeps(EMPTY, cmds);
    var z := Run(EMPTY, cmds);
    hide IdsOk, NumbersOk, ClaimsOk, RiskOf, Run, IsSlug, SlugChars;
    forall p | p in z.plugins ensures IsSlug(z.plugins[p].slug) {
      SlugPattern(z.plugins[p].slug);
    }
  }

  // ---------- decisions and claims over runs

  /** A decided version of a vendor's plugin is as it was, with its scopes; an undecided one keeps its claimer. */
  ghost predicate VersionLater(s: Store, t: Store, v: Id) {
    v in s.versions && v in s.capabilities ==>
      && v in t.versions && v in t.capabilities && t.versions[v].plugin == s.versions[v].plugin
      && (Decided(s.versions[v].status) ==> t.versions[v] == s.versions[v] && t.capabilities[v] == s.capabilities[v])
      && (s.versions[v].claimedBy.Some? ==> t.versions[v].claimedBy == s.versions[v].claimedBy)
  }

  predicate IsVendors(s: Store, v: Id) {
    v in s.versions && s.versions[v].plugin in s.plugins && s.plugins[s.versions[v].plugin].vendor.Some?
  }

  lemma BundleShape(s: Store, vendor: Id, name: string, slug: Option<string>, category: string, existing: Option<Id>)
    ensures var (t, plugin, error) := BundlePlugin(s, vendor, name, slug, category, existing);
      && t == s.(nextId := t.nextId, plugins := t.plugins) && t.nextId >= s.nextId
      && forall p | p in s.plugins && p != s.nextId :: p in t.plugins && t.plugins[p].vendor == s.plugins[p].vendor
  {
    hide Normalized, Candidate;
  }

  lemma SubmitBundleLater(s: Store, permitted: bool, vendor: Id, name: string, version: string, category: string,
                          artifact: string, slug: Option<string>, existing: Option<Id>, v: Id)
    requires IsVendors(s, v) && v in s.capabilities && s.versions[v].plugin < s.nextId && v < s.nextId
    ensures var t := SubmitBundle(s, permitted, vendor, name, version, category, artifact, slug, existing).0;
      VersionLater(s, t, v) && IsVendors(t, v)
  {
    hide BundlePlugin, NumberTaken, Text.Strip, DropV;
    BundleShape(s, vendor, Text.Strip(name), slug, Text.Strip(category), existing);
  }

  lemma StepLater(s: Store, cmd: Command, v: Id)
    requires Inv(s) && IsVendors(s, v)
    ensures VersionLater(s, Apply(s, cmd).0, v) && IsVendors(Apply(s, cmd).0, v)
  {
    hide Inv, IsVendors, VersionLater, RegisterPlugin, SubmitVersion, SubmitBundle, Declare, Claim, RequestChanges,
         Decide, CreateStandard, DeleteStandard;
    BelowNext(s, v);
    match cmd
    case DoRegister(permitted, vendor, name, slug, category) =>
      RegisterLater(s, permitted, vendor, name, slug, category, v);
    case DoSubmitVersion(permitted, plugin, version, artifact) =>
      SubmitLater(s, permitted, plugin, version, artifact, v);
    case DoSubmitBundle(permitted, vendor, name, version, category, artifact, slug, existing) =>
      SubmitBundleLater(s, permitted, vendor, name, version, category, artifact, slug, existing, v);
    case DoDeclare(permitted, w, declared) => DeclareLater(s, permitted, w, declared, v);
    case DoClaim(operator, w, caller) => ClaimLater(s, operator, w, caller, v);
    case DoRequestChanges(operator, w, caller, notes) => ChangesLater(s, operator, w, caller, notes, v);
    case DoDecide(operator, w, caller, approved) => DecideLater(s, operator, w, caller, approved, v);
    case DoCreateStandard(operator, valid, slug, category, version, caller, publish) =>
      CreateLater(s, operator, valid, slug, category, version, caller, publish, v);
    case DoDeleteStandard(operator, plugin, inUse) => DeleteLater(s, operator, plugin, inUse, v);
  }

  lemma BelowNext(s: Store, v: Id)
    requires Inv(s) && IsVendors(s, v)
    ensures v in s.capabilities && s.versions[v].plugin < s.nextId && v < s.nextId
  {
    hide SlugsOk, NumbersOk, ClaimsOk, RiskOf;
  }

  lemma RegisterLater(s: Store, permitted: bool, vendor: Id, name: string, slug: string, category: string, v: Id)
    requires IsVendors(s, v) && s.versions[v].plugin < s.nextId
    ensures var t := RegisterPlugin(s, permitted, vendor, name, slug, category).0;
      VersionLater(s, t, v) && IsVendors(t, v)
  {
    hide IsSlug, SlugTaken, Text.Strip, Text.Lower, Decided;
  }

  lemma SubmitLater(s: Store, permitted: bool, plugin: Id, version: string, artifact: string, v: Id)
    requires IsVendors(s, v) && v < s.nextId
    ensures var t := SubmitVersion(s, permitted, plugin, version, artifact).0; VersionLater(s, t, v) && IsVendors(t, v)
  {
    hide NumberTaken, Text.Strip, Decided;
  }

  lemma DeclareLater(s: Store, permitted: bool, w: Id, declared: seq<string>, v: Id)
    requires IsVendors(s, v)
    ensures var t := Declare(s, permitted, w, declared).0; VersionLater(s, t, v) && IsVendors(t, v)
  {
    hide Cleaned, RiskOf;
  }

  lemma ClaimLater(s: Store, operator: bool, w: Id, caller: Id, v: Id)
    requires IsVendors(s, v)
    ensures var t := Claim(s, operator, w, caller).0; VersionLater(s, t, v) && IsVendors(t, v)
  {
  }

  lemma ChangesLater(s: Store, operator: bool, w: Id, caller: Id, notes: string, v: Id)
    requires IsVendors(s, v)
    ensures var t := RequestChanges(s, operator, w, caller, notes).0; VersionLater(s, t, v) && IsVendors(t, v)
  {
    hide Text.Strip;
  }

  lemma DecideLater(s: Store, operator: bool, w: Id, caller: Id, approved: bool, v: Id)
    requires IsVendors(s, v)
    ensures var t := Decide(s, operator, w, caller, approved).0; VersionLater(s, t, v) && IsVendors(t, v)
  {
  }

  lemma CreateLater(s: Store, operator: bool, valid: bool, slug: string, category: string, version: string, caller: Id,
                    publish: bool, v: Id)
    requires IsVendors(s, v) && s.versions[v].plugin < s.nextId && v < s.nextId
    ensures var t := CreateStandard(s, operator, valid, slug, category, version, caller,
                                    publish).0; VersionLater(s, t, v) && IsVendors(t, v)
  {
    hide IsSlug, SlugTaken, CategoryTaken, Text.Strip, Text.Lower, Decided;
  }

  lemma DeleteLater(s: Store, operator: bool, plugin: Id, inUse: bool, v: Id)
    requires IsVendors(s, v)
    ensures var t := DeleteStandard(s, operator, plugin, inUse).0; VersionLater(s, t, v) && IsVendors(t, v)
  {
    hide Decided;
  }

  lemma {:induction false} RunLater(s: Store, cmds: seq<Command>, v: Id)
    requires Inv(s) && IsVendors(s, v)
    ensures Inv(Run(s, cmds)) && VersionLater(s, Run(s, cmds), v) && IsVendors(Run(s, cmds), v)
    decreases |cmds|
  {
    RunKeeps(s, cmds);
    hide Inv, Apply;
    if cmds != [] {
      var prior := cmds[..|cmds| - 1];
      RunLater(s, prior, v);
      VersionFacts(s, v);
      StepLater(Run(s, prior), cmds[|cmds| - 1], v);
    }
  }

  /** A decision is final: in every later state the version, its risk level and its scopes are what they
      were when it was made. */
  lemma DecisionIsFinal(s: Store, v: Id, operator: bool, caller: Id, approved: bool, cmds: seq<Command>)
    requires Inv(s) && IsVendors(s, v) && Decide(s, operator, v, caller, approved).1 == Done
    ensures var z := Run(Decide(s, operator, v, caller, approved).0, cmds);
      && v in z.versions && v in z.capabilities && v in s.capabilities
      && z.versions[v] == s.versions[v].(status := if approved then Approved else Rejected, decidedBy := Some(caller))
      && z.capabilities[v] == s.capabilities[v]
  {
    hide Inv, RiskOf, Run;
    VersionFacts(s, v);
    var cmd := DoDecide(operator, v, caller, approved);
    assert Apply(s, cmd) == Decide(s, operator, v, caller, approved);
    hide Apply;
    StepKeeps(s, cmd);
    StepLater(s, cmd, v);
    RunLater(Decide(s, operator, v, caller, approved).0, cmds, v);
  }

  /** A claim never changes hands, so a claimed version is decided by its claimer or not at all. */
  lemma ClaimDecides(s: Store, v: Id, operator: bool, caller: Id, cmds: seq<Command>)
    requires Inv(s) && IsVendors(s, v) && Claim(s, operator, v, caller).1 == Done
    ensures var z := Run(Claim(s, operator, v, caller).0, cmds);
      && v in z.versions && z.versions[v].claimedBy == Some(caller)
      && (Decided(z.versions[v].status) <==> z.versions[v].decidedBy == Some(caller))
      && (forall operator, other, approved | other != caller :: Decide(z, operator, v, other, approved).1.Refused?)
  {
    hide Inv, RiskOf, Run;
    var t := Claim(s, operator, v, caller).0;
    var cmd := DoClaim(operator, v, caller);
    assert Apply(s, cmd).0 == t;
    hide Apply;
    StepKeeps(s, cmd);
    StepLater(s, cmd, v);
    ClaimedBy(s, v, operator, caller);
    hide Claim;
    RunLater(t, cmds, v);
    VersionFacts(t, v);
    ClaimerDecided(Run(t, cmds), v);
    OthersRefused(Run(t, cmds), v, caller);
  }

  lemma ClaimedBy(s: Store, v: Id, operator: bool, caller: Id)
    requires Claim(s, operator, v, caller).1 == Done
    ensures v in Claim(s, operator, v, caller).0.versions
        && Claim(s, operator, v, caller).0.versions[v].claimedBy == Some(caller)
  {
  }

  lemma OthersRefused(s: Store, v: Id, caller: Id)
    requires v in s.versions && s.versions[v].claimedBy == Some(caller)
    ensures forall operator, other, approved | other != caller :: Decide(s, operator, v, other, approved).1.Refused?
  {
  }

  lemma ClaimerDecided(s: Store, v: Id)
    requires Inv(s) && v in s.versions
    ensures s.versions[v].decidedBy.Some? <==> Decided(s.versions[v].status)
    ensures s.versions[v].claimedBy.Some? && s.versions[v].decidedBy.Some?
        ==> s.versions[v].claimedBy == s.versions[v].decidedBy
  {
    hide SlugsOk, NumbersOk, RisksOk;
  }
}
