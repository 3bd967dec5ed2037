/** What the stored risk of a version says of its scopes, when a plugin is active, and exactly when each call
    of the review is accepted. */
module PluginRisks {
  import opened Errors
  import opened Slugs
  import opened Plugins
  import opened PluginLaws
  import Text

  // ---------- risk

  predicate SaysAt(scope: string, token: string, i: nat) {
    i + |token| <= |scope| && Text.Lower(scope[i..i + |token|]) == token
  }

  /** Somewhere in the scope the token stands, in whatever case. */
  predicate Says(scope: string, token: string) {
    exists i: nat | i <= |scope| :: SaysAt(scope, token, i)
  }

  predicate HighScope(scope: string) {
    || Says(scope, "payment") || Says(scope, "payments") || Says(scope, "webhook") || Says(scope, "webhooks")
    || Says(scope, "oauth") || Says(scope, "oauth2")
  }

  predicate MediumScope(scope: string) {
    || Says(scope, "pii") || Says(scope, "identity") || Says(scope, "network") || Says(scope, "storage")
    || Says(scope, "secret") || Says(scope, "secrets")
  }

  lemma ContainsSays(scope: string, token: string)
    ensures Text.Contains(Text.Lower(scope), token) <==> Says(scope, token)
  {
    var low := Text.Lower(scope);
    forall i: nat | i <= |scope| ensures Text.OccursAt(low, token, i) <==> SaysAt(scope, token, i) {
      if i + |token| <= |scope| {
        assert low[i..i + |token|] == Text.Lower(scope[i..i + |token|]);
      }
    }
  }

  lemma HighMentions(scope: string)
    ensures Mentions(scope, HIGH_TOKENS) <==> HighScope(scope)
  {
    hide Text.Contains, Text.Lower, Says;
    var t := HIGH_TOKENS;
    assert t == ["payment", "payments", "webhook", "webhooks", "oauth", "oauth2"];
    forall i | 0 <= i < 6 ensures Text.Contains(Text.Lower(scope), t[i]) <==> Says(scope, t[i]) {
      ContainsSays(scope, t[i]);
    }
    SixMentions(scope, t);
  }

  lemma MediumMentions(scope: string)
    ensures Mentions(scope, MEDIUM_TOKENS) <==> MediumScope(scope)
  {
    hide Text.Contains, Text.Lower, Says;
    var t := MEDIUM_TOKENS;
    assert t == ["pii", "identity", "network", "storage", "secret", "secrets"];
    forall i | 0 <= i < 6 ensures Text.Contains(Text.Lower(scope), t[i]) <==> Says(scope, t[i]) {
      ContainsSays(scope, t[i]);
    }
    SixMentions(scope, t);
  }

  lemma SixMentions(scope: string, t: seq<string>)
    requires |t| == 6 && forall i | 0 <= i < 6 :: Text.Contains(Text.Lower(scope), t[i]) <==> Says(scope, t[i])
    ensures Mentions(scope, t) <==> Says(scope, t[0]) || Says(scope, t[1]) || Says(scope, t[2]) || Says(scope, t[3])
                                    || Says(scope, t[4]) || Says(scope, t[5])
  {
    hide Text.Contains, Text.Lower, Says;
  }

  /** The risk level that the scopes of a list ask for. */
  ghost predicate Rated(risk: Risk, scopes: seq<string>) {
    && (risk == High <==> exists k | 0 <= k < |scopes| :: HighScope(scopes[k]))
    && (risk == Medium <==>
          (forall k | 0 <= k < |scopes| :: !HighScope(scopes[k])) && exists k | 0 <= k < |scopes| ::
              MediumScope(scopes[k]))
    && (risk == Low <==> forall k | 0 <= k < |scopes| :: !HighScope(scopes[k]) && !MediumScope(scopes[k]))
  }

  lemma RiskRated(scopes: seq<string>)
    ensures Rated(RiskOf(scopes), scopes)
  {
    hide Mentions, HighScope, MediumScope;
    forall k | 0 <= k < |scopes|
      ensures Mentions(scopes[k], HIGH_TOKENS) <==> HighScope(scopes[k])
      ensures Mentions(scopes[k], MEDIUM_TOKENS) <==> MediumScope(scopes[k])
    {
      HighMentions(scopes[k]);
      MediumMentions(scopes[k]);
    }
  }

  /** In every reachable state the stored risk of every version is the one that its scopes ask for: high if
      one of them says one of six words, medium if none does and one says one of six others, low otherwise. */
  lemma StoredRisk(cmds: seq<Command>, v: Id)
    requires v in Run(EMPTY, cmds).versions
    ensures var z := Run(EMPTY, cmds);
      v in z.capabilities && Rated(z.versions[v].risk, z.capabilities[v])
  {
    SlugsAndRisks(cmds);
    hide Run, RiskOf, Rated;
    RiskRated(Run(EMPTY, cmds).capabilities[v]);
  }

  /** Every scope, stripped, says something, and no two the same. */
  ghost predicate WellDeclared(declared: seq<string>) {
    && declared != []
    && (forall i | 0 <= i < |declared| :: Text.Strip(declared[i]) != "")
    && forall i, j | 0 <= i < j < |declared| :: Text.Strip(declared[i]) != Text.Strip(declared[j])
  }

  ghost predicate Stripped(declared: seq<string>, scopes: seq<string>) {
    |scopes| == |declared| && forall i | 0 <= i < |declared| :: scopes[i] == Text.Strip(declared[i])
  }

  lemma {:induction false} CleanedExactly(declared: seq<string>)
    ensures declared != [] ==> (Cleaned(declared).Some? <==> WellDeclared(declared))
    ensures Cleaned(declared).Some? ==> Stripped(declared, Cleaned(declared).value)
  {
    hide Text.Strip;
    if declared != [] {
      var front, last := declared[..|declared| - 1], declared[|declared| - 1];
      CleanedExactly(front);
      if Cleaned(front).Some? {
        var scopes := Cleaned(front).value;
        assert Text.Strip(last) in scopes <==>
            exists i | 0 <= i < |front| :: Text.Strip(front[i]) == Text.Strip(last) by {
          assert forall i | 0 <= i < |front| :: scopes[i] == Text.Strip(front[i]) && scopes[i] in scopes;
        }
        assert forall i | 0 <= i < |front| :: front[i] == declared[i];
      } else {
        assert !WellDeclared(front);
        assert WellDeclared(declared) ==> WellDeclared(front);
      }
    }
  }

  /** A declaration is accepted exactly for an undecided version of a vendor's plugin, by who is permitted, of
      scopes that say something and differ. They replace the version's scopes, in their order, and nothing
      changes but those and its risk. */
  lemma DeclareExactly(s: Store, permitted: bool, v: Id, declared: seq<string>)
    requires Inv(s)
    ensures var (t, out) := Declare(s, permitted, v, declared);
      && (out == Done <==>
            && IsVendors(s, v) && permitted && WellDeclared(declared)
            && s.versions[v].status != Approved && s.versions[v].status != Rejected)
      && (out != Done ==> t == s)
      && (out == Done ==>
            && v in t.capabilities && Stripped(declared, t.capabilities[v]) && v in t.versions
            && Rated(t.versions[v].risk, t.capabilities[v])
            && t == s.(capabilities := s.capabilities[v := t.capabilities[v]],
                       versions := s.versions[v := s.versions[v].(risk := t.versions[v].risk)]))
  {
    CleanedExactly(declared);
    assert WellDeclared(declared) ==> declared != [];
    DeclareCases(s, permitted, v, declared);
    hide Inv, WellDeclared, Stripped, Cleaned, RiskOf, Rated, Declare;
    if Cleaned(declared).Some? {
      RiskRated(Cleaned(declared).value);
    }
  }

  lemma DeclareCases(s: Store, permitted: bool, v: Id, declared: seq<string>)
    ensures var (t, out) := Declare(s, permitted, v, declared);
      && (out == Done <==>
            && IsVendors(s, v) && permitted && declared != [] && Cleaned(declared).Some?
            && s.versions[v].status != Approved && s.versions[v].status != Rejected)
      && (out != Done ==> t == s)
      && (out == Done ==>
            var scopes := Cleaned(declared).value;
            t == s.(capabilities := s.capabilities[v := scopes],
                    versions := s.versions[v := s.versions[v].(risk := RiskOf(scopes))]))
  {
    hide Cleaned, RiskOf;
  }

  // ---------- submission

  predicate IsTaken(s: Store, plugin: Id, number: string) {
    exists v | v in s.versions :: s.versions[v].plugin == plugin && s.versions[v].number == number
  }

  /** The version was added: waiting for review, without scopes, claim or decision. */
  ghost predicate VersionAdded(s: Store, t: Store, plugin: Id, number: string) {
    && s.nextId !in s.versions
    && t == s.(nextId := s.nextId + 1, capabilities := s.capabilities[s.nextId := []],
               versions := s.versions[s.nextId := Version(plugin, number, PendingReview, Low, None, None)])
  }

  /** A plugin is registered exactly by who is permitted, with a name and a category, under a slug that no
      other plugin has; it is a draft of the vendor. */
  lemma RegisterExactly(s: Store, permitted: bool, vendor: Id, name: string, slug: string, category: string)
    requires Inv(s)
    ensures var (t, out) := RegisterPlugin(s, permitted, vendor, name, slug, category);
      var clean := Text.Lower(Text.Strip(slug));
      && (out == Done <==>
            && permitted && Text.Strip(name) != "" && Text.Strip(category) != "" && IsSlug(clean)
            && forall p | p in s.plugins :: s.plugins[p].slug != clean)
      && (out != Done ==> t == s)
      && (out == Done ==>
            && s.nextId !in s.plugins
            && t == s.(nextId := s.nextId + 1,
                       plugins := s.plugins[s.nextId := Plugin(Some(vendor), clean, Text.Strip(category), Draft)]))
  {
    Fresh(s);
    hide Inv, Text.Strip, Text.Lower, IsSlug, HasApproved;
  }

  /** A version is accepted exactly of a vendor's plugin, from who is permitted, under a number that the
      plugin has not used. */
  lemma SubmitExactly(s: Store, permitted: bool, plugin: Id, version: string, artifact: string)
    requires Inv(s)
    ensures var (t, out) := SubmitVersion(s, permitted, plugin, version, artifact);
      && (out == Done <==>
            && plugin in s.plugins && s.plugins[plugin].vendor.Some? && permitted
            && Text.Strip(version) != "" && Text.Strip(artifact) != "" && !IsTaken(s, plugin, Text.Strip(version)))
      && if out == Done then VersionAdded(s, t, plugin, Text.Strip(version)) else t == s
  {
    Fresh(s);
    hide Inv, Text.Strip;
  }

  /** The operator's own plugin is created exactly in one of the nine categories that has none yet, under a slug
      that no other plugin has; it comes with a version approved by who creates it. */
  lemma StandardExactly(s: Store, operator: bool, valid: bool, slug: string, category: string, version: string,
                        caller: Id, publish: bool)
    requires Inv(s)
    ensures var (t, out) := CreateStandard(s, operator, valid, slug, category, version, caller, publish);
      var clean, kind := Text.Lower(Text.Strip(slug)), Text.Strip(category);
      && (out == Done <==>
            && operator && valid && IsSlug(clean) && kind in CATEGORIES
            && forall p | p in s.plugins ::
                s.plugins[p].slug != clean && !(s.plugins[p].vendor.None? && s.plugins[p].category == kind))
      && (out != Done ==> t == s)
      && (out == Done ==>
            && t.plugins == s.plugins[s.nextId := Plugin(None, clean, kind, if publish then Active else Draft)]
            && t.versions == s.versions[s.nextId + 1 :=
                                          Version(s.nextId, Text.Strip(version), Approved, Low, None, Some(caller))])
  {
    CreatedRows(s, operator, valid, slug, category, version, caller, publish);
    StandardRefused(s, operator, valid, slug, category, version, caller, publish);
    hide Inv, CreateStandard, Text.Strip, Text.Lower, IsSlug, CATEGORIES;
  }

  lemma StandardRefused(s: Store, operator: bool, valid: bool, slug: string, category: string, version: string,
                        caller: Id, publish: bool)
    ensures var (t, out) := CreateStandard(s, operator, valid, slug, category, version, caller, publish);
      var clean, kind := Text.Lower(Text.Strip(slug)), Text.Strip(category);
      && (out == Done <==>
            operator && valid && IsSlug(clean) && kind in CATEGORIES && !CategoryTaken(s.plugins, kind)
            && !SlugTaken(s.plugins, clean))
      && (out != Done <==> t == s)
  {
    hide Text.Strip, Text.Lower, IsSlug, CATEGORIES, SlugTaken, CategoryTaken;
  }

  /** It is deleted exactly by the operator while no vendor uses it, with its versions and their scopes. */
  lemma DeletionExactly(s: Store, operator: bool, plugin: Id, inUse: bool)
    ensures var (t, out) := DeleteStandard(s, operator, plugin, inUse);
      && (out == Done <==> operator && plugin in s.plugins && s.plugins[plugin].vendor.None? && !inUse)
      && (out != Done ==> t == s)
      && (out == Done ==>
            && t == s.(plugins := s.plugins - {plugin}, versions := t.versions, capabilities := t.capabilities)
            && (forall v | v in s.versions :: v in t.versions <==> s.versions[v].plugin != plugin)
            && (forall v | v in t.versions :: v in s.versions && t.versions[v] == s.versions[v])
            && (forall v | v in s.versions && v in s.capabilities :: v in t.capabilities <==> v in t.versions))
  {
  }

  /** Without its leading v's. */
  lemma {:induction false} NumberOf(s: string)
    ensures exists n: nat | n <= |s| ::
      (forall i | 0 <= i < n :: s[i] == 'v') && DropV(s) == s[n..] && (n < |s| ==> s[n] != 'v')
  {
    if s != "" && s[0] == 'v' {
      NumberOf(s[1..]);
      var n: nat :| n <= |s| - 1 && (forall i | 0 <= i < n :: s[1..][i] == 'v') && DropV(s[1..]) == s[1..][n..]
          && (n < |s| - 1 ==> s[1..][n] != 'v');
      assert forall i | 0 <= i < n + 1 :: s[i] == 'v' by {
        assert forall i | 1 <= i < n + 1 :: s[i] == s[1..][i - 1];
      }
      assert s[n + 1..] == s[1..][n..];
    } else {
      assert s[0..] == s;
    }
  }

  /** The plugin that a bundle is for: the vendor's own that it names, in a new category, or a new draft of the
      vendor under a slug that no other plugin has. */
  ghost predicate ForBundle(s: Store, t: Store, vendor: Id, category: string, existing: Option<Id>, plugin: Id) {
    && plugin in t.plugins && t == s.(nextId := t.nextId, plugins := s.plugins[plugin := t.plugins[plugin]])
    && if existing.Some? then
         && existing == Some(plugin) && plugin in s.plugins && s.plugins[plugin].vendor == Some(vendor)
         && t.plugins[plugin] == s.plugins[plugin].(category := category) && t.nextId == s.nextId
       else
         && plugin == s.nextId && plugin !in s.plugins && t.nextId == s.nextId + 1
         && t.plugins[plugin] == Plugin(Some(vendor), t.plugins[plugin].slug, category, Draft)
         && forall p | p in s.plugins :: s.plugins[p].slug != t.plugins[plugin].slug
  }

  /** A bundle is accepted exactly with a name, category, number and artifact, for a plugin of the vendor that
      has not used the number, or for a new one if its name makes a slug; it adds a version to that plugin. */
  lemma BundleExactly(s: Store, permitted: bool, vendor: Id, name: string, version: string, category: string,
                      artifact: string, slug: Option<string>, existing: Option<Id>)
    requires Inv(s)
    ensures var (t, out) := SubmitBundle(s, permitted, vendor, name, version, category, artifact, slug, existing);
      var number := DropV(Text.Strip(version));
      && (out == Done <==>
            && permitted && Text.Strip(name) != "" && Text.Strip(category) != "" && number != ""
            && Text.Strip(artifact) != ""
            && if existing.Some? then
                 && existing.value in s.plugins && s.plugins[existing.value].vendor == Some(vendor)
                 && !IsTaken(s, existing.value, number)
               else Normalized(if slug.Some? && slug.value != "" then slug.value else Text.Strip(name)) != "")
      && (out != Done ==> t == s)
      && (out == Done ==> exists u, p ::
            ForBundle(s, u, vendor, Text.Strip(category), existing, p) && VersionAdded(u, t, p, number))
  {
    Fresh(s);
    PluginOfBundle(s, vendor, Text.Strip(name), slug, Text.Strip(category), existing);
    hide Inv, Text.Strip, DropV, Normalized, BundlePlugin, ForBundle;
    var (u, plugin, error) := BundlePlugin(s, vendor, Text.Strip(name), slug, Text.Strip(category), existing);
    if plugin.Some? {
      SameNumbers(s, u, plugin.value, DropV(Text.Strip(version)));
    }
  }

  lemma SameNumbers(s: Store, u: Store, plugin: Id, number: string)
    requires u.versions == s.versions
    ensures NumberTaken(u.versions, plugin, number) <==> IsTaken(s, plugin, number)
  {
  }

  lemma PluginOfBundle(s: Store, vendor: Id, name: string, slug: Option<string>, category: string, existing: Option<Id>)
    requires Inv(s)
    ensures var (u, plugin, error) := BundlePlugin(s, vendor, name, slug, category, existing);
      && u.versions == s.versions && u.nextId !in u.versions
      && (plugin.Some? <==>
            if existing.Some? then existing.value in s.plugins && s.plugins[existing.value].vendor == Some(vendor)
            else Normalized(if slug.Some? && slug.value != "" then slug.value else name) != "")
      && (plugin.Some? ==> ForBundle(s, u, vendor, category, existing, plugin.value))
      && (existing.None? && plugin.Some? ==> forall number :: !IsTaken(s, plugin.value, number))
  {
    Fresh(s);
    hide Inv;
    if existing.Some? {
      hide Normalized, Candidate, IsTaken;
      if existing.value in s.plugins && s.plugins[existing.value].vendor == Some(vendor) {
        var x := s.plugins[existing.value].(category := category);
        assert s.plugins[existing.value := x][existing.value] == x;
      }
    } else {
      NewOfBundle(s, vendor, name, slug, category);
    }
  }

  lemma NewOfBundle(s: Store, vendor: Id, name: string, slug: Option<string>, category: string)
    requires s.nextId !in s.plugins && s.nextId !in s.versions && s.nextId + 1 !in s.versions
    requires forall v | v in s.versions :: s.versions[v].plugin in s.plugins
    ensures var (u, plugin, error) := BundlePlugin(s, vendor, name, slug, category, None);
      && u.versions == s.versions && u.nextId !in u.versions
      && (plugin.Some? <==> Normalized(if slug.Some? && slug.value != "" then slug.value else name) != "")
      && (plugin.Some? ==>
            ForBundle(s, u, vendor, category, None, plugin.value) && forall number :: !IsTaken(s, plugin.value, number))
  {
    var base := Normalized(if slug.Some? && slug.value != "" then slug.value else name);
    if base != "" {
      FreeSlugFree(s.plugins, Candidate(base, Smallest(base, TakenSlugs(s.plugins), 0)));
    }
    hide Normalized, Candidate;
  }

  // ---------- review

  predicate Undecided(s: Store, v: Id) {
    v in s.versions && s.versions[v].status != Approved && s.versions[v].status != Rejected
  }

  predicate FreeFor(s: Store, v: Id, caller: Id) {
    v in s.versions && (s.versions[v].claimedBy == None || s.versions[v].claimedBy == Some(caller))
  }

  /** A version is claimed, sent back or decided exactly by the operator, while nobody else has claimed it:
      sent back while it is pending, and with a note; claimed and decided until it is decided. */
  lemma ReviewExactly(s: Store, v: Id, operator: bool, caller: Id, notes: string, approved: bool)
    requires Inv(s)
    ensures Claim(s, operator, v, caller).1 == Done <==> operator && Undecided(s, v) && FreeFor(s, v, caller)
    ensures RequestChanges(s, operator, v, caller, notes).1 == Done <==>
              operator && FreeFor(s, v, caller) && s.versions[v].status == PendingReview && Text.Strip(notes) != ""
    ensures Decide(s, operator, v, caller, approved).1 == Done <==>
              operator && Undecided(s, v) && FreeFor(s, v, caller)
  {
    VersionFacts(s, v);
    hide Inv, Text.Strip;
  }

  /** An accepted decision writes the decision and who made it; an approval activates the plugin if it is
      still a draft, a rejection never. Nothing else changes. */
  lemma DecisionMakes(s: Store, operator: bool, v: Id, caller: Id, approved: bool)
    requires Inv(s) && Decide(s, operator, v, caller, approved).1 == Done
    ensures var t := Decide(s, operator, v, caller, approved).0;
      && v in s.versions && s.versions[v].plugin in s.plugins && s.versions[v].plugin in t.plugins
      && var p := s.versions[v].plugin;
         && t == s.(versions := s.versions[v := s.versions[v].(status := if approved then Approved else Rejected,
                                                              decidedBy := Some(caller))],
                    plugins := s.plugins[p := s.plugins[p].(status := t.plugins[p].status)])
         && t.plugins[p].status == if approved && s.plugins[p].status == Draft then Active else s.plugins[p].status
  {
    hide Inv;
    assert s.plugins == s.plugins[s.versions[v].plugin := s.plugins[s.versions[v].plugin]];
  }

  // ---------- active plugins

  ghost predicate HasApproved(versions: map<Id, Version>, p: Id) {
    exists v | v in versions :: versions[v].plugin == p && versions[v].status == Approved
  }

  /** A vendor's plugin is active if it has an approved version, and a draft otherwise. */
  ghost predicate ActiveOk(plugins: map<Id, Plugin>, versions: map<Id, Version>) {
    forall p | p in plugins && plugins[p].vendor.Some? ::
      plugins[p].status == if HasApproved(versions, p) then Active else Draft
  }

  lemma ActiveStep(s: Store, cmd: Command)
    requires Inv(s) && ActiveOk(s.plugins, s.versions)
    ensures ActiveOk(Apply(s, cmd).0.plugins, Apply(s, cmd).0.versions)
  {
    hide Inv, ActiveOk, RegisterPlugin, SubmitVersion, SubmitBundle, Declare, Claim, RequestChanges, Decide,
         CreateStandard, DeleteStandard;
    match cmd
    case DoRegister(permitted, vendor, name, slug, category) =>
      RegisterActive(s, permitted, vendor, name, slug, category);
    case DoSubmitVersion(permitted, plugin, version, artifact) => SubmitActive(s, permitted, plugin, version, artifact);
    case DoSubmitBundle(permitted, vendor, name, version, category, artifact, slug, existing) =>
      BundleActive(s, permitted, vendor, name, version, category, artifact, slug, existing);
    case DoDeclare(permitted, v, declared) => DeclareActive(s, permitted, v, declared);
    case DoClaim(operator, v, caller) => ClaimActive(s, operator, v, caller);
    case DoRequestChanges(operator, v, caller, notes) => ChangesActive(s, operator, v, caller, notes);
    case DoDecide(operator, v, caller, approved) => DecideActive(s, operator, v, caller, approved);
    case DoCreateStandard(operator, valid, slug, category, version, caller, publish) =>
      CreateActive(s, operator, valid, slug, category, version, caller, publish);
    case DoDeleteStandard(operator, plugin, inUse) => DeleteActive(s, operator, plugin, inUse);
  }

  lemma Fresh(s: Store)
    requires Inv(s)
    ensures s.nextId !in s.plugins && s.nextId !in s.versions && s.nextId + 1 !in s.versions
        && !HasApproved(s.versions, s.nextId)
    ensures forall v | v in s.versions :: s.versions[v].plugin in s.plugins
  {
    hide SlugsOk, NumbersOk, RisksOk, ClaimsOk;
  }

  /** One version replaced: whether its plugin has an approved version depends on it alone. */
  lemma VersionActive(s: Store, v: Id, x: Version)
    requires ActiveOk(s.plugins, s.versions) && x.status != Approved
    requires v in s.versions ==> x.plugin == s.versions[v].plugin && s.versions[v].status != Approved
    ensures ActiveOk(s.plugins, s.versions[v := x])
  {
    var after := s.versions[v := x];
    forall p ensures HasApproved(after, p) <==> HasApproved(s.versions, p) {
      if w :| w in s.versions && s.versions[w].plugin == p && s.versions[w].status == Approved {
        assert after[w] == s.versions[w];
      }
    }
  }

  /** A draft, or a plugin of the platform, is added. */
  lemma PluginAdded(plugins: map<Id, Plugin>, versions: map<Id, Version>, n: Id, x: Plugin)
    requires ActiveOk(plugins, versions) && !HasApproved(versions, n) && (x.vendor.Some? ==> x.status == Draft)
    ensures ActiveOk(plugins[n := x], versions)
  {
    hide HasApproved;
  }

  lemma RegisterActive(s: Store, permitted: bool, vendor: Id, name: string, slug: string, category: string)
    requires Inv(s) && ActiveOk(s.plugins, s.versions)
    ensures var t := RegisterPlugin(s, permitted, vendor, name, slug, category).0; ActiveOk(t.plugins, t.versions)
  {
    Fresh(s);
    hide Inv, ActiveOk, HasApproved, Text.Strip, Text.Lower, IsSlug, SlugTaken;
    PluginAdded(s.plugins, s.versions, s.nextId,
                Plugin(Some(vendor), Text.Lower(Text.Strip(slug)), Text.Strip(category), Draft));
  }

  lemma SubmitActive(s: Store, permitted: bool, plugin: Id, version: string, artifact: string)
    requires Inv(s) && ActiveOk(s.plugins, s.versions)
    ensures var t := SubmitVersion(s, permitted, plugin, version, artifact).0; ActiveOk(t.plugins, t.versions)
  {
    Fresh(s);
    VersionActive(s, s.nextId, Version(plugin, Text.Strip(version), PendingReview, Low, None, None));
    hide Inv, ActiveOk, Text.Strip, NumberTaken;
  }

  lemma BundleActive(s: Store, permitted: bool, vendor: Id, name: string, version: string, category: string,
                     artifact: string, slug: Option<string>, existing: Option<Id>)
    requires Inv(s) && ActiveOk(s.plugins, s.versions)
    ensures var t := SubmitBundle(s, permitted, vendor, name, version, category, artifact, slug, existing).0;
      ActiveOk(t.plugins, t.versions)
  {
    Fresh(s);
    PluginActive(s, vendor, Text.Strip(name), slug, Text.Strip(category), existing);
    BundleShape(s, vendor, Text.Strip(name), slug, Text.Strip(category), existing);
    var (t, plugin, error) := BundlePlugin(s, vendor, Text.Strip(name), slug, Text.Strip(category), existing);
    hide Inv, ActiveOk, BundlePlugin, NumberTaken, Text.Strip, DropV;
    if plugin.Some? {
      VersionActive(t, t.nextId, Version(plugin.value, DropV(Text.Strip(version)), PendingReview, Low, None, None));
    }
  }

  lemma PluginActive(s: Store, vendor: Id, name: string, slug: Option<string>, category: string, existing: Option<Id>)
    requires Inv(s) && ActiveOk(s.plugins, s.versions)
    ensures var (t, plugin, error) := BundlePlugin(s, vendor, name, slug, category, existing);
      ActiveOk(t.plugins, t.versions) && t.nextId !in t.versions
  {
    Fresh(s);
    hide Inv, HasApproved, Normalized, Candidate, Smallest;
  }

  lemma DeclareActive(s: Store, permitted: bool, v: Id, declared: seq<string>)
    requires Inv(s) && ActiveOk(s.plugins, s.versions)
    ensures var t := Declare(s, permitted, v, declared).0; ActiveOk(t.plugins, t.versions)
  {
    hide Inv, ActiveOk, Cleaned, RiskOf;
    if Declare(s, permitted, v, declared).1 == Done {
      VersionActive(s, v, s.versions[v].(risk := RiskOf(Cleaned(declared).value)));
    }
  }

  lemma ClaimActive(s: Store, operator: bool, v: Id, caller: Id)
    requires ActiveOk(s.plugins, s.versions)
    ensures var t := Claim(s, operator, v, caller).0; ActiveOk(t.plugins, t.versions)
  {
    hide ActiveOk;
    if Claim(s, operator, v, caller).1 == Done {
      VersionActive(s, v, s.versions[v].(claimedBy := Some(caller)));
    }
  }

  lemma ChangesActive(s: Store, operator: bool, v: Id, caller: Id, notes: string)
    requires ActiveOk(s.plugins, s.versions)
    ensures var t := RequestChanges(s, operator, v, caller, notes).0; ActiveOk(t.plugins, t.versions)
  {
    hide ActiveOk, Text.Strip;
    if RequestChanges(s, operator, v, caller, notes).1 == Done {
      VersionActive(s, v, s.versions[v].(status := ChangesRequested));
    }
  }

  lemma DecideActive(s: Store, operator: bool, v: Id, caller: Id, approved: bool)
    requires Inv(s) && ActiveOk(s.plugins, s.versions)
    ensures var t := Decide(s, operator, v, caller, approved).0; ActiveOk(t.plugins, t.versions)
  {
    var (t, out) := Decide(s, operator, v, caller, approved);
    if out == Done {
      DecisionMakes(s, operator, v, caller, approved);
      hide Inv, Decide;
      if approved {
        ApprovedNow(s, t, v);
      } else {
        hide ActiveOk;
        VersionActive(s, v, t.versions[v]);
        assert t.plugins == s.plugins;
      }
    }
  }

  lemma ApprovedNow(s: Store, t: Store, v: Id)
    requires ActiveOk(s.plugins, s.versions) && v in s.versions && s.versions[v].plugin in s.plugins
    requires v in t.versions && t.versions == s.versions[v := t.versions[v]]
    requires t.versions[v].status == Approved && t.versions[v].plugin == s.versions[v].plugin
    requires var p := s.versions[v].plugin;
      p in t.plugins && t.plugins == s.plugins[p := s.plugins[p].(status := t.plugins[p].status)]
      && t.plugins[p].status == if s.plugins[p].status == Draft then Active else s.plugins[p].status
    ensures ActiveOk(t.plugins, t.versions)
  {
    assert HasApproved(t.versions, s.versions[v].plugin);
    forall p | p != s.versions[v].plugin ensures HasApproved(t.versions, p) <==> HasApproved(s.versions, p) {
      if w :| w in s.versions && s.versions[w].plugin == p && s.versions[w].status == Approved {
        assert t.versions[w] == s.versions[w];
      }
    }
  }

  /** An approved version of a plugin of the platform is added. */
  lemma StandardActive(plugins: map<Id, Plugin>, versions: map<Id, Version>, v: Id, x: Version)
    requires ActiveOk(plugins, versions) && v !in versions
    requires x.plugin in plugins && plugins[x.plugin].vendor.None?
    ensures ActiveOk(plugins, versions[v := x])
  {
    var after := versions[v := x];
    forall p | p != x.plugin ensures HasApproved(after, p) <==> HasApproved(versions, p) {
      if w :| w in versions && versions[w].plugin == p && versions[w].status == Approved {
        assert after[w] == versions[w];
      }
    }
  }

  lemma CreateActive(s: Store, operator: bool, valid: bool, slug: string, category: string, version: string, caller: Id,
                     publish: bool)
    requires Inv(s) && ActiveOk(s.plugins, s.versions)
    ensures var t := CreateStandard(s, operator, valid, slug, category, version, caller, publish).0;
      ActiveOk(t.plugins, t.versions)
  {
    Fresh(s);
    hide Inv, ActiveOk, HasApproved, Text.Strip, Text.Lower, IsSlug, SlugTaken, CategoryTaken, CATEGORIES,
         CreateStandard;
    var clean, kind := Text.Lower(Text.Strip(slug)), Text.Strip(category);
    var plugin := Plugin(None, clean, kind, if publish then Active else Draft);
    PluginAdded(s.plugins, s.versions, s.nextId, plugin);
    var x := Version(s.nextId, Text.Strip(version), Approved, Low, None, Some(caller));
    StandardActive(s.plugins[s.nextId := plugin], s.versions, s.nextId + 1, x);
    CreatedRows(s, operator, valid, slug, category, version, caller, publish);
  }

  lemma CreatedRows(s: Store, operator: bool, valid: bool, slug: string, category: string, version: string, caller: Id,
                    publish: bool)
    ensures var (t, out) := CreateStandard(s, operator, valid, slug, category, version, caller, publish);
      || t == s
      || (t.plugins == s.plugins[s.nextId := Plugin(None, Text.Lower(Text.Strip(slug)), Text.Strip(category),
                                                    if publish then Active else Draft)]
          && t.versions == s.versions[s.nextId + 1 :=
                                        Version(s.nextId, Text.Strip(version), Approved, Low, None, Some(caller))])
  {
    hide Text.Strip, Text.Lower, IsSlug, SlugTaken, CategoryTaken, CATEGORIES;
  }

  lemma DeleteActive(s: Store, operator: bool, plugin: Id, inUse: bool)
    requires ActiveOk(s.plugins, s.versions)
    ensures var t := DeleteStandard(s, operator, plugin, inUse).0; ActiveOk(t.plugins, t.versions)
  {
    var (t, out) := DeleteStandard(s, operator, plugin, inUse);
    if out == Done {
      forall p | p in t.plugins ensures HasApproved(t.versions, p) <==> HasApproved(s.versions, p) {
        if w :| w in s.versions && s.versions[w].plugin == p && s.versions[w].status == Approved {
          assert w in t.versions && t.versions[w] == s.versions[w];
        }
      }
    }
  }

  lemma {:induction false} ActiveRun(cmds: seq<Command>)
    ensures Inv(Run(EMPTY, cmds)) && ActiveOk(Run(EMPTY, cmds).plugins, Run(EMPTY, cmds).versions)
    decreases |cmds|
  {
    EmptyOk();
    RunKeeps(EMPTY, cmds);
    hide Inv, Apply, HasApproved;
    if cmds != [] {
      ActiveRun(cmds[..|cmds| - 1]);
      ActiveStep(Run(EMPTY, cmds[..|cmds| - 1]), cmds[|cmds| - 1]);
    }
  }

  /** In every reachable state a vendor's plugin is active exactly if one of its versions has been approved,
      and a draft until then. */
  lemma ActiveExactly(cmds: seq<Command>, p: Id)
    requires p in Run(EMPTY, cmds).plugins && Run(EMPTY, cmds).plugins[p].vendor.Some?
    ensures var z := Run(EMPTY, cmds);
      && (z.plugins[p].status == Active <==>
            exists v | v in z.versions :: z.versions[v].plugin == p && z.versions[v].status == Approved)
      && (z.plugins[p].status == Active || z.plugins[p].status == Draft)
  {
    ActiveRun(cmds);
    hide Run, Inv;
    assert HasApproved(Run(EMPTY, cmds).versions, p) ==> Run(EMPTY, cmds).plugins[p].status == Active;
  }
}
