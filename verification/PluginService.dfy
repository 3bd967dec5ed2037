/** The plugin service: it changes rows in place and is proved against `Plugins`. */
module PluginServices {
  import opened Errors
  import opened Slugs
  import P = Plugins
  import opened PluginLaws
  import Text

  type Id = P.Id

  lemma CleanedPrefix(declared: seq<string>, i: nat)
    requires i <= |declared| && P.Cleaned(declared[..i]) == None
    ensures P.Cleaned(declared) == None
    decreases |declared| - i
  {
    hide P.Cleaned;
    if i < |declared| {
      assert declared[..i + 1][..i] == declared[..i];
      CleanedStep(declared[..i + 1]);
      CleanedPrefix(declared, i + 1);
    } else {
      assert declared[..i] == declared;
    }
  }

  lemma CleanedStep(declared: seq<string>)
    requires declared != [] && P.Cleaned(declared[..|declared| - 1]) == None
    ensures P.Cleaned(declared) == None
  {
    hide Text.Strip;
  }

  class PluginService {
    var nextId: Id
    var plugins: map<Id, P.Plugin>
    var versions: map<Id, P.Version>
    var capabilities: map<Id, seq<string>>

    function State(): P.Store
      reads this
    {
      P.Store(nextId, plugins, versions, capabilities)
    }

    constructor ()
      ensures State() == P.EMPTY && Inv(State())
    {
      nextId, plugins, versions, capabilities := 0, map[], map[], map[];
    }

    method IsNumberTaken(plugin: Id, number: string) returns (taken: bool)
      ensures taken <==> P.NumberTaken(versions, plugin, number)
    {
      var left := versions.Keys;
      while left != {}
        invariant left <= versions.Keys
        invariant forall v | v in versions && v !in left :: versions[v].plugin != plugin || versions[v].number != number
        decreases left
      {
        var v :| v in left;
        left := left - {v};
        if versions[v].plugin == plugin && versions[v].number == number {
          return true;
        }
      }
      return false;
    }

    /** Registers or reuses a plugin and submits a version of it; a refusal rolls everything back. */
    method SubmitPluginBundle(permitted: bool, vendor: Id, name: string, version: string, category: string,
                              artifact: string, slug: Option<string>, existing: Option<Id>) returns (out: Outcome)
      requires Inv(State())
      modifies this
      ensures (State(), out) == P.SubmitBundle(old(State()), permitted, vendor, name, version, category, artifact,
                                               slug, existing)
      ensures Inv(State())
    {
      hide Inv, Text.Strip, P.DropV, P.NumberTaken, Normalized;
      SubmitBundleKeeps(State(), permitted, vendor, name, version, category, artifact, slug, existing);
      if !permitted {
        return Refused(Forbidden);
      }
      var number := P.DropV(Text.Strip(version));
      if Text.Strip(name) == "" || Text.Strip(category) == "" || number == "" || Text.Strip(artifact) == "" {
        return Refused(Validation);
      }
      var before := State();
      var plugin, error := BundlePlugin(vendor, Text.Strip(name), slug, Text.Strip(category), existing);
      if plugin.None? {
        return Refused(error);
      }
      var taken := IsNumberTaken(plugin.value, number);
      if taken {
        nextId, plugins := before.nextId, before.plugins;
        return Refused(Conflict);
      }
      versions := versions[nextId := P.Version(plugin.value, number, P.PendingReview, P.Low, None, None)];
      capabilities := capabilities[nextId := []];
      nextId := nextId + 1;
      return Done;
    }

    method BundlePlugin(vendor: Id, name: string, slug: Option<string>, category: string, existing: Option<Id>)
      returns (plugin: Option<Id>, error: Error)
      modifies this`nextId, this`plugins
      ensures (State(), plugin, error) == P.BundlePlugin(old(State()), vendor, name, slug, category, existing)
    {
      hide Normalized, Candidate;
      error := NotFound;
      if existing.Some? {
        if existing.value !in plugins || plugins[existing.value].vendor != Some(vendor) {
          return None, NotFound;
        }
        plugins := plugins[existing.value := plugins[existing.value].(category := category)];
        return existing, NotFound;
      }
      var base := Normalized(if slug.Some? && slug.value != "" then slug.value else name);
      if base == "" {
        return None, Validation;
      }
      var free, suffix, probes := FreeSlug(base, P.TakenSlugs(plugins));
      plugins := plugins[nextId := P.Plugin(Some(vendor), free, category, P.Draft)];
      plugin := Some(nextId);
      nextId := nextId + 1;
    }

    /** Replaces a version's capabilities, and with them its risk level. */
    method DeclareCapabilities(permitted: bool, v: Id, declared: seq<string>) returns (out: Outcome, count: nat)
      requires Inv(State())
      modifies this`versions, this`capabilities
      ensures (State(), out) == P.Declare(old(State()), permitted, v, declared)
      ensures count == if out == Done then |declared| else 0
      ensures Inv(State())
    {
      hide Inv, Text.Strip, P.RiskOf;
      DeclareKeeps(State(), permitted, v, declared);
      count := 0;
      if v !in versions || versions[v].plugin !in plugins {
        return Refused(NotFound), 0;
      }
      if plugins[versions[v].plugin].vendor.None? || !permitted {
        return Refused(Forbidden), 0;
      }
      if versions[v].status == P.Approved || versions[v].status == P.Rejected {
        return Refused(Conflict), 0;
      }
      if declared == [] {
        return Refused(Validation), 0;
      }
      var scopes: seq<string> := [];
      for i := 0 to |declared|
        invariant P.Cleaned(declared[..i]) == Some(scopes) && |scopes| == i
      {
        var cleaned := Text.Strip(declared[i]);
        assert declared[..i + 1][..i] == declared[..i];
        if cleaned == "" || cleaned in scopes {
          CleanedPrefix(declared, i + 1);
          return Refused(Validation), 0;
        }
        scopes := scopes + [cleaned];
      }
      assert declared[..|declared|] == declared;
      capabilities := capabilities[v := scopes];
      versions := versions[v := versions[v].(risk := P.RiskOf(scopes))];
      return Done, |scopes|;
    }

    method ClaimVersion(operator: bool, v: Id, caller: Id) returns (out: Outcome)
      requires Inv(State())
      modifies this`versions
      ensures (State(), out) == P.Claim(old(State()), operator, v, caller) && Inv(State())
    {
      hide Inv;
      assert P.Apply(State(), P.DoClaim(operator, v, caller)) == P.Claim(State(), operator, v, caller);
      hide P.Apply;
      ReviewKeeps(State(), P.DoClaim(operator, v, caller));
      if !operator {
        return Refused(Forbidden);
      }
      if v !in versions {
        return Refused(NotFound);
      }
      if versions[v].status != P.PendingReview && versions[v].status != P.ChangesRequested {
        return Refused(Conflict);
      }
      if versions[v].claimedBy.Some? && versions[v].claimedBy != Some(caller) {
        return Refused(Conflict);
      }
      versions := versions[v := versions[v].(claimedBy := Some(caller))];
      return Done;
    }

    method RequestChanges(operator: bool, v: Id, caller: Id, notes: string) returns (out: Outcome)
      requires Inv(State())
      modifies this`versions
      ensures (State(), out) == P.RequestChanges(old(State()), operator, v, caller, notes) && Inv(State())
    {
      hide Inv, Text.Strip;
      assert P.Apply(State(),
                     P.DoRequestChanges(operator, v, caller,
                                        notes)) == P.RequestChanges(State(), operator, v, caller, notes);
      hide P.Apply;
      ReviewKeeps(State(), P.DoRequestChanges(operator, v, caller, notes));
      if !operator {
        return Refused(Forbidden);
      }
      if Text.Strip(notes) == "" {
        return Refused(Validation);
      }
      if v !in versions {
        return Refused(NotFound);
      }
      if versions[v].status != P.PendingReview {
        return Refused(Conflict);
      }
      if P.ClaimedByOther(versions[v], caller) {
        return Refused(Conflict);
      }
      versions := versions[v := versions[v].(status := P.ChangesRequested)];
      return Done;
    }

    method DecideVersion(operator: bool, v: Id, caller: Id, approved: bool) returns (out: Outcome)
      requires Inv(State())
      modifies this`versions, this`plugins
      ensures (State(), out) == P.Decide(old(State()), operator, v, caller, approved) && Inv(State())
    {
      hide Inv;
      assert P.Apply(State(),
                     P.DoDecide(operator, v, caller, approved)) == P.Decide(State(), operator, v, caller, approved);
      hide P.Apply;
      ReviewKeeps(State(), P.DoDecide(operator, v, caller, approved));
      if !operator {
        return Refused(Forbidden);
      }
      if v !in versions {
        return Refused(NotFound);
      }
      if versions[v].status != P.PendingReview && versions[v].status != P.ChangesRequested {
        return Refused(Conflict);
      }
      if P.ClaimedByOther(versions[v], caller) {
        return Refused(Conflict);
      }
      var plugin := versions[v].plugin;
      if plugin !in plugins {
        return Refused(NotFound);
      }
      versions := versions[v := versions[v].(status := if approved then P.Approved else P.Rejected)];
      versions := versions[v := versions[v].(decidedBy := Some(caller))];
      assert versions == old(versions)[v := versions[v]];
      if approved && plugins[plugin].status == P.Draft {
        plugins := plugins[plugin := plugins[plugin].(status := P.Active)];
      }
      return Done;
    }
  }
}
