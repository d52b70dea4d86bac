/** The hand-written copies of the authorization relation agree. */
module CatalogProofs {
  import opened Common
  import opened AliasNames
  import opened Catalog

  // ---------------------------------------------------------- non-interference

  /** Two registries that a request scoped to `refs` cannot tell apart. */
  ghost predicate AgreeOn(c: Config, a: Registry, b: Registry, refs: set<string>) {
    && (forall ref :: ref in refs ==> HealthOf(a, ref) == HealthOf(b, ref))
    && (forall q :: q in c.presets && q.runnerRef in refs ==> PresetHealthOf(a, q.alias) == PresetHealthOf(b, q.alias))
  }

  lemma StaticIsNonInterfering(c: Config, a: Registry, b: Registry, p: Principal, preset: Preset, scope: Scope,
                               effort: Option<string>)
    requires RegistryOk(c, a) && preset in c.presets
    requires preset.alias in p.allowedPresets && InScope(c, preset.runnerRef, scope) ==>
          AgreeOn(c, a, b, {preset.runnerRef})
    ensures ResolveStatic(c, a, p, preset, scope, effort) == ResolveStatic(c, b, p, preset, scope, effort)
  {
  }

  lemma ThroughIsNonInterfering(c: Config, a: Registry, b: Registry, p: Principal, s: Source, alias: string,
                                effort: Option<string>)
    requires s.prefix <= alias
    requires MayExecute(c, p, s, alias) ==> HealthOf(a, s.runnerRef) == HealthOf(b, s.runnerRef)
    ensures ResolveThrough(c, a, p, s, alias, effort) == ResolveThrough(c, b, p, s, alias, effort)
  {
  }

  /** Resolution reads nothing outside the scope that is refreshed for it. */
  lemma ResolutionIsNonInterfering(c: Config, a: Registry, b: Registry, p: Principal, alias: string, scope: Scope,
                                   effort: Option<string>)
    requires RegistryOk(c, a) && AgreeOn(c, a, b, AliasRefs(c, p, alias, scope))
    ensures Resolve(c, a, p, alias, scope, effort) == Resolve(c, b, p, alias, scope, effort)
  {
    match FindPreset(c.presets, alias)
    case Some(preset) =>
      FoundPreset(c.presets, alias);
      StaticIsNonInterfering(c, a, b, p, preset, scope, effort);
    case None =>
      FirstFound(c, alias, scope, 0);
      match FirstCandidate(c, alias, scope, 0)
      case None =>
      case Some(s) =>
        assert ConsultsThrough(c, p, s, alias, scope) ==> s.runnerRef in AliasRefs(c, p, alias, scope);
        ThroughIsNonInterfering(c, a, b, p, s, alias, effort);
  }

  /** An empty scope means failure, whatever any registry says. */
  lemma EmptyScopeFails(c: Config, a: Registry, b: Registry, p: Principal, alias: string, scope: Scope,
                        effort: Option<string>)
    requires AliasRefs(c, p, alias, scope) == {}
    ensures Resolve(c, a, p, alias, scope, effort) == Resolve(c, b, p, alias, scope, effort)
    ensures Resolve(c, a, p, alias, scope, effort) in {Failure(Authorization), Failure(NotFound)}
  {
    if FindPreset(c.presets, alias).None? {
      FirstFound(c, alias, scope, 0);
      match FirstCandidate(c, alias, scope, 0)
      case None =>
      case Some(s) =>
        assert ConsultsThrough(c, p, s, alias, scope) ==> s.runnerRef in AliasRefs(c, p, alias, scope);
    }
  }

  lemma TwoPrefixesOverlap(a: string, b: string, x: string)
    requires a <= x && b <= x
    ensures Overlap(a, b)
  {
    if |a| <= |b| {
      assert a == b[..|a|];
    } else {
      assert b == a[..|b|];
    }
  }

  // Two enabled sources of one configuration never claim the same alias.
  lemma OneSourcePerAlias(c: Config, alias: string, s: Source, t: Source)
    requires ConfigOk(c) && s in c.catalogs && t in c.catalogs && s.enabled && t.enabled
    requires s.prefix <= alias && t.prefix <= alias
    ensures s == t
  {
    var i :| 0 <= i < |c.catalogs| && c.catalogs[i] == s;
    var j :| 0 <= j < |c.catalogs| && c.catalogs[j] == t;
    TwoPrefixesOverlap(s.prefix, t.prefix, alias);
  }

  /** Under a validated configuration one alias refreshes at most one runner. */
  lemma AtMostOneRefreshed(c: Config, p: Principal, alias: string, scope: Scope, x: string, y: string)
    requires ConfigOk(c) && x in AliasRefs(c, p, alias, scope) && y in AliasRefs(c, p, alias, scope)
    ensures x == y
  {
    if FindPreset(c.presets, alias).None? {
      var s :| s in c.catalogs && ConsultsThrough(c, p, s, alias, scope) && s.runnerRef == x;
      var t :| t in c.catalogs && ConsultsThrough(c, p, t, alias, scope) && t.runnerRef == y;
      OneSourcePerAlias(c, alias, s, t);
    }
  }

  // ----------------------------------------------------- listed iff resolvable

  // An enabled source in scope that the alias falls under is the first candidate.
  lemma SelectsItsSource(c: Config, s: Source, alias: string, scope: Scope)
    requires ConfigOk(c) && s in c.catalogs && Candidate(c, s, alias, scope)
    ensures FirstCandidate(c, alias, scope, 0) == Some(s)
  {
    FirstFound(c, alias, scope, 0);
    var f := FirstCandidate(c, alias, scope, 0);
    if f.Some? { OneSourcePerAlias(c, alias, s, f.value); }
  }

  lemma ListedTail(c: Config, reg: Registry, p: Principal, s: Source, scope: Scope, alias: string)
    requires RegistryOk(c, reg) && s.prefix <= alias
    requires ListedBy(c, reg, p, s, scope, alias[|s.prefix|..])
    ensures Candidate(c, s, alias, scope) && IsId(alias[|s.prefix|..])
    ensures s.prefix + alias[|s.prefix|..] == alias
  {
    assert HealthOk(reg.runners[s.runnerRef]);
  }

  // Through the source that lists it, an alias fails only for not being one.
  lemma ListedThrough(c: Config, reg: Registry, p: Principal, s: Source, scope: Scope, alias: string)
    requires RegistryOk(c, reg) && s.prefix <= alias && ListedBy(c, reg, p, s, scope, alias[|s.prefix|..])
    ensures var r := ResolveThrough(c, reg, p, s, alias, None);
      && (r.Success? <==> ValidAlias(alias))
      && (r.Success? ==>
            && r.value.dynamic && r.value.source == Some(s.name)
            && r.value.resolved == r.value.requested == alias[|s.prefix|..])
      && (r.Failure? ==> r.error == InvalidAlias)
  {
    ListedTail(c, reg, p, s, scope, alias);
    assert HealthOk(reg.runners[s.runnerRef]);
  }

  // Resolution goes to the listing source.
  lemma ListedGoesThrough(c: Config, reg: Registry, p: Principal, s: Source, scope: Scope, alias: string,
                          effort: Option<string>)
    requires ConfigOk(c) && RegistryOk(c, reg) && s in c.catalogs && s.prefix <= alias
    requires ListedBy(c, reg, p, s, scope, alias[|s.prefix|..])
    ensures Resolve(c, reg, p, alias, scope, effort) == ResolveThrough(c, reg, p, s, alias, effort)
  {
    ListedTail(c, reg, p, s, scope, alias);
    SelectsItsSource(c, s, alias, scope);
  }

  /** A listed alias resolves, without effort, exactly when it is an alias at
      all; when it is not, resolution fails on that and nothing else. */
  lemma ListedResolvesIffNameable(c: Config, reg: Registry, p: Principal, scope: Scope, alias: string)
    requires ConfigOk(c) && RegistryOk(c, reg) && Listed(c, reg, p, scope, alias)
    ensures var r := Resolve(c, reg, p, alias, scope, None);
      && (r.Success? <==> ValidAlias(alias))
      && (r.Success? ==> r.value.dynamic && r.value.resolved == r.value.requested)
      && (r.Failure? ==> r.error == InvalidAlias)
  {
    var s :| s in c.catalogs && s.prefix <= alias && ListedBy(c, reg, p, s, scope, alias[|s.prefix|..]);
    ListedGoesThrough(c, reg, p, s, scope, alias, None);
    ListedThrough(c, reg, p, s, scope, alias);
  }

  /** In numbers: a listed row with source prefix and catalog id fails to resolve
      exactly when the id or the whole alias is too long to be an alias. */
  lemma LongIdsAreListedButFail(c: Config, reg: Registry, p: Principal, scope: Scope, s: Source, id: string)
    requires ConfigOk(c) && RegistryOk(c, reg) && s in c.catalogs && ListedBy(c, reg, p, s, scope, id)
    ensures Resolve(c, reg, p, s.prefix + id, scope, None).Failure?
       <==> |id| > MAX_SEGMENT_LENGTH || |s.prefix| + |id| > MAX_ALIAS_LENGTH
  {
    assert (s.prefix + id)[|s.prefix|..] == id;
    assert Listed(c, reg, p, scope, s.prefix + id);
    assert HealthOk(reg.runners[s.runnerRef]);
    var i :| 0 <= i < |c.catalogs| && c.catalogs[i] == s;
    AliasOfIdIff(s.prefix, id);
    ListedResolvesIffNameable(c, reg, p, scope, s.prefix + id);
  }

  // A deployment with one source that lists one model.
  const SHELF := Source("shelf", "r", "p/", "text", true, None, None, false)

  function Shelf(): Config {
    Config([Runner("r", "d")], [], [SHELF])
  }

  function ShelfRegistry(id: string): Registry {
    var d := Descriptor(id, Passed, EffortUnknown, [], map[], None, true);
    Registry(map["r" := RunnerHealth(true, true, false, map[id := d], [id])], map[])
  }

  lemma ShelfPrefixIsValid()
    ensures ValidPrefix(SHELF.prefix)
  {
    var v := "p/x";
    TailIsLastSegment("p/", "x");
    OneSegment("p");
    assert "p/" + "x" == v && "p/"[..1] == "p";
    assert Segments(v) == ["p"] + ["x"] == ["p", "x"];
  }

  /** Every catalog id can be listed, also one too long to be named. */
  lemma AnyIdCanBeListed(id: string)
    requires IsId(id)
    ensures var p := Principal([], [], ["shelf"]);
      && ConfigOk(Shelf()) && RegistryOk(Shelf(), ShelfRegistry(id))
      && ListedBy(Shelf(), ShelfRegistry(id), p, SHELF, None, id)
      && (|id| > MAX_SEGMENT_LENGTH ==>
            Resolve(Shelf(), ShelfRegistry(id), p, SHELF.prefix + id, None, None) == Failure(InvalidAlias))
  {
    var p := Principal([], [], ["shelf"]);
    var c, reg := Shelf(), ShelfRegistry(id);
    ShelfPrefixIsValid();
    assert c.runners[0] in c.runners && InScope(c, "r", None);
    assert ListedBy(c, reg, p, SHELF, None, id);
    AliasOfIdIff(SHELF.prefix, id);
    assert (SHELF.prefix + id)[|SHELF.prefix|..] == id && SHELF in c.catalogs;
    ListedResolvesIffNameable(c, reg, p, None, SHELF.prefix + id);
  }

  lemma LongIdsExist()
    ensures IsId(seq(MAX_SEGMENT_LENGTH + 1, _ => 'a'))
  {
  }

  // What a dynamic binding came through.
  lemma DynamicCameThrough(c: Config, reg: Registry, p: Principal, alias: string, scope: Scope,
                           effort: Option<string>) returns (s: Source)
    requires Resolve(c, reg, p, alias, scope, effort).Success? && Resolve(c, reg, p, alias, scope, effort).value.dynamic
    ensures s in c.catalogs && Candidate(c, s, alias, scope) && FindPreset(c.presets, alias).None? && ValidAlias(alias)
    ensures Resolve(c, reg, p, alias, scope, effort) == ResolveThrough(c, reg, p, s, alias, effort)
  {
    FirstFound(c, alias, scope, 0);
    s := FirstCandidate(c, alias, scope, 0).value;
  }

  /** A valid alias is listed exactly when resolving it without effort binds it
      dynamically. */
  lemma ListedIffResolves(c: Config, reg: Registry, p: Principal, scope: Scope, alias: string)
    requires ConfigOk(c) && RegistryOk(c, reg) && ValidAlias(alias)
    ensures Listed(c, reg, p, scope, alias)
       <==> (Resolve(c, reg, p, alias, scope, None).Success? && Resolve(c, reg, p, alias, scope, None).value.dynamic)
  {
    if Listed(c, reg, p, scope, alias) {
      ListedResolvesIffNameable(c, reg, p, scope, alias);
    }
    if Resolve(c, reg, p, alias, scope, None).Success? && Resolve(c, reg, p, alias, scope, None).value.dynamic {
      var s := DynamicCameThrough(c, reg, p, alias, scope, None);
      assert s.prefix + alias[|s.prefix|..] == alias;
      assert ListedBy(c, reg, p, s, scope, alias[|s.prefix|..]);
    }
  }

  // -------------------------------------------------------------- effort hops

  // A descriptor row that a source admits for this principal is listed, unless a
  // static preset owns its alias.
  lemma AdmittedIsListed(c: Config, reg: Registry, p: Principal, s: Source, scope: Scope, id: string)
    requires s in c.catalogs && Contributes(c, reg, s, scope) && id in reg.runners[s.runnerRef].descriptors
    requires MayExecute(c, p, s, s.prefix + id)
    requires SourceAdmits(s, reg.runners[s.runnerRef].descriptors[id], reg.runners[s.runnerRef].synthetic)
    ensures IsStatic(c, s.prefix + id) || Listed(c, reg, p, scope, s.prefix + id)
  {
    assert (s.prefix + id)[|s.prefix|..] == id;
    assert !IsStatic(c, s.prefix + id) ==> ListedBy(c, reg, p, s, scope, id);
  }

  /** An effort request through a source lands on a model whose own alias is
      listed, and so resolvable when it is nameable, unless a static preset
      shadows that alias. */
  lemma EffortTargetIsResolvable(c: Config, reg: Registry, p: Principal, alias: string, scope: Scope, effort: string)
    requires ConfigOk(c) && RegistryOk(c, reg)
    requires var r := Resolve(c, reg, p, alias, scope, Some(effort)); r.Success? && r.value.dynamic
    ensures var b := Resolve(c, reg, p, alias, scope, Some(effort)).value;
      exists s :: s in c.catalogs && b.source == Some(s.name) && alias == s.prefix + b.requested
        && var target := s.prefix + b.resolved;
        && (IsStatic(c, target) || Listed(c, reg, p, scope, target))
        && (!IsStatic(c, target) && ValidAlias(target) ==>
              var t := Resolve(c, reg, p, target, scope, None);
              t.Success? && t.value.dynamic && t.value.resolved == b.resolved && t.value.source == b.source)
  {
    var s := DynamicCameThrough(c, reg, p, alias, scope, Some(effort));
    var b := Resolve(c, reg, p, alias, scope, Some(effort)).value;
    var target := s.prefix + b.resolved;
    assert alias == s.prefix + b.requested;
    HopIsAdmitted(c, reg, p, s, alias, effort);
    AdmittedIsListed(c, reg, p, s, scope, b.resolved);
    assert target[|s.prefix|..] == b.resolved;
    if !IsStatic(c, target) {
      assert ListedBy(c, reg, p, s, scope, target[|s.prefix|..]);
      ListedGoesThrough(c, reg, p, s, scope, target, None);
      ListedThrough(c, reg, p, s, scope, target);
    }
  }

  // The model that an effort request through a source resolves to.
  lemma HopIsAdmitted(c: Config, reg: Registry, p: Principal, s: Source, alias: string, effort: string)
    requires RegistryOk(c, reg) && s.prefix <= alias && ResolveThrough(c, reg, p, s, alias, Some(effort)).Success?
    ensures s.runnerRef in reg.runners && RunnerAvailable(reg, s.runnerRef)
    ensures var b := ResolveThrough(c, reg, p, s, alias, Some(effort)).value;
      DynamicTargetAdmitted(c, p, s, reg.runners[s.runnerRef], b.resolved)
  {
    assert HealthOk(reg.runners[s.runnerRef]);
    assert s.prefix + alias[|s.prefix|..] == alias;
  }

  /** A static binding hops to another model only under the principal's own
      authority: a held preset on the same runner and policy, or a source on them
      through which that model is listed (or statically shadowed). */
  lemma StaticHopIsAuthorized(c: Config, reg: Registry, p: Principal, alias: string, scope: Scope, effort: string)
    requires RegistryOk(c, reg)
    requires var r := Resolve(c, reg, p, alias, scope, Some(effort));
      r.Success? && !r.value.dynamic && r.value.resolved != r.value.requested
    ensures var b := Resolve(c, reg, p, alias, scope, Some(effort)).value;
      || (exists q :: q in c.presets && LendsPreset(p, b.preset, q, b.resolved))
      || (exists s :: s in c.catalogs && s.runnerRef == b.preset.runnerRef && s.taskPolicy == b.preset.taskPolicy
            && (IsStatic(c, s.prefix + b.resolved) || Listed(c, reg, p, scope, s.prefix + b.resolved)))
  {
    FoundPreset(c.presets, alias);
    var b := Resolve(c, reg, p, alias, scope, Some(effort)).value;
    var h := HealthOf(reg, b.preset.runnerRef);
    assert h.Some? && HealthOk(h.value);
    if !exists q :: q in c.presets && LendsPreset(p, b.preset, q, b.resolved) {
      var s :| s in c.catalogs
        && LendsSource(c, p, b.preset.runnerRef, b.preset.taskPolicy, h, h.value.descriptors[b.resolved], s);
      AdmittedIsListed(c, reg, p, s, scope, b.resolved);
    }
  }

  // ------------------------------------------------------------- the listings

  /** A row of the discovery view says "executable" exactly when the model list
      shows it (for a runner in scope). */
  lemma ViewAgreesWithListing(c: Config, reg: Registry, p: Principal, s: Source, scope: Scope, id: string)
    requires s.enabled && InScope(c, s.runnerRef, scope) && s.runnerRef in reg.runners
    requires id in reg.runners[s.runnerRef].descriptors
    ensures var row := ViewOf(c, p, s, reg.runners[s.runnerRef], id);
      && (row.executable <==> ListedBy(c, reg, p, s, scope, id))
      && (row.executable <==> row.rejection.None?)
  {
  }

  /** No alias has two rows. */
  lemma NoAliasListedTwice(c: Config, reg: Registry, p: Principal, scope: Scope, entries: seq<Entry>, e: Entry,
                           f: Entry)
    requires ConfigOk(c) && ListsExactly(c, reg, p, scope, c.catalogs, entries)
    requires e in entries && f in entries && e.alias == f.alias
    ensures e == f
  {
    var s :| s in c.catalogs && RowOf(c, reg, p, scope, s, e);
    var t :| t in c.catalogs && RowOf(c, reg, p, scope, t, f);
    OneSourcePerAlias(c, e.alias, s, t);
    assert e.alias[|s.prefix|..] == e.modelId && f.alias[|s.prefix|..] == f.modelId;
  }

  /** The list's refresh scope covers the runner of everything that can be
      listed or bound, in any registry. */
  lemma ListScopeCoversResolution(c: Config, reg: Registry, p: Principal, alias: string, scope: Scope,
                                  effort: Option<string>)
    requires RegistryOk(c, reg) && Resolve(c, reg, p, alias, scope, effort).Success?
    ensures Resolve(c, reg, p, alias, scope, effort).value.preset.runnerRef in ModelsRefs(c, p, scope)
  {
    match FindPreset(c.presets, alias)
    case Some(preset) =>
      FoundPreset(c.presets, alias);
      assert preset in c.presets && PresetInListing(c, p, preset, scope);
    case None =>
      FirstFound(c, alias, scope, 0);
      var s := FirstCandidate(c, alias, scope, 0).value;
      assert SourceInListing(c, p, s, scope);
  }

  lemma ListScopeCoversListing(c: Config, reg: Registry, p: Principal, scope: Scope, s: Source, id: string)
    requires s in c.catalogs && ListedBy(c, reg, p, s, scope, id)
    ensures s.runnerRef in ModelsRefs(c, p, scope)
  {
    assert s.prefix <= s.prefix + id;
    assert SourceInListing(c, p, s, scope);
  }

  /** The list depends on no runner outside its refresh scope. */
  lemma ListingIsNonInterfering(c: Config, a: Registry, b: Registry, p: Principal, scope: Scope, s: Source, id: string)
    requires s in c.catalogs
    requires forall ref :: ref in ModelsRefs(c, p, scope) ==> HealthOf(a, ref) == HealthOf(b, ref)
    ensures ListedBy(c, a, p, s, scope, id) <==> ListedBy(c, b, p, s, scope, id)
  {
    if ListedBy(c, a, p, s, scope, id) || ListedBy(c, b, p, s, scope, id) {
      ListScopeCoversListing(c, if ListedBy(c, a, p, s, scope, id) then a else b, p, scope, s, id);
      assert HealthOf(a, s.runnerRef) == HealthOf(b, s.runnerRef);
    }
  }
}
