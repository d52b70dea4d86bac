/**
 What resolving an alias comes to, read off the configuration, the grants and the
 registry's rows alone: who may use a model, which one an effort selects, and why
 a request is refused.
 */
module CatalogOutcomes {
  import opened Common
  import opened AliasNames
  import opened Catalog
  import opened CatalogProofs

  // ---------------------------------------------------------------- the inputs

  // The last runner entry of this id is in the endpoint's provider scope.
  ghost predicate Served(c: Config, ref: string, scope: Scope) {
    exists i :: IsLast(c.runners, ref, i) && (scope.None? || c.runners[i].driverId == scope.value)
  }

  ghost predicate IsLast(runners: seq<Runner>, id: string, i: int) {
    0 <= i < |runners| && runners[i].id == id && forall j :: i < j < |runners| ==> runners[j].id != id
  }

  // The last preset entry of this alias.
  ghost predicate Owns(c: Config, alias: string, q: Preset) {
    exists i :: 0 <= i < |c.presets| && c.presets[i] == q && q.alias == alias
      && forall j :: i < j < |c.presets| ==> c.presets[j].alias != alias
  }

  ghost predicate NoPreset(c: Config, alias: string) {
    forall i :: 0 <= i < |c.presets| ==> c.presets[i].alias != alias
  }

  /** A grant on the whole source, or on this very alias, which no preset owns. */
  ghost predicate Granted(c: Config, p: Principal, s: Source, alias: string) {
    s.name in p.executableCatalogs || (alias in p.allowedPresets && NoPreset(c, alias))
  }

  /** The source's own policy, and a model that verified, or may go unverified on a
      synthetic runner. */
  predicate Offers(s: Source, d: Descriptor, synthetic: bool) {
    && (s.models == None || d.modelId in s.models.value)
    && (s.costTiers == None || (d.costTier != None && d.costTier.value in s.costTiers.value))
    && (d.status == Passed || (synthetic && s.allowSynthetic && d.status != FailedCheck))
    && d.executable
  }

  predicate Up(reg: Registry, ref: string) {
    ref in reg.runners && reg.runners[ref].enabled && reg.runners[ref].ok
  }

  // ------------------------------------------------------------- the lookups

  lemma {:induction false} FindsLast(runners: seq<Runner>, id: string, i: nat)
    ensures IsLast(runners, id, i) ==> FindRunner(runners, id) == Some(runners[i])
  {
    if IsLast(runners, id, i) && i < |runners| - 1 {
      assert runners[|runners| - 1].id != id;
      FindsLast(runners[..|runners| - 1], id, i);
    }
  }

  lemma {:induction false} FoundIsLast(runners: seq<Runner>, id: string) returns (i: int)
    ensures FindRunner(runners, id).Some? ==> IsLast(runners, id, i)
  {
    if runners == [] {
      i := 0;
    } else if runners[|runners| - 1].id == id {
      i := |runners| - 1;
    } else {
      i := FoundIsLast(runners[..|runners| - 1], id);
    }
  }

  lemma ServedIff(c: Config, ref: string, scope: Scope)
    ensures InScope(c, ref, scope) <==> Served(c, ref, scope)
  {
    if Served(c, ref, scope) {
      var i :| IsLast(c.runners, ref, i) && (scope.None? || c.runners[i].driverId == scope.value);
      FindsLast(c.runners, ref, i);
    }
    if InScope(c, ref, scope) {
      var i := FoundIsLast(c.runners, ref);
      FindsLast(c.runners, ref, i);
    }
  }

  lemma {:induction false} FindPresetIff(presets: seq<Preset>, alias: string, q: Preset)
    ensures FindPreset(presets, alias) == Some(q)
       <==> exists i :: 0 <= i < |presets| && presets[i] == q && q.alias == alias
              && forall j :: i < j < |presets| ==> presets[j].alias != alias
    ensures FindPreset(presets, alias).None? <==> forall i :: 0 <= i < |presets| ==> presets[i].alias != alias
  {
    if presets != [] && presets[|presets| - 1].alias != alias {
      var front := presets[..|presets| - 1];
      FindPresetIff(front, alias, q);
      assert forall i :: 0 <= i < |front| ==> front[i] == presets[i];
    }
  }

  lemma OwnsIff(c: Config, alias: string, q: Preset)
    ensures FindPreset(c.presets, alias) == Some(q) <==> Owns(c, alias, q)
    ensures FindPreset(c.presets, alias).None? <==> NoPreset(c, alias)
  {
    FindPresetIff(c.presets, alias, q);
  }

  lemma GrantedIff(c: Config, p: Principal, s: Source, alias: string)
    ensures MayExecute(c, p, s, alias) <==> Granted(c, p, s, alias)
  {
    FindPresetIff(c.presets, alias, Preset("", "", "", "", false, false));
  }

  // --------------------------------------------------- binding through a source

  // The source that the alias falls under, and the rest of the alias.
  ghost predicate Under(c: Config, s: Source, alias: string, tail: string, scope: Scope) {
    s in c.catalogs && s.enabled && alias == s.prefix + tail && MatchesId(tail) && Served(c, s.runnerRef, scope)
    && NoPreset(c, alias)
  }

  predicate Has(reg: Registry, ref: string, id: string) {
    ref in reg.runners && id in reg.runners[ref].descriptors
  }

  lemma UnderResolves(c: Config, reg: Registry, p: Principal, s: Source, alias: string, tail: string, scope: Scope,
                      effort: Option<string>)
    requires ConfigOk(c) && Under(c, s, alias, tail, scope)
    ensures Resolve(c, reg, p, alias, scope, effort) == ResolveThrough(c, reg, p, s, alias, effort)
    ensures s.prefix <= alias && alias[|s.prefix|..] == tail
  {
    OwnsIff(c, alias, Preset("", "", "", "", false, false));
    ServedIff(c, s.runnerRef, scope);
    SelectsItsSource(c, s, alias, scope);
  }

  /** Without an effort: the binding, and each refusal, exactly when. */
  lemma DynamicResolvesIff(c: Config, reg: Registry, p: Principal, s: Source, alias: string, tail: string,
                           scope: Scope)
    requires ConfigOk(c) && RegistryOk(c, reg) && Under(c, s, alias, tail, scope)
    ensures var r := Resolve(c, reg, p, alias, scope, None);
      var granted, up := Granted(c, p, s, alias), Up(reg, s.runnerRef);
      var offered := Has(reg, s.runnerRef, tail)
        && Offers(s, reg.runners[s.runnerRef].descriptors[tail], reg.runners[s.runnerRef].synthetic);
      && (r == Failure(Authorization) <==> !granted)
      && (r == Failure(RunnerUnavailable) <==> granted && !up)
      && (r == Failure(NotFound) <==> granted && up && !offered)
      && (r == Failure(InvalidAlias) <==> granted && up && offered && !ValidAlias(alias))
      && (r.Success? <==> granted && up && offered && ValidAlias(alias))
      && (r.Success? ==>
            r.value == Binding(Preset(alias, s.runnerRef, tail, s.taskPolicy, true, s.allowSynthetic), tail, tail,
                               None, None, true, Some(s.name)))
  {
    UnderResolves(c, reg, p, s, alias, tail, scope, None);
    GrantedIff(c, p, s, alias);
    if s.runnerRef in reg.runners { assert HealthOk(reg.runners[s.runnerRef]); }
  }

  lemma CandidateIsUnder(c: Config, s: Source, alias: string, scope: Scope)
    requires NoPreset(c, alias) && s in c.catalogs && Candidate(c, s, alias, scope)
    ensures Under(c, s, alias, alias[|s.prefix|..], scope)
  {
    ServedIff(c, s.runnerRef, scope);
    assert alias == s.prefix + alias[|s.prefix|..];
  }

  /** An alias that no preset owns and that falls under no source is not found. */
  lemma NowhereIsNotFound(c: Config, reg: Registry, p: Principal, alias: string, scope: Scope, effort: Option<string>)
    requires NoPreset(c, alias) && forall s, tail :: !Under(c, s, alias, tail, scope)
    ensures Resolve(c, reg, p, alias, scope, effort) == Failure(NotFound)
  {
    OwnsIff(c, alias, Preset("", "", "", "", false, false));
    FirstFound(c, alias, scope, 0);
    if FirstCandidate(c, alias, scope, 0).Some? {
      CandidateIsUnder(c, FirstCandidate(c, alias, scope, 0).value, alias, scope);
      assert false;
    }
  }

  // ------------------------------------------------------ binding through a preset

  /** Without an effort, for the preset that owns the alias. */
  lemma StaticResolvesIff(c: Config, reg: Registry, p: Principal, q: Preset, alias: string, scope: Scope)
    requires RegistryOk(c, reg) && Owns(c, alias, q)
    ensures var r := Resolve(c, reg, p, alias, scope, None);
      var allowed, served := alias in p.allowedPresets, Served(c, q.runnerRef, scope);
      var usable := alias in reg.presets && reg.presets[alias].enabled && reg.presets[alias].verified
        && Up(reg, q.runnerRef);
      && (r == Failure(Authorization) <==> !allowed)
      && (r == Failure(NotFound) <==> allowed && !served)
      && (r == Failure(RunnerUnavailable) <==> allowed && served && !usable)
      && (r == Failure(UnsupportedCapability) <==> allowed && served && usable && !Has(reg, q.runnerRef, q.modelId))
      && (r.Success? <==> allowed && served && usable && Has(reg, q.runnerRef, q.modelId))
      && (r.Success? ==> r.value == Binding(q, q.modelId, q.modelId, None, None, false, None))
  {
    OwnsIff(c, alias, q);
    ServedIff(c, q.runnerRef, scope);
    assert q in c.presets;
    if q.runnerRef in reg.runners { assert HealthOk(reg.runners[q.runnerRef]); }
  }

  // -------------------------------------------------------------------- effort

  /** The model an effort selects: the model itself where it lists that effort, or
      the variant it names for it. */
  predicate Selects(d: Descriptor, e: string, id: string) {
    || (d.effort == Selectable && e in d.options && id == d.modelId)
    || (d.effort == ModelVariant && e in d.variants && id == d.variants[e])
  }

  // The binding that an effort leaves: the same but for what it resolves to.
  predicate SelectedFrom(b: Binding, d: Descriptor, e: string, t: Binding) {
    t == b.(effort := Some(e), support := Some(d.effort), resolved := t.resolved) && Selects(d, e, t.resolved)
  }

  // Another model of the source's runner that this principal could bind itself.
  ghost predicate Reaches(c: Config, reg: Registry, p: Principal, s: Source, id: string) {
    && Has(reg, s.runnerRef, id) && Granted(c, p, s, s.prefix + id)
    && Offers(s, reg.runners[s.runnerRef].descriptors[id], reg.runners[s.runnerRef].synthetic)
  }

  lemma ReachesIff(c: Config, reg: Registry, p: Principal, s: Source, id: string)
    requires s.runnerRef in reg.runners
    ensures DynamicTargetAdmitted(c, p, s, reg.runners[s.runnerRef], id) <==> Reaches(c, reg, p, s, id)
  {
    GrantedIff(c, p, s, s.prefix + id);
  }

  // What an effort resolves to where the alias itself does.
  lemma EffortThrough(c: Config, reg: Registry, p: Principal, s: Source, alias: string, e: string)
    requires RegistryOk(c, reg) && s.prefix <= alias && ResolveThrough(c, reg, p, s, alias, None).Success?
    ensures Has(reg, s.runnerRef, alias[|s.prefix|..])
    ensures var r := ResolveThrough(c, reg, p, s, alias, Some(e));
      var h, tail := reg.runners[s.runnerRef], alias[|s.prefix|..];
      && (forall id :: r.Success? && r.value.resolved == id
            <==> Selects(h.descriptors[tail], e, id) && (id == tail || DynamicTargetAdmitted(c, p, s, h, id)))
      && (r.Success? ==>
            SelectedFrom(ResolveThrough(c, reg, p, s, alias, None).value, h.descriptors[tail], e, r.value))
      && (r.Failure? ==> r.error == UnsupportedCapability)
  {
    assert HealthOk(reg.runners[s.runnerRef]);
  }

  /** For an alias that resolves through a source: an effort is honoured exactly when
      it selects the model itself, or a variant within reach; every other request,
      for a model of unknown or no effort support too, is refused as unsupported. */
  lemma DynamicEffortIff(c: Config, reg: Registry, p: Principal, s: Source, alias: string, tail: string, scope: Scope,
                         e: string)
    requires ConfigOk(c) && RegistryOk(c, reg) && Under(c, s, alias, tail, scope)
    requires Resolve(c, reg, p, alias, scope, None).Success?
    ensures Has(reg, s.runnerRef, tail)
    ensures var b, r := Resolve(c, reg, p, alias, scope, None).value, Resolve(c, reg, p, alias, scope, Some(e));
      var d := reg.runners[s.runnerRef].descriptors[tail];
      && (forall id :: r.Success? && r.value.resolved == id
            <==> Selects(d, e, id) && (id == tail || Reaches(c, reg, p, s, id)))
      && (r.Success? ==> SelectedFrom(b, d, e, r.value))
      && (r.Failure? ==> r.error == UnsupportedCapability)
  {
    UnderResolves(c, reg, p, s, alias, tail, scope, None);
    UnderResolves(c, reg, p, s, alias, tail, scope, Some(e));
    EffortThrough(c, reg, p, s, alias, e);
    forall id ensures DynamicTargetAdmitted(c, p, s, reg.runners[s.runnerRef], id) <==> Reaches(c, reg, p, s, id) {
      ReachesIff(c, reg, p, s, id);
    }
  }

  /** Another model that a static binding may move to: verified, or unverified where
      the preset allows it on a synthetic runner, and lent to this principal by a
      preset it holds or a source it may use, on the same runner and policy. */
  ghost predicate Lent(c: Config, reg: Registry, p: Principal, q: Preset, id: string) {
    Has(reg, q.runnerRef, id)
    && var h := reg.runners[q.runnerRef];
    var d := h.descriptors[id];
    && (d.status == Passed || (h.synthetic && q.allowSynthetic && d.status != FailedCheck)) && d.executable
    && ((exists x :: x in c.presets && x.enabled && x.runnerRef == q.runnerRef && x.modelId == id
                     && x.taskPolicy == q.taskPolicy && x.alias in p.allowedPresets)
        || (exists s :: s in c.catalogs && s.enabled && s.runnerRef == q.runnerRef && s.taskPolicy == q.taskPolicy
                        && Granted(c, p, s, s.prefix + id) && Offers(s, d, h.synthetic)))
  }

  lemma LentIff(c: Config, reg: Registry, p: Principal, q: Preset, id: string)
    requires RegistryOk(c, reg)
    ensures StaticTargetAdmitted(c, p, q, HealthOf(reg, q.runnerRef), id) <==> Lent(c, reg, p, q, id)
  {
    if Has(reg, q.runnerRef, id) {
      var h := reg.runners[q.runnerRef];
      assert HealthOk(h);
      var d := h.descriptors[id];
      forall s | s in c.catalogs
        ensures LendsSource(c, p, q.runnerRef, q.taskPolicy, Some(h), d, s)
           <==> s.enabled && s.runnerRef == q.runnerRef && s.taskPolicy == q.taskPolicy
                && Granted(c, p, s, s.prefix + id) && Offers(s, d, h.synthetic)
      {
        GrantedIff(c, p, s, s.prefix + id);
      }
    }
  }

  /** The same for an alias that a preset owns. */
  lemma StaticEffortIff(c: Config, reg: Registry, p: Principal, q: Preset, alias: string, scope: Scope, e: string)
    requires RegistryOk(c, reg) && Owns(c, alias, q) && Resolve(c, reg, p, alias, scope, None).Success?
    ensures Has(reg, q.runnerRef, q.modelId)
    ensures var b, r := Resolve(c, reg, p, alias, scope, None).value, Resolve(c, reg, p, alias, scope, Some(e));
      var d := reg.runners[q.runnerRef].descriptors[q.modelId];
      && (forall id :: r.Success? && r.value.resolved == id
            <==> Selects(d, e, id) && (id == q.modelId || Lent(c, reg, p, q, id)))
      && (r.Success? ==> SelectedFrom(b, d, e, r.value))
      && (r.Failure? ==> r.error == UnsupportedCapability)
  {
    StaticResolvesIff(c, reg, p, q, alias, scope);
    OwnsIff(c, alias, q);
    assert HealthOk(reg.runners[q.runnerRef]);
    var d := reg.runners[q.runnerRef].descriptors[q.modelId];
    if d.effort.ModelVariant? && e in d.variants { LentIff(c, reg, p, q, d.variants[e]); }
  }

  // ------------------------------------------------------------ views and scopes

  /** A row of the discovery view, and why it cannot be executed. */
  lemma ViewSays(c: Config, p: Principal, s: Source, h: RunnerHealth, id: string)
    requires id in h.descriptors
    ensures var row, alias := ViewOf(c, p, s, h, id), s.prefix + id;
      var offered, up := Offers(s, h.descriptors[id], h.synthetic), h.enabled && h.ok;
      && row.alias == alias && row.descriptor == h.descriptors[id]
      && (row.admitted <==> offered)
      && (row.executable <==> offered && up && NoPreset(c, alias) && Granted(c, p, s, alias))
      && (row.rejection == Some(Shadowed) <==> !NoPreset(c, alias))
      && (row.rejection == Some(NotAdmitted) <==> NoPreset(c, alias) && !offered)
      && (row.rejection == Some(RunnerNotAvailable) <==> NoPreset(c, alias) && offered && !up)
      && (row.rejection == Some(NoGrant) <==> NoPreset(c, alias) && offered && up && !Granted(c, p, s, alias))
  {
    FindPresetIff(c.presets, s.prefix + id, Preset("", "", "", "", false, false));
    GrantedIff(c, p, s, s.prefix + id);
  }

  /** A row of the model list. */
  lemma EntrySays(s: Source, h: RunnerHealth, id: string)
    requires id in h.descriptors
    ensures var e := EntryOf(s, h, id);
      && e.alias == s.prefix + id && e.modelId == id && e.catalog == s.name && e.taskPolicy == s.taskPolicy
      && e.descriptor == h.descriptors[id] && (e.synthetic <==> h.synthetic)
      && (e.realVerification <==> h.descriptors[id].status == Passed && !h.synthetic)
  {
  }

  /** The runners an alias refreshes: its preset's, if the principal holds it, or
      those of the sources it falls under with a grant. */
  lemma AliasRefreshIff(c: Config, p: Principal, alias: string, scope: Scope, ref: string)
    ensures ref in AliasRefs(c, p, alias, scope)
       <==> || (exists q :: q in c.presets && Owns(c, alias, q) && alias in p.allowedPresets && q.runnerRef == ref
                  && Served(c, ref, scope))
            || (exists s :: s in c.catalogs && s.prefix <= alias && s.runnerRef == ref
                  && Under(c, s, alias, alias[|s.prefix|..], scope) && Granted(c, p, s, alias))
  {
    forall q | q in c.presets ensures FindPreset(c.presets, alias) == Some(q) <==> Owns(c, alias, q) {
      OwnsIff(c, alias, q);
    }
    OwnsIff(c, alias, Preset("", "", "", "", false, false));
    FoundPreset(c.presets, alias);
    ServedIff(c, ref, scope);
    forall s | s in c.catalogs && s.prefix <= alias && NoPreset(c, alias)
      ensures ConsultsThrough(c, p, s, alias, scope)
         <==> Under(c, s, alias, alias[|s.prefix|..], scope) && Granted(c, p, s, alias)
    {
      GrantedIff(c, p, s, alias);
      ServedIff(c, s.runnerRef, scope);
      assert alias == s.prefix + alias[|s.prefix|..];
    }
  }

  /** The runners the model list refreshes: those of the presets the principal holds,
      and of the sources it may list something of. */
  lemma ListRefreshIff(c: Config, p: Principal, scope: Scope, ref: string)
    ensures ref in ModelsRefs(c, p, scope)
       <==> Served(c, ref, scope)
            && ((exists q :: q in c.presets && q.runnerRef == ref && q.enabled && q.alias in p.allowedPresets)
                || (exists s :: s in c.catalogs && s.runnerRef == ref && s.enabled && HasGrantIn(c, p, s)))
  {
    ServedIff(c, ref, scope);
    forall s | s in c.catalogs && s.runnerRef == ref
      ensures SourceInListing(c, p, s, scope) <==> s.enabled && InScope(c, ref, scope) && HasGrantIn(c, p, s)
    {
      HasGrantIff(c, p, s);
    }
  }

  // A grant on the source, or on some alias under its prefix that no preset owns.
  ghost predicate HasGrantIn(c: Config, p: Principal, s: Source) {
    s.name in p.executableCatalogs || exists g :: g in p.allowedPresets && s.prefix <= g && NoPreset(c, g)
  }

  lemma HasGrantIff(c: Config, p: Principal, s: Source)
    ensures HasGrantIn(c, p, s)
       <==> s.name in p.executableCatalogs || exists g :: g in p.allowedPresets && s.prefix <= g && !IsStatic(c, g)
  {
    forall g | g in p.allowedPresets ensures NoPreset(c, g) <==> !IsStatic(c, g) {
      FindPresetIff(c.presets, g, Preset("", "", "", "", false, false));
    }
  }

  /** The listing keeps the order of the sources, and within one that of its models. */
  lemma {:induction false} RowsKeepOrder(c: Config, p: Principal, s: Source, h: RunnerHealth, a: seq<string>,
                                         b: seq<string>)
    ensures SourceRows(c, p, s, h, a + b) == SourceRows(c, p, s, h, a) + SourceRows(c, p, s, h, b)
  {
    if b == [] {
      assert a + b == a;
    } else {
      assert (a + b)[..|a + b| - 1] == a + b[..|b| - 1];
      RowsKeepOrder(c, p, s, h, a, b[..|b| - 1]);
    }
  }

  lemma {:induction false} ListingKeepsOrder(c: Config, reg: Registry, p: Principal, scope: Scope, a: seq<Source>,
                                             b: seq<Source>)
    ensures ListingOf(c, reg, p, scope, a + b) == ListingOf(c, reg, p, scope, a) + ListingOf(c, reg, p, scope, b)
  {
    if b == [] {
      assert a + b == a;
    } else {
      assert (a + b)[..|a + b| - 1] == a + b[..|b| - 1];
      ListingKeepsOrder(c, reg, p, scope, a, b[..|b| - 1]);
    }
  }
}
