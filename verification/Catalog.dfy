/**
 Alias resolution against static presets and dynamic catalog sources, the
 listings built from the same grants, and the refresh scopes that mirror them.
 */
module Catalog {
  import opened Common
  import opened AliasNames

  datatype VStatus = Passed | FailedCheck | NotRun | NotKnown

  datatype Effort = EffortUnknown | Unsupported | Selectable | ModelVariant

  datatype Descriptor = Descriptor(
    modelId: string, status: VStatus, effort: Effort,
    options: seq<string>, variants: map<string, string>,
    costTier: Option<string>, executable: bool)

  // `models` is the listing order of the descriptor table.
  datatype RunnerHealth = RunnerHealth(
    enabled: bool, ok: bool, synthetic: bool, descriptors: map<string, Descriptor>, models: seq<string>)

  datatype PresetHealth = PresetHealth(boundTo: string, enabled: bool, verified: bool)

  datatype Registry = Registry(runners: map<string, RunnerHealth>, presets: map<string, PresetHealth>)

  datatype Runner = Runner(id: string, driverId: string)

  datatype Preset = Preset(
    alias: string, runnerRef: string, modelId: string, taskPolicy: string, enabled: bool, allowSynthetic: bool)

  datatype Source = Source(
    name: string, runnerRef: string, prefix: string, taskPolicy: string, enabled: bool,
    models: Option<seq<string>>, costTiers: Option<seq<string>>, allowSynthetic: bool)

  datatype Config = Config(runners: seq<Runner>, presets: seq<Preset>, catalogs: seq<Source>)

  datatype Principal = Principal(
    allowedPresets: seq<string>, allowedCatalogs: seq<string>, executableCatalogs: seq<string>)

  datatype Binding = Binding(
    preset: Preset, requested: string, resolved: string,
    effort: Option<string>, support: Option<Effort>, dynamic: bool, source: Option<string>)

  datatype Error = Authorization | NotFound | RunnerUnavailable | UnsupportedCapability | InvalidAlias

  type Resolution = Result<Binding, Error>

  type Scope = Option<string>

  // --------------------------------------------------------- lookups in config

  function FindPreset(presets: seq<Preset>, alias: string): Option<Preset> {
    if presets == [] then None
    else if presets[|presets| - 1].alias == alias then Some(presets[|presets| - 1])
    else FindPreset(presets[..|presets| - 1], alias)
  }

  function FindRunner(runners: seq<Runner>, id: string): Option<Runner> {
    if runners == [] then None
    else if runners[|runners| - 1].id == id then Some(runners[|runners| - 1])
    else FindRunner(runners[..|runners| - 1], id)
  }

  predicate IsStatic(c: Config, alias: string) {
    FindPreset(c.presets, alias).Some?
  }

  // The runner exists and is in the endpoint's provider scope.
  predicate InScope(c: Config, runnerRef: string, scope: Scope) {
    var r := FindRunner(c.runners, runnerRef);
    r.Some? && (scope.Some? ==> r.value.driverId == scope.value)
  }

  lemma {:induction false} FoundPreset(presets: seq<Preset>, alias: string)
    ensures var f := FindPreset(presets, alias); f.Some? ==> f.value in presets && f.value.alias == alias
  {
    if presets != [] && presets[|presets| - 1].alias != alias {
      FoundPreset(presets[..|presets| - 1], alias);
    }
  }

  // --------------------------------------------------------- grants and policy

  predicate MayExecute(c: Config, p: Principal, s: Source, alias: string) {
    s.name in p.executableCatalogs || (alias in p.allowedPresets && !IsStatic(c, alias))
  }

  predicate SourceAdmits(s: Source, d: Descriptor, synthetic: bool) {
    && (s.models.Some? ==> d.modelId in s.models.value)
    && (s.costTiers.Some? ==> d.costTier.Some? && d.costTier.value in s.costTiers.value)
    && !d.status.FailedCheck?
    && (d.status.Passed? || (synthetic && s.allowSynthetic))
    && d.executable
  }

  // ------------------------------------------------------------------- effort

  predicate EffortShapeOk(d: Descriptor) {
    match d.effort
    case Selectable => d.options != [] && d.variants == map[]
    case ModelVariant => d.options == [] && d.variants != map[]
    case _ => d.options == [] && d.variants == map[]
  }

  // The catalog id that an effort request resolves to, before authorization.
  function ResolveEffort(d: Option<Descriptor>, effort: Option<string>): Option<string> {
    if effort.None? then (if d.Some? then Some(d.value.modelId) else None)
    else if d.None? then None
    else match d.value.effort
      case EffortUnknown => None
      case Unsupported => None
      case Selectable => if effort.value in d.value.options then Some(d.value.modelId) else None
      case ModelVariant => if effort.value in d.value.variants then Some(d.value.variants[effort.value]) else None
  }

  // ----------------------------------------------------------------- registry

  function HealthOf(reg: Registry, ref: string): Option<RunnerHealth> {
    if ref in reg.runners then Some(reg.runners[ref]) else None
  }

  function PresetHealthOf(reg: Registry, alias: string): Option<PresetHealth> {
    if alias in reg.presets then Some(reg.presets[alias]) else None
  }

  predicate RunnerAvailable(reg: Registry, ref: string) {
    var h := HealthOf(reg, ref);
    h.Some? && h.value.enabled && h.value.ok
  }

  predicate PresetAvailable(reg: Registry, alias: string) {
    var h := PresetHealthOf(reg, alias);
    h.Some? && h.value.enabled && h.value.verified && RunnerAvailable(reg, h.value.boundTo)
  }

  function DescriptorIn(h: Option<RunnerHealth>, id: string): Option<Descriptor> {
    if h.Some? && id in h.value.descriptors then Some(h.value.descriptors[id]) else None
  }

  // --------------------------------------------------------------- resolution

  function Resolve(c: Config, reg: Registry, p: Principal, alias: string, scope: Scope,
                   effort: Option<string>): Resolution {
    match FindPreset(c.presets, alias)
    case Some(preset) => ResolveStatic(c, reg, p, preset, scope, effort)
    case None => ResolveDynamic(c, reg, p, alias, scope, effort)
  }

  function Supported(d: Option<Descriptor>, effort: Option<string>): Option<Effort> {
    if effort.Some? && d.Some? then Some(d.value.effort) else None
  }

  function ResolveStatic(c: Config, reg: Registry, p: Principal, preset: Preset, scope: Scope,
                         effort: Option<string>): Resolution {
    if preset.alias !in p.allowedPresets then Failure(Authorization)
    else if !InScope(c, preset.runnerRef, scope) then Failure(NotFound)
    else if !PresetAvailable(reg, preset.alias) then Failure(RunnerUnavailable)
    else
      var h := HealthOf(reg, preset.runnerRef);
      var d := DescriptorIn(h, preset.modelId);
      var r := ResolveEffort(d, effort);
      if r.None? || (effort.Some? && r.value != d.value.modelId && !StaticTargetAdmitted(c, p, preset, h, r.value))
      then Failure(UnsupportedCapability)
      else Success(Binding(preset, preset.modelId, r.value, effort, Supported(d, effort), false, None))
  }

  predicate StaticTargetAdmitted(c: Config, p: Principal, preset: Preset, h: Option<RunnerHealth>, id: string) {
    var d := DescriptorIn(h, id);
    && d.Some?
    && !d.value.status.FailedCheck?
    && (d.value.status.Passed? || (h.value.synthetic && preset.allowSynthetic))
    && d.value.executable
    && ((exists q :: q in c.presets && LendsPreset(p, preset, q, id))
        || (exists s :: s in c.catalogs && LendsSource(c, p, preset.runnerRef, preset.taskPolicy, h, d.value, s)))
  }

  // A preset the principal holds binds the target on the same runner and policy.
  predicate LendsPreset(p: Principal, preset: Preset, q: Preset, id: string) {
    q.enabled && q.runnerRef == preset.runnerRef && q.modelId == id && q.taskPolicy == preset.taskPolicy
    && q.alias in p.allowedPresets
  }

  // A source the principal may execute through admits the target there.
  predicate LendsSource(c: Config, p: Principal, ref: string, policy: string, h: Option<RunnerHealth>, d: Descriptor,
                        s: Source) {
    h.Some? && s.enabled && s.runnerRef == ref && s.taskPolicy == policy
    && MayExecute(c, p, s, s.prefix + d.modelId) && SourceAdmits(s, d, h.value.synthetic)
  }

  // A source that the alias selects by its prefix.
  predicate Candidate(c: Config, s: Source, alias: string, scope: Scope) {
    s.enabled && s.prefix <= alias && MatchesId(alias[|s.prefix|..]) && InScope(c, s.runnerRef, scope)
  }

  function FirstCandidate(c: Config, alias: string, scope: Scope, from: nat): Option<Source>
    requires from <= |c.catalogs|
    decreases |c.catalogs| - from
  {
    if from == |c.catalogs| then None
    else if Candidate(c, c.catalogs[from], alias, scope) then Some(c.catalogs[from])
    else FirstCandidate(c, alias, scope, from + 1)
  }

  lemma {:induction false} FirstFound(c: Config, alias: string, scope: Scope, from: nat)
    requires from <= |c.catalogs|
    ensures var f := FirstCandidate(c, alias, scope, from);
      && (f.Some? ==> f.value in c.catalogs && Candidate(c, f.value, alias, scope))
      && (f.None? ==> forall i :: from <= i < |c.catalogs| ==> !Candidate(c, c.catalogs[i], alias, scope))
    decreases |c.catalogs| - from
  {
    if from < |c.catalogs| { FirstFound(c, alias, scope, from + 1); }
  }

  function ResolveDynamic(c: Config, reg: Registry, p: Principal, alias: string, scope: Scope,
                          effort: Option<string>): Resolution {
    match FirstCandidate(c, alias, scope, 0)
    case None => Failure(NotFound)
    case Some(s) =>
      FirstFound(c, alias, scope, 0);
      ResolveThrough(c, reg, p, s, alias, effort)
  }

  function ResolveThrough(c: Config, reg: Registry, p: Principal, s: Source, alias: string,
                          effort: Option<string>): Resolution
    requires s.prefix <= alias
  {
    var tail := alias[|s.prefix|..];
    var h := HealthOf(reg, s.runnerRef);
    if !MayExecute(c, p, s, alias) then Failure(Authorization)
    else if !RunnerAvailable(reg, s.runnerRef) then Failure(RunnerUnavailable)
    else if tail !in h.value.descriptors then Failure(NotFound)
    else if !SourceAdmits(s, h.value.descriptors[tail], h.value.synthetic) then Failure(NotFound)
    else
      var d := h.value.descriptors[tail];
      var r := ResolveEffort(Some(d), effort);
      if r.None? || (effort.Some? && r.value != d.modelId && !DynamicTargetAdmitted(c, p, s, h.value, r.value))
      then Failure(UnsupportedCapability)
      else if !ValidAlias(alias) then Failure(InvalidAlias)
      else Success(Binding(Preset(alias, s.runnerRef, tail, s.taskPolicy, true, s.allowSynthetic),
                           tail, r.value, effort, Supported(Some(d), effort), true, Some(s.name)))
  }

  predicate DynamicTargetAdmitted(c: Config, p: Principal, s: Source, h: RunnerHealth, id: string) {
    && id in h.descriptors
    && MayExecute(c, p, s, s.prefix + id)
    && SourceAdmits(s, h.descriptors[id], h.synthetic)
  }

  // ------------------------------------------------------- listings and scopes

  // A source whose runner's catalog may be listed.
  predicate Contributes(c: Config, reg: Registry, s: Source, scope: Scope) {
    s.enabled && InScope(c, s.runnerRef, scope) && RunnerAvailable(reg, s.runnerRef)
  }

  predicate RowListed(c: Config, p: Principal, s: Source, h: RunnerHealth, id: string) {
    id in h.descriptors && !IsStatic(c, s.prefix + id) && MayExecute(c, p, s, s.prefix + id)
    && SourceAdmits(s, h.descriptors[id], h.synthetic)
  }

  predicate ListedBy(c: Config, reg: Registry, p: Principal, s: Source, scope: Scope, id: string) {
    Contributes(c, reg, s, scope) && RowListed(c, p, s, reg.runners[s.runnerRef], id)
  }

  predicate Listed(c: Config, reg: Registry, p: Principal, scope: Scope, alias: string) {
    exists s :: s in c.catalogs && s.prefix <= alias && ListedBy(c, reg, p, s, scope, alias[|s.prefix|..])
  }

  datatype Entry = Entry(
    alias: string, modelId: string, catalog: string, taskPolicy: string,
    synthetic: bool, realVerification: bool, descriptor: Descriptor)

  // The row of one listed model.
  function EntryOf(s: Source, h: RunnerHealth, id: string): Entry
    requires id in h.descriptors
  {
    var d := h.descriptors[id];
    Entry(s.prefix + id, id, s.name, s.taskPolicy, h.synthetic, d.status.Passed? && !h.synthetic, d)
  }

  // One source's rows, in the order of its runner's models.
  function SourceRows(c: Config, p: Principal, s: Source, h: RunnerHealth, ids: seq<string>): (rows: seq<Entry>)
    ensures forall e ::
      e in rows <==> e.modelId in ids && RowListed(c, p, s, h, e.modelId) && e == EntryOf(s, h, e.modelId)
  {
    if ids == [] then []
    else
      var last := ids[|ids| - 1];
      var before := SourceRows(c, p, s, h, ids[..|ids| - 1]);
      assert ids == ids[..|ids| - 1] + [last];
      if RowListed(c, p, s, h, last) then before + [EntryOf(s, h, last)] else before
  }

  // All rows, source after source.
  function ListingOf(c: Config, reg: Registry, p: Principal, scope: Scope, sources: seq<Source>): seq<Entry> {
    if sources == [] then []
    else
      var s := sources[|sources| - 1];
      ListingOf(c, reg, p, scope, sources[..|sources| - 1]) + RowsFrom(c, reg, p, scope, s)
  }

  ghost predicate RowOf(c: Config, reg: Registry, p: Principal, scope: Scope, s: Source, e: Entry) {
    ListedBy(c, reg, p, s, scope, e.modelId) && e == EntryOf(s, reg.runners[s.runnerRef], e.modelId)
  }

  /** Every row of `entries` is a listed alias, and every listed alias has one. */
  ghost predicate ListsExactly(c: Config, reg: Registry, p: Principal, scope: Scope, sources: seq<Source>,
                               entries: seq<Entry>) {
    forall e :: e in entries <==> exists s :: s in sources && RowOf(c, reg, p, scope, s, e)
  }

  // The rows one source adds to the listing.
  function RowsFrom(c: Config, reg: Registry, p: Principal, scope: Scope, s: Source): seq<Entry> {
    if !Contributes(c, reg, s, scope) then []
    else
      var h := reg.runners[s.runnerRef];
      SourceRows(c, p, s, h, h.models)
  }

  lemma RowsFromAreExact(c: Config, reg: Registry, p: Principal, scope: Scope, s: Source, e: Entry)
    requires RegistryOk(c, reg)
    ensures e in RowsFrom(c, reg, p, scope, s) <==> RowOf(c, reg, p, scope, s, e)
  {
    assert Contributes(c, reg, s, scope) ==> HealthOk(reg.runners[s.runnerRef]);
  }

  lemma {:induction false} ListingIsExact(c: Config, reg: Registry, p: Principal, scope: Scope, sources: seq<Source>)
    requires RegistryOk(c, reg)
    ensures ListsExactly(c, reg, p, scope, sources, ListingOf(c, reg, p, scope, sources))
  {
    if sources != [] {
      var front, s := sources[..|sources| - 1], sources[|sources| - 1];
      ListingIsExact(c, reg, p, scope, front);
      var entries, rows := ListingOf(c, reg, p, scope, front), RowsFrom(c, reg, p, scope, s);
      forall e ensures e in entries + rows <==> exists q :: q in sources && RowOf(c, reg, p, scope, q, e) {
        RowsFromAreExact(c, reg, p, scope, s, e);
        InOneMore(c, reg, p, scope, sources, e);
      }
    }
  }

  lemma InOneMore(c: Config, reg: Registry, p: Principal, scope: Scope, sources: seq<Source>, e: Entry)
    requires sources != []
    ensures (exists q :: q in sources && RowOf(c, reg, p, scope, q, e))
       <==> (exists q :: q in sources[..|sources| - 1] && RowOf(c, reg, p, scope, q, e))
            || RowOf(c, reg, p, scope, sources[|sources| - 1], e)
  {
    assert sources == sources[..|sources| - 1] + [sources[|sources| - 1]];
  }

  method DynamicModelEntries(c: Config, reg: Registry, p: Principal, scope: Scope) returns (entries: seq<Entry>)
    requires RegistryOk(c, reg)
    ensures entries == ListingOf(c, reg, p, scope, c.catalogs)
    ensures ListsExactly(c, reg, p, scope, c.catalogs, entries)
  {
    entries := [];
    for i := 0 to |c.catalogs|
      invariant entries == ListingOf(c, reg, p, scope, c.catalogs[..i])
    {
      var s := c.catalogs[i];
      assert c.catalogs[..i + 1][..i] == c.catalogs[..i];
      if s.enabled && InScope(c, s.runnerRef, scope) && RunnerAvailable(reg, s.runnerRef) {
        var more := SourceEntries(c, p, s, reg.runners[s.runnerRef]);
        entries := entries + more;
      }
    }
    assert c.catalogs[..|c.catalogs|] == c.catalogs;
    ListingIsExact(c, reg, p, scope, c.catalogs);
  }

  method SourceEntries(c: Config, p: Principal, s: Source, h: RunnerHealth) returns (entries: seq<Entry>)
    requires HealthOk(h)
    ensures entries == SourceRows(c, p, s, h, h.models)
  {
    entries := [];
    for i := 0 to |h.models|
      invariant entries == SourceRows(c, p, s, h, h.models[..i])
    {
      var id := h.models[i];
      assert h.models[..i + 1][..i] == h.models[..i];
      var alias := s.prefix + id;
      if !IsStatic(c, alias) && MayExecute(c, p, s, alias) {
        var d := h.descriptors[id];
        if SourceAdmits(s, d, h.synthetic) {
          var verified := d.status.Passed? && !h.synthetic;
          entries := entries + [Entry(alias, id, s.name, s.taskPolicy, h.synthetic, verified, d)];
        }
      }
    }
    assert h.models[..|h.models|] == h.models;
  }

  datatype Rejection = Shadowed | NotAdmitted | RunnerNotAvailable | NoGrant

  datatype ViewRow = ViewRow(
    alias: string, descriptor: Descriptor, admitted: bool, executable: bool, rejection: Option<Rejection>)

  // One row of the discovery view.
  function ViewOf(c: Config, p: Principal, s: Source, h: RunnerHealth, id: string): ViewRow
    requires id in h.descriptors
  {
    var alias := s.prefix + id;
    var d := h.descriptors[id];
    var shadowed := IsStatic(c, alias);
    var admitted := SourceAdmits(s, d, h.synthetic);
    var available := h.enabled && h.ok;
    var executable := admitted && available && !shadowed && MayExecute(c, p, s, alias);
    ViewRow(alias, d, admitted, executable,
            if shadowed then Some(Shadowed)
            else if executable then None
            else if !admitted then Some(NotAdmitted)
            else if !available then Some(RunnerNotAvailable)
            else Some(NoGrant))
  }

  method SourceView(c: Config, reg: Registry, p: Principal, s: Source) returns (rows: seq<ViewRow>)
    requires RegistryOk(c, reg)
    ensures s.runnerRef !in reg.runners ==> rows == []
    ensures s.runnerRef in reg.runners ==> var h := reg.runners[s.runnerRef];
      |rows| == |h.models| && forall i :: 0 <= i < |rows| ==> rows[i] == ViewOf(c, p, s, h, h.models[i])
  {
    rows := [];
    if s.runnerRef !in reg.runners { return; }
    var h := reg.runners[s.runnerRef];
    for i := 0 to |h.models|
      invariant |rows| == i
      invariant forall k :: 0 <= k < i ==> rows[k] == ViewOf(c, p, s, h, h.models[k])
    {
      rows := rows + [ViewOf(c, p, s, h, h.models[i])];
    }
  }

  // -------------------------------------------------------------- the scopes

  predicate ConsultsThrough(c: Config, p: Principal, s: Source, alias: string, scope: Scope) {
    Candidate(c, s, alias, scope) && MayExecute(c, p, s, alias)
  }

  // Runners that resolving this alias may consult.
  function AliasRefs(c: Config, p: Principal, alias: string, scope: Scope): set<string> {
    match FindPreset(c.presets, alias)
    case Some(preset) =>
      if preset.alias in p.allowedPresets && InScope(c, preset.runnerRef, scope) then {preset.runnerRef} else {}
    case None => set s | s in c.catalogs && ConsultsThrough(c, p, s, alias, scope) :: s.runnerRef
  }

  method AliasRefreshRefs(c: Config, p: Principal, alias: string, scope: Scope) returns (refs: set<string>)
    ensures refs == AliasRefs(c, p, alias, scope)
  {
    var preset := FindPreset(c.presets, alias);
    if preset.Some? {
      if preset.value.alias !in p.allowedPresets { return {}; }
      if !InScope(c, preset.value.runnerRef, scope) { return {}; }
      return {preset.value.runnerRef};
    }
    refs := {};
    for i := 0 to |c.catalogs|
      invariant refs == set s | s in c.catalogs[..i] && ConsultsThrough(c, p, s, alias, scope) :: s.runnerRef
    {
      var s := c.catalogs[i];
      assert c.catalogs[..i + 1] == c.catalogs[..i] + [s];
      if s.enabled && s.prefix <= alias && MatchesId(alias[|s.prefix|..]) {
        if InScope(c, s.runnerRef, scope) && MayExecute(c, p, s, alias) { refs := refs + {s.runnerRef}; }
      }
    }
    assert c.catalogs[..|c.catalogs|] == c.catalogs;
  }

  predicate PresetInListing(c: Config, p: Principal, q: Preset, scope: Scope) {
    q.enabled && q.alias in p.allowedPresets && InScope(c, q.runnerRef, scope)
  }

  predicate SourceInListing(c: Config, p: Principal, s: Source, scope: Scope) {
    s.enabled && InScope(c, s.runnerRef, scope)
    && (s.name in p.executableCatalogs || exists g :: g in p.allowedPresets && s.prefix <= g && !IsStatic(c, g))
  }

  // Runners that could contribute to the model list.
  function ModelsRefs(c: Config, p: Principal, scope: Scope): set<string> {
    (set q | q in c.presets && PresetInListing(c, p, q, scope) :: q.runnerRef)
    + (set s | s in c.catalogs && SourceInListing(c, p, s, scope) :: s.runnerRef)
  }

  method ModelsRefreshRefs(c: Config, p: Principal, scope: Scope) returns (refs: set<string>)
    ensures refs == ModelsRefs(c, p, scope)
  {
    refs := HeldPresetRefs(c, p, scope);
    var more := GrantedSourceRefs(c, p, scope);
    refs := refs + more;
  }

  method HeldPresetRefs(c: Config, p: Principal, scope: Scope) returns (refs: set<string>)
    ensures refs == set q | q in c.presets && PresetInListing(c, p, q, scope) :: q.runnerRef
  {
    refs := {};
    for i := 0 to |c.presets|
      invariant refs == set q | q in c.presets[..i] && PresetInListing(c, p, q, scope) :: q.runnerRef
    {
      var q := c.presets[i];
      assert c.presets[..i + 1] == c.presets[..i] + [q];
      if q.enabled && q.alias in p.allowedPresets && InScope(c, q.runnerRef, scope) {
        refs := refs + {q.runnerRef};
      }
    }
    assert c.presets[..|c.presets|] == c.presets;
  }

  method GrantedSourceRefs(c: Config, p: Principal, scope: Scope) returns (refs: set<string>)
    ensures refs == set s | s in c.catalogs && SourceInListing(c, p, s, scope) :: s.runnerRef
  {
    refs := {};
    for i := 0 to |c.catalogs|
      invariant refs == set s | s in c.catalogs[..i] && SourceInListing(c, p, s, scope) :: s.runnerRef
    {
      var s := c.catalogs[i];
      assert c.catalogs[..i + 1] == c.catalogs[..i] + [s];
      if s.enabled && InScope(c, s.runnerRef, scope) {
        if s.name in p.executableCatalogs || exists g :: g in p.allowedPresets && s.prefix <= g && !IsStatic(c, g) {
          refs := refs + {s.runnerRef};
        }
      }
    }
    assert c.catalogs[..|c.catalogs|] == c.catalogs;
  }

  // ------------------------------------------------------- validated data only

  predicate Overlap(a: string, b: string) { a <= b || b <= a }

  // What the operator configuration's own validation guarantees.
  ghost predicate ConfigOk(c: Config) {
    && (forall i :: 0 <= i < |c.catalogs| ==> ValidPrefix(c.catalogs[i].prefix))
    && (forall i, j :: 0 <= i < j < |c.catalogs| && c.catalogs[i].enabled && c.catalogs[j].enabled
          ==> !Overlap(c.catalogs[i].prefix, c.catalogs[j].prefix))
  }

  // A verified descriptor table, keyed by its rows' own ids.
  ghost predicate HealthOk(h: RunnerHealth) {
    && (forall id :: id in h.descriptors ==>
          IsId(id) && h.descriptors[id].modelId == id && EffortShapeOk(h.descriptors[id]))
    && (forall id :: id in h.models <==> id in h.descriptors)
  }

  // Preset health carries the configuration's own binding.
  ghost predicate RegistryOk(c: Config, reg: Registry) {
    && (forall ref :: ref in reg.runners ==> HealthOk(reg.runners[ref]))
    && (forall q :: q in c.presets && q.alias in reg.presets ==>
          reg.presets[q.alias].boundTo == q.runnerRef && (reg.presets[q.alias].enabled ==> q.enabled))
  }
}
