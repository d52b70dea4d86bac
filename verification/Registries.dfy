/**
 The runner registry: verification passes over runners, the presets derived from
 them, and the singleflight refresh with one freshness mark per runner.

 A pass holds the refresh guard over all its suspension points; every step below
 is the code between two of them. Time is a monotone clock.
 */
module Registries {
  import opened Common
  import opened AliasNames
  import Catalog

  const SDK_VERSION := "1.0"

  // ----------------------------------------------------- one verification pass

  datatype Reply<+T> = Raised | Malformed | Got(value: T)

  datatype Manifest = Manifest(driverId: string, version: string, sdkVersion: string, synthetic: bool)

  datatype Probe = Probe(ok: bool, streams: bool, rolesKnown: bool)

  datatype Runtime = Runtime(maxParallelRuns: nat, maxQueue: nat, cancelCleanup: real)

  /** What one Runner session answers during one pass. */
  datatype Replies = Replies(
    manifest: Reply<Manifest>, probe: Reply<Probe>,
    models: Reply<seq<Catalog.Descriptor>>, runtime: Reply<Runtime>)

  datatype RunnerCfg = RunnerCfg(id: string, enabled: bool, driverId: string, driverVersion: string)

  /** Everything of a health record that a successful pass writes. */
  datatype Snapshot = Snapshot(
    manifest: Option<Manifest>, probe: Option<Probe>, runtime: Runtime,
    descriptors: map<string, Catalog.Descriptor>, models: seq<string>)

  const NOTHING_SEEN := Snapshot(None, None, Runtime(1, 1, 10.0), map[], [])

  datatype Health = Health(enabled: bool, ok: bool, snap: Snapshot)

  predicate ValidDescriptor(d: Catalog.Descriptor) {
    IsId(d.modelId) && Catalog.EffortShapeOk(d)
  }

  function Ids(rows: seq<Catalog.Descriptor>): seq<string> {
    seq(|rows|, i requires 0 <= i < |rows| => rows[i].modelId)
  }

  predicate Distinct(ids: seq<string>) {
    forall i, j :: 0 <= i < j < |ids| ==> ids[i] != ids[j]
  }

  predicate RowsOk(rows: seq<Catalog.Descriptor>) {
    (forall i :: 0 <= i < |rows| ==> ValidDescriptor(rows[i])) && Distinct(Ids(rows))
  }

  // The replies make up one complete, consistent report of the configured driver.
  predicate PassSucceeds(r: RunnerCfg, q: Replies) {
    && q.manifest.Got? && q.manifest.value.driverId == r.driverId && q.manifest.value.version == r.driverVersion
    && q.manifest.value.sdkVersion == SDK_VERSION
    && q.probe.Got? && q.probe.value.ok
    && q.models.Got? && RowsOk(q.models.value)
    && q.runtime.Got?
  }

  function Table(rows: seq<Catalog.Descriptor>): (t: map<string, Catalog.Descriptor>)
    ensures t.Keys == set i | 0 <= i < |rows| :: rows[i].modelId
  {
    if rows == [] then map[]
    else
      var last := rows[|rows| - 1];
      var t := Table(rows[..|rows| - 1]);
      assert forall i :: 0 <= i < |rows| - 1 ==> rows[i] == rows[..|rows| - 1][i];
      t[last.modelId := last]
  }

  function SnapshotOf(q: Replies): Snapshot
    requires q.manifest.Got? && q.probe.Got? && q.models.Got? && q.runtime.Got?
  {
    Snapshot(Some(q.manifest.value), Some(q.probe.value), q.runtime.value, Table(q.models.value), Ids(q.models.value))
  }

  // The health record after a pass: replaced whole, or only marked not ok.
  function Verified(r: RunnerCfg, h: Health, q: Replies): Health {
    if PassSucceeds(r, q) then h.(ok := true, snap := SnapshotOf(q)) else h.(ok := false)
  }

  /** With distinct ids the table holds each reported row under its own id. */
  lemma {:induction false} TableHolds(rows: seq<Catalog.Descriptor>, i: nat)
    requires Distinct(Ids(rows)) && i < |rows|
    ensures rows[i].modelId in Table(rows) && Table(rows)[rows[i].modelId] == rows[i]
  {
    var front := rows[..|rows| - 1];
    assert forall k :: 0 <= k < |front| ==> Ids(front)[k] == Ids(rows)[k];
    if i < |rows| - 1 {
      TableHolds(front, i);
      assert Ids(rows)[i] != Ids(rows)[|rows| - 1];
    }
  }

  // ----------------------------------------------------------- derived presets

  // Usability of a preset's model on its runner.
  predicate Usable(q: Catalog.Preset, h: Option<Health>) {
    && q.enabled
    && h.Some? && h.value.ok
    && q.modelId in h.value.snap.descriptors
    && var d := h.value.snap.descriptors[q.modelId];
    && !d.status.FailedCheck?
    && (d.status.Passed? || (Synthetic(h.value) && q.allowSynthetic))
    && d.executable
    && h.value.snap.probe.Some? && h.value.snap.probe.value.streams && h.value.snap.probe.value.rolesKnown
  }

  predicate Synthetic(h: Health) {
    h.snap.manifest.Some? && h.snap.manifest.value.synthetic
  }

  // ------------------------------------------------------------------- state

  datatype Config = Config(runners: seq<RunnerCfg>, presets: seq<Catalog.Preset>, ttl: real)

  datatype Phase = Next | Verifying | Closing

  datatype Pass = Pass(targets: set<string>, forced: bool, since: real, pos: nat, phase: Phase, touched: set<string>)

  datatype Request = Request(refs: set<string>, force: bool)

  datatype Event =
    | Began(ref: string, at: real, forced: bool)
    | Finished(ref: string, at: real)

  datatype State = State(
    now: real,
    runners: map<string, Health>,
    verified: map<string, bool>,        // preset alias -> verified
    marks: map<string, real>,
    pass: Option<Pass>,                 // the holder of the refresh guard
    waiting: map<nat, Request>,
    log: seq<Event>,                    // history
    good: map<string, Replies>,         // history: the last successful pass
    dirty: set<string>)                 // history: verified by a pass that then failed to finish

  datatype Step =
    | Advance(d: real)
    | EnsureFresh(id: nat, refs: set<string>, force: bool)
    | Enter(id: nat)
    | GiveUp(id: nat)
    | Visit
    | Report(replies: Replies)
    | Close
    | Derive
    | Abort      // cancelled, or an exception outside the pass's own handling

  predicate Fresh(c: Config, s: State, ref: string) {
    ref in s.marks && s.now - s.marks[ref] < c.ttl
  }

  function Targets(c: Config, s: State, q: Request): set<string> {
    if q.force then q.refs else set ref | ref in q.refs && !Fresh(c, s, ref)
  }

  predicate Enabled(c: Config, s: State, step: Step) {
    match step
    case Advance(d) => d >= 0.0
    case EnsureFresh(id, _, _) => id !in s.waiting
    case Enter(id) => id in s.waiting && s.pass.None?
    case GiveUp(id) => id in s.waiting
    case Visit => s.pass.Some? && s.pass.value.phase.Next? && s.pass.value.pos < |c.runners|
    case Report(_) => s.pass.Some? && s.pass.value.phase.Verifying? && s.pass.value.pos < |c.runners|
    case Close => s.pass.Some? && s.pass.value.phase.Closing? && s.pass.value.pos < |c.runners|
    case Derive => s.pass.Some? && s.pass.value.phase.Next? && s.pass.value.pos >= |c.runners|
    case Abort => s.pass.Some?
  }

  function Lookup(runners: map<string, Health>, ref: string): Option<Health> {
    if ref in runners then Some(runners[ref]) else None
  }

  function HealthOf(s: State, ref: string): Option<Health> {
    Lookup(s.runners, ref)
  }

  // The record of a configured runner; it exists from construction on.
  function Record(s: State, r: RunnerCfg): Health {
    if r.id in s.runners then s.runners[r.id] else Health(r.enabled, false, NOTHING_SEEN)
  }

  function Derived(c: Config, runners: map<string, Health>, verified: map<string, bool>,
                   targets: set<string>): map<string, bool> {
    map alias | alias in verified :: VerifiedAfter(c, runners, verified, targets, alias)
  }

  function VerifiedAfter(c: Config, runners: map<string, Health>, verified: map<string, bool>, targets: set<string>,
                         alias: string): bool
    requires alias in verified
  {
    var q := Catalog.FindPreset(c.presets, alias);
    if q.Some? && q.value.runnerRef in targets then Usable(q.value, Lookup(runners, q.value.runnerRef))
      else verified[alias]
  }

  // What a pass does with the runner it comes to.
  function Skip(s: State): State
    requires s.pass.Some?
  {
    s.(pass := Some(s.pass.value.(pos := s.pass.value.pos + 1)))
  }

  function MarkDisabled(s: State, r: RunnerCfg): State
    requires s.pass.Some?
  {
    var p := s.pass.value;
    s.(runners := s.runners[r.id := Record(s, r).(ok := false)], marks := s.marks[r.id := s.now],
       pass := Some(p.(pos := p.pos + 1, touched := p.touched + {r.id})))
  }

  function BeginVerify(s: State, r: RunnerCfg): State
    requires s.pass.Some?
  {
    var p := s.pass.value;
    s.(pass := Some(p.(phase := Verifying)), log := s.log + [Began(r.id, s.now, p.forced)])
  }

  function Visited(s: State, r: RunnerCfg): State
    requires s.pass.Some?
  {
    if r.id !in s.pass.value.targets then Skip(s)
    else if !r.enabled then MarkDisabled(s, r)
    else BeginVerify(s, r)
  }

  function Apply(c: Config, s: State, step: Step): State
    requires Enabled(c, s, step)
  {
    match step
    case Advance(d) => s.(now := s.now + d)
    case EnsureFresh(id, refs, force) =>
      if !force && refs != {} && forall ref :: ref in refs ==> Fresh(c, s, ref) then s
      else s.(waiting := s.waiting[id := Request(refs, force)])
    case Enter(id) =>
      var targets := Targets(c, s, s.waiting[id]);
      s.(waiting := s.waiting - {id},
         pass := if targets == {} then None else Some(Pass(targets, s.waiting[id].force, s.now, 0, Next, {})))
    case GiveUp(id) => s.(waiting := s.waiting - {id})
    case Visit => Visited(s, c.runners[s.pass.value.pos])
    case Report(q) =>
      var p := s.pass.value;
      var r := c.runners[p.pos];
      s.(runners := s.runners[r.id := Verified(r, Record(s, r), q)],
         good := if PassSucceeds(r, q) then s.good[r.id := q] else s.good,
         pass := Some(p.(phase := Closing, touched := p.touched + {r.id})))
    case Close =>
      var p := s.pass.value;
      var r := c.runners[p.pos];
      s.(marks := s.marks[r.id := s.now], log := s.log + [Finished(r.id, s.now)],
         pass := Some(p.(pos := p.pos + 1, phase := Next)))
    case Derive =>
      s.(verified := Derived(c, s.runners, s.verified, s.pass.value.targets), pass := None,
          dirty := s.dirty - s.pass.value.targets)
    case Abort => s.(pass := None, dirty := s.dirty + s.pass.value.touched)
  }

  // At construction nothing is checked.
  ghost predicate Start(c: Config, s: State) {
    && s.now >= 0.0
    && (forall r :: r in c.runners ==> r.id in s.runners && s.runners[r.id].enabled == r.enabled)
    && (forall ref :: ref in s.runners ==> !s.runners[ref].ok && s.runners[ref].snap == NOTHING_SEEN)
    && (forall q :: q in c.presets ==> q.alias in s.verified)
    && (forall alias :: alias in s.verified ==> !s.verified[alias])
    && s.marks == map[] && s.pass.None? && s.waiting == map[] && s.log == [] && s.good == map[] && s.dirty == {}
  }

  ghost predicate ConfigOk(c: Config) {
    && c.ttl >= 0.0
    && (forall i, j :: 0 <= i < j < |c.runners| ==> c.runners[i].id != c.runners[j].id)
    && (forall i, j :: 0 <= i < j < |c.presets| ==> c.presets[i].alias != c.presets[j].alias)
  }

  ghost predicate IsTrace(c: Config, states: seq<State>, steps: seq<Step>) {
    |states| == |steps| + 1 && Start(c, states[0])
    && forall k :: 0 <= k < |steps| ==>
          Enabled(c, states[k], steps[k]) && states[k + 1] == Apply(c, states[k], steps[k])
  }
}

/** The registry object: the code of a pass between its suspension points. */
module RunnerRegistries {
  import opened Common
  import Catalog
  import opened Registries

  class RunnerRegistry {
    const config: Config
    var runners: map<string, Health>
    var verified: map<string, bool>
    var marks: map<string, real>

    constructor (config: Config)
      ensures this.config == config && runners == map[] && verified == map[] && marks == map[]
    {
      this.config := config;
      runners, verified, marks := map[], map[], map[];
    }

    method StaleTargets(refs: set<string>, now: real) returns (targets: set<string>)
      ensures targets == set ref | ref in refs && !(ref in marks && now - marks[ref] < config.ttl)
    {
      targets := {};
      var left := refs;
      while left != {}
        invariant left <= refs
        invariant targets == set ref | ref in refs - left && !(ref in marks && now - marks[ref] < config.ttl)
        decreases |left|
      {
        var ref :| ref in left;
        left := left - {ref};
        if ref !in marks || now - marks[ref] >= config.ttl { targets := targets + {ref}; }
      }
    }

    // The catalog a runner reported, or nothing for a malformed or repeated row.
    method DescriptorTable(rows: seq<Catalog.Descriptor>) returns (table: Option<map<string, Catalog.Descriptor>>)
      ensures table == if RowsOk(rows) then Some(Table(rows)) else None
    {
      var t: map<string, Catalog.Descriptor> := map[];
      for i := 0 to |rows|
        invariant RowsOk(rows[..i]) && t == Table(rows[..i])
      {
        OneRowMore(rows, i);
        TableMore(rows, i);
        if !ValidDescriptor(rows[i]) || rows[i].modelId in t { return None; }
        t := t[rows[i].modelId := rows[i]];
      }
      assert rows[..|rows|] == rows;
      table := Some(t);
    }

    // One pass over one runner: nothing of the old snapshot survives a success,
    // nothing of the new report survives a failure.
    method VerifyRunner(r: RunnerCfg, q: Replies)
      requires r.id in runners
      modifies this`runners
      ensures runners == old(runners)[r.id := Verified(r, old(runners[r.id]), q)]
    {
      if !q.manifest.Got? { Fail(r.id); return; }
      var m := q.manifest.value;
      if m.driverId != r.driverId || m.version != r.driverVersion || m.sdkVersion != SDK_VERSION { Fail(r.id); return; }
      if !q.probe.Got? || !q.probe.value.ok { Fail(r.id); return; }
      if !q.models.Got? { Fail(r.id); return; }
      var table := DescriptorTable(q.models.value);
      if table.None? { Fail(r.id); return; }
      if !q.runtime.Got? { Fail(r.id); return; }
      runners := runners[r.id := runners[r.id].(ok := true,
        snap := Snapshot(Some(m), Some(q.probe.value), q.runtime.value, table.value, Ids(q.models.value)))];
    }

    method Fail(id: string)
      requires id in runners
      modifies this`runners
      ensures runners == old(runners)[id := old(runners[id]).(ok := false)]
    {
      runners := runners[id := runners[id].(ok := false)];
    }

    method DerivePresets(targets: set<string>)
      requires forall i, j :: 0 <= i < j < |config.presets| ==> config.presets[i].alias != config.presets[j].alias
      requires forall q :: q in config.presets ==> q.alias in verified
      modifies this`verified
      ensures verified == Derived(config, runners, old(verified), targets)
    {
      ghost var before := verified;
      for i := 0 to |config.presets|
        invariant verified == Derived(FirstPresets(config, i), runners, before, targets)
      {
        var q := config.presets[i];
        OnePresetMore(config, runners, before, targets, i);
        if q.runnerRef in targets {
          verified := verified[q.alias := Usable(q, Lookup(runners, q.runnerRef))];
        }
      }
      assert FirstPresets(config, |config.presets|) == config;
    }
  }

  predicate NoRepeats(rows: seq<Catalog.Descriptor>) {
    forall i, j :: 0 <= i < j < |rows| ==> rows[i].modelId != rows[j].modelId
  }

  lemma DistinctIds(rows: seq<Catalog.Descriptor>)
    ensures Distinct(Ids(rows)) <==> NoRepeats(rows)
  {
    assert forall k :: 0 <= k < |rows| ==> Ids(rows)[k] == rows[k].modelId;
  }

  lemma NoRepeatsMore(rows: seq<Catalog.Descriptor>, n: nat)
    requires n < |rows| && NoRepeats(rows[..n])
    ensures NoRepeats(rows[..n + 1]) <==> rows[n].modelId !in Table(rows[..n])
    ensures NoRepeats(rows) ==> NoRepeats(rows[..n + 1])
  {
    if rows[n].modelId in Table(rows[..n]) {
      var k :| 0 <= k < n && rows[..n][k].modelId == rows[n].modelId;
      assert rows[..n + 1][k].modelId == rows[..n + 1][n].modelId;
    } else {
      assert forall k :: 0 <= k < n ==> rows[..n][k].modelId != rows[n].modelId;
    }
  }

  // One row more is good exactly when it is valid and its id is new.
  lemma OneRowMore(rows: seq<Catalog.Descriptor>, n: nat)
    requires n < |rows| && RowsOk(rows[..n])
    ensures RowsOk(rows[..n + 1]) <==> ValidDescriptor(rows[n]) && rows[n].modelId !in Table(rows[..n])
    ensures RowsOk(rows) ==> RowsOk(rows[..n + 1])
  {
    DistinctIds(rows[..n]);
    DistinctIds(rows[..n + 1]);
    DistinctIds(rows);
    NoRepeatsMore(rows, n);
    assert forall k :: 0 <= k <= n ==> rows[..n + 1][k] == rows[k];
    assert forall k :: 0 <= k < n ==> rows[..n][k] == rows[k];
    assert rows[..n + 1][n] == rows[n];
  }

  lemma TableMore(rows: seq<Catalog.Descriptor>, n: nat)
    requires n < |rows|
    ensures Table(rows[..n + 1]) == Table(rows[..n])[rows[n].modelId := rows[n]]
  {
    assert rows[..n + 1][..n] == rows[..n];
  }

  function FirstPresets(c: Config, n: nat): Config
    requires n <= |c.presets|
  {
    c.(presets := c.presets[..n])
  }

  // Re-deriving one preset more changes that preset's verdict alone.
  lemma OnePresetMore(c: Config, runners: map<string, Health>, before: map<string, bool>, targets: set<string>,
                      n: nat)
    requires n < |c.presets| && c.presets[n].alias in before
    requires forall k :: 0 <= k < n ==> c.presets[k].alias != c.presets[n].alias
    ensures var q := c.presets[n];
      var derived := Derived(FirstPresets(c, n), runners, before, targets);
      Derived(FirstPresets(c, n + 1), runners, before, targets)
        == if q.runnerRef in targets then derived[q.alias := Usable(q, Lookup(runners, q.runnerRef))] else derived
  {
    assert c.presets[..n + 1][..n] == c.presets[..n];
    Catalog.FoundPreset(c.presets[..n], c.presets[n].alias);
  }
}
