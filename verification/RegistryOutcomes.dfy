/**
 What a verification pass comes to: when a Runner's report is accepted, when a
 preset is usable, and that a refresh carries a good report through to both.
 */
module RegistryOutcomes {
  import opened Common
  import opened AliasNames
  import Catalog
  import opened Registries
  import opened RegistryProofs
  import opened RunnerRegistries

  // A row the schema accepts: a catalog id, and effort fields as its support says.
  predicate GoodRow(d: Catalog.Descriptor) {
    && IsId(d.modelId)
    && (d.options == [] <==> d.effort != Catalog.Selectable)
    && (d.variants == map[] <==> d.effort != Catalog.ModelVariant)
  }

  /** The report of one pass that makes its runner ok. */
  predicate Accepted(r: RunnerCfg, q: Replies) {
    && q.manifest.Got? && q.probe.Got? && q.models.Got? && q.runtime.Got?
    && q.manifest.value.driverId == r.driverId && q.manifest.value.version == r.driverVersion
    && q.manifest.value.sdkVersion == "1.0" && q.probe.value.ok
    && (forall i :: 0 <= i < |q.models.value| ==> GoodRow(q.models.value[i]))
    && NoRepeats(q.models.value)
  }

  // The record then shows that report, whole.
  ghost predicate ShowsReport(h: Health, q: Replies)
    requires q.manifest.Got? && q.probe.Got? && q.models.Got? && q.runtime.Got?
  {
    var rows := q.models.value;
    && h.snap.manifest == Some(q.manifest.value) && h.snap.probe == Some(q.probe.value)
    && h.snap.runtime == q.runtime.value
    && |h.snap.models| == |rows| && (forall i :: 0 <= i < |rows| ==> h.snap.models[i] == rows[i].modelId)
    && (forall i :: 0 <= i < |rows| ==>
          rows[i].modelId in h.snap.descriptors && h.snap.descriptors[rows[i].modelId] == rows[i])
    && (forall id :: id in h.snap.descriptors ==> exists i :: 0 <= i < |rows| && rows[i].modelId == id)
  }

  lemma AcceptedIff(r: RunnerCfg, q: Replies)
    ensures PassSucceeds(r, q) <==> Accepted(r, q)
  {
    if q.models.Got? { DistinctIds(q.models.value); }
  }

  lemma VerifiedShows(r: RunnerCfg, h: Health, q: Replies)
    ensures var t := Verified(r, h, q);
      && t.enabled == h.enabled && (t.ok <==> Accepted(r, q))
      && (t.ok ==> ShowsReport(t, q)) && (!t.ok ==> t.snap == h.snap)
  {
    AcceptedIff(r, q);
    if Accepted(r, q) {
      var rows := q.models.value;
      DistinctIds(rows);
      forall i | 0 <= i < |rows| ensures rows[i].modelId in Table(rows) && Table(rows)[rows[i].modelId] == rows[i] {
        TableHolds(rows, i);
      }
    }
  }

  /** A report makes its runner ok exactly when it is a complete and consistent one
      of the configured driver; otherwise the last good snapshot stays. */
  lemma ReportDecides(c: Config, s: State, q: Replies)
    requires Enabled(c, s, Report(q)) && c.runners[s.pass.value.pos].id in s.runners
    ensures var r, t := c.runners[s.pass.value.pos], Apply(c, s, Report(q));
      && t.runners == s.runners[r.id := t.runners[r.id]]
      && var before, after := s.runners[r.id], t.runners[r.id];
      && (after.ok <==> Accepted(r, q))
      && (after.ok ==> ShowsReport(after, q))
      && (!after.ok ==> after.snap == before.snap)
      && after.enabled == before.enabled
  {
    VerifiedShows(c.runners[s.pass.value.pos], s.runners[c.runners[s.pass.value.pos].id], q);
  }

  /** What makes a preset's model usable on its runner. */
  predicate Fit(q: Catalog.Preset, runners: map<string, Health>) {
    && q.enabled && q.runnerRef in runners && runners[q.runnerRef].ok
    && q.modelId in runners[q.runnerRef].snap.descriptors
    && var snap := runners[q.runnerRef].snap;
    var d := snap.descriptors[q.modelId];
    && (d.status == Catalog.Passed
        || (d.status != Catalog.FailedCheck && q.allowSynthetic
            && snap.manifest != None && snap.manifest.value.synthetic))
    && d.executable
    && snap.probe != None && snap.probe.value.streams && snap.probe.value.rolesKnown
  }

  lemma FitIff(q: Catalog.Preset, runners: map<string, Health>)
    ensures Usable(q, Lookup(runners, q.runnerRef)) <==> Fit(q, runners)
  {
  }

  /** Between passes a preset is verified exactly when it is enabled, its runner is ok
      and shows its model: not failed, passed or allowed unverified on a synthetic
      driver, executable, on a driver that streams and knows roles. */
  lemma PresetVerifiedIff(c: Config, states: seq<State>, steps: seq<Step>, n: nat, q: Catalog.Preset)
    requires ConfigOk(c) && IsTrace(c, states, steps) && n < |states|
    requires states[n].pass.None? && q in c.presets && q.runnerRef !in states[n].dirty
    ensures q.alias in states[n].verified && (states[n].verified[q.alias] <==> Fit(q, states[n].runners))
  {
    PresetsFollowRunners(c, states, steps, n, q);
    FitIff(q, states[n].runners);
  }

  // -------------------------------------------------------- a refresh gets there

  /** The state after a list of steps, if each is enabled when its turn comes. */
  function After(c: Config, s: State, steps: seq<Step>): Option<State> {
    if steps == [] then Some(s)
    else
      match After(c, s, steps[..|steps| - 1])
      case Some(t) => if Enabled(c, t, steps[|steps| - 1]) then Some(Apply(c, t, steps[|steps| - 1])) else None
      case None => None
  }

  lemma {:induction false} AfterBoth(c: Config, s: State, xs: seq<Step>, t: State, ys: seq<Step>)
    requires After(c, s, xs) == Some(t)
    ensures After(c, s, xs + ys) == After(c, t, ys)
  {
    if ys == [] {
      assert xs + ys == xs;
    } else {
      AfterBoth(c, s, xs, t, ys[..|ys| - 1]);
      assert (xs + ys)[..|xs + ys| - 1] == xs + ys[..|ys| - 1];
    }
  }

  lemma AfterOne(c: Config, s: State, a: Step)
    requires Enabled(c, s, a)
    ensures After(c, s, [a]) == Some(Apply(c, s, a))
  {
    assert [a][..0] == [];
  }

  lemma OneMore(c: Config, s: State, xs: seq<Step>, t: State, a: Step)
    requires After(c, s, xs) == Some(t) && Enabled(c, t, a)
    ensures After(c, s, xs + [a]) == Some(Apply(c, t, a))
  {
    AfterOne(c, t, a);
    AfterBoth(c, s, xs, t, [a]);
  }

  lemma AfterThen(c: Config, s: State, xs: seq<Step>, t: State, ys: seq<Step>, u: State)
    requires After(c, s, xs) == Some(t) && After(c, t, ys) == Some(u)
    ensures After(c, s, xs + ys) == Some(u)
  {
    AfterBoth(c, s, xs, t, ys);
  }

  function Visits(n: nat): seq<Step> {
    seq(n, i => Visit)
  }

  // A pass walks over the runners it does not target.
  lemma {:induction false} Skips(c: Config, s: State, p: Pass, n: nat)
    requires s.pass == Some(p) && p.phase.Next? && p.pos + n <= |c.runners|
    requires forall i :: p.pos <= i < p.pos + n ==> c.runners[i].id !in p.targets
    ensures After(c, s, Visits(n)) == Some(At(s, p, p.pos + n))
  {
    if n == 0 {
      assert s == At(s, p, p.pos) && Visits(0) == [];
    } else {
      Skips(c, s, p, n - 1);
      SkipsOne(c, s, p, p.pos + n - 1);
      OneMore(c, s, Visits(n - 1), At(s, p, p.pos + n - 1), Visit);
      assert Visits(n) == Visits(n - 1) + [Visit];
    }
  }

  function At(s: State, p: Pass, pos: nat): State {
    s.(pass := Some(p.(pos := pos)))
  }

  lemma SkipsOne(c: Config, s: State, p: Pass, pos: nat)
    requires p.phase.Next? && pos < |c.runners| && c.runners[pos].id !in p.targets
    ensures Enabled(c, At(s, p, pos), Visit) && Apply(c, At(s, p, pos), Visit) == At(s, p, pos + 1)
  {
  }

  // The pass opens for one stale runner.
  lemma Opens(c: Config, s: State, id: nat, ref: string)
    requires s.pass.None? && id !in s.waiting && !(ref in s.marks && s.now - s.marks[ref] < c.ttl)
    ensures After(c, s, [EnsureFresh(id, {ref}, false), Enter(id)])
         == Some(s.(pass := Some(Pass({ref}, false, s.now, 0, Next, {}))))
  {
    var asked := s.(waiting := s.waiting[id := Request({ref}, false)]);
    assert ref in {ref};
    assert Apply(c, s, EnsureFresh(id, {ref}, false)) == asked;
    AfterOne(c, s, EnsureFresh(id, {ref}, false));
    assert asked.waiting - {id} == s.waiting;
    assert Targets(c, asked, asked.waiting[id]) == {ref};
    OneMore(c, s, [EnsureFresh(id, {ref}, false)], asked, Enter(id));
    assert [EnsureFresh(id, {ref}, false)] + [Enter(id)] == [EnsureFresh(id, {ref}, false), Enter(id)];
  }

  // Its runner is verified and marked.
  function Checked(s: State, p: Pass, r: RunnerCfg, q: Replies): State
    requires r.id in s.runners
  {
    s.(runners := s.runners[r.id := Verified(r, s.runners[r.id], q)],
       good := if PassSucceeds(r, q) then s.good[r.id := q] else s.good,
       marks := s.marks[r.id := s.now], log := s.log + [Began(r.id, s.now, p.forced)] + [Finished(r.id, s.now)],
       pass := Some(p.(pos := p.pos + 1, phase := Next, touched := p.touched + {r.id})))
  }

  lemma Checks(c: Config, s: State, p: Pass, q: Replies)
    requires s.pass == Some(p) && p.phase.Next? && p.pos < |c.runners|
    requires var r := c.runners[p.pos]; r.enabled && r.id in p.targets && r.id in s.runners
    ensures After(c, s, [Visit, Report(q), Close]) == Some(Checked(s, p, c.runners[p.pos], q))
  {
    var r := c.runners[p.pos];
    var s1 := s.(pass := Some(p.(phase := Verifying)), log := s.log + [Began(r.id, s.now, p.forced)]);
    assert Apply(c, s, Visit) == s1;
    AfterOne(c, s, Visit);
    OneMore(c, s, [Visit], s1, Report(q));
    var s2 := Apply(c, s1, Report(q));
    assert [Visit] + [Report(q)] == [Visit, Report(q)];
    OneMore(c, s, [Visit, Report(q)], s2, Close);
    assert [Visit, Report(q)] + [Close] == [Visit, Report(q), Close];
  }

  /** The steps by which a caller has one runner of the configuration refreshed. */
  function Refreshing(c: Config, id: nat, k: nat, q: Replies): seq<Step>
    requires k < |c.runners|
  {
    [EnsureFresh(id, {c.runners[k].id}, false), Enter(id)] + Visits(k) + [Visit, Report(q), Close]
    + Visits(|c.runners| - k - 1) + [Derive]
  }

  lemma RefreshingIs(c: Config, id: nat, k: nat, q: Replies)
    requires k < |c.runners|
    ensures var begin := [EnsureFresh(id, {c.runners[k].id}, false), Enter(id)] + Visits(k)
        + [Visit, Report(q), Close];
      Refreshing(c, id, k, q) == begin + (Visits(|c.runners| - k - 1) + [Derive])
  {
  }

  // What the refresh leaves.
  ghost predicate Refreshed(c: Config, s: State, t: State, r: RunnerCfg, q: Replies)
    requires r.id in s.runners
  {
    && t.pass.None? && t.waiting == s.waiting && t.now == s.now
    && t.runners == s.runners[r.id := Verified(r, s.runners[r.id], q)] && t.marks == s.marks[r.id := s.now]
    && t.verified == Derived(c, t.runners, s.verified, {r.id})
  }

  // Up to the runner, and its check.
  lemma RefreshBegins(c: Config, s: State, id: nat, k: nat, q: Replies) returns (t: State)
    requires ConfigOk(c) && k < |c.runners| && c.runners[k].enabled && c.runners[k].id in s.runners
    requires s.pass.None? && id !in s.waiting && !Fresh(c, s, c.runners[k].id)
    ensures var p := Pass({c.runners[k].id}, false, s.now, k, Next, {});
      t == Checked(s.(pass := Some(p)), p, c.runners[k], q)
    ensures After(c, s, [EnsureFresh(id, {c.runners[k].id}, false), Enter(id)] + Visits(k) + [Visit, Report(q), Close])
         == Some(t)
  {
    var r := c.runners[k];
    var p := Pass({r.id}, false, s.now, 0, Next, {});
    var ask := [EnsureFresh(id, {r.id}, false), Enter(id)];
    var s1, s2 := s.(pass := Some(p)), s.(pass := Some(p.(pos := k)));
    Opens(c, s, id, r.id);
    Skips(c, s1, p, k);
    AfterThen(c, s, ask, s1, Visits(k), s2);
    Checks(c, s2, p.(pos := k), q);
    t := Checked(s2, p.(pos := k), r, q);
    AfterThen(c, s, ask + Visits(k), s2, [Visit, Report(q), Close], t);
  }

  // The rest of the walk, and the presets.
  lemma RefreshEnds(c: Config, s: State, p: Pass)
    requires ConfigOk(c) && s.pass == Some(p) && p.phase.Next? && 0 < p.pos <= |c.runners|
    requires p.targets == {c.runners[p.pos - 1].id}
    ensures After(c, s, Visits(|c.runners| - p.pos) + [Derive])
         == Some(s.(verified := Derived(c, s.runners, s.verified, p.targets), pass := None,
                    dirty := s.dirty - p.targets))
  {
    var n := |c.runners| - p.pos;
    Skips(c, s, p, n);
    OneMore(c, s, Visits(n), At(s, p, |c.runners|), Derive);
  }

  lemma RefreshRuns(c: Config, s: State, id: nat, k: nat, q: Replies) returns (t: State)
    requires ConfigOk(c) && k < |c.runners| && c.runners[k].enabled && c.runners[k].id in s.runners
    requires s.pass.None? && id !in s.waiting && !Fresh(c, s, c.runners[k].id)
    ensures After(c, s, Refreshing(c, id, k, q)) == Some(t) && Refreshed(c, s, t, c.runners[k], q)
  {
    var u := RefreshBegins(c, s, id, k, q);
    RefreshEnds(c, u, u.pass.value);
    var end := Visits(|c.runners| - k - 1) + [Derive];
    t := After(c, u, end).value;
    var begin := [EnsureFresh(id, {c.runners[k].id}, false), Enter(id)] + Visits(k) + [Visit, Report(q), Close];
    AfterThen(c, s, begin, u, end, t);
    RefreshingIs(c, id, k, q);
  }

  /** Whoever asks for a stale runner can have it: in every reachable state with the
      guard free, the refresh runs to its end, and then the runner is ok exactly if
      its report was acceptable, marked now, and its presets verified exactly if fit. */
  lemma RefreshServes(c: Config, states: seq<State>, steps: seq<Step>, n: nat, id: nat, k: nat, q: Replies)
    returns (t: State)
    requires ConfigOk(c) && IsTrace(c, states, steps) && n < |states|
    requires k < |c.runners| && c.runners[k].enabled && states[n].pass.None? && id !in states[n].waiting
    requires c.runners[k].id in states[n].marks ==> states[n].now - states[n].marks[c.runners[k].id] >= c.ttl
    ensures After(c, states[n], Refreshing(c, id, k, q)) == Some(t) && t.pass.None?
    ensures var ref := c.runners[k].id;
      && ref in t.runners && (t.runners[ref].ok <==> Accepted(c.runners[k], q))
      && (t.runners[ref].ok ==> ShowsReport(t.runners[ref], q))
      && t.marks == states[n].marks[ref := states[n].now]
      && forall x :: x in c.presets && x.runnerRef == ref ==>
           x.alias in t.verified && (t.verified[x.alias] <==> Fit(x, t.runners))
  {
    var s, r := states[n], c.runners[k];
    RunnersStayKnown(c, states, steps, n, r);
    t := RefreshRuns(c, s, id, k, q);
    VerifiedShows(r, s.runners[r.id], q);
    forall x | x in c.presets && x.runnerRef == r.id
      ensures x.alias in t.verified && (t.verified[x.alias] <==> Fit(x, t.runners))
    {
      PresetsStayKnown(c, states, steps, n, x);
      OnePreset(c, x);
      FitIff(x, t.runners);
    }
  }

  lemma {:induction false} RunnersStayKnown(c: Config, states: seq<State>, steps: seq<Step>, n: nat, r: RunnerCfg)
    requires IsTrace(c, states, steps) && n < |states| && r in c.runners
    ensures r.id in states[n].runners
  {
    if n > 0 {
      RunnersStayKnown(c, states, steps, n - 1, r);
      assert states[n - 1 + 1] == Apply(c, states[n - 1], steps[n - 1]);
    }
  }

  lemma {:induction false} PresetsStayKnown(c: Config, states: seq<State>, steps: seq<Step>, n: nat, q: Catalog.Preset)
    requires IsTrace(c, states, steps) && n < |states| && q in c.presets
    ensures q.alias in states[n].verified
  {
    if n > 0 {
      PresetsStayKnown(c, states, steps, n - 1, q);
      assert states[n - 1 + 1] == Apply(c, states[n - 1], steps[n - 1]);
    }
  }

  // Aliases are distinct, so a preset is found under its own.
  lemma OnePreset(c: Config, q: Catalog.Preset)
    requires ConfigOk(c) && q in c.presets
    ensures Catalog.FindPreset(c.presets, q.alias) == Some(q)
  {
    var i :| 0 <= i < |c.presets| && c.presets[i] == q;
    FindsIt(c.presets, i);
  }

  lemma {:induction false} FindsIt(presets: seq<Catalog.Preset>, i: nat)
    requires i < |presets| && forall j :: i < j < |presets| ==> presets[j].alias != presets[i].alias
    ensures Catalog.FindPreset(presets, presets[i].alias) == Some(presets[i])
  {
    if i < |presets| - 1 {
      assert presets[|presets| - 1].alias != presets[i].alias;
      FindsIt(presets[..|presets| - 1], i);
    }
  }

  // ------------------------------------------------------------- the single steps

  /** A request passes without the guard exactly when it is unforced and all it asks
      for is fresh; a pass takes the stale part of it, or all when forced. */
  lemma RequestDecides(c: Config, s: State, id: nat, refs: set<string>, force: bool)
    requires id !in s.waiting
    ensures var t := Apply(c, s, EnsureFresh(id, refs, force));
      (t == s <==> !force && refs != {} && forall ref :: ref in refs ==> ref in s.marks && s.now - s.marks[ref] < c.ttl)
      && (t != s ==> t == s.(waiting := s.waiting[id := Request(refs, force)]))
  {
    assert id in s.waiting[id := Request(refs, force)];
  }

  lemma GuardDecides(c: Config, s: State, id: nat)
    requires Enabled(c, s, Enter(id))
    ensures var q, t := s.waiting[id], Apply(c, s, Enter(id));
      && t == s.(waiting := s.waiting - {id}, pass := t.pass)
      && (forall ref :: t.pass.Some? && ref in t.pass.value.targets <==>
            ref in q.refs && (q.force || !(ref in s.marks && s.now - s.marks[ref] < c.ttl)))
      && (t.pass.Some? ==> t.pass.value == Pass(t.pass.value.targets, q.force, s.now, 0, Next, {}))
  {
    var q := s.waiting[id];
    forall ref
      ensures ref in Targets(c, s, q)
         <==> ref in q.refs && (q.force || !(ref in s.marks && s.now - s.marks[ref] < c.ttl))
    {
    }
  }

  /** A pass leaves out what it does not target, and marks a disabled runner as not ok
      without asking it; it ends by marking what it verified. */
  lemma VisitDecides(c: Config, s: State)
    requires Enabled(c, s, Visit) && c.runners[s.pass.value.pos].id in s.runners
    ensures var r, p, t := c.runners[s.pass.value.pos], s.pass.value, Apply(c, s, Visit);
      && (r.id !in p.targets ==> t == s.(pass := Some(p.(pos := p.pos + 1))))
      && (r.id in p.targets && !r.enabled ==>
            && t.runners == s.runners[r.id := s.runners[r.id].(ok := false)] && t.marks == s.marks[r.id := s.now]
            && t.pass == Some(p.(pos := p.pos + 1, touched := p.touched + {r.id})) && t.verified == s.verified)
      && (r.id in p.targets && r.enabled ==>
            t.pass == Some(p.(phase := Verifying)) && t.runners == s.runners && t.marks == s.marks)
  {
  }
}
