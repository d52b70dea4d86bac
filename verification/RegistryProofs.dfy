/** Freshness, isolation and consistency of registry refreshes over every run. */
module RegistryProofs {
  import opened Common
  import Catalog
  import CatalogProofs
  import opened Registries

  // --------------------------------------------------------------- freshness

  // No mark or event lies in the future, and a finished attempt left its mark.
  ghost predicate ClockOk(s: State) {
    && (forall ref :: ref in s.marks ==> s.marks[ref] <= s.now)
    && (forall e :: e in s.log ==> e.at <= s.now)
    && (forall e :: e in s.log && e.Finished? ==> e.ref in s.marks && e.at <= s.marks[e.ref])
  }

  // Not attempted to the end yet: the runner at hand included.
  predicate Ahead(p: Pass, k: nat) {
    k >= p.pos
  }

  predicate AtTarget(c: Config, p: Pass) {
    !p.phase.Next? ==> p.pos < |c.runners| && c.runners[p.pos].id in p.targets && c.runners[p.pos].enabled
  }

  // A pass touches targets only; those ahead of an unforced one are still stale,
  // those behind it were attempted since it began.
  ghost predicate PassOk(c: Config, s: State) {
    s.pass.Some? ==>
      var p := s.pass.value;
      && p.touched <= p.targets && p.since <= s.now && AtTarget(c, p)
      && (!p.forced ==> forall k :: 0 <= k < |c.runners| && Ahead(p, k) && c.runners[k].id in p.targets ==>
            !Fresh(c, s, c.runners[k].id))
      && (forall k :: 0 <= k < |c.runners| && k < p.pos && c.runners[k].id in p.targets ==>
            Attempted(s, c.runners[k].id, p.since))
  }

  predicate Attempted(s: State, ref: string, since: real) {
    ref in s.marks && since <= s.marks[ref]
  }

  ghost predicate Spaced(c: Config, log: seq<Event>) {
    forall i, j :: 0 <= i < j < |log| && log[i].Finished? && log[j].Began? && !log[j].forced && log[i].ref == log[j].ref
      ==> log[j].at - log[i].at >= c.ttl
  }

  lemma ClockStep(c: Config, s: State, step: Step)
    requires Enabled(c, s, step) && ClockOk(s)
    ensures ClockOk(Apply(c, s, step))
  {
    var t := Apply(c, s, step);
    if step.Visit? {
      ClockVisits(s, c.runners[s.pass.value.pos]);
    } else if step.Close? {
      var e := Finished(c.runners[s.pass.value.pos].id, s.now);
      ClockMarked(s, t, e.ref);
      assert t.log == s.log + [e];
    } else {
      assert t.log == s.log && t.marks == s.marks;
    }
  }

  lemma ClockMarked(s: State, t: State, ref: string)
    requires ClockOk(s) && t.now == s.now && t.marks == s.marks[ref := s.now]
    ensures forall r :: r in t.marks ==> t.marks[r] <= t.now
    ensures forall e :: e in s.log && e.Finished? ==> e.ref in t.marks && e.at <= t.marks[e.ref]
  {
  }

  lemma ClockVisits(s: State, r: RunnerCfg)
    requires s.pass.Some? && ClockOk(s)
    ensures ClockOk(Visited(s, r))
  {
    if r.id !in s.pass.value.targets {
      assert Skip(s).marks == s.marks && Skip(s).log == s.log;
    } else if !r.enabled {
      ClockMarked(s, MarkDisabled(s, r), r.id);
    } else {
      ClockBegins(s, r);
    }
  }

  lemma ClockBegins(s: State, r: RunnerCfg)
    requires s.pass.Some? && ClockOk(s)
    ensures ClockOk(BeginVerify(s, r))
  {
    assert BeginVerify(s, r).marks == s.marks;
  }

  lemma PassStep(c: Config, s: State, step: Step)
    requires ConfigOk(c) && Enabled(c, s, step) && ClockOk(s) && PassOk(c, s)
    ensures PassOk(c, Apply(c, s, step))
  {
    match step
    case Visit => PassVisits(c, s);
    case Report(q) => PassReports(c, s, q);
    case Close => PassCloses(c, s);
    case Enter(id) =>
    case Advance(_) =>
    case EnsureFresh(_, _, _) =>
    case GiveUp(_) =>
    case Derive =>
    case Abort =>
  }

  // A mark set now on one runner leaves every other runner as stale, or as
  // attempted, as it was.
  lemma MarkedNow(c: Config, s: State, t: State, at: nat)
    requires ConfigOk(c) && ClockOk(s) && s.pass.Some? && t.pass.Some? && at < |c.runners|
    requires at == s.pass.value.pos && t.now == s.now && t.marks == s.marks[c.runners[at].id := s.now]
    requires t.pass == Some(s.pass.value.(pos := at + 1, phase := Next, touched := t.pass.value.touched))
    requires t.pass.value.touched <= s.pass.value.targets
    requires PassOk(c, s)
    ensures PassOk(c, t)
  {
    var p, q := s.pass.value, t.pass.value;
    forall k | 0 <= k < |c.runners| && k != at
      ensures Fresh(c, t, c.runners[k].id) == Fresh(c, s, c.runners[k].id)
      ensures Attempted(s, c.runners[k].id, p.since) ==> Attempted(t, c.runners[k].id, p.since)
    {
      assert c.runners[k].id != c.runners[at].id;
    }
    assert forall k :: Ahead(q, k) ==> Ahead(p, k) && k != at;
  }

  lemma PassVisits(c: Config, s: State)
    requires ConfigOk(c) && Enabled(c, s, Visit) && ClockOk(s) && PassOk(c, s)
    ensures PassOk(c, Visited(s, c.runners[s.pass.value.pos]))
  {
    var p := s.pass.value;
    var r := c.runners[p.pos];
    if r.id !in p.targets {
      PassUnmarked(c, s, Skip(s));
    } else if !r.enabled {
      MarkedNow(c, s, MarkDisabled(s, r), p.pos);
    } else {
      PassBegins(c, s);
    }
  }

  lemma PassBegins(c: Config, s: State)
    requires PassOk(c, s) && s.pass.Some? && s.pass.value.pos < |c.runners|
    requires var r := c.runners[s.pass.value.pos]; r.id in s.pass.value.targets && r.enabled
    ensures PassOk(c, BeginVerify(s, c.runners[s.pass.value.pos]))
  {
    PassUnmarked(c, s, BeginVerify(s, c.runners[s.pass.value.pos]));
  }

  // Moving on without a mark: nothing behind but what was behind, or no target.
  lemma PassUnmarked(c: Config, s: State, t: State)
    requires PassOk(c, s) && s.pass.Some? && t.pass.Some? && t.now == s.now && t.marks == s.marks
    requires var p, q := s.pass.value, t.pass.value;
      && q.targets == p.targets && q.forced == p.forced && q.since == p.since && q.touched <= p.targets
         && AtTarget(c, q)
      && (q.pos == p.pos
          || (q.pos == p.pos + 1 && p.pos < |c.runners| && c.runners[p.pos].id !in p.targets))
    ensures PassOk(c, t)
  {
    var p, q := s.pass.value, t.pass.value;
    assert forall k :: Ahead(q, k) ==> Ahead(p, k);
    assert forall ref :: Fresh(c, t, ref) == Fresh(c, s, ref);
    assert forall ref :: Attempted(t, ref, p.since) == Attempted(s, ref, p.since);
  }

  lemma PassReports(c: Config, s: State, replies: Replies)
    requires Enabled(c, s, Report(replies)) && PassOk(c, s)
    ensures PassOk(c, Apply(c, s, Report(replies)))
  {
    PassUnmarked(c, s, Apply(c, s, Report(replies)));
  }

  lemma PassCloses(c: Config, s: State)
    requires ConfigOk(c) && Enabled(c, s, Close) && ClockOk(s) && PassOk(c, s)
    ensures PassOk(c, Apply(c, s, Close))
  {
    MarkedNow(c, s, Apply(c, s, Close), s.pass.value.pos);
  }

  // A stale runner's earlier attempts all finished at least one TTL ago.
  lemma StaleIsSpaced(c: Config, s: State, ref: string, i: nat)
    requires ClockOk(s) && !Fresh(c, s, ref) && i < |s.log| && s.log[i].Finished? && s.log[i].ref == ref
    ensures s.now - s.log[i].at >= c.ttl
  {
    assert s.log[i] in s.log;
  }

  lemma SpacedAppend(c: Config, log: seq<Event>, e: Event)
    requires Spaced(c, log)
    requires e.Began? && !e.forced ==> forall i :: 0 <= i < |log| && log[i].Finished? && log[i].ref == e.ref ==>
          e.at - log[i].at >= c.ttl
    ensures Spaced(c, log + [e])
  {
  }

  lemma SpacedBegins(c: Config, s: State)
    requires ClockOk(s) && PassOk(c, s) && Spaced(c, s.log) && s.pass.Some? && s.pass.value.pos < |c.runners|
    requires c.runners[s.pass.value.pos].id in s.pass.value.targets
    ensures Spaced(c, BeginVerify(s, c.runners[s.pass.value.pos]).log)
  {
    var p := s.pass.value;
    var ref := c.runners[p.pos].id;
    if !p.forced {
      assert !Fresh(c, s, ref);
      forall i | 0 <= i < |s.log| && s.log[i].Finished? && s.log[i].ref == ref ensures s.now - s.log[i].at >= c.ttl {
        StaleIsSpaced(c, s, ref, i);
      }
    }
    SpacedAppend(c, s.log, Began(ref, s.now, p.forced));
  }

  lemma SpacedStep(c: Config, s: State, step: Step)
    requires Enabled(c, s, step) && ClockOk(s) && PassOk(c, s) && Spaced(c, s.log)
    ensures Spaced(c, Apply(c, s, step).log)
  {
    if step.Visit? {
      var r := c.runners[s.pass.value.pos];
      if r.id in s.pass.value.targets && r.enabled { SpacedBegins(c, s); }
    } else if step.Close? {
      SpacedAppend(c, s.log, Finished(c.runners[s.pass.value.pos].id, s.now));
    }
  }

  lemma {:induction false} AlwaysTimed(c: Config, states: seq<State>, steps: seq<Step>, n: nat)
    requires ConfigOk(c) && IsTrace(c, states, steps) && n < |states|
    ensures ClockOk(states[n]) && PassOk(c, states[n]) && Spaced(c, states[n].log)
  {
    if n > 0 {
      AlwaysTimed(c, states, steps, n - 1);
      ClockStep(c, states[n - 1], steps[n - 1]);
      PassStep(c, states[n - 1], steps[n - 1]);
      SpacedStep(c, states[n - 1], steps[n - 1]);
      assert states[n - 1 + 1] == Apply(c, states[n - 1], steps[n - 1]);
    }
  }

  /** However callers interleave, an unforced verification of a runner begins no
      sooner than one TTL after any earlier attempt on it finished. */
  lemma TtlIsRespected(c: Config, states: seq<State>, steps: seq<Step>, n: nat, i: nat, j: nat)
    requires ConfigOk(c) && IsTrace(c, states, steps) && n < |states|
    requires i < j < |states[n].log|
    requires states[n].log[i].Finished? && states[n].log[j].Began? && !states[n].log[j].forced
    requires states[n].log[i].ref == states[n].log[j].ref
    ensures states[n].log[j].at - states[n].log[i].at >= c.ttl
  {
    AlwaysTimed(c, states, steps, n);
  }

  /** A pass that reaches its end has attempted every configured target since it
      began; so a caller leaves with each runner fresh at its check or attempted. */
  lemma PassCoversItsTargets(c: Config, states: seq<State>, steps: seq<Step>, n: nat, k: nat)
    requires ConfigOk(c) && IsTrace(c, states, steps) && n < |steps| && steps[n] == Derive && k < |c.runners|
    requires c.runners[k].id in states[n].pass.value.targets
    ensures Attempted(states[n + 1], c.runners[k].id, states[n].pass.value.since)
  {
    AlwaysTimed(c, states, steps, n);
    assert states[n + 1] == Apply(c, states[n], steps[n]);
  }

  /** Only finished attempts count: a pass cut short leaves no mark on the runner it
      was verifying nor on those it had not come to, so they are stale to the very
      next caller. */
  lemma CutShortLeavesNoMark(c: Config, states: seq<State>, steps: seq<Step>, n: nat, k: nat)
    requires ConfigOk(c) && IsTrace(c, states, steps) && n < |steps| && steps[n] == Abort
    requires states[n].pass.Some? && !states[n].pass.value.forced && k < |c.runners|
    requires k >= states[n].pass.value.pos && c.runners[k].id in states[n].pass.value.targets
    ensures !Fresh(c, states[n + 1], c.runners[k].id)
  {
    AlwaysTimed(c, states, steps, n);
    assert states[n + 1] == Apply(c, states[n], steps[n]);
    assert Ahead(states[n].pass.value, k);
  }

  // --------------------------------------------------------------- snapshots

  predicate Complete(q: Replies) {
    q.manifest.Got? && q.probe.Got? && q.models.Got? && q.runtime.Got? && RowsOk(q.models.value)
  }

  /** A snapshot is one successful pass's report, whole; it outlives failures. */
  ghost predicate WholeAt(s: State, ref: string) {
    && (ref in s.good ==> Complete(s.good[ref]))
    && (ref in s.runners ==>
          && s.runners[ref].snap == (if ref in s.good then SnapshotOf(s.good[ref]) else NOTHING_SEEN)
          && (s.runners[ref].ok ==> ref in s.good))
  }

  lemma WholeReported(s: State, t: State, r: RunnerCfg, q: Replies, ref: string)
    requires WholeAt(s, ref) && r.id in s.runners
    requires t.runners == s.runners[r.id := Verified(r, s.runners[r.id], q)]
    requires t.good == if PassSucceeds(r, q) then s.good[r.id := q] else s.good
    ensures WholeAt(t, ref)
  {
  }

  lemma WholeVisited(s: State, r: RunnerCfg, ref: string)
    requires WholeAt(s, ref) && r.id in s.runners && s.pass.Some?
    ensures WholeAt(Skip(s), ref) && WholeAt(MarkDisabled(s, r), ref) && WholeAt(BeginVerify(s, r), ref)
  {
  }

  lemma WholeStep(c: Config, s: State, step: Step, ref: string)
    requires Enabled(c, s, step) && WholeAt(s, ref)
    requires step.Visit? || step.Report? ==> c.runners[s.pass.value.pos].id in s.runners
    ensures WholeAt(Apply(c, s, step), ref)
  {
    if step.Visit? {
      WholeVisited(s, c.runners[s.pass.value.pos], ref);
    } else if step.Report? {
      WholeReported(s, Apply(c, s, step), c.runners[s.pass.value.pos], step.replies, ref);
    } else {
      assert Apply(c, s, step).runners == s.runners && Apply(c, s, step).good == s.good;
    }
  }

  lemma {:induction false} RecordsStay(c: Config, states: seq<State>, steps: seq<Step>, n: nat, r: RunnerCfg)
    requires IsTrace(c, states, steps) && n < |states| && r in c.runners
    ensures r.id in states[n].runners
  {
    if n > 0 {
      RecordsStay(c, states, steps, n - 1, r);
      assert states[n - 1 + 1] == Apply(c, states[n - 1], steps[n - 1]);
    }
  }

  lemma {:induction false} SnapshotsAreWhole(c: Config, states: seq<State>, steps: seq<Step>, n: nat, ref: string)
    requires IsTrace(c, states, steps) && n < |states|
    ensures WholeAt(states[n], ref)
  {
    if n > 0 {
      var s, step := states[n - 1], steps[n - 1];
      SnapshotsAreWhole(c, states, steps, n - 1, ref);
      if step.Visit? || step.Report? {
        RecordsStay(c, states, steps, n - 1, c.runners[s.pass.value.pos]);
      }
      WholeStep(c, s, step, ref);
      assert states[n - 1 + 1] == Apply(c, s, step);
    }
  }

  /** An ok runner shows, row for row, what one pass reported. */
  lemma OkRunnerShowsOnePass(c: Config, states: seq<State>, steps: seq<Step>, n: nat, ref: string, i: nat)
    requires IsTrace(c, states, steps) && n < |states|
    requires ref in states[n].runners && states[n].runners[ref].ok
    ensures ref in states[n].good && states[n].good[ref].models.Got?
    ensures i < |states[n].good[ref].models.value| ==>
      var row := states[n].good[ref].models.value[i];
      row.modelId in states[n].runners[ref].snap.descriptors
         && states[n].runners[ref].snap.descriptors[row.modelId] == row
    ensures |states[n].runners[ref].snap.models| == |states[n].good[ref].models.value|
  {
    SnapshotsAreWhole(c, states, steps, n, ref);
    var rows := states[n].good[ref].models.value;
    if i < |rows| { TableHolds(rows, i); }
  }

  // ----------------------------------------------------------------- presets

  ghost predicate FollowsRunner(s: State, q: Catalog.Preset) {
    && q.alias in s.verified
    && (q.runnerRef !in s.dirty && (s.pass.Some? ==> q.runnerRef !in s.pass.value.touched) ==>
          s.verified[q.alias] == Usable(q, HealthOf(s, q.runnerRef)))
  }

  lemma {:induction false} FindsIt(presets: seq<Catalog.Preset>, q: Catalog.Preset)
    requires q in presets && forall i, j :: 0 <= i < j < |presets| ==> presets[i].alias != presets[j].alias
    ensures Catalog.FindPreset(presets, q.alias) == Some(q)
  {
    var last := |presets| - 1;
    if presets[last] != q {
      var i :| 0 <= i < |presets| && presets[i] == q;
      assert presets[..last][i] == q;
      FindsIt(presets[..last], q);
    }
  }

  // A touched runner's presets need not follow it until they are derived.
  lemma FollowsTouched(s: State, t: State, q: Catalog.Preset, ref: string, h: Health)
    requires FollowsRunner(s, q) && s.pass.Some? && t.pass.Some?
    requires t.runners == s.runners[ref := h] && t.verified == s.verified && t.dirty == s.dirty
    requires t.pass.value.touched == s.pass.value.touched + {ref}
    ensures FollowsRunner(t, q)
  {
  }

  lemma FollowsDerived(c: Config, s: State, q: Catalog.Preset)
    requires ConfigOk(c) && Enabled(c, s, Derive) && FollowsRunner(s, q) && q in c.presets
    requires s.pass.value.touched <= s.pass.value.targets
    ensures FollowsRunner(Apply(c, s, Derive), q)
  {
    FindsIt(c.presets, q);
  }

  lemma FollowsStep(c: Config, s: State, step: Step, q: Catalog.Preset)
    requires ConfigOk(c) && Enabled(c, s, step) && FollowsRunner(s, q) && q in c.presets
    requires s.pass.Some? ==> s.pass.value.touched <= s.pass.value.targets
    ensures FollowsRunner(Apply(c, s, step), q)
  {
    if step.Derive? {
      FollowsDerived(c, s, q);
    } else if step.Visit? {
      var r := c.runners[s.pass.value.pos];
      if r.id in s.pass.value.targets && !r.enabled {
        FollowsTouched(s, MarkDisabled(s, r), q, r.id, Record(s, r).(ok := false));
      }
    } else if step.Report? {
      var r := c.runners[s.pass.value.pos];
      FollowsTouched(s, Apply(c, s, step), q, r.id, Verified(r, Record(s, r), step.replies));
    } else {
      assert Apply(c, s, step).runners == s.runners && Apply(c, s, step).verified == s.verified;
    }
  }

  lemma {:induction false} AlwaysDerived(c: Config, states: seq<State>, steps: seq<Step>, n: nat, q: Catalog.Preset)
    requires ConfigOk(c) && IsTrace(c, states, steps) && n < |states| && q in c.presets
    ensures FollowsRunner(states[n], q)
  {
    if n > 0 {
      AlwaysDerived(c, states, steps, n - 1, q);
      AlwaysTimed(c, states, steps, n - 1);
      FollowsStep(c, states[n - 1], steps[n - 1], q);
      assert states[n - 1 + 1] == Apply(c, states[n - 1], steps[n - 1]);
    }
  }

  /** Between passes a preset's health is what its runner's snapshot implies,
      except for runners touched by a pass that was cut short. */
  lemma PresetsFollowRunners(c: Config, states: seq<State>, steps: seq<Step>, n: nat, q: Catalog.Preset)
    requires ConfigOk(c) && IsTrace(c, states, steps) && n < |states|
    requires states[n].pass.None? && q in c.presets && q.runnerRef !in states[n].dirty
    ensures q.alias in states[n].verified && states[n].verified[q.alias] == Usable(q, HealthOf(states[n], q.runnerRef))
  {
    AlwaysDerived(c, states, steps, n, q);
  }

  /** A pass cut short after a runner's report leaves that runner's presets on the
      old report: verified, though the model is gone. */
  lemma CutShortStrandsPresets(c: Config, s: State, replies: Replies, q: Catalog.Preset)
    requires Enabled(c, s, Report(replies)) && q in c.presets && q.alias in s.verified && s.verified[q.alias]
    requires q.runnerRef == c.runners[s.pass.value.pos].id && q.runnerRef in s.runners
    requires PassSucceeds(c.runners[s.pass.value.pos], replies) && q.modelId !in Ids(replies.models.value)
    ensures var t := Apply(c, Apply(c, s, Report(replies)), Abort);
      t.verified[q.alias] && !Usable(q, HealthOf(t, q.runnerRef)) && q.runnerRef in t.dirty
  {
    var rows := replies.models.value;
    forall i | 0 <= i < |rows| ensures rows[i].modelId != q.modelId {
      assert Ids(rows)[i] == rows[i].modelId;
    }
  }

  // --------------------------------------------------------------- isolation

  // No pass between two states of a run includes the runner.
  ghost predicate LeftAlone(states: seq<State>, n: nat, m: nat, ref: string)
    requires n <= m < |states|
  {
    forall k :: n <= k < m && states[k].pass.Some? ==> ref !in states[k].pass.value.targets
  }

  // What a step may do to a runner that is no target: nothing.
  ghost predicate SameRunner(s: State, t: State, ref: string) {
    && HealthOf(t, ref) == HealthOf(s, ref)
    && (ref in t.marks <==> ref in s.marks) && (ref in s.marks ==> t.marks[ref] == s.marks[ref])
  }

  lemma VisitSparesOthers(c: Config, s: State, ref: string)
    requires Enabled(c, s, Visit) && ref !in s.pass.value.targets
    ensures SameRunner(s, Apply(c, s, Visit), ref)
  {
    var r := c.runners[s.pass.value.pos];
    if r.id in s.pass.value.targets && !r.enabled { assert r.id != ref; }
  }

  lemma AloneStep(c: Config, s: State, step: Step, ref: string)
    requires Enabled(c, s, step) && PassOk(c, s) && (s.pass.Some? ==> ref !in s.pass.value.targets)
    ensures SameRunner(s, Apply(c, s, step), ref)
  {
    if step.Visit? {
      VisitSparesOthers(c, s, ref);
    } else if step.Report? || step.Close? {
      assert c.runners[s.pass.value.pos].id != ref;
    } else {
      assert Apply(c, s, step).runners == s.runners && Apply(c, s, step).marks == s.marks;
    }
  }

  ghost predicate SamePreset(s: State, t: State, alias: string) {
    alias in s.verified && alias in t.verified && t.verified[alias] == s.verified[alias]
  }

  lemma AlonePreset(c: Config, s: State, step: Step, q: Catalog.Preset)
    requires ConfigOk(c) && Enabled(c, s, step) && (s.pass.Some? ==> q.runnerRef !in s.pass.value.targets)
    requires q in c.presets && q.alias in s.verified
    ensures SamePreset(s, Apply(c, s, step), q.alias)
  {
    FindsIt(c.presets, q);
  }

  /** Runners outside every pass of a stretch keep their health and mark. */
  lemma {:induction false} OthersUntouched(c: Config, states: seq<State>, steps: seq<Step>, n: nat, m: nat, ref: string)
    requires ConfigOk(c) && IsTrace(c, states, steps) && n <= m < |states| && LeftAlone(states, n, m, ref)
    ensures SameRunner(states[n], states[m], ref)
  {
    if n < m {
      OthersUntouched(c, states, steps, n, m - 1, ref);
      AlwaysTimed(c, states, steps, m - 1);
      AloneStep(c, states[m - 1], steps[m - 1], ref);
      assert states[m - 1 + 1] == Apply(c, states[m - 1], steps[m - 1]);
    }
  }

  /** And the presets bound to such a runner keep theirs. */
  lemma {:induction false} OtherPresetsUntouched(c: Config, states: seq<State>, steps: seq<Step>, n: nat, m: nat,
                                                 q: Catalog.Preset)
    requires ConfigOk(c) && IsTrace(c, states, steps) && n <= m < |states| && q in c.presets
    requires LeftAlone(states, n, m, q.runnerRef)
    ensures SamePreset(states[n], states[m], q.alias)
  {
    if n < m {
      OtherPresetsUntouched(c, states, steps, n, m - 1, q);
      AlonePreset(c, states[m - 1], steps[m - 1], q);
      assert states[m - 1 + 1] == Apply(c, states[m - 1], steps[m - 1]);
    } else {
      AlwaysDerived(c, states, steps, n, q);
    }
  }

  // What resolution sees of a registry state.
  function CatalogHealth(h: Health): Catalog.RunnerHealth {
    Catalog.RunnerHealth(h.enabled, h.ok, Synthetic(h), h.snap.descriptors, h.snap.models)
  }

  function Visible(c: Config, s: State): Catalog.Registry {
    Catalog.Registry(
      map ref | ref in s.runners :: CatalogHealth(s.runners[ref]),
      map alias | alias in s.verified && Catalog.FindPreset(c.presets, alias).Some? ::
        var q := Catalog.FindPreset(c.presets, alias).value;
        Catalog.PresetHealth(q.runnerRef, q.enabled, s.verified[alias]))
  }

  lemma {:induction false} TableRows(rows: seq<Catalog.Descriptor>, id: string)
    requires id in Table(rows) && forall i :: 0 <= i < |rows| ==> ValidDescriptor(rows[i])
    ensures ValidDescriptor(Table(rows)[id]) && Table(rows)[id].modelId == id && id in Ids(rows)
  {
    var front := rows[..|rows| - 1];
    var last := rows[|rows| - 1];
    assert Ids(rows)[|rows| - 1] == last.modelId;
    if id != last.modelId {
      TableRows(front, id);
      var i :| 0 <= i < |Ids(front)| && Ids(front)[i] == id;
      assert Ids(rows)[i] == id;
    }
  }

  /** The registry that verification builds is one that resolution may rely on. */
  lemma VisibleIsWellFormed(c: Config, cc: Catalog.Config, states: seq<State>, steps: seq<Step>, n: nat)
    requires ConfigOk(c) && IsTrace(c, states, steps) && n < |states| && cc.presets == c.presets
    ensures Catalog.RegistryOk(cc, Visible(c, states[n]))
  {
    var reg := Visible(c, states[n]);
    forall ref | ref in reg.runners ensures Catalog.HealthOk(reg.runners[ref]) {
      SnapshotsAreWhole(c, states, steps, n, ref);
      if ref in states[n].good {
        var rows := states[n].good[ref].models.value;
        forall id ensures id in Table(rows) ==>
              ValidDescriptor(Table(rows)[id]) && Table(rows)[id].modelId == id && id in Ids(rows) {
          if id in Table(rows) { TableRows(rows, id); }
        }
        forall id ensures id in Ids(rows) ==> id in Table(rows) {
          if id in Ids(rows) {
            var i :| 0 <= i < |rows| && Ids(rows)[i] == id;
            assert rows[i].modelId == id;
          }
        }
      }
    }
    forall q | q in c.presets && q.alias in reg.presets
      ensures reg.presets[q.alias].boundTo == q.runnerRef && (reg.presets[q.alias].enabled ==> q.enabled)
    {
      FindsIt(c.presets, q);
    }
  }

  /** Refreshes for other aliases never change what this alias resolves to: if no
      pass of a stretch includes a runner of its scope, it resolves the same. */
  lemma OtherRefreshesDoNotInterfere(
    c: Config, cc: Catalog.Config, states: seq<State>, steps: seq<Step>, n: nat, m: nat,
    p: Catalog.Principal, alias: string, scope: Catalog.Scope, effort: Option<string>)
    requires ConfigOk(c) && IsTrace(c, states, steps) && n <= m < |states| && cc.presets == c.presets
    requires forall ref :: ref in Catalog.AliasRefs(cc, p, alias, scope) ==> LeftAlone(states, n, m, ref)
    ensures Catalog.Resolve(cc, Visible(c, states[n]), p, alias, scope, effort)
         == Catalog.Resolve(cc, Visible(c, states[m]), p, alias, scope, effort)
  {
    var a, b := Visible(c, states[n]), Visible(c, states[m]);
    var refs := Catalog.AliasRefs(cc, p, alias, scope);
    VisibleIsWellFormed(c, cc, states, steps, n);
    forall ref | ref in refs ensures Catalog.HealthOf(a, ref) == Catalog.HealthOf(b, ref) {
      OthersUntouched(c, states, steps, n, m, ref);
    }
    forall q | q in cc.presets && q.runnerRef in refs
      ensures Catalog.PresetHealthOf(a, q.alias) == Catalog.PresetHealthOf(b, q.alias)
    {
      OtherPresetsUntouched(c, states, steps, n, m, q);
      FindsIt(c.presets, q);
    }
    CatalogProofs.ResolutionIsNonInterfering(cc, a, b, p, alias, scope, effort);
  }
}
