/** A run in which a cancelled refresh leaves a preset on a report that is gone. */
module RegistryTraces {
  import opened Common
  import Catalog
  import opened Registries
  import opened RegistryProofs

  ghost predicate Reachable(c: Config, s: State) {
    exists states: seq<State>, steps: seq<Step> :: IsTrace(c, states, steps) && states[|steps|] == s
  }

  lemma ReachableStart(c: Config, s: State)
    requires Start(c, s)
    ensures Reachable(c, s)
  {
    assert IsTrace(c, [s], []) && [s][0] == s;
  }

  ghost predicate Moves(c: Config, s: State, step: Step, t: State) {
    Enabled(c, s, step) && Apply(c, s, step) == t
  }

  lemma TraceGrows(c: Config, states: seq<State>, steps: seq<Step>, step: Step, t: State)
    requires IsTrace(c, states, steps) && Moves(c, states[|steps|], step, t)
    ensures IsTrace(c, states + [t], steps + [step]) && (states + [t])[|steps + [step]|] == t
  {
  }

  lemma Reach(c: Config, s: State, step: Step, t: State)
    requires Reachable(c, s) && Moves(c, s, step, t)
    ensures Reachable(c, t)
  {
    var states: seq<State>, steps: seq<Step> :| IsTrace(c, states, steps) && states[|steps|] == s;
    TraceGrows(c, states, steps, step, t);
  }

  // One runner, one preset bound to its model "m".
  const RUNNER := RunnerCfg("r", true, "d", "1")
  const PRESET := Catalog.Preset("a", "r", "m", "text", true, false)
  const CFG := Config([RUNNER], [PRESET], 1.0)
  const ROW := Catalog.Descriptor("m", Catalog.Passed, Catalog.EffortUnknown, [], map[], None, true)
  const BEFORE := Health(true, false, NOTHING_SEEN)

  function Reported(rows: seq<Catalog.Descriptor>): Replies {
    Replies(Got(Manifest("d", "1", SDK_VERSION, false)), Got(Probe(true, true, true)), Got(rows),
            Got(Runtime(1, 1, 1.0)))
  }

  function Checked(): Health {
    Health(true, true, SnapshotOf(Reported([ROW])))
  }

  function First(h: Health, pass: Option<Pass>, log: seq<Event>): State {
    State(0.0, map["r" := h], map["a" := false], map[], pass, map[], log,
          if h.ok then map["r" := Reported([ROW])] else map[], {})
  }

  function PassAt(since: real, phase: Phase, touched: set<string>): Option<Pass> {
    Some(Pass({"r"}, false, since, 0, phase, touched))
  }

  lemma RowsAreGood()
    ensures PassSucceeds(RUNNER, Reported([ROW])) && PassSucceeds(RUNNER, Reported([]))
    ensures Table([ROW]) == map["m" := ROW] && "m" !in Ids([])
  {
    assert [ROW][..0] == [] && Ids([ROW]) == ["m"];
  }

  // A caller asks for the stale runner, and gets the guard.
  lemma Asks(id: nat, s: State)
    requires id !in s.waiting && !Fresh(CFG, s, "r")
    ensures Moves(CFG, s, EnsureFresh(id, {"r"}, false), s.(waiting := s.waiting[id := Request({"r"}, false)]))
  {
    assert "r" in {"r"};
  }

  lemma Enters(id: nat, s: State)
    requires s.waiting == map[id := Request({"r"}, false)] && s.pass.None? && !Fresh(CFG, s, "r")
    ensures Moves(CFG, s, Enter(id), s.(waiting := map[], pass := PassAt(s.now, Next, {})))
  {
    assert Targets(CFG, s, s.waiting[id]) == {"r"};
    assert s.waiting - {id} == map[];
  }

  lemma Begins(s: State, since: real)
    requires s.pass == PassAt(since, Next, {})
    ensures Moves(CFG, s, Visit, s.(pass := PassAt(since, Verifying, {}), log := s.log + [Began("r", s.now, false)]))
  {
  }

  lemma Reports(s: State, since: real, rows: seq<Catalog.Descriptor>)
    requires s.pass == PassAt(since, Verifying, {}) && "r" in s.runners && PassSucceeds(RUNNER, Reported(rows))
    ensures Moves(CFG, s, Report(Reported(rows)),
      s.(runners := s.runners["r" := Verified(RUNNER, s.runners["r"], Reported(rows))],
         good := s.good["r" := Reported(rows)], pass := PassAt(since, Closing, {"r"})))
  {
    var none: set<string> := {};
    assert none + {"r"} == {"r"};
  }

  const OPEN_LOG := [Began("r", 0.0, false)]
  const LOG := OPEN_LOG + [Finished("r", 0.0)]

  lemma FirstPassEnters()
    ensures Reachable(CFG, First(BEFORE, PassAt(0.0, Next, {}), []))
  {
    var s0 := First(BEFORE, None, []);
    assert PRESET in CFG.presets && RUNNER in CFG.runners;
    ReachableStart(CFG, s0);
    Asks(0, s0);
    var s1 := s0.(waiting := map[0 := Request({"r"}, false)]);
    Reach(CFG, s0, EnsureFresh(0, {"r"}, false), s1);
    Enters(0, s1);
    Reach(CFG, s1, Enter(0), First(BEFORE, PassAt(0.0, Next, {}), []));
  }

  lemma FirstPassBegins()
    ensures Reachable(CFG, First(BEFORE, PassAt(0.0, Verifying, {}), OPEN_LOG))
  {
    FirstPassEnters();
    var s2 := First(BEFORE, PassAt(0.0, Next, {}), []);
    Begins(s2, 0.0);
    Reach(CFG, s2, Visit, First(BEFORE, PassAt(0.0, Verifying, {}), OPEN_LOG));
  }

  lemma FirstPassReports()
    ensures Reachable(CFG, First(Checked(), PassAt(0.0, Closing, {"r"}), OPEN_LOG))
  {
    FirstPassBegins();
    RowsAreGood();
    var s3 := First(BEFORE, PassAt(0.0, Verifying, {}), OPEN_LOG);
    Reports(s3, 0.0, [ROW]);
    Reach(CFG, s3, Report(Reported([ROW])), First(Checked(), PassAt(0.0, Closing, {"r"}), OPEN_LOG));
  }

  // After the first pass: verified, and marked at time zero.
  function Settled(now: real, waiting: map<nat, Request>, pass: Option<Pass>, log: seq<Event>): State {
    State(now, map["r" := Checked()], map["a" := true], map["r" := 0.0], pass, waiting, log,
        map["r" := Reported([ROW])], {})
  }

  lemma FirstPassCloses(s: State)
    requires s == First(Checked(), PassAt(0.0, Closing, {"r"}), OPEN_LOG)
    ensures Moves(CFG, s, Close,
      s.(marks := map["r" := 0.0], log := LOG, pass := Some(Pass({"r"}, false, 0.0, 1, Next, {"r"}))))
  {
  }

  lemma PresetIsUsable(s: State)
    requires s.runners == map["r" := Checked()]
    ensures Usable(PRESET, HealthOf(s, "r"))
  {
    RowsAreGood();
  }

  lemma FirstPassDerives(s: State)
    requires s.runners == map["r" := Checked()] && s.verified == map["a" := false] && s.dirty == {}
    requires s.pass == Some(Pass({"r"}, false, 0.0, 1, Next, {"r"}))
    ensures Moves(CFG, s, Derive, s.(verified := map["a" := true], pass := None))
  {
    PresetIsUsable(s);
    assert Catalog.FindPreset(CFG.presets, "a") == Some(PRESET);
  }

  lemma FirstPassSettles()
    ensures Reachable(CFG, Settled(0.0, map[], None, LOG))
  {
    FirstPassReports();
    var s4 := First(Checked(), PassAt(0.0, Closing, {"r"}), OPEN_LOG);
    FirstPassCloses(s4);
    var s5 := s4.(marks := map["r" := 0.0], log := LOG, pass := Some(Pass({"r"}, false, 0.0, 1, Next, {"r"})));
    Reach(CFG, s4, Close, s5);
    FirstPassDerives(s5);
    Reach(CFG, s5, Derive, Settled(0.0, map[], None, LOG));
  }

  lemma SecondPassVerifies()
    ensures Reachable(CFG, Settled(1.0, map[], PassAt(1.0, Verifying, {}), LOG + [Began("r", 1.0, false)]))
  {
    FirstPassSettles();
    var s6, s7 := Settled(0.0, map[], None, LOG), Settled(1.0, map[], None, LOG);
    Reach(CFG, s6, Advance(1.0), s7);
    Asks(1, s7);
    var s8 := Settled(1.0, map[1 := Request({"r"}, false)], None, LOG);
    Reach(CFG, s7, EnsureFresh(1, {"r"}, false), s8);
    Enters(1, s8);
    var s9 := Settled(1.0, map[], PassAt(1.0, Next, {}), LOG);
    Reach(CFG, s8, Enter(1), s9);
    Begins(s9, 1.0);
    Reach(CFG, s9, Visit, Settled(1.0, map[], PassAt(1.0, Verifying, {}), LOG + [Began("r", 1.0, false)]));
  }

  /** A model vanishes from its runner's catalog, and the request whose refresh saw
      that is cancelled before the presets are derived: no pass is running, the
      runner is ok, and the preset is still verified. */
  lemma StrandedPresetIsReachable() returns (s: State)
    ensures Reachable(CFG, s) && s.pass.None? && RunnerIsOk(s)
    ensures PRESET.alias in s.verified && s.verified[PRESET.alias] && !Usable(PRESET, HealthOf(s, PRESET.runnerRef))
  {
    SecondPassVerifies();
    RowsAreGood();
    var s10 := Settled(1.0, map[], PassAt(1.0, Verifying, {}), LOG + [Began("r", 1.0, false)]);
    assert PRESET in CFG.presets;
    CutShortStrandsPresets(CFG, s10, Reported([]), PRESET);
    var s11 := Apply(CFG, s10, Report(Reported([])));
    Reach(CFG, s10, Report(Reported([])), s11);
    s := Apply(CFG, s11, Abort);
    Reach(CFG, s11, Abort, s);
  }

  predicate RunnerIsOk(s: State) {
    RUNNER.id in s.runners && s.runners[RUNNER.id].ok
  }
}
