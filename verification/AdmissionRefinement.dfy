/**
 The admission protocol provides what the run lifecycle assumes of it: with one
 permit per runner, a run that wakes with its slots finds its instance's permit
 free of any other run. Orphans only take permits away.
 */
module AdmissionRefinement {
  import opened Common
  import Lifecycle
  import Admission

  // A run's job, seen from the lifecycle: waiting until its task resumes with both.
  predicate Mirrors(x: Lifecycle.Run, j: Option<Admission.Job>) {
    && (x.phase.Waiting? <==> j.Some? && j.value.phase != Admission.HasBoth(true))
    && (x.Holding() <==> j.Some? && j.value.phase == Admission.HasBoth(true))
    && (j.Some? ==> j.value.inst == x.inst && j.value.principal == x.key.principal)
  }

  /** The two views of one process: its runs, and the jobs of its live tasks. */
  ghost predicate Tracks(sys: Lifecycle.Sys, adm: Admission.State) {
    && (forall r: nat :: sys.epoch <= r < |sys.runs| ==> Mirrors(sys.runs[r], Admission.At(adm.active, r)))
    && (forall r :: r in adm.active ==> sys.epoch <= r < |sys.runs|)
    && sys.epoch <= |sys.runs|
  }

  /** A noticed acquisition is one the lifecycle allows: nobody else has the permit. */
  lemma NoticeFindsPermitFree(l: Admission.Limits, states: seq<Admission.State>, steps: seq<Admission.Step>, n: nat,
                              sys: Lifecycle.Sys, r: nat)
    requires Admission.IsTrace(l, states, steps) && n < |states| && Tracks(sys, states[n])
    requires Admission.Enabled(l, states[n], Admission.Notice(r))
    requires l.Permits(Admission.OfRunner(sys.runs[r].inst)) == 1
    ensures Lifecycle.CanWake(sys, r, Lifecycle.Acquired)
  {
    var s := states[n];
    var p := Admission.OfRunner(sys.runs[r].inst);
    Admission.PermitsConserved(l, states, steps, n, p);
    assert Mirrors(sys.runs[r], Admission.At(s.active, r));
    forall i: nat | sys.epoch <= i < |sys.runs| && sys.runs[i].inst == sys.runs[r].inst ensures !sys.runs[i].Holding() {
      assert Mirrors(sys.runs[i], Admission.At(s.active, i));
      SoleHolder(s, p, r, i);
    }
  }

  // Where the holders of a pool are at most one, there is no second.
  lemma SoleHolder(s: Admission.State, p: Admission.Pool, r: nat, i: nat)
    requires |Admission.Holding(s.active, p)| <= 1
    requires r in s.active && Admission.Holds(s.active[r], p)
    ensures i in s.active && Admission.Holds(s.active[i], p) ==> i == r
  {
    var held := Admission.Holding(s.active, p);
    assert r in held;
    assert |held - {r}| == |held| - 1;
    assert i in held && i != r ==> i in held - {r};
  }

  /** While an orphan holds the one permit of a runner, no run of it is dispatched. */
  lemma OrphanBlocksDispatch(l: Admission.Limits, states: seq<Admission.State>, steps: seq<Admission.Step>, n: nat,
                             sys: Lifecycle.Sys, o: nat, r: nat)
    requires Admission.IsTrace(l, states, steps) && n < |states| && Tracks(sys, states[n])
    requires o in states[n].orphans && !states[n].orphans[o].phase.Queued? && sys.epoch <= r < |sys.runs|
    requires states[n].orphans[o].inst == sys.runs[r].inst && l.Permits(Admission.OfRunner(sys.runs[r].inst)) == 1
    ensures !sys.runs[r].Holding() && !Admission.Enabled(l, states[n], Admission.Notice(r))
  {
    var s := states[n];
    var p := Admission.OfRunner(sys.runs[r].inst);
    Admission.PermitsConserved(l, states, steps, n, p);
    assert Mirrors(sys.runs[r], Admission.At(s.active, r));
    assert o in Admission.Holding(s.orphans, p);
    assert Admission.Holding(s.active, p) == {};
    assert r in s.active && Admission.Holds(s.active[r], p) ==> r in Admission.Holding(s.active, p);
  }

  // --------------------------------------------------- the views stay in step

  // One run's record and its job change together; nothing else does.
  lemma TracksEdit(sys: Lifecycle.Sys, adm: Admission.State, r: nat, y: Lifecycle.Run, after: Admission.State)
    requires Tracks(sys, adm) && sys.epoch <= r < |sys.runs|
    requires Admission.SameButFor(adm.active, after.active, r) && Mirrors(y, Admission.At(after.active, r))
    ensures Tracks(Lifecycle.SetRun(sys, r, y), after)
  {
    var t := Lifecycle.SetRun(sys, r, y);
    forall i: nat | t.epoch <= i < |t.runs| ensures Mirrors(t.runs[i], Admission.At(after.active, i)) {
      if i != r { assert Mirrors(sys.runs[i], Admission.At(adm.active, i)); }
    }
    forall i | i in after.active ensures t.epoch <= i < |t.runs| {
      if i != r { assert Admission.At(adm.active, i) == Admission.At(after.active, i); }
    }
  }

  /** An admitted run is reserved, and its job enters both counters: the lifecycle's
      `full` is the admission's. */
  lemma SubmitTogether(l: Admission.Limits, sys: Lifecycle.Sys, adm: Admission.State,
                       key: Lifecycle.Key, hash: nat, preset: nat, inst: nat)
    requires Tracks(sys, adm) && Admission.Enabled(l, adm, Admission.Submit(|sys.runs|, inst, key.principal))
    ensures var full := Admission.Full(l, adm, inst, key.principal);
      var (t, verdict) := Lifecycle.Submit(sys, key, hash, preset, inst, true, full);
      var entered := Admission.Apply(l, adm, Admission.Submit(|sys.runs|, inst, key.principal));
      Tracks(t, if verdict.Fresh? then entered else adm)
  {
    var full := Admission.Full(l, adm, inst, key.principal);
    var (t, verdict) := Lifecycle.Submit(sys, key, hash, preset, inst, true, full);
    var entered := Admission.Apply(l, adm, Admission.Submit(|sys.runs|, inst, key.principal));
    if verdict.Fresh? { ReservedTracks(sys, adm, key, hash, preset, inst, entered); }
  }

  lemma ReservedTracks(sys: Lifecycle.Sys, adm: Admission.State, key: Lifecycle.Key, hash: nat, preset: nat, inst: nat,
                       after: Admission.State)
    requires Tracks(sys, adm)
    requires after.active == adm.active[|sys.runs| := Admission.Job(inst, key.principal, Admission.Queued)]
    ensures Tracks(Lifecycle.Reserve(sys, key, hash, preset, inst), after)
  {
    var t := Lifecycle.Reserve(sys, key, hash, preset, inst);
    forall i: nat | t.epoch <= i < |t.runs| ensures Mirrors(t.runs[i], Admission.At(after.active, i)) {
      if i < |sys.runs| {
        assert t.runs[i] == sys.runs[i] && Mirrors(sys.runs[i], Admission.At(adm.active, i));
      }
    }
  }

  /** A task that resumes with its slots, outside quarantine, takes the permit in
      both views. */
  lemma NoticeTogether(l: Admission.Limits, sys: Lifecycle.Sys, adm: Admission.State, r: nat)
    requires Tracks(sys, adm) && Admission.Enabled(l, adm, Admission.Notice(r))
    ensures Tracks(Lifecycle.MarkStarting(sys, r), Admission.Apply(l, adm, Admission.Notice(r)))
  {
    TracksEdit(sys, adm, r, Lifecycle.MarkStarting(sys, r).runs[r], Admission.Apply(l, adm, Admission.Notice(r)));
  }

  /** A task that ends, from the queue, with its slots, or by an outside cancel, has no
      job afterwards; what it acquired is back, or with its orphan. */
  lemma EndTogether(l: Admission.Limits, sys: Lifecycle.Sys, adm: Admission.State, r: nat, y: Lifecycle.Run,
                    step: Admission.Step)
    requires Tracks(sys, adm) && Admission.Enabled(l, adm, step) && y.phase.NoTask?
    requires step == Admission.QueueEnds(r, false) || step == Admission.Finish(r) || step == Admission.CancelTask(r)
    ensures r < |sys.runs| && Tracks(Lifecycle.SetRun(sys, r, y), Admission.Apply(l, adm, step))
  {
    TracksEdit(sys, adm, r, y, Admission.Apply(l, adm, step));
  }
}
