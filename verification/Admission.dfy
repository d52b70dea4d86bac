/**
 Bounded admission: the outstanding counters checked at submit, and the two
 semaphores a run acquires before dispatch.

 A job is the slot-acquiring side of one run. An orphan is an acquire task whose
 run task was cancelled from outside: nobody awaits it any more, but it goes on.
 A pool is one semaphore with its counter: one per runner, one per principal.
 */
module Admission {
  import opened Common

  datatype Phase = Queued | HasRunner | HasBoth(noticed: bool)

  datatype Job = Job(inst: nat, principal: nat, phase: Phase)

  datatype Pool = OfRunner(inst: nat) | OfPrincipal(name: nat)

  datatype Limits = Limits(
    perRunner: nat, queuedPerRunner: nat, capacity: map<nat, nat>,
    perPrincipal: nat, queuedPerPrincipal: nat, own: map<nat, nat>)
  {
    // Semaphore sizes.
    function Permits(p: Pool): nat {
      match p
      case OfRunner(i) =>
        var c := if i in capacity then capacity[i] else 1;
        var m := if perRunner < c then perRunner else c;
        if m < 1 then 1 else m
      case OfPrincipal(n) => if n in own && own[n] < perPrincipal then own[n] else perPrincipal
    }

    // Bounds on outstanding runs.
    function Bound(p: Pool): nat {
      match p
      case OfRunner(_) => perRunner + queuedPerRunner
      case OfPrincipal(_) => Permits(p) + queuedPerPrincipal
    }
  }

  type Jobs = map<nat, Job>

  type Counts = map<Pool, nat>

  // `free` holds the semaphores created so far, `out` the counters above zero.
  datatype State = State(active: Jobs, orphans: Jobs, free: Counts, out: Counts)

  const INITIAL := State(map[], map[], map[], map[])

  // A permit is held from its acquisition on; a run counts as outstanding at once.
  predicate On(j: Job, p: Pool) {
    match p case OfRunner(i) => j.inst == i case OfPrincipal(n) => j.principal == n
  }

  predicate Holds(j: Job, p: Pool) {
    On(j, p) && match p case OfRunner(_) => !j.phase.Queued? case OfPrincipal(_) => j.phase.HasBoth?
  }

  function Free(l: Limits, c: Counts, p: Pool): nat {
    if p in c then c[p] else l.Permits(p)
  }

  function Out(c: Counts, p: Pool): nat {
    if p in c then c[p] else 0
  }

  // ------------------------------------------------------------------- steps

  function Take(l: Limits, c: Counts, p: Pool): Counts
    requires Free(l, c, p) > 0
  {
    c[p := Free(l, c, p) - 1]
  }

  function Give(l: Limits, c: Counts, p: Pool): Counts {
    c[p := Free(l, c, p) + 1]
  }

  function Enter(c: Counts, p: Pool): Counts {
    c[p := Out(c, p) + 1]
  }

  function Exit(c: Counts, p: Pool): Counts {
    if Out(c, p) > 1 then c[p := Out(c, p) - 1] else c - {p}
  }

  function GiveAll(l: Limits, c: Counts, j: Job): Counts {
    Give(l, Give(l, c, OfRunner(j.inst)), OfPrincipal(j.principal))
  }

  function EnterAll(c: Counts, inst: nat, principal: nat): Counts {
    Enter(Enter(c, OfRunner(inst)), OfPrincipal(principal))
  }

  function ExitAll(c: Counts, j: Job): Counts {
    Exit(Exit(c, OfRunner(j.inst)), OfPrincipal(j.principal))
  }

  datatype Step =
    | Submit(run: nat, inst: nat, principal: nat)
    | GetRunner(run: nat, orphan: bool)
    | GetPrincipal(run: nat, orphan: bool)
    | Notice(run: nat)                 // the run task resumes with its slots
    | QueueEnds(run: nat, orphan: bool) // timeout, error, or a cancel while queued
    | Finish(run: nat)
    | CancelTask(run: nat)             // outside cancellation of the run task

  function JobOf(s: State, r: nat, orphan: bool): Option<Job> {
    var m := if orphan then s.orphans else s.active;
    if r in m then Some(m[r]) else None
  }

  predicate InPhase(j: Option<Job>, phase: Phase) {
    j.Some? && j.value.phase == phase
  }

  predicate Enabled(l: Limits, s: State, step: Step) {
    match step
    case Submit(r, _, _) => r !in s.active && r !in s.orphans
    case GetRunner(r, o) =>
      InPhase(JobOf(s, r, o), Queued) && Free(l, s.free, OfRunner(JobOf(s, r, o).value.inst)) > 0
    case GetPrincipal(r, o) =>
      InPhase(JobOf(s, r, o), HasRunner) && Free(l, s.free, OfPrincipal(JobOf(s, r, o).value.principal)) > 0
    case Notice(r) => InPhase(JobOf(s, r, false), HasBoth(false))
    case QueueEnds(r, o) => InPhase(JobOf(s, r, o), Queued) || InPhase(JobOf(s, r, o), HasRunner)
    case Finish(r) => InPhase(JobOf(s, r, false), HasBoth(true))
    case CancelTask(r) => r in s.active
  }

  function SetJob(s: State, r: nat, orphan: bool, j: Job): State {
    if orphan then s.(orphans := s.orphans[r := j]) else s.(active := s.active[r := j])
  }

  predicate Full(l: Limits, s: State, inst: nat, principal: nat) {
    || Out(s.out, OfRunner(inst)) >= l.Bound(OfRunner(inst))
    || Out(s.out, OfPrincipal(principal)) >= l.Bound(OfPrincipal(principal))
  }

  // The run task is gone: out of the active table, off both counters.
  function Leave(s: State, r: nat, free: Counts): State
    requires r in s.active
  {
    s.(active := s.active - {r}, free := free, out := ExitAll(s.out, s.active[r]))
  }

  function FreeAfterQueue(l: Limits, s: State, j: Job): Counts {
    if j.phase.HasRunner? then Give(l, s.free, OfRunner(j.inst)) else s.free
  }

  function Apply(l: Limits, s: State, step: Step): State
    requires Enabled(l, s, step)
  {
    match step
    case Submit(r, i, p) =>
      if Full(l, s, i, p) then s
      else s.(active := s.active[r := Job(i, p, Queued)], out := EnterAll(s.out, i, p))
    case GetRunner(r, o) =>
      var j := JobOf(s, r, o).value;
      SetJob(s, r, o, j.(phase := HasRunner)).(free := Take(l, s.free, OfRunner(j.inst)))
    case GetPrincipal(r, o) =>
      var j := JobOf(s, r, o).value;
      SetJob(s, r, o, j.(phase := HasBoth(false))).(free := Take(l, s.free, OfPrincipal(j.principal)))
    case Notice(r) => SetJob(s, r, false, s.active[r].(phase := HasBoth(true)))
    case QueueEnds(r, o) =>
      var free := FreeAfterQueue(l, s, JobOf(s, r, o).value);
      if o then s.(orphans := s.orphans - {r}, free := free) else Leave(s, r, free)
    case Finish(r) => Leave(s, r, GiveAll(l, s.free, s.active[r]))
    case CancelTask(r) =>
      var j := s.active[r];
      if j.phase == HasBoth(true) then Leave(s, r, GiveAll(l, s.free, j))
      else Leave(s, r, s.free).(orphans := s.orphans[r := j])
  }

  ghost predicate IsTrace(l: Limits, states: seq<State>, steps: seq<Step>) {
    |states| == |steps| + 1 && states[0] == INITIAL
    && forall k :: 0 <= k < |steps| ==>
          Enabled(l, states[k], steps[k]) && states[k + 1] == Apply(l, states[k], steps[k])
  }

  // ---------------------------------------------------------------- counting

  function One(b: bool): nat { if b then 1 else 0 }

  function OnPool(m: Jobs, p: Pool): set<nat> {
    set r | r in m && On(m[r], p)
  }

  function Holding(m: Jobs, p: Pool): set<nat> {
    set r | r in m && Holds(m[r], p)
  }

  function OnWeight(j: Option<Job>, p: Pool): nat { One(j.Some? && On(j.value, p)) }

  function HoldWeight(j: Option<Job>, p: Pool): nat { One(j.Some? && Holds(j.value, p)) }

  function At(m: Jobs, r: nat): Option<Job> { if r in m then Some(m[r]) else None }

  ghost predicate SameButFor(m: Jobs, n: Jobs, x: nat) {
    forall r: nat :: r != x ==> At(m, r) == At(n, r)
  }

  lemma CardAfter(x: set<nat>, y: set<nat>, k: nat)
    requires forall i :: i != k ==> (i in x <==> i in y)
    ensures |y| + One(k in x) == |x| + One(k in y)
  {
    assert x - {k} == y - {k};
    assert x == if k in x then x - {k} + {k} else x - {k};
    assert y == if k in y then y - {k} + {k} else y - {k};
  }

  /** One rewritten job moves both counts by its own weights. */
  lemma TableStep(m: Jobs, n: Jobs, r: nat, p: Pool)
    requires SameButFor(m, n, r)
    ensures |OnPool(n, p)| + OnWeight(At(m, r), p) == |OnPool(m, p)| + OnWeight(At(n, r), p)
    ensures |Holding(n, p)| + HoldWeight(At(m, r), p) == |Holding(m, p)| + HoldWeight(At(n, r), p)
  {
    forall i: nat | i != r
      ensures (i in OnPool(m, p) <==> i in OnPool(n, p)) && (i in Holding(m, p) <==> i in Holding(n, p))
    {
      assert At(m, i) == At(n, i);
    }
    CardAfter(OnPool(m, p), OnPool(n, p), r);
    CardAfter(Holding(m, p), Holding(n, p), r);
  }

  lemma OnPoolPositive(m: Jobs, r: nat, p: Pool)
    requires r in m && On(m[r], p)
    ensures |OnPool(m, p)| > 0
  {
    assert r in OnPool(m, p);
  }

  // ---------------------------------------------------------------- invariant

  /** A pool's books: its free permits with the held ones are its size, and its
      counter is the number of its active runs, within its bound. */
  ghost predicate PoolOk(l: Limits, s: State, p: Pool) {
    && Free(l, s.free, p) + |Holding(s.active, p)| + |Holding(s.orphans, p)| == l.Permits(p)
    && Out(s.out, p) == |OnPool(s.active, p)| <= l.Bound(p)
  }

  // What a step does to one pool, in terms of the job it moves.
  ghost predicate Balanced(l: Limits, s: State, t: State, r: nat, p: Pool) {
    && SameButFor(s.active, t.active, r) && SameButFor(s.orphans, t.orphans, r)
    && Free(l, t.free, p) + HoldWeight(At(t.active, r), p) + HoldWeight(At(t.orphans, r), p)
       == Free(l, s.free, p) + HoldWeight(At(s.active, r), p) + HoldWeight(At(s.orphans, r), p)
    && Out(t.out, p) + OnWeight(At(s.active, r), p) == Out(s.out, p) + OnWeight(At(t.active, r), p)
    && (Out(t.out, p) > Out(s.out, p) ==> Out(s.out, p) < l.Bound(p))
  }

  lemma BalancedKeeps(l: Limits, s: State, t: State, r: nat, p: Pool)
    requires PoolOk(l, s, p) && Balanced(l, s, t, r, p)
    ensures PoolOk(l, t, p)
  {
    TableStep(s.active, t.active, r, p);
    TableStep(s.orphans, t.orphans, r, p);
  }

  // The run's job is in one table only, and on its counters if it is active.
  predicate Booked(s: State, r: nat) {
    && !(r in s.active && r in s.orphans)
    && (r in s.active ==>
          Out(s.out, OfRunner(s.active[r].inst)) > 0 && Out(s.out, OfPrincipal(s.active[r].principal)) > 0)
  }

  lemma GivenAll(l: Limits, c: Counts, j: Job, p: Pool)
    ensures Free(l, GiveAll(l, c, j), p) == Free(l, c, p) + One(On(j, p))
  {
  }

  lemma ExitedAll(c: Counts, j: Job, p: Pool)
    requires Out(c, OfRunner(j.inst)) > 0 && Out(c, OfPrincipal(j.principal)) > 0
    ensures Out(ExitAll(c, j), p) == Out(c, p) - One(On(j, p))
  {
  }

  lemma SubmitBooks(l: Limits, s: State, r: nat, i: nat, n: nat, p: Pool)
    requires r !in s.active && r !in s.orphans && !Full(l, s, i, n)
    ensures Balanced(l, s, s.(active := s.active[r := Job(i, n, Queued)], out := EnterAll(s.out, i, n)), r, p)
  {
  }

  // A job is rewritten where it is, taking the one permit it newly holds, if any.
  lemma SetBooks(l: Limits, s: State, r: nat, orphan: bool, j: Job, free: Counts, p: Pool)
    requires Booked(s, r) && JobOf(s, r, orphan).Some?
    requires JobOf(s, r, orphan).value.inst == j.inst && JobOf(s, r, orphan).value.principal == j.principal
    requires Free(l, free, p) + One(Holds(j, p)) == Free(l, s.free, p) + One(Holds(JobOf(s, r, orphan).value, p))
    ensures Balanced(l, s, SetJob(s, r, orphan, j).(free := free), r, p)
  {
  }

  lemma LeaveBooks(l: Limits, s: State, r: nat, free: Counts, p: Pool)
    requires Booked(s, r) && r in s.active && r !in s.orphans
    requires Free(l, free, p) == Free(l, s.free, p) + One(Holds(s.active[r], p))
    ensures Balanced(l, s, Leave(s, r, free), r, p)
  {
    ExitedAll(s.out, s.active[r], p);
  }

  lemma OrphanBooks(l: Limits, s: State, r: nat, p: Pool)
    requires Booked(s, r) && r in s.active && r !in s.orphans
    ensures Balanced(l, s, Leave(s, r, s.free).(orphans := s.orphans[r := s.active[r]]), r, p)
  {
    ExitedAll(s.out, s.active[r], p);
  }

  lemma AcquireIsBalanced(l: Limits, s: State, step: Step, p: Pool)
    requires Enabled(l, s, step) && Booked(s, step.run) && (step.GetRunner? || step.GetPrincipal? || step.Notice?)
    ensures Balanced(l, s, Apply(l, s, step), step.run, p)
  {
    match step
    case GetRunner(r, o) =>
      var j := JobOf(s, r, o).value;
      SetBooks(l, s, r, o, j.(phase := HasRunner), Take(l, s.free, OfRunner(j.inst)), p);
    case GetPrincipal(r, o) =>
      var j := JobOf(s, r, o).value;
      SetBooks(l, s, r, o, j.(phase := HasBoth(false)), Take(l, s.free, OfPrincipal(j.principal)), p);
    case Notice(r) => SetBooks(l, s, r, false, s.active[r].(phase := HasBoth(true)), s.free, p);
  }

  lemma QueueEndIsBalanced(l: Limits, s: State, r: nat, o: bool, p: Pool)
    requires Enabled(l, s, QueueEnds(r, o)) && Booked(s, r)
    ensures Balanced(l, s, Apply(l, s, QueueEnds(r, o)), r, p)
  {
    if !o { LeaveBooks(l, s, r, FreeAfterQueue(l, s, s.active[r]), p); }
  }

  lemma EndIsBalanced(l: Limits, s: State, step: Step, p: Pool)
    requires Enabled(l, s, step) && Booked(s, step.run) && (step.Finish? || step.CancelTask?)
    ensures Balanced(l, s, Apply(l, s, step), step.run, p)
  {
    var r := step.run;
    if s.active[r].phase == HasBoth(true) {
      GivenAll(l, s.free, s.active[r], p);
      LeaveBooks(l, s, r, GiveAll(l, s.free, s.active[r]), p);
    } else {
      OrphanBooks(l, s, r, p);
    }
  }

  lemma StepIsBalanced(l: Limits, s: State, step: Step, p: Pool)
    requires Enabled(l, s, step) && Booked(s, step.run) && (step.Submit? ==> !Full(l, s, step.inst, step.principal))
    ensures Balanced(l, s, Apply(l, s, step), step.run, p)
  {
    match step
    case Submit(r, i, n) => SubmitBooks(l, s, r, i, n, p);
    case QueueEnds(r, o) => QueueEndIsBalanced(l, s, r, o, p);
    case Finish(_) => EndIsBalanced(l, s, step, p);
    case CancelTask(_) => EndIsBalanced(l, s, step, p);
    case _ => AcquireIsBalanced(l, s, step, p);
  }

  lemma PoolStep(l: Limits, s: State, step: Step, p: Pool)
    requires Enabled(l, s, step) && PoolOk(l, s, p) && Booked(s, step.run)
    ensures PoolOk(l, Apply(l, s, step), p)
  {
    if step.Submit? && Full(l, s, step.inst, step.principal) {
      assert Apply(l, s, step) == s;
    } else {
      StepIsBalanced(l, s, step, p);
      BalancedKeeps(l, s, Apply(l, s, step), step.run, p);
    }
  }

  // Every active job is on both of its counters.
  lemma BooksCoverJobs(l: Limits, s: State, r: nat)
    requires r in s.active ==> r !in s.orphans
    requires r in s.active ==>
          PoolOk(l, s, OfRunner(s.active[r].inst)) && PoolOk(l, s, OfPrincipal(s.active[r].principal))
    ensures Booked(s, r)
  {
    if r in s.active {
      OnPoolPositive(s.active, r, OfRunner(s.active[r].inst));
      OnPoolPositive(s.active, r, OfPrincipal(s.active[r].principal));
    }
  }

  predicate Disjoint(s: State) {
    s.active.Keys !! s.orphans.Keys
  }

  lemma DisjointStep(l: Limits, s: State, step: Step)
    requires Enabled(l, s, step) && Disjoint(s)
    ensures Disjoint(Apply(l, s, step))
  {
  }

  lemma {:induction false} AlwaysDisjoint(l: Limits, states: seq<State>, steps: seq<Step>, n: nat)
    requires IsTrace(l, states, steps) && n < |states|
    ensures Disjoint(states[n])
  {
    if n > 0 {
      AlwaysDisjoint(l, states, steps, n - 1);
      DisjointStep(l, states[n - 1], steps[n - 1]);
      assert states[n - 1 + 1] == Apply(l, states[n - 1], steps[n - 1]);
    }
  }

  // ------------------------------------------------------------- main results

  /** Per runner and per principal, free permits plus held ones (orphans' included)
      equal the fixed capacity, and the outstanding counter is exactly the number of
      active runs, never above active limit plus queue limit. */
  lemma {:induction false} PermitsConserved(l: Limits, states: seq<State>, steps: seq<Step>, n: nat, p: Pool)
    requires IsTrace(l, states, steps) && n < |states|
    ensures PoolOk(l, states[n], p)
    decreases n
  {
    if n == 0 {
      assert OnPool(INITIAL.active, p) == {} && Holding(INITIAL.active, p) == {} && Holding(INITIAL.orphans, p) == {};
    } else {
      var s, step := states[n - 1], steps[n - 1];
      PermitsConserved(l, states, steps, n - 1, p);
      AlwaysDisjoint(l, states, steps, n - 1);
      if step.run in s.active {
        PermitsConserved(l, states, steps, n - 1, OfRunner(s.active[step.run].inst));
        PermitsConserved(l, states, steps, n - 1, OfPrincipal(s.active[step.run].principal));
      }
      BooksCoverJobs(l, s, step.run);
      PoolStep(l, s, step, p);
      assert states[n - 1 + 1] == Apply(l, s, step);
    }
  }

  /** So the permits of the live runs alone account for the capacity exactly when
      no orphan holds one. */
  lemma LiveRunsAccountIffNoOrphanHolds(l: Limits, states: seq<State>, steps: seq<Step>, n: nat, p: Pool)
    requires IsTrace(l, states, steps) && n < |states|
    ensures Free(l, states[n].free, p) + |Holding(states[n].active, p)| == l.Permits(p)
       <==> (forall r :: r in states[n].orphans ==> !Holds(states[n].orphans[r], p))
  {
    PermitsConserved(l, states, steps, n, p);
    var held := Holding(states[n].orphans, p);
    assert held == {} <==> |held| == 0;
    assert forall r :: r in held <==> r in states[n].orphans && Holds(states[n].orphans[r], p);
  }

  /** An orphan that has both slots never gives them back: no step releases them. */
  lemma OrphanWithBothIsForever(l: Limits, s: State, step: Step, r: nat)
    requires Enabled(l, s, step) && r in s.orphans && s.orphans[r].phase.HasBoth?
    requires r !in s.active
    ensures r in Apply(l, s, step).orphans && Apply(l, s, step).orphans[r] == s.orphans[r]
  {
  }

  // ---------------------------------------------------------------- the sizes

  // The smaller of the two.
  predicate IsMin(m: int, a: int, b: int) {
    m <= a && m <= b && (m == a || m == b)
  }

  /** A runner's semaphore has the smaller of the configured and the verified
      capacity, but never none; a principal's the smaller of the global cap and its
      own. A run is refused exactly when a counter is at its bound. */
  lemma SizesAre(l: Limits, s: State, inst: nat, principal: nat)
    ensures var c := if inst in l.capacity then l.capacity[inst] else 1;
      var n := l.Permits(OfRunner(inst));
      if c == 0 || l.perRunner == 0 then n == 1 else IsMin(n, l.perRunner, c)
    ensures var n := l.Permits(OfPrincipal(principal));
      if principal in l.own then IsMin(n, l.perPrincipal, l.own[principal]) else n == l.perPrincipal
    ensures Full(l, s, inst, principal)
       <==> || (if OfRunner(inst) in s.out then s.out[OfRunner(inst)] else 0) >= l.perRunner + l.queuedPerRunner
            || (if OfPrincipal(principal) in s.out then s.out[OfPrincipal(principal)] else 0)
                 >= l.Permits(OfPrincipal(principal)) + l.queuedPerPrincipal
  {
  }

  // --------------------------------------------------------- runs get their slots

  /** The state after a list of steps, if each is enabled when its turn comes. */
  function After(l: Limits, s: State, steps: seq<Step>): Option<State> {
    if steps == [] then Some(s)
    else
      match After(l, s, steps[..|steps| - 1])
      case Some(t) => if Enabled(l, t, steps[|steps| - 1]) then Some(Apply(l, t, steps[|steps| - 1])) else None
      case None => None
  }

  lemma OneMore(l: Limits, s: State, steps: seq<Step>, t: State, step: Step)
    requires After(l, s, steps) == Some(t) && Enabled(l, t, step)
    ensures After(l, s, steps + [step]) == Some(Apply(l, t, step))
  {
    assert (steps + [step])[..|steps|] == steps;
  }

  function Acquiring(r: nat): seq<Step> {
    [GetRunner(r, false), GetPrincipal(r, false), Notice(r)]
  }

  // A queued run, and a permit of each of its pools to be had.
  predicate CanAcquire(l: Limits, s: State, r: nat) {
    r in s.active && s.active[r].phase.Queued?
    && Free(l, s.free, OfRunner(s.active[r].inst)) > 0 && Free(l, s.free, OfPrincipal(s.active[r].principal)) > 0
  }

  // The state after n of these steps.
  function AcquiredAt(l: Limits, s: State, r: nat, n: nat): State
    requires CanAcquire(l, s, r)
  {
    var j := s.active[r];
    var i, p := OfRunner(j.inst), OfPrincipal(j.principal);
    var phase := if n == 0 then Queued else if n == 1 then HasRunner else HasBoth(n == 3);
    var one := if n == 0 then s.free else s.free[i := Free(l, s.free, i) - 1];
    s.(active := s.active[r := j.(phase := phase)], free := if n < 2 then one else one[p := Free(l, s.free, p) - 1])
  }

  ghost predicate LeadsOn(l: Limits, s: State, r: nat, n: nat)
    requires CanAcquire(l, s, r) && n < 3
  {
    var t, step := AcquiredAt(l, s, r, n), Acquiring(r)[n];
    Enabled(l, t, step) && Apply(l, t, step) == AcquiredAt(l, s, r, n + 1)
  }

  lemma TakesRunner(l: Limits, s: State, r: nat)
    requires CanAcquire(l, s, r)
    ensures LeadsOn(l, s, r, 0)
  {
    assert AcquiredAt(l, s, r, 0) == s;
  }

  lemma TakesPrincipal(l: Limits, s: State, r: nat)
    requires CanAcquire(l, s, r)
    ensures LeadsOn(l, s, r, 1)
  {
  }

  lemma TakesNotice(l: Limits, s: State, r: nat)
    requires CanAcquire(l, s, r)
    ensures LeadsOn(l, s, r, 2)
  {
  }

  lemma {:induction false} AcquiredUpTo(l: Limits, s: State, r: nat, n: nat)
    requires CanAcquire(l, s, r) && n <= 3
    ensures After(l, s, Acquiring(r)[..n]) == Some(AcquiredAt(l, s, r, n))
  {
    if n == 0 {
      assert AcquiredAt(l, s, r, 0) == s;
    } else {
      AcquiredUpTo(l, s, r, n - 1);
      if n == 1 { TakesRunner(l, s, r); } else if n == 2 { TakesPrincipal(l, s, r); } else { TakesNotice(l, s, r); }
      OneMore(l, s, Acquiring(r)[..n - 1], AcquiredAt(l, s, r, n - 1), Acquiring(r)[n - 1]);
      assert Acquiring(r)[..n] == Acquiring(r)[..n - 1] + [Acquiring(r)[n - 1]];
    }
  }

  /** A queued run for which both semaphores have a permit left can take them, one of
      each, and resume with both. */
  lemma QueuedRunGetsItsSlots(l: Limits, s: State, r: nat)
    requires r in s.active && s.active[r].phase.Queued?
    requires Free(l, s.free, OfRunner(s.active[r].inst)) > 0 && Free(l, s.free, OfPrincipal(s.active[r].principal)) > 0
    ensures var j, t := s.active[r], After(l, s, [GetRunner(r, false), GetPrincipal(r, false), Notice(r)]);
      && t.Some? && t.value.active == s.active[r := j.(phase := HasBoth(true))]
      && t.value.out == s.out && t.value.orphans == s.orphans
      && forall p: Pool ::
           Free(l, t.value.free, p) as int
             == Free(l, s.free, p) - (if p == OfRunner(j.inst) || p == OfPrincipal(j.principal) then 1 else 0)
  {
    AcquiredUpTo(l, s, r, 3);
    assert Acquiring(r)[..3] == Acquiring(r);
  }
}

/** The admission side of the controller as an object. */
module AdmissionController {
  import opened Common
  import opened Admission

  function Max(a: int, b: int): int {
    if a < b then b else a
  }

  class Slots {
    const limits: Limits
    var active: Jobs
    var orphans: Jobs
    var free: Counts
    var outstanding: Counts

    ghost function View(): State
      reads this
    {
      State(active, orphans, free, outstanding)
    }

    constructor (limits: Limits)
      ensures View() == INITIAL && this.limits == limits
    {
      this.limits := limits;
      active, orphans, free, outstanding := map[], map[], map[], map[];
    }

    method SubmitRun(r: nat, inst: nat, principal: nat) returns (queueFull: bool)
      requires Enabled(limits, View(), Submit(r, inst, principal))
      modifies this
      ensures View() == Apply(limits, old(View()), Submit(r, inst, principal))
      ensures queueFull <==> old(Full(limits, View(), inst, principal))
      ensures queueFull ==> View() == old(View())
      ensures !queueFull ==> active == old(active)[r := Job(inst, principal, Queued)] && free == old(free)
      ensures !queueFull ==> forall p: Pool ::
        Out(outstanding, p)
          == old(Out(outstanding, p)) + (if p == OfRunner(inst) || p == OfPrincipal(principal) then 1 else 0)
    {
      if Out(outstanding, OfRunner(inst)) >= limits.Bound(OfRunner(inst)) { return true; }
      if Out(outstanding, OfPrincipal(principal)) >= limits.Bound(OfPrincipal(principal)) { return true; }
      outstanding := outstanding[OfRunner(inst) := Out(outstanding, OfRunner(inst)) + 1];
      outstanding := outstanding[OfPrincipal(principal) := Out(outstanding, OfPrincipal(principal)) + 1];
      active := active[r := Job(inst, principal, Queued)];
      queueFull := false;
    }

    method Acquire(p: Pool)
      requires Free(limits, free, p) > 0
      modifies this`free
      ensures free == Take(limits, old(free), p)
    {
      free := free[p := Free(limits, free, p) - 1];
    }

    method Release(p: Pool)
      modifies this`free
      ensures free == Give(limits, old(free), p)
    {
      free := free[p := Free(limits, free, p) + 1];
    }

    method AcquireRunner(r: nat)
      requires Enabled(limits, View(), GetRunner(r, false))
      modifies this
      ensures View() == Apply(limits, old(View()), GetRunner(r, false))
    {
      var j := active[r];
      Acquire(OfRunner(j.inst));
      active := active[r := j.(phase := HasRunner)];
    }

    method AcquirePrincipal(r: nat)
      requires Enabled(limits, View(), GetPrincipal(r, false))
      modifies this
      ensures View() == Apply(limits, old(View()), GetPrincipal(r, false))
    {
      var j := active[r];
      Acquire(OfPrincipal(j.principal));
      active := active[r := j.(phase := HasBoth(false))];
    }

    // A queued run ends without both slots: give back what was acquired.
    method LeaveQueue(r: nat)
      requires Enabled(limits, View(), QueueEnds(r, false))
      modifies this
      ensures View() == Apply(limits, old(View()), QueueEnds(r, false))
      ensures active == old(active) - {r} && orphans == old(orphans)
      ensures var j := old(active[r]);
        forall p: Pool :: Free(limits, free, p)
          == old(Free(limits, free, p)) + (if p == OfRunner(j.inst) && j.phase.HasRunner? then 1 else 0)
    {
      var j := active[r];
      if j.phase.HasRunner? { Release(OfRunner(j.inst)); }
      active := active - {r};
      ReleaseOutstanding(j);
    }

    method FinishRun(r: nat)
      requires Enabled(limits, View(), Finish(r))
      modifies this
      ensures View() == Apply(limits, old(View()), Finish(r))
      ensures active == old(active) - {r} && orphans == old(orphans)
      ensures var j := old(active[r]);
        forall p: Pool :: Free(limits, free, p)
          == old(Free(limits, free, p)) + (if p == OfRunner(j.inst) || p == OfPrincipal(j.principal) then 1 else 0)
      ensures var j := old(active[r]);
        forall p: Pool :: Out(outstanding, p) as int
          == if p == OfRunner(j.inst) || p == OfPrincipal(j.principal) then Max(0, old(Out(outstanding, p)) - 1)
             else old(Out(outstanding, p))
    {
      var j := active[r];
      Release(OfRunner(j.inst));
      Release(OfPrincipal(j.principal));
      active := active - {r};
      ReleaseOutstanding(j);
    }

    // Both counters go down; one that reaches zero is removed.
    method ReleaseOutstanding(j: Job)
      modifies this`outstanding
      ensures outstanding == ExitAll(old(outstanding), j)
    {
      ReleaseOne(OfRunner(j.inst));
      ReleaseOne(OfPrincipal(j.principal));
    }

    method ReleaseOne(p: Pool)
      modifies this`outstanding
      ensures outstanding == Exit(old(outstanding), p)
    {
      var remaining := Out(outstanding, p) as int - 1;
      if remaining > 0 { outstanding := outstanding[p := remaining]; } else { outstanding := outstanding - {p}; }
    }
  }
}
