/**
 The Runner's single execution slot: arrival, the bounded queue, the race
 between slot acquisition and a queued cancel, and every exit path.

 Semaphore internals are atomic: a grant hands the slot to one waiting acquire
 task; the handler of that run notices it later.
 */
module RunnerSlot {
  import opened Common

  /** Where the handler of one run is suspended. */
  datatype Phase =
    | AtWait(granted: bool)  // acquire or start_cancelled, whichever is first
    | AtWithdraw             // its acquire task is being cancelled
    | AtReply                // sending the cancelled-before-start result
    | AtDeny                 // sending a denial after the workspace claim failed
    | AtDrive                // running the driver under the deadline
    | Gone

  datatype ActiveRun = ActiveRun(
    id: nat, bound: bool, phase: Phase, acquired: bool,
    queued: bool, started: bool, cancelBeforeStart: bool, startCancelled: bool,
    cancelWaits: nat,   // queued cancels still waiting for this run to finish
    confirmed: bool,    // history: a queued cancel was answered "confirmed"
    executed: bool)     // history: driver.execute was called

  datatype State = State(runs: seq<ActiveRun>, active: map<nat, nat>, waiting: int, free: nat)

  const INITIAL := State([], map[], 0, 1)

  // What the request and its workspace binding come to.
  datatype Binding = Malformed | Denied | Unbound | Bound

  datatype Step =
    | Arrive(id: nat, binding: Binding, contended: bool) // contended: the semaphore has a registered waiter
    | Grant(k: nat)
    | Wake(k: nat, claimFree: bool)
    | Withdrawn(k: nat, got: bool, claimFree: bool)
    | Execute(k: nat)
    | Exit(k: nat)
    | Cancel(id: nat)
    | CancelReplies(k: nat, timely: bool)
    | Shutdown

  predicate Known(s: State, k: int) { 0 <= k < |s.runs| }

  predicate Holds(r: ActiveRun) {
    r.phase == AtWait(true) || (r.acquired && !r.phase.Gone?)
  }

  predicate Finished(r: ActiveRun) { r.phase.Gone? }

  predicate Locked(s: State, contended: bool) { s.free == 0 || contended }

  predicate Enabled(s: State, step: Step) {
    match step
    case Arrive(_, _, contended) => contended ==> exists k: nat :: k < |s.runs| && s.runs[k].phase == AtWait(false)
    case Grant(k) => Known(s, k) && s.runs[k].phase == AtWait(false) && s.free > 0
    case Wake(k, _) => Known(s, k) && s.runs[k].phase.AtWait? && (s.runs[k].phase.granted || s.runs[k].startCancelled)
    case Withdrawn(k, got, _) => Known(s, k) && s.runs[k].phase.AtWithdraw? && (got ==> s.free > 0)
    case Execute(k) => Known(s, k) && s.runs[k].phase.AtDrive? && !s.runs[k].executed
    case Exit(k) => Known(s, k) && (s.runs[k].phase.AtReply? || s.runs[k].phase.AtDeny? || s.runs[k].phase.AtDrive?)
    case Cancel(_) => true
    case CancelReplies(k, timely) => Known(s, k) && s.runs[k].cancelWaits > 0 && (timely ==> Finished(s.runs[k]))
    case Shutdown => true
  }

  datatype Verdict = InvalidParams | BindingDenied | RunAlreadyActive | QueueFull | Admitted

  function Admit(maxQueue: nat, s: State, id: nat, binding: Binding, contended: bool): Verdict {
    if binding.Malformed? then InvalidParams
    else if binding.Denied? then BindingDenied
    else if id in s.active then RunAlreadyActive
    else if Locked(s, contended) && s.waiting >= maxQueue then QueueFull
    else Admitted
  }

  // After the wait: the cancelled branch, or the start of the run.
  function Start(r: ActiveRun, got: bool, claimFree: bool): ActiveRun {
    if r.cancelBeforeStart then r.(acquired := got, phase := AtReply)
    else r.(acquired := got, queued := false, started := true,
            phase := if r.bound && !claimFree then AtDeny else AtDrive)
  }

  function Put(s: State, k: nat, r: ActiveRun): State
    requires Known(s, k)
  {
    s.(runs := s.runs[k := r])
  }

  predicate CancelsQueued(s: State, id: nat) {
    id in s.active && Known(s, s.active[id]) && s.runs[s.active[id]].queued && !s.runs[s.active[id]].started
  }

  function Apply(maxQueue: nat, s: State, step: Step): State
    requires Enabled(s, step)
  {
    match step
    case Arrive(id, b, contended) =>
      if !Admit(maxQueue, s, id, b, contended).Admitted? then s
      else State(s.runs + [ActiveRun(id, b.Bound?, AtWait(false), false, true, false, false, false, 0, false, false)],
                 s.active[id := |s.runs|], s.waiting + 1, s.free)
    case Grant(k) => Put(s, k, s.runs[k].(phase := AtWait(true))).(free := s.free - 1)
    case Wake(k, claimFree) =>
      var r := s.runs[k];
      Put(s, k, if r.phase.granted then Start(r, true, claimFree)
        else r.(phase := AtWithdraw)).(waiting := s.waiting - 1)
    case Withdrawn(k, got, claimFree) =>
      Put(s, k, Start(s.runs[k], got, claimFree)).(free := if got then s.free - 1 else s.free)
    case Execute(k) => Put(s, k, s.runs[k].(executed := true))
    case Exit(k) =>
      var r := s.runs[k];
      Put(s, k, r.(phase := Gone)).(active := s.active - {r.id}, free := if r.acquired then s.free + 1 else s.free)
    case Cancel(id) =>
      if !CancelsQueued(s, id) then s
      else
        var r := s.runs[s.active[id]];
        Put(s, s.active[id], r.(cancelBeforeStart := true, startCancelled := true, cancelWaits := r.cancelWaits + 1))
    case CancelReplies(k, timely) =>
      var r := s.runs[k];
      Put(s, k, r.(cancelWaits := r.cancelWaits - 1, confirmed := r.confirmed || (timely && !r.started)))
    case Shutdown => s.(runs := seq(|s.runs|, k requires 0 <= k < |s.runs| => WakeForShutdown(s.runs[k])))
  }

  // Cleanup wakes the active runs without marking them cancelled.
  function WakeForShutdown(r: ActiveRun): ActiveRun {
    if r.phase.Gone? then r else r.(startCancelled := true)
  }

  ghost predicate IsTrace(maxQueue: nat, states: seq<State>, steps: seq<Step>) {
    |states| == |steps| + 1 && states[0] == INITIAL
    && forall k :: 0 <= k < |steps| ==>
          Enabled(states[k], steps[k]) && states[k + 1] == Apply(maxQueue, states[k], steps[k])
  }

  // --------------------------------------------------------------- invariants

  // What one record says about itself, shutdown or not.
  predicate RunOk(r: ActiveRun) {
    && (r.started <==> !r.queued)
    && (r.started ==> r.phase.AtDeny? || r.phase.AtDrive? || r.phase.Gone?)
    && (r.phase.AtDeny? || r.phase.AtDrive? ==> r.started)
    && (r.started ==> !r.cancelBeforeStart)
    && (r.executed ==> r.started)
    && (r.phase.AtDeny? ==> !r.executed)
    && (r.phase.AtWait? || r.phase.AtWithdraw? ==> !r.acquired)
    && (r.cancelBeforeStart ==> r.startCancelled)
    && (r.phase.AtReply? ==> r.cancelBeforeStart)
    && (r.cancelWaits > 0 || r.confirmed ==> r.cancelBeforeStart)
    && (r.confirmed ==> r.phase.Gone?)
  }

  // One slot: free, or held by exactly one run.
  ghost predicate SlotOk(s: State) {
    && s.free <= 1
    && (forall i, j :: Known(s, i) && Known(s, j) && Holds(s.runs[i]) && Holds(s.runs[j]) ==> i == j)
    && (s.free == 0 <==> exists i :: Known(s, i) && Holds(s.runs[i]))
  }

  // The table maps each id to its one unfinished record.
  ghost predicate TableOk(s: State) {
    && (forall id :: id in s.active ==>
          Known(s, s.active[id]) && s.runs[s.active[id]].id == id && !Finished(s.runs[s.active[id]]))
    && (forall k :: Known(s, k) && !Finished(s.runs[k]) ==> s.runs[k].id in s.active && s.active[s.runs[k].id] == k)
  }

  function WaitersIn(runs: seq<ActiveRun>): set<nat> {
    set k: nat | k < |runs| && runs[k].phase.AtWait?
  }

  ghost predicate Inv(s: State) {
    && (forall k :: Known(s, k) ==> RunOk(s.runs[k]))
    && SlotOk(s) && TableOk(s) && s.waiting == |WaitersIn(s.runs)|
  }

  // A step other than an arrival and a shutdown rewrites one record.
  lemma RunsStep(maxQueue: nat, s: State, step: Step)
    requires Enabled(s, step) && TableOk(s) && forall k :: Known(s, k) ==> RunOk(s.runs[k])
    ensures var t := Apply(maxQueue, s, step); forall k :: Known(t, k) ==> RunOk(t.runs[k])
  {
  }

  // The one record that a step other than an arrival or a shutdown rewrites.
  function Target(s: State, step: Step): Option<nat>
    requires Enabled(s, step)
  {
    match step
    case Arrive(_, _, _) => None
    case Cancel(id) => if CancelsQueued(s, id) then Some(s.active[id]) else None
    case Shutdown => None
    case Grant(k) => Some(k)
    case Wake(k, _) => Some(k)
    case Withdrawn(k, _, _) => Some(k)
    case Execute(k) => Some(k)
    case Exit(k) => Some(k)
    case CancelReplies(k, _) => Some(k)
  }

  ghost predicate Rewrites(s: State, t: State, k: nat) {
    k < |s.runs| == |t.runs| && forall i :: Known(s, i) && i != k ==> t.runs[i] == s.runs[i]
  }

  function One(b: bool): nat { if b then 1 else 0 }

  // What a rewritten record does to the slot, the counter and the table is what
  // happened to that record.
  ghost predicate Balanced(s: State, t: State, k: nat)
    requires Rewrites(s, t, k)
  {
    var r, q := s.runs[k], t.runs[k];
    && t.free + One(Holds(q)) == s.free + One(Holds(r))
    && t.waiting + One(r.phase.AtWait?) == s.waiting + One(q.phase.AtWait?)
    && q.id == r.id && (Finished(r) ==> Finished(q))
    && (if Finished(q) && !Finished(r) then t.active == s.active - {r.id} else t.active == s.active)
  }

  lemma StepIsBalanced(maxQueue: nat, s: State, step: Step)
    requires Enabled(s, step) && Target(s, step).Some?
    requires RunOk(s.runs[Target(s, step).value])
    ensures Rewrites(s, Apply(maxQueue, s, step), Target(s, step).value)
    ensures Balanced(s, Apply(maxQueue, s, step), Target(s, step).value)
  {
  }

  lemma SlotAfter(s: State, t: State, k: nat)
    requires SlotOk(s) && Rewrites(s, t, k) && Balanced(s, t, k)
    ensures SlotOk(t)
  {
    assert forall i :: Known(s, i) && i != k ==> Holds(t.runs[i]) == Holds(s.runs[i]);
    assert Holds(t.runs[k]) || Holds(s.runs[k]) || t.free == s.free;
    if Holds(s.runs[k]) && !Holds(t.runs[k]) {
      assert forall i :: Known(t, i) ==> !Holds(t.runs[i]);
    }
  }

  lemma TableAfter(s: State, t: State, k: nat)
    requires TableOk(s) && Rewrites(s, t, k) && Balanced(s, t, k)
    ensures TableOk(t)
  {
  }

  lemma CardAfter(x: set<nat>, y: set<nat>, k: nat)
    requires forall i :: i != k ==> (i in x <==> i in y)
    ensures |y| + One(k in x) == |x| + One(k in y)
  {
    assert x - {k} == y - {k};
    assert x == if k in x then x - {k} + {k} else x - {k};
    assert y == if k in y then y - {k} + {k} else y - {k};
  }

  lemma WaitersAfter(before: seq<ActiveRun>, after: seq<ActiveRun>, k: nat)
    requires k < |before| == |after|
    requires forall i :: 0 <= i < |before| && i != k ==> after[i] == before[i]
    ensures |WaitersIn(after)| + One(before[k].phase.AtWait?) == |WaitersIn(before)| + One(after[k].phase.AtWait?)
  {
    var x, y := WaitersIn(before), WaitersIn(after);
    assert forall i :: i != k ==> (i in x <==> i in y);
    assert (k in x <==> before[k].phase.AtWait?) && (k in y <==> after[k].phase.AtWait?);
    CardAfter(x, y, k);
  }

  ghost predicate Appends(s: State, t: State, r: ActiveRun) {
    t == State(s.runs + [r], s.active[r.id := |s.runs|], s.waiting + 1, s.free)
    && r.phase == AtWait(false) && !r.acquired && r.id !in s.active
  }

  lemma SlotAppended(s: State, t: State, r: ActiveRun)
    requires SlotOk(s) && Appends(s, t, r)
    ensures SlotOk(t)
  {
    assert forall i :: Known(s, i) ==> t.runs[i] == s.runs[i];
    assert !Holds(t.runs[|s.runs|]);
  }

  lemma TableAppended(s: State, t: State, r: ActiveRun)
    requires TableOk(s) && Appends(s, t, r)
    ensures TableOk(t)
  {
    assert forall i :: Known(s, i) ==> t.runs[i] == s.runs[i];
  }

  lemma WaitersAppended(before: seq<ActiveRun>, r: ActiveRun)
    requires r.phase.AtWait?
    ensures |WaitersIn(before + [r])| == |WaitersIn(before)| + 1
  {
    var x, y := WaitersIn(before), WaitersIn(before + [r]);
    forall i: nat ensures i in y <==> i in x || i == |before| {
      assert i < |before| ==> (before + [r])[i] == before[i];
      assert i == |before| ==> (before + [r])[i] == r;
    }
    CardAfter(x, y, |before|);
  }

  lemma ArrivalKeeps(maxQueue: nat, s: State, step: Step)
    requires Enabled(s, step) && step.Arrive? && SlotOk(s) && TableOk(s) && s.waiting == |WaitersIn(s.runs)|
    ensures var t := Apply(maxQueue, s, step); SlotOk(t) && TableOk(t) && t.waiting == |WaitersIn(t.runs)|
  {
    var t := Apply(maxQueue, s, step);
    if t != s {
      var r := t.runs[|s.runs|];
      assert Appends(s, t, r);
      SlotAppended(s, t, r);
      TableAppended(s, t, r);
      WaitersAppended(s.runs, r);
    }
  }

  // A shutdown moves no handler.
  ghost predicate Wakes(s: State, t: State) {
    && t.active == s.active && t.waiting == s.waiting && t.free == s.free && |t.runs| == |s.runs|
    && forall i :: Known(s, i) ==> t.runs[i] == WakeForShutdown(s.runs[i])
  }

  lemma SlotWoken(s: State, t: State)
    requires SlotOk(s) && Wakes(s, t)
    ensures SlotOk(t)
  {
    assert forall i :: Known(s, i) ==> Holds(t.runs[i]) == Holds(s.runs[i]);
  }

  lemma TableWoken(s: State, t: State)
    requires TableOk(s) && Wakes(s, t)
    ensures TableOk(t)
  {
  }

  lemma WaitersWoken(s: State, t: State)
    requires Wakes(s, t)
    ensures WaitersIn(t.runs) == WaitersIn(s.runs)
  {
  }

  lemma ShutdownKeeps(maxQueue: nat, s: State)
    requires SlotOk(s) && TableOk(s) && s.waiting == |WaitersIn(s.runs)|
    ensures var t := Apply(maxQueue, s, Shutdown); SlotOk(t) && TableOk(t) && t.waiting == |WaitersIn(t.runs)|
  {
    var t := Apply(maxQueue, s, Shutdown);
    SlotWoken(s, t);
    TableWoken(s, t);
    WaitersWoken(s, t);
  }

  lemma StepPreserves(maxQueue: nat, s: State, step: Step)
    requires Enabled(s, step) && Inv(s)
    ensures Inv(Apply(maxQueue, s, step))
  {
    RunsStep(maxQueue, s, step);
    match Target(s, step) {
      case Some(k) =>
        StepIsBalanced(maxQueue, s, step);
        SlotAfter(s, Apply(maxQueue, s, step), k);
        TableAfter(s, Apply(maxQueue, s, step), k);
        WaitersAfter(s.runs, Apply(maxQueue, s, step).runs, k);
      case None =>
        if step.Arrive? {
          ArrivalKeeps(maxQueue, s, step);
        } else if step.Shutdown? {
          ShutdownKeeps(maxQueue, s);
        }
    }
  }

  lemma {:induction false} Always(maxQueue: nat, states: seq<State>, steps: seq<Step>, n: nat)
    requires IsTrace(maxQueue, states, steps) && n < |states|
    ensures Inv(states[n])
  {
    if n == 0 {
      assert WaitersIn(INITIAL.runs) == {};
    } else {
      Always(maxQueue, states, steps, n - 1);
      StepPreserves(maxQueue, states[n - 1], steps[n - 1]);
      assert states[n - 1 + 1] == Apply(maxQueue, states[n - 1], steps[n - 1]);
    }
  }

  // ------------------------------------------------------------- main results

  /** The slot is free or held by exactly one run, and the queue counter is the
      number of handlers still waiting: every exit gives back what it acquired. */
  lemma SlotConserved(maxQueue: nat, states: seq<State>, steps: seq<Step>, n: nat)
    requires IsTrace(maxQueue, states, steps) && n < |states|
    ensures states[n].free + |set k: nat | k < |states[n].runs| && Holds(states[n].runs[k])| == 1
    ensures states[n].waiting == |WaitersIn(states[n].runs)|
  {
    Always(maxQueue, states, steps, n);
    var s := states[n];
    var holders := set k: nat | k < |s.runs| && Holds(s.runs[k]);
    if s.free == 0 {
      var k :| Known(s, k) && Holds(s.runs[k]);
      assert holders == {k};
    } else {
      assert forall k :: Known(s, k) ==> !Holds(s.runs[k]);
      assert holders == {};
    }
  }

  predicate Serving(steps: seq<Step>) {
    Shutdown !in steps
  }

  predicate Slotted(r: ActiveRun) {
    && (r.started && !r.phase.Gone? ==> r.acquired)
    && (r.startCancelled ==> r.cancelBeforeStart)
  }

  lemma SlottedStep(maxQueue: nat, s: State, step: Step)
    requires Enabled(s, step) && Inv(s) && step != Shutdown
    requires forall k :: Known(s, k) ==>
      Slotted(s.runs[k]) && (s.runs[k].phase.AtWithdraw? ==> s.runs[k].cancelBeforeStart)
    ensures var t := Apply(maxQueue, s, step);
      forall k :: Known(t, k) ==> Slotted(t.runs[k]) && (t.runs[k].phase.AtWithdraw? ==> t.runs[k].cancelBeforeStart)
  {
  }

  lemma {:induction false} AlwaysSlotted(maxQueue: nat, states: seq<State>, steps: seq<Step>, n: nat)
    requires IsTrace(maxQueue, states, steps) && Serving(steps) && n < |states|
    ensures forall k :: Known(states[n], k) ==>
      Slotted(states[n].runs[k]) && (states[n].runs[k].phase.AtWithdraw? ==> states[n].runs[k].cancelBeforeStart)
  {
    if n > 0 {
      AlwaysSlotted(maxQueue, states, steps, n - 1);
      Always(maxQueue, states, steps, n - 1);
      assert steps[n - 1] in steps;
      SlottedStep(maxQueue, states[n - 1], steps[n - 1]);
      assert states[n - 1 + 1] == Apply(maxQueue, states[n - 1], steps[n - 1]);
    }
  }

  /** While the Runner serves, a started run holds the slot until its handler
      exits, so two started runs never overlap. */
  lemma AtMostOneStarted(maxQueue: nat, states: seq<State>, steps: seq<Step>, n: nat, i: nat, j: nat)
    requires IsTrace(maxQueue, states, steps) && Serving(steps) && n < |states|
    requires Known(states[n], i) && Known(states[n], j)
    requires states[n].runs[i].started && !Finished(states[n].runs[i])
    ensures Holds(states[n].runs[i]) && states[n].free == 0
    ensures states[n].runs[j].started && !Finished(states[n].runs[j]) ==> i == j
  {
    Always(maxQueue, states, steps, n);
    AlwaysSlotted(maxQueue, states, steps, n);
  }

  // A run that is driving, one that waits behind it, and the four steps of a
  // shutdown that lets the second one through.
  function Driving(): ActiveRun {
    ActiveRun(7, false, AtDrive, true, false, true, false, false, 0, false, true)
  }

  function Behind(): ActiveRun {
    ActiveRun(8, false, AtWait(false), false, true, false, false, false, 0, false, false)
  }

  function Busy(): State {
    State([Driving(), Behind()], map[7 := 0, 8 := 1], 1, 0)
  }

  lemma BusyIsReachable(maxQueue: nat)
    requires maxQueue >= 1
    ensures Enabled(INITIAL, Arrive(7, Unbound, false))
    ensures var s1 := Apply(maxQueue, INITIAL, Arrive(7, Unbound, false));
      Enabled(s1, Grant(0)) && var s2 := Apply(maxQueue, s1, Grant(0));
      Enabled(s2, Wake(0, true)) && var s3 := Apply(maxQueue, s2, Wake(0, true));
      Enabled(s3, Execute(0)) && var s4 := Apply(maxQueue, s3, Execute(0));
      Apply(maxQueue, s4, Arrive(8, Unbound, false)) == Busy()
  {
  }

  /** Shutdown wakes queued runs without the cancel mark, and a run woken so goes
      on to the driver with no slot: two runs then execute at once. */
  lemma ShutdownStartsWithoutTheSlot(maxQueue: nat)
    ensures var s1 := Apply(maxQueue, Busy(), Shutdown);
      Enabled(s1, Wake(1, true)) && var s2 := Apply(maxQueue, s1, Wake(1, true));
      Enabled(s2, Withdrawn(1, false, true)) && var s3 := Apply(maxQueue, s2, Withdrawn(1, false, true));
      Enabled(s3, Execute(1)) && var s4 := Apply(maxQueue, s3, Execute(1));
      && s4.runs[0].executed && !Finished(s4.runs[0])
      && s4.runs[1].executed && !Finished(s4.runs[1]) && !s4.runs[1].acquired
  {
    var s1 := Apply(maxQueue, Busy(), Shutdown);
    assert s1.runs == [Driving().(startCancelled := true), Behind().(startCancelled := true)];
  }

  lemma MarkStep(maxQueue: nat, s: State, step: Step, k: nat)
    requires Enabled(s, step) && Known(s, k) && s.runs[k].cancelBeforeStart
    ensures var t := Apply(maxQueue, s, step);
      Known(t, k) && t.runs[k].cancelBeforeStart && t.runs[k].id == s.runs[k].id
  {
  }

  lemma {:induction false} MarkIsKept(maxQueue: nat, states: seq<State>, steps: seq<Step>, n: nat, m: nat, k: nat)
    requires IsTrace(maxQueue, states, steps) && n <= m < |states|
    requires Known(states[n], k) && states[n].runs[k].cancelBeforeStart
    ensures Known(states[m], k) && states[m].runs[k].cancelBeforeStart && states[m].runs[k].id == states[n].runs[k].id
  {
    if n < m {
      MarkIsKept(maxQueue, states, steps, n, m - 1, k);
      MarkStep(maxQueue, states[m - 1], steps[m - 1], k);
      assert states[m - 1 + 1] == Apply(maxQueue, states[m - 1], steps[m - 1]);
    }
  }

  /** A cancel that found the run queued wins every race with slot acquisition,
      confirmed or timed out: the driver is not called for it then or later. */
  lemma QueuedCancelNeverExecutes(maxQueue: nat, states: seq<State>, steps: seq<Step>, n: nat, m: nat, id: nat)
    requires IsTrace(maxQueue, states, steps) && n < |steps| && n < m < |states|
    requires steps[n] == Cancel(id) && CancelsQueued(states[n], id)
    ensures var k := states[n].active[id];
      Known(states[m], k) && !states[m].runs[k].executed && !states[m].runs[k].started
  {
    var k := states[n].active[id];
    assert states[n + 1] == Apply(maxQueue, states[n], steps[n]);
    MarkIsKept(maxQueue, states, steps, n + 1, m, k);
    Always(maxQueue, states, steps, m);
  }

  /** A confirmed answer is true for good; and every answer that comes before the
      cancel deadline confirms. */
  lemma ConfirmedMeansNeverExecuted(maxQueue: nat, states: seq<State>, steps: seq<Step>, n: nat, m: nat, k: nat)
    requires IsTrace(maxQueue, states, steps) && n <= m < |states| && Known(states[n], k) && states[n].runs[k].confirmed
    ensures Known(states[m], k) && !states[m].runs[k].executed && Finished(states[n].runs[k])
  {
    Always(maxQueue, states, steps, n);
    MarkIsKept(maxQueue, states, steps, n, m, k);
    Always(maxQueue, states, steps, m);
  }

  lemma TimelyReplyConfirms(maxQueue: nat, states: seq<State>, steps: seq<Step>, n: nat, k: nat)
    requires IsTrace(maxQueue, states, steps) && n < |steps| && steps[n] == CancelReplies(k, true)
    ensures states[n + 1].runs[k].confirmed
  {
    Always(maxQueue, states, steps, n);
    assert states[n + 1] == Apply(maxQueue, states[n], steps[n]);
  }

  // --------------------------------------------------------- the queue's bound

  // An arrival that finds the queue at its limit but the semaphore not locked.
  predicate Overfills(maxQueue: nat, s: State, step: Step) {
    step.Arrive? && !Locked(s, step.contended) && s.waiting >= maxQueue
    && (step.binding.Bound? || step.binding.Unbound?) && step.id !in s.active
  }

  lemma {:induction false} BoundedUntil(maxQueue: nat, states: seq<State>, steps: seq<Step>, n: nat)
    requires IsTrace(maxQueue, states, steps) && n < |states|
    requires forall k :: 0 <= k < |steps| ==> !Overfills(maxQueue, states[k], steps[k])
    ensures states[n].waiting <= maxQueue
  {
    if n > 0 {
      BoundedUntil(maxQueue, states, steps, n - 1);
      assert !Overfills(maxQueue, states[n - 1], steps[n - 1]);
      assert states[n - 1 + 1] == Apply(maxQueue, states[n - 1], steps[n - 1]);
    }
  }

  /** The queue stays within its bound over a run exactly when no arrival meets
      a full queue while the slot is still unlocked. */
  lemma QueueBoundedIff(maxQueue: nat, states: seq<State>, steps: seq<Step>)
    requires IsTrace(maxQueue, states, steps)
    ensures (forall n :: 0 <= n < |states| ==> states[n].waiting <= maxQueue)
       <==> (forall k :: 0 <= k < |steps| ==> !Overfills(maxQueue, states[k], steps[k]))
  {
    if forall k :: 0 <= k < |steps| ==> !Overfills(maxQueue, states[k], steps[k]) {
      forall n | 0 <= n < |states| ensures states[n].waiting <= maxQueue {
        BoundedUntil(maxQueue, states, steps, n);
      }
    } else {
      var k :| 0 <= k < |steps| && Overfills(maxQueue, states[k], steps[k]);
      assert states[k + 1] == Apply(maxQueue, states[k], steps[k]);
      assert states[k + 1].waiting > maxQueue;
    }
  }

  function Arrived(id: nat): ActiveRun {
    ActiveRun(id, false, AtWait(false), false, true, false, false, false, 0, false, false)
  }

  // After n arrivals, none granted yet.
  function BurstState(n: nat): (s: State)
    ensures |s.runs| == n == s.waiting && s.free == 1 && forall id :: id in s.active ==> id < n
  {
    if n == 0 then INITIAL
    else
      var s := BurstState(n - 1);
      State(s.runs + [Arrived(n - 1)], s.active[n - 1 := n - 1], s.waiting + 1, 1)
  }

  lemma BurstStep(maxQueue: nat, n: nat)
    ensures Apply(maxQueue, BurstState(n), Arrive(n, Unbound, false)) == BurstState(n + 1)
  {
  }

  /** And an arrival may: runs that arrive before the first acquire task has run all
      find the slot unlocked, so any number of them is queued. */
  lemma BurstExceedsTheBound(maxQueue: nat, n: nat) returns (states: seq<State>, steps: seq<Step>)
    ensures IsTrace(maxQueue, states, steps) && |steps| == n && states[n].waiting == n
    ensures n > maxQueue ==> Overfills(maxQueue, states[maxQueue], steps[maxQueue])
  {
    states := seq(n + 1, k requires 0 <= k => BurstState(k));
    steps := seq(n, k requires 0 <= k => Arrive(k, Unbound, false));
    forall k | 0 <= k < n ensures Apply(maxQueue, states[k], steps[k]) == states[k + 1] {
      BurstStep(maxQueue, k);
    }
  }
}

/** The Runner's object: each method is the code between two suspension points. */
module RunnerServers {
  import opened Common
  import opened RunnerSlot

  class RunnerServer {
    const maxQueue: nat
    var runs: seq<ActiveRun>
    var active: map<nat, nat>
    var queueWaiting: int
    var slotFree: nat

    ghost function View(): State
      reads this
    {
      State(runs, active, queueWaiting, slotFree)
    }

    constructor (maxQueue: nat)
      ensures View() == INITIAL && this.maxQueue == maxQueue
    {
      this.maxQueue := maxQueue;
      runs, active, queueWaiting, slotFree := [], map[], 0, 1;
    }

    method HandleRun(id: nat, binding: Binding, contended: bool) returns (verdict: Verdict)
      requires Enabled(View(), Arrive(id, binding, contended))
      modifies this
      ensures View() == Apply(maxQueue, old(View()), Arrive(id, binding, contended))
      ensures verdict.InvalidParams? <==> binding.Malformed?
      ensures verdict.BindingDenied? <==> binding.Denied?
      ensures verdict.RunAlreadyActive? <==> (binding.Bound? || binding.Unbound?) && id in old(active)
      ensures var free := (binding.Bound? || binding.Unbound?) && id !in old(active);
        var crowded := (old(slotFree) == 0 || contended) && old(queueWaiting) >= maxQueue;
        (verdict.QueueFull? <==> free && crowded) && (verdict.Admitted? <==> free && !crowded)
      ensures verdict.Admitted? ==>
        && runs == old(runs) + [ActiveRun(id, binding.Bound?, AtWait(false), false, true, false, false, false, 0,
                                          false, false)]
        && active == old(active)[id := |old(runs)|] && queueWaiting == old(queueWaiting) + 1
        && slotFree == old(slotFree)
      ensures !verdict.Admitted? ==> View() == old(View())
    {
      if binding.Malformed? { return InvalidParams; }
      if binding.Denied? { return BindingDenied; }
      if id in active { return RunAlreadyActive; }
      if (slotFree == 0 || contended) && queueWaiting >= maxQueue { return QueueFull; }
      var run := ActiveRun(id, binding.Bound?, AtWait(false), false, true, false, false, false, 0, false, false);
      active := active[id := |runs|];
      runs := runs + [run];
      queueWaiting := queueWaiting + 1;
      return Admitted;
    }

    // The wait ended: the acquire task is done, or the run was told to stop waiting.
    method WaitEnds(k: nat, claimFree: bool)
      requires Enabled(View(), Wake(k, claimFree))
      modifies this
      ensures View() == Apply(maxQueue, old(View()), Wake(k, claimFree))
      ensures queueWaiting == old(queueWaiting) - 1 && slotFree == old(slotFree) && active == old(active)
      ensures var r := old(runs[k]);
        if r.phase.granted then WentOn(r, runs[k], true, claimFree) else runs[k] == r.(phase := AtWithdraw)
    {
      queueWaiting := queueWaiting - 1;
      if runs[k].phase.granted {
        GoOn(k, true, claimFree);
      } else {
        runs := runs[k := runs[k].(phase := AtWithdraw)];
      }
    }

    method AcquireCancelled(k: nat, got: bool, claimFree: bool)
      requires Enabled(View(), Withdrawn(k, got, claimFree))
      modifies this
      ensures View() == Apply(maxQueue, old(View()), Withdrawn(k, got, claimFree))
      ensures WentOn(old(runs[k]), runs[k], got, claimFree)
      ensures slotFree == (if got then old(slotFree) - 1 else old(slotFree)) && active == old(active)
    {
      if got { slotFree := slotFree - 1; }
      GoOn(k, got, claimFree);
    }

    // Past its wait a run is started, unless a cancel came first: then only its
    // answer is left, and a bound run without its workspace is denied.
    static predicate WentOn(r: ActiveRun, q: ActiveRun, acquired: bool, claimFree: bool) {
      && q == r.(acquired := acquired, phase := q.phase, queued := q.queued, started := q.started)
      && (q.phase.AtReply? <==> r.cancelBeforeStart)
      && (q.phase.AtDeny? <==> !r.cancelBeforeStart && r.bound && !claimFree)
      && (q.phase.AtDrive? <==> !r.cancelBeforeStart && (!r.bound || claimFree))
      && q.started == (!r.cancelBeforeStart || r.started) && q.queued == (r.cancelBeforeStart && r.queued)
    }

    method GoOn(k: nat, acquired: bool, claimFree: bool)
      requires k < |runs|
      modifies this`runs
      ensures runs == old(runs)[k := Start(old(runs[k]), acquired, claimFree)]
      ensures WentOn(old(runs[k]), runs[k], acquired, claimFree)
    {
      var r := runs[k].(acquired := acquired);
      if r.cancelBeforeStart {
        r := r.(phase := AtReply);
      } else {
        r := r.(queued := false, started := true);
        if r.bound && !claimFree {
          r := r.(phase := AtDeny);
        } else {
          r := r.(phase := AtDrive);
        }
      }
      runs := runs[k := r];
    }

    // The handler's finally block.
    method HandlerExits(k: nat)
      requires Enabled(View(), Exit(k))
      modifies this
      ensures View() == Apply(maxQueue, old(View()), Exit(k))
      ensures runs[k] == old(runs[k]).(phase := Gone) && active == old(active) - {old(runs[k]).id}
      ensures slotFree == old(slotFree) + (if old(runs[k]).acquired then 1 else 0)
    {
      active := active - {runs[k].id};
      if runs[k].acquired { slotFree := slotFree + 1; }
      runs := runs[k := runs[k].(phase := Gone)];
    }

    method HandleCancel(id: nat) returns (queued: bool)
      requires TableOk(View())
      modifies this
      ensures View() == Apply(maxQueue, old(View()), Cancel(id))
      ensures queued <==>
        id in old(active) && var r := old(runs)[old(active)[id]]; r.queued && !r.started
      ensures queued ==> var k := old(active)[id];
        var r := old(runs)[k];
        runs == old(runs)[k := r.(cancelBeforeStart := true, startCancelled := true, cancelWaits := r.cancelWaits + 1)]
      ensures !queued ==> View() == old(View())
    {
      if id !in active { return false; }
      var k := active[id];
      assert Known(View(), k);
      if !runs[k].queued || runs[k].started { return false; }
      runs := runs[k := runs[k].(cancelBeforeStart := true, startCancelled := true,
          cancelWaits := runs[k].cancelWaits + 1)];
      queued := true;
    }

    // The reply to a queued cancel, once the run has finished or the deadline passed.
    method QueuedCancelReplies(k: nat, timely: bool) returns (confirmed: bool)
      requires Enabled(View(), CancelReplies(k, timely))
      modifies this
      ensures View() == Apply(maxQueue, old(View()), CancelReplies(k, timely))
      ensures Inv(old(View())) ==> (confirmed <==> timely)
    {
      confirmed := false;
      if timely { confirmed := !runs[k].started; }
      var r := runs[k];
      runs := runs[k := r.(cancelWaits := r.cancelWaits - 1, confirmed := r.confirmed || confirmed)];
    }
  }
}
