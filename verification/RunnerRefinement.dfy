/**
 The Runner's slot protocol refines what the run lifecycle assumes of the Runner:
 seen from one run's RPC, every step of the server is one of its moves, or none.
 */
module RunnerRefinement {
  import opened Common
  import Lifecycle
  import RunnerSlot

  // What the lifecycle sees of an unfinished record.
  function RpcOf(r: RunnerSlot.ActiveRun): Lifecycle.Rpc {
    if r.executed then Lifecycle.Driving else Lifecycle.AtRunner(r.cancelBeforeStart)
  }

  // The move that an arrival's verdict is.
  function ArrivalMove(v: RunnerSlot.Verdict): Lifecycle.RunnerMove {
    match v
    case InvalidParams => Lifecycle.Reject(Lifecycle.InvalidParams)
    case BindingDenied => Lifecycle.Deny
    case RunAlreadyActive => Lifecycle.Reject(Lifecycle.RunAlreadyActive)
    case QueueFull => Lifecycle.Reject(Lifecycle.RunnerQueueFull)
    case Admitted => Lifecycle.Accept
  }

  /** An arriving run is denied, rejected with a code proven to have no effect, or
      accepted; only then does it have a record, which starts as accepted. */
  lemma ArrivalIsAMove(maxQueue: nat, s: RunnerSlot.State, id: nat, b: RunnerSlot.Binding, contended: bool,
                       x: Lifecycle.Run)
    requires RunnerSlot.Enabled(s, RunnerSlot.Arrive(id, b, contended)) && x.rpc.InFlight?
    ensures var m := ArrivalMove(RunnerSlot.Admit(maxQueue, s, id, b, contended));
      var t := RunnerSlot.Apply(maxQueue, s, RunnerSlot.Arrive(id, b, contended));
      && Lifecycle.CanMove(x, m)
      && (m.Accept? <==> |t.runs| == |s.runs| + 1)
      && (m.Accept? ==> Lifecycle.Move(x, m).rpc == RpcOf(t.runs[|s.runs|]))
      && (!m.Accept? ==> t == s && Lifecycle.Move(x, m).executed == x.executed)
  {
  }

  /** The moves a finishing handler may stand for. */
  predicate Ends(x: Lifecycle.Run, phase: RunnerSlot.Phase, executed: bool, m: Lifecycle.RunnerMove) {
    match phase
    case AtReply => m.AnswerCancelled?
    case AtDeny => m.Deny?
    case AtDrive => if executed then m.GiveUp? || m.Conclude? || m.Crash? || m.Lose? else m.Crash? || m.Lose?
    case _ => false
  }

  // A step rewrites the record of its own run only.
  lemma OtherRunsKeepTheirRecord(maxQueue: nat, s: RunnerSlot.State, step: RunnerSlot.Step, k: nat)
    requires RunnerSlot.Inv(s) && RunnerSlot.Enabled(s, step) && RunnerSlot.Known(s, k)
    requires RunnerSlot.Target(s, step) != Some(k) && step != RunnerSlot.Shutdown
    ensures var t := RunnerSlot.Apply(maxQueue, s, step); RunnerSlot.Known(t, k) && t.runs[k] == s.runs[k]
  {
    var target := RunnerSlot.Target(s, step);
    if target.Some? {
      assert RunnerSlot.RunOk(s.runs[target.value]);
      RunnerSlot.StepIsBalanced(maxQueue, s, step);
    }
  }

  // What a step does to its own run's record, short of ending it.
  lemma OwnStepIsAMove(maxQueue: nat, s: RunnerSlot.State, step: RunnerSlot.Step, k: nat, x: Lifecycle.Run)
    requires RunnerSlot.Enabled(s, step) && RunnerSlot.Target(s, step) == Some(k) && RunnerSlot.Known(s, k)
    requires RunnerSlot.RunOk(s.runs[k]) && !s.runs[k].phase.Gone? && x.rpc == RpcOf(s.runs[k])
    ensures var t := RunnerSlot.Apply(maxQueue, s, step);
      RunnerSlot.Known(t, k) && Visible(s.runs[k], t.runs[k], step, x)
    ensures RunnerSlot.Apply(maxQueue, s, step).runs[k].phase.Gone? ==> step == RunnerSlot.Exit(k)
  {
  }

  // An unfinished record changes its RPC by a move, if at all.
  predicate Visible(r: RunnerSlot.ActiveRun, q: RunnerSlot.ActiveRun, step: RunnerSlot.Step, x: Lifecycle.Run) {
    !q.phase.Gone? && RpcOf(q) != x.rpc ==>
      var m := if step.Execute? then Lifecycle.StartDriver else Lifecycle.CancelQueued;
      Lifecycle.CanMove(x, m) && Lifecycle.Move(x, m).rpc == RpcOf(q)
  }

  // The result a handler may conclude with.
  predicate Answerable(x: Lifecycle.Run, m: Lifecycle.RunnerMove) {
    m.Conclude? ==>
      && Lifecycle.Validated(m.status) && Lifecycle.ConsistentAnswer(m.status, m.outcome)
      && (x.events || m.status.Cancelled?)
  }

  lemma EndIsAMove(r: RunnerSlot.ActiveRun, x: Lifecycle.Run, m: Lifecycle.RunnerMove)
    requires RunnerSlot.RunOk(r) && x.rpc == RpcOf(r) && Ends(x, r.phase, r.executed, m) && Answerable(x, m)
    ensures Lifecycle.CanMove(x, m)
  {
  }

  /** The steps of other runs are invisible; a queued cancel and the driver's start
      are moves the lifecycle allows in the state it sees; and a finishing handler
      answers by a move it allows: cancelled only for a cancelled run, denied only
      for one never cancelled nor driven. */
  lemma StepIsAMove(maxQueue: nat, s: RunnerSlot.State, step: RunnerSlot.Step, k: nat, x: Lifecycle.Run)
    requires RunnerSlot.Inv(s) && RunnerSlot.Enabled(s, step)
    requires RunnerSlot.Known(s, k) && !s.runs[k].phase.Gone? && x.rpc == RpcOf(s.runs[k])
    ensures var t := RunnerSlot.Apply(maxQueue, s, step);
      && RunnerSlot.Known(t, k) && Visible(s.runs[k], t.runs[k], step, x)
      && (t.runs[k].phase.Gone? ==>
            && step == RunnerSlot.Exit(k)
            && forall m :: Ends(x, s.runs[k].phase, s.runs[k].executed, m) && Answerable(x, m) ==>
                  Lifecycle.CanMove(x, m))
  {
    assert RunnerSlot.RunOk(s.runs[k]);
    if RunnerSlot.Target(s, step) == Some(k) {
      OwnStepIsAMove(maxQueue, s, step, k, x);
    } else if step != RunnerSlot.Shutdown {
      OtherRunsKeepTheirRecord(maxQueue, s, step, k);
    }
    forall m | Ends(x, s.runs[k].phase, s.runs[k].executed, m) && Answerable(x, m) ensures Lifecycle.CanMove(x, m) {
      EndIsAMove(s.runs[k], x, m);
    }
  }
}
