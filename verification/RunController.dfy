/**
 The controller as the source writes it: an object that updates its attempt rows,
 tasks and quarantine rows in place, one method per section between two
 suspension points. Every method is proved to do exactly what the corresponding
 step of the Lifecycle module does, so LifecycleProofs speaks about this object.
 */
module RunControllers {
  import opened Common
  import opened Lifecycle
  import opened SubmitVerdicts

  class RunController {
    var runs: seq<Run>
    var tasks: map<Key, nat>
    var quarantine: map<nat, nat>
    var epoch: nat

    ghost function View(): Sys
      reads this
    {
      Sys(runs, tasks, quarantine, epoch)
    }

    constructor ()
      ensures View() == INITIAL
    {
      runs, tasks, quarantine, epoch := [], map[], map[], 0;
    }

    // ------------------------------------------------------------ store writes

    method SetAttempt(r: nat, status: Option<Status>, outcome: Option<Outcome>, started: bool)
      requires r < |runs|
      modifies this`runs
      ensures var x := old(runs[r]);
        runs == old(runs)[r := x.(
          status := if status.Some? then status.value else x.status,
          outcome := if outcome.Some? then outcome else x.outcome,
          started := x.started || started)]
    {
      var x := runs[r];
      if status.Some? { x := x.(status := status.value); }
      if outcome.Some? { x := x.(outcome := outcome); }
      if started { x := x.(started := true); }
      runs := runs[r := x];
    }

    method QuarantineInstance(r: nat)
      requires r < |runs|
      modifies this`quarantine
      ensures View() == Quarantine(old(View()), r)
      ensures quarantine == old(quarantine)[runs[r].inst := r]
    {
      quarantine := quarantine[runs[r].inst := r];
    }

    method FinishRun(r: nat, status: Status, outcome: Outcome)
      requires r < |runs|
      modifies this`runs, this`quarantine
      ensures View() == Finish(old(View()), r, status, outcome)
      ensures runs == old(runs)[r := old(runs[r]).(status := status, outcome := Some(outcome))]
      ensures var i := old(runs[r]).inst;
        quarantine == if (status.Completed? || status.Failed? || status.Cancelled?) && i in old(quarantine)
                         && old(quarantine)[i] == r
          then old(quarantine) - {i} else old(quarantine)
    {
      SetAttempt(r, Some(status), Some(outcome), false);
      if Validated(status) {
        var i := runs[r].inst;
        if i in quarantine && quarantine[i] == r {
          quarantine := quarantine - {i};
        }
      }
    }

    method EndRunTask(r: nat)
      requires r < |runs|
      modifies this`runs
      ensures View() == EndTask(old(View()), r)
    {
      runs := runs[r := runs[r].(phase := NoTask)];
    }

    method LeaveUnresolved(r: nat)
      requires r < |runs|
      modifies this`runs, this`quarantine
      ensures View() == Unresolved(old(View()), r)
      ensures runs == old(runs)[r := old(runs[r]).(status := Unknown, outcome := Some(OUnknown))]
      ensures quarantine == old(quarantine)[old(runs[r]).inst := r]
    {
      FinishRun(r, Unknown, OUnknown);
      QuarantineInstance(r);
    }

    // ------------------------------------------------------------------ submit

    method SubmitRun(key: Key, hash: nat, preset: nat, inst: nat, available: bool, full: bool)
      returns (v: Verdict)
      modifies this`runs, this`tasks
      ensures (View(), v) == Submit(old(View()), key, hash, preset, inst, available, full)
      ensures Answers(old(View()), key, hash, preset, inst, available, full, Latest(old(runs), key), v)
      ensures if v.Fresh? then Adds(old(View()), View(), key, hash, preset, inst) else View() == old(View())
    {
      SubmitAnswers(View(), key, hash, preset, inst, available, full);
      var existing := Latest(runs, key);
      if existing.Some? {
        var last := runs[existing.value];
        if key in tasks && tasks[key] != hash { return ContentConflict; }
        if Active(last.status) { return RunActive; }
        if last.status.Unknown? { return UnknownAttempt; }
        if last.status.Completed? {
          if last.preset != preset { return ModelConflict; }
          return Cached(existing.value);
        }
        if !last.Proven() { return NotRetryable; }
      }
      if !available { return Unavailable; }
      if inst in quarantine { return RunnerQuarantined; }
      if full { return QueueFull; }
      v := ReserveAttempt(key, hash, preset, inst);
      // The cached-replay fallback after a NotRetryable verdict wants a completed
      // newest attempt; with no suspension point since the check above, the
      // newest attempt cannot have completed in between.
      assert Latest(runs, key).Some? ==> !runs[Latest(runs, key).value].status.Completed?;
    }

    /** The reservation transaction: check everything, then insert, or change
        nothing. */
    method ReserveAttempt(key: Key, hash: nat, preset: nat, inst: nat) returns (v: Verdict)
      modifies this`runs, this`tasks
      ensures var check := ReserveCheck(old(View()), key, hash);
        if check.Admitted?
        then v == Fresh(|old(runs)|) && View() == Reserve(old(View()), key, hash, preset, inst)
        else v == check && View() == old(View())
    {
      if key in tasks && tasks[key] != hash { return ContentConflict; }
      var locked := SomeLocked(runs, key);
      if locked { return RunActive; }
      var blocker := SomeBlocker(runs, key);
      if blocker { return NotRetryable; }
      if key !in tasks { tasks := tasks[key := hash]; }
      v := Fresh(|runs|);
      runs := runs + [NewRun(key, hash, preset, inst)];
    }

    // ---------------------------------------------------------- the run's task

    method WakeRun(r: nat, w: Wakeup)
      requires CanWake(View(), r, w)
      modifies this`runs, this`quarantine
      ensures View() == Wake(old(View()), r, w)
      ensures Woken(old(runs[r]), runs[r], w, old(runs[r]).inst in old(quarantine))
    {
      match w {
        case TimedOut => LeaveQueue(r, Failed, QueueTimeout);
        case AcquireFailed => LeaveQueue(r, Failed, Rejected);
        case CancelSeen => LeaveQueue(r, Cancelled, OCancelled);
        case Acquired =>
          if runs[r].inst in quarantine {
            LeaveQueue(r, Failed, Rejected);
          } else {
            MarkRun(r);
          }
      }
    }

    // The run's task ends before any dispatch.
    method LeaveQueue(r: nat, status: Status, outcome: Outcome)
      requires r < |runs|
      modifies this`runs, this`quarantine
      ensures View() == EndTask(Finish(old(View()), r, status, outcome), r)
      ensures runs == old(runs)[r := old(runs[r]).(status := status, outcome := Some(outcome), phase := NoTask)]
    {
      FinishRun(r, status, outcome);
      EndRunTask(r);
    }

    // The durable dispatch marker, written before the run RPC.
    method MarkRun(r: nat)
      requires r < |runs|
      modifies this`runs
      ensures View() == MarkStarting(old(View()), r)
      ensures var x, y := old(runs[r]), runs[r];
        y == x.(phase := Marked, started := true, status := y.status)
        && y.status == (if x.status.Queued? || x.status.Reserved? then Starting else x.status)
    {
      var s := runs[r].status;
      if s.Queued? || s.Reserved? || s.Starting? {
        SetAttempt(r, Some(Starting), None, true);
      } else {
        SetAttempt(r, None, None, true);
      }
      runs := runs[r := runs[r].(phase := Marked)];
    }

    // How a queued run's wait ends for its row.
    static predicate Woken(x: Run, y: Run, w: Wakeup, quarantined: bool) {
      if w.Acquired? && !quarantined then
        && y == x.(phase := Marked, started := true, status := y.status)
        && y.status == (if x.status.Queued? || x.status.Reserved? then Starting else x.status)
      else
        && y == x.(phase := NoTask, status := y.status, outcome := y.outcome) && y.outcome.Some?
        && (y.status.Cancelled? <==> w.CancelSeen?) && (y.status.Failed? <==> !w.CancelSeen?)
        && (y.outcome.value.OCancelled? <==> w.CancelSeen?)
        && (y.outcome.value.QueueTimeout? <==> w.TimedOut?)
        && (y.outcome.value.Rejected? <==> w.Acquired? || w.AcquireFailed?)
    }

    method FirstEvent(r: nat)
      requires CanReadFirstEvent(View(), r)
      modifies this`runs
      ensures View() == ReadFirstEvent(old(View()), r)
      ensures var x, y := old(runs[r]), runs[r];
        y == x.(phase := Streaming(true), status := y.status)
        && y.status == (if x.status.Starting? then Running else x.status)
    {
      if runs[r].status.Starting? || runs[r].status.Running? {
        SetAttempt(r, Some(Running), None, false);
      }
      runs := runs[r := runs[r].(phase := Streaming(true))];
    }

    method StreamReply(r: nat)
      requires CanReadReply(View(), r)
      modifies this`runs, this`quarantine
      ensures View() == ReadReply(old(View()), r)
      ensures ReplyTaken(old(runs[r]), runs[r])
      ensures runs[r].status.Unknown? ==> quarantine == old(quarantine)[old(runs[r]).inst := r]
    {
      match runs[r].rpc.reply {
        case Answer(status, outcome) => TakeAnswer(r, status, outcome);
        case Error(code) => TakeError(r, code);
      }
    }

    // What a reply makes of its run's row.
    static predicate ReplyTaken(x: Run, y: Run)
      requires x.rpc.Replied? && x.phase.Streaming?
    {
      match x.rpc.reply
      case Answer(status, outcome) =>
        y == x.(status := status, outcome := Some(if status.Unknown? then OUnknown else outcome), phase := Closing)
      case Error(code) =>
        && y == x.(status := y.status, outcome := y.outcome, phase := NoTask)
        && (y.status == Failed && y.outcome == Some(Rejected) <==> !x.phase.sawEvent && !code.InternalError?)
        && (y.status == Unknown && y.outcome == Some(OUnknown) <==> x.phase.sawEvent || code.InternalError?)
    }

    method TakeAnswer(r: nat, status: Status, outcome: Outcome)
      requires CanReadReply(View(), r) && runs[r].rpc == Replied(Answer(status, outcome))
      modifies this`runs, this`quarantine
      ensures View() == ReadReply(old(View()), r)
      ensures ReplyTaken(old(runs[r]), runs[r])
      ensures status.Unknown? ==> quarantine == old(quarantine)[old(runs[r]).inst := r]
    {
      if status.Unknown? {
        LeaveUnresolved(r);
      } else {
        FinishRun(r, status, outcome);
      }
      runs := runs[r := runs[r].(phase := Closing)];
    }

    method TakeError(r: nat, code: Code)
      requires CanReadReply(View(), r) && runs[r].rpc == Replied(Error(code))
      modifies this`runs, this`quarantine
      ensures View() == ReadReply(old(View()), r)
      ensures ReplyTaken(old(runs[r]), runs[r])
      ensures runs[r].status.Unknown? ==> quarantine == old(quarantine)[old(runs[r]).inst := r]
    {
      if !runs[r].phase.sawEvent && NoEffectCode(code) {
        FinishRun(r, Failed, Rejected);
      } else {
        LeaveUnresolved(r);
      }
      EndRunTask(r);
    }

    /** Every other way a run's task can end: stream failure, session close that
        raises, outside cancellation. */
    method TaskFails(r: nat)
      requires CanCancelTask(View(), r)
      modifies this`runs, this`quarantine
      ensures View() == CancelTask(old(View()), r)
      ensures runs[r] == old(runs[r]).(status := Unknown, outcome := Some(OUnknown), phase := NoTask)
      ensures quarantine == old(quarantine)[old(runs[r]).inst := r]
    {
      LeaveUnresolved(r);
      EndRunTask(r);
    }

    // ------------------------------------------------------------ cancel calls

    // What a cancel call writes before its bounded waits.
    static predicate Asked(x: Run, y: Run) {
      var early := x.status.Queued? || x.status.Reserved?;
      var dispatched := x.status.Starting? || x.status.Running? || x.status.Cancelling?;
      y == if dispatched then x.(status := Cancelling, cancelAsked := true)
           else if early && x.phase.Waiting? then x.(phase := Waiting(true))
           else if early && x.phase.NoTask? then x.(status := Cancelled, outcome := Some(OCancelled))
           else x
    }

    method CancelRun(r: nat)
      requires r < |runs|
      modifies this`runs, this`quarantine
      ensures View() == CancelCall(old(View()), r)
      ensures Asked(old(runs[r]), runs[r])
      ensures Validated(old(runs[r].status)) ==> View() == old(View())
    {
      var x := runs[r];
      if x.status.Queued? || x.status.Reserved? {
        if x.phase.NoTask? {
          FinishRun(r, Cancelled, OCancelled);
        } else if x.phase.Waiting? {
          runs := runs[r := x.(phase := Waiting(true))];
        }
      } else if x.status.Starting? || x.status.Running? || x.status.Cancelling? {
        SetAttempt(r, Some(Cancelling), None, false);
        runs := runs[r := runs[r].(cancelAsked := true)];
      }
    }

    method CancelRunReturns(r: nat)
      requires CanCancelReturn(View(), r)
      modifies this`runs, this`quarantine
      ensures View() == CancelReturn(old(View()), r)
      ensures var x := old(runs[r]);
        if x.status.Completed? || x.status.Failed? || x.status.Cancelled? || x.status.Unknown?
        then View() == old(View())
        else runs[r] == x.(status := Unknown, outcome := Some(OUnknown)) && quarantine == old(quarantine)[x.inst := r]
      ensures Validated(old(runs[r].status)) ==> View() == old(View())
    {
      if !Terminal(runs[r].status) {
        LeaveUnresolved(r);
      }
    }

    // ------------------------------------------------------------------ restart

    /** A new process over the same rows: formerly active attempts become unknown,
        none is queued again. */
    method ReconcileRestart()
      modifies this`runs, this`epoch
      ensures View() == Restart(old(View()))
      ensures |runs| == |old(runs)| == epoch
      ensures forall i :: 0 <= i < |runs| ==>
        var x := old(runs)[i];
        var over := x.status.Completed? || x.status.Failed? || x.status.Cancelled? || x.status.Unknown?;
        runs[i] == x.(phase := NoTask, cancelAsked := false, status := if over then x.status else Unknown,
                      outcome := if over then x.outcome else Some(OUnknown))
    {
      ghost var before := runs;
      var i := 0;
      while i < |runs|
        invariant 0 <= i <= |runs| == |before|
        invariant forall k :: 0 <= k < i ==> runs[k] == RestartRun(before[k])
        invariant forall k :: i <= k < |runs| ==> runs[k] == before[k]
      {
        runs := runs[i := RestartRun(runs[i])];
        i := i + 1;
      }
      epoch := |runs|;
      assert runs == Restart(old(View())).runs;
    }
  }
}
