/**
 Safety of the run lifecycle over every interleaving of submits, cancels, queue
 timeouts, Runner replies, lost connections, crashes and restarts.
 */
module LifecycleProofs {
  import opened Common
  import opened Lifecycle

  // ---------------------------------------------------------------- invariant

  /** What is true of one run at any time. */
  predicate RunOk(x: Run) {
    && (x.phase.Waiting? ==> x.status.Queued? && !x.started && x.rpc.Unsent? && !x.cancelAsked)
    && (x.phase.Marked? ==> x.rpc.Unsent? && x.started
                            && (x.status.Starting? || x.status.Cancelling? || x.status.Unknown?))
    && (x.phase.Streaming? ==> !x.rpc.Unsent? && x.started
                               && (x.status.Starting? || x.status.Running? || x.status.Cancelling?
                                   || x.status.Unknown?))
    && (x.phase.Streaming? && x.phase.sawEvent ==> x.events)
    && (x.phase.Closing? ==> x.started && x.rpc.Replied? && x.rpc.reply.Answer? && Terminal(x.status))
    && (x.phase.NoTask? ==> Terminal(x.status))
    && (!x.rpc.Unsent? ==> x.started)
    && (x.rpc.Unsent? || x.rpc.InFlight? || x.rpc.AtRunner? ==> !x.executed && !x.events)
    && (x.driverLive ==> x.executed)
    && (x.rpc.Driving? ==> x.executed)
    && (x.cancelAsked ==> x.started)
    && (x.rpc.Replied? ==> ReplyOk(x, x.rpc.reply))
    && (x.Proven() ==> NeverDriven(x))
    && (Validated(x.status) ==> x.rpc.Unsent? || (x.rpc.Replied? && Settles(x.rpc.reply, x.status)))
  }

  // The reply that a stored validated status came from.
  predicate Settles(reply: Reply, status: Status) {
    match reply
    case Answer(answered, _) => answered == status
    case Error(code) => NoEffectCode(code)
  }

  predicate ReplyOk(x: Run, reply: Reply) {
    match reply
    case Answer(status, outcome) => ConsistentAnswer(status, outcome)
    case Error(code) => NoEffectCode(code) ==> !x.executed && !x.events
  }

  // No driver was started and no step can start one.
  predicate NeverDriven(x: Run) {
    x.phase.NoTask? && !x.executed && (x.rpc.Unsent? || (x.rpc.Replied? && x.rpc.reply.Error?))
  }

  ghost predicate AllOk(s: Sys) {
    s.epoch <= |s.runs|
    && forall i :: 0 <= i < |s.runs| ==> RunOk(s.runs[i]) && (i < s.epoch ==> s.runs[i].phase.NoTask?)
  }

  /** Every attempt of a task but the newest is proven pre-execution. */
  ghost predicate OnlyNewestMatters(runs: seq<Run>) {
    forall i, j :: 0 <= i < j < |runs| && runs[i].key == runs[j].key ==> runs[i].Proven()
  }

  ghost predicate TasksOk(s: Sys) {
    (forall i :: 0 <= i < |s.runs| ==> s.runs[i].key in s.tasks && s.tasks[s.runs[i].key] == s.runs[i].hash)
    && (forall k :: k in s.tasks ==> exists i :: 0 <= i < |s.runs| && s.runs[i].key == k)
  }

  // Dispatched, outcome unknown so far.
  predicate Uncertain(x: Run) {
    x.started && x.status.Unknown?
  }

  // Dispatched and ended with its outcome unknown.
  predicate Abandoned(x: Run) {
    Uncertain(x) && x.phase.NoTask?
  }

  /** The quarantine of an instance protects every abandoned run dispatched to it
      by this process, and only a run still holding the permit can lift it. */
  ghost predicate QuarantineOk(s: Sys) {
    && (forall i, j :: s.epoch <= i < j < |s.runs| && s.runs[i].inst == s.runs[j].inst && s.runs[i].Holding()
                   ==> !s.runs[j].Holding())
    && (forall i, j :: s.epoch <= i < |s.runs| && s.epoch <= j < |s.runs| && Abandoned(s.runs[i])
                       && s.runs[i].inst == s.runs[j].inst
                   ==> !s.runs[j].Holding())
    && (forall i :: s.epoch <= i < |s.runs| && Uncertain(s.runs[i]) ==> s.runs[i].inst in s.quarantine)
    && (forall c :: c in s.quarantine ==>
          s.quarantine[c] < |s.runs| && s.runs[s.quarantine[c]].inst == c && !s.runs[s.quarantine[c]].phase.Waiting?)
  }

  ghost predicate Inv(s: Sys) {
    AllOk(s) && OnlyNewestMatters(s.runs) && TasksOk(s) && QuarantineOk(s)
  }

  // ------------------------------------------------------- one-run preservation

  /** Steps of one run only ever touch that run's record and its instance's
      quarantine row. */
  ghost predicate Touches(s: Sys, t: Sys, r: nat) {
    && r < |s.runs| && t.epoch == s.epoch && t.tasks == s.tasks
    && |t.runs| == |s.runs| && t.runs == s.runs[r := t.runs[r]]
    && t.runs[r].key == s.runs[r].key && t.runs[r].hash == s.runs[r].hash
    && t.runs[r].inst == s.runs[r].inst
    && (t.quarantine == s.quarantine
        || t.quarantine == s.quarantine[s.runs[r].inst := r]
        || (s.runs[r].inst in s.quarantine && s.quarantine[s.runs[r].inst] == r
            && t.quarantine == s.quarantine - {s.runs[r].inst}))
  }

  /** How a step may change one run: what keeps the per-run facts, and never
      un-proves an attempt. */
  predicate RunStepOk(x: Run, y: Run) {
    RunOk(y) && (x.Proven() ==> y.Proven())
  }

  lemma AllOkPreserved(s: Sys, t: Sys, r: nat)
    requires AllOk(s) && Touches(s, t, r)
    requires RunOk(t.runs[r]) && (r < s.epoch ==> t.runs[r].phase.NoTask?)
    ensures AllOk(t)
  {
    forall i | 0 <= i < |t.runs|
      ensures RunOk(t.runs[i]) && (i < t.epoch ==> t.runs[i].phase.NoTask?)
    {
      if i != r { assert t.runs[i] == s.runs[i]; }
    }
  }

  lemma OnlyNewestPreserved(s: Sys, t: Sys, r: nat)
    requires OnlyNewestMatters(s.runs) && Touches(s, t, r)
    requires s.runs[r].Proven() ==> t.runs[r].Proven()
    ensures OnlyNewestMatters(t.runs)
  {
    forall i, j | 0 <= i < j < |t.runs| && t.runs[i].key == t.runs[j].key
      ensures t.runs[i].Proven()
    {
      assert s.runs[i].key == t.runs[i].key && s.runs[j].key == t.runs[j].key;
      assert s.runs[i].Proven();
    }
  }

  lemma TasksPreserved(s: Sys, t: Sys, r: nat)
    requires TasksOk(s) && Touches(s, t, r)
    ensures TasksOk(t)
  {
    assert forall i :: 0 <= i < |t.runs| ==> t.runs[i].key == s.runs[i].key && t.runs[i].hash == s.runs[i].hash;
    forall k | k in t.tasks
      ensures exists i :: 0 <= i < |t.runs| && t.runs[i].key == k
    {
      var i :| 0 <= i < |s.runs| && s.runs[i].key == k;
      assert t.runs[i].key == k;
    }
  }

  /** How a step of run r treats permit and quarantine. */
  predicate KeepsQuarantine(s: Sys, t: Sys, r: nat)
    requires r < |s.runs| && r < |t.runs|
  {
    var x, y := s.runs[r], t.runs[r];
    && (y.phase.Waiting? ==> x.phase.Waiting? && t.quarantine == s.quarantine)
    && (y.Holding() ==> x.Holding() || (PermitFree(s, x.inst) && x.inst !in s.quarantine))
    && (Uncertain(y) ==> y.inst in t.quarantine)
    && (Abandoned(y) ==> Abandoned(x) || x.Holding())
    && (t.quarantine == s.quarantine || x.Holding() || y.inst in t.quarantine)
  }

  lemma PermitsPreserved(s: Sys, t: Sys, r: nat)
    requires Inv(s) && Touches(s, t, r) && s.epoch <= r && KeepsQuarantine(s, t, r)
    ensures forall i, j :: t.epoch <= i < j < |t.runs| && t.runs[i].inst == t.runs[j].inst && t.runs[i].Holding()
                       ==> !t.runs[j].Holding()
  {
    forall i, j | t.epoch <= i < j < |t.runs| && t.runs[i].inst == t.runs[j].inst && t.runs[i].Holding()
      ensures !t.runs[j].Holding()
    {
      if i == r {
        assert t.runs[j] == s.runs[j];
      } else if j == r {
        assert t.runs[i] == s.runs[i];
      } else {
        assert t.runs[i] == s.runs[i] && t.runs[j] == s.runs[j];
      }
    }
  }

  lemma AbandonedPreserved(s: Sys, t: Sys, r: nat)
    requires Inv(s) && Touches(s, t, r) && s.epoch <= r && KeepsQuarantine(s, t, r)
    ensures forall i, j :: t.epoch <= i < |t.runs| && t.epoch <= j < |t.runs| && Abandoned(t.runs[i])
                           && t.runs[i].inst == t.runs[j].inst
                       ==> !t.runs[j].Holding()
  {
    forall i, j | t.epoch <= i < |t.runs| && t.epoch <= j < |t.runs| && Abandoned(t.runs[i])
                  && t.runs[i].inst == t.runs[j].inst
      ensures !t.runs[j].Holding()
    {
      if i != j {
        if i == r {
          assert t.runs[j] == s.runs[j];
        } else if j == r {
          assert t.runs[i] == s.runs[i];
        } else {
          assert t.runs[i] == s.runs[i] && t.runs[j] == s.runs[j];
        }
      }
    }
  }

  // An uncertain run of the same instance is either abandoned or holds the
  // permit itself; both rule out another holder.
  lemma UncertainExcludes(s: Sys, i: nat, r: nat)
    requires QuarantineOk(s) && s.epoch <= i < |s.runs| && s.epoch <= r < |s.runs| && i != r
    requires RunOk(s.runs[i]) && Uncertain(s.runs[i]) && s.runs[i].inst == s.runs[r].inst
    ensures !s.runs[r].Holding()
  {
    var x := s.runs[i];
    assert x.phase.NoTask? || x.Holding();
    assert x.phase.NoTask? ==> Abandoned(x);
  }

  // The row of an instance stays, unless the step's own run lifts it.
  lemma RowStays(s: Sys, t: Sys, r: nat, c: nat)
    requires Touches(s, t, r) && KeepsQuarantine(s, t, r) && c in s.quarantine
    requires c == s.runs[r].inst ==> !s.runs[r].Holding()
    ensures c in t.quarantine
  {
  }

  lemma UncertainPreserved(s: Sys, t: Sys, r: nat)
    requires Inv(s) && Touches(s, t, r) && s.epoch <= r && KeepsQuarantine(s, t, r)
    ensures forall i :: t.epoch <= i < |t.runs| && Uncertain(t.runs[i]) ==> t.runs[i].inst in t.quarantine
  {
    forall i | t.epoch <= i < |t.runs| && Uncertain(t.runs[i])
      ensures t.runs[i].inst in t.quarantine
    {
      if i != r {
        assert t.runs[i] == s.runs[i];
        if s.runs[i].inst == s.runs[r].inst {
          assert RunOk(s.runs[i]);
          UncertainExcludes(s, i, r);
        }
        RowStays(s, t, r, s.runs[i].inst);
      }
    }
  }

  lemma RowsPreserved(s: Sys, t: Sys, r: nat)
    requires QuarantineOk(s) && Touches(s, t, r)
    requires t.runs[r].phase.Waiting? ==> s.runs[r].phase.Waiting? && t.quarantine == s.quarantine
    ensures forall c :: c in t.quarantine ==>
              t.quarantine[c] < |t.runs| && t.runs[t.quarantine[c]].inst == c && !t.runs[t.quarantine[c]].phase.Waiting?
  {
    forall c | c in t.quarantine
      ensures t.quarantine[c] < |t.runs| && t.runs[t.quarantine[c]].inst == c && !t.runs[t.quarantine[c]].phase.Waiting?
    {
      if t.quarantine[c] != r { assert t.runs[t.quarantine[c]] == s.runs[t.quarantine[c]]; }
    }
  }

  lemma QuarantinePreserved(s: Sys, t: Sys, r: nat)
    requires Inv(s) && Touches(s, t, r) && s.epoch <= r && KeepsQuarantine(s, t, r)
    ensures QuarantineOk(t)
  {
    PermitsPreserved(s, t, r);
    AbandonedPreserved(s, t, r);
    UncertainPreserved(s, t, r);
    RowsPreserved(s, t, r);
  }

  lemma LocalStepPreserved(s: Sys, t: Sys, r: nat)
    requires Inv(s) && Touches(s, t, r) && s.epoch <= r
    requires RunStepOk(s.runs[r], t.runs[r]) && KeepsQuarantine(s, t, r)
    ensures Inv(t)
  {
    AllOkPreserved(s, t, r);
    OnlyNewestPreserved(s, t, r);
    TasksPreserved(s, t, r);
    QuarantinePreserved(s, t, r);
  }

  // --------------------------------------------------------------- each action

  lemma WakeEnds(s: Sys, r: nat, status: Status, outcome: Outcome)
    requires Inv(s) && r < |s.runs| && s.runs[r].phase.Waiting?
    requires (status.Failed? && SafeOutcome(outcome)) || (status.Cancelled? && outcome.OCancelled?)
    ensures Inv(EndTask(Finish(s, r, status, outcome), r))
  {
    var x := s.runs[r];
    var t := EndTask(Finish(s, r, status, outcome), r);
    var y := x.(status := status, outcome := Some(outcome), phase := NoTask);
    assert RunOk(x) && s.epoch <= r;
    FinishEdits(s, r, status, outcome);
    assert t.runs == s.runs[r := y] && RunStepOk(x, y);
    assert x.inst in s.quarantine ==> s.quarantine[x.inst] != r;
    LocalStepPreserved(s, t, r);
  }

  lemma MarkKeepsRun(x: Run)
    requires RunOk(x) && x.phase.Waiting?
    ensures RunStepOk(x, x.(status := Starting, started := true, phase := Marked))
  {
  }

  lemma WakePreserved(s: Sys, r: nat, w: Wakeup)
    requires Inv(s) && CanWake(s, r, w)
    ensures Inv(Wake(s, r, w))
  {
    var x := s.runs[r];
    assert RunOk(x) && s.epoch <= r;
    match w
    case TimedOut => WakeEnds(s, r, Failed, QueueTimeout);
    case AcquireFailed => WakeEnds(s, r, Failed, Rejected);
    case CancelSeen => WakeEnds(s, r, Cancelled, OCancelled);
    case Acquired =>
      if x.inst in s.quarantine {
        WakeEnds(s, r, Failed, Rejected);
      } else {
        MarkKeepsRun(x);
        assert MarkStarting(s, r) == SetRun(s, r, x.(status := Starting, started := true, phase := Marked));
        LocalStepPreserved(s, MarkStarting(s, r), r);
      }
  }

  // One edit of one run's own record, the quarantine untouched.
  lemma PlainEdit(s: Sys, t: Sys, r: nat, y: Run)
    requires Inv(s) && r < |s.runs| && s.epoch <= r && t == SetRun(s, r, y)
    requires y.key == s.runs[r].key && y.hash == s.runs[r].hash && y.inst == s.runs[r].inst
    requires RunStepOk(s.runs[r], y) && !y.phase.Waiting?
    requires y.Holding() ==> s.runs[r].Holding()
    requires Uncertain(y) ==> Uncertain(s.runs[r])
    requires Abandoned(y) ==> Abandoned(s.runs[r]) || s.runs[r].Holding()
    ensures Inv(t)
  {
    LocalStepPreserved(s, t, r);
  }

  lemma SendKeepsRun(x: Run)
    requires RunOk(x) && x.phase.Marked?
    ensures RunStepOk(x, x.(phase := Streaming(false), rpc := InFlight))
  {
  }

  lemma FirstEventKeepsRun(x: Run)
    requires RunOk(x) && x.phase == Streaming(false) && x.events
    ensures RunStepOk(x, x.(phase := Streaming(true),
        status := if x.status.Starting? || x.status.Running? then Running else x.status))
  {
  }

  lemma SendPreserved(s: Sys, r: nat)
    requires Inv(s) && CanSend(s, r)
    ensures Inv(Send(s, r))
  {
    var x := s.runs[r];
    assert RunOk(x) && s.epoch <= r;
    SendKeepsRun(x);
    PlainEdit(s, Send(s, r), r, x.(phase := Streaming(false), rpc := InFlight));
  }

  lemma FirstEventPreserved(s: Sys, r: nat)
    requires Inv(s) && CanReadFirstEvent(s, r)
    ensures Inv(ReadFirstEvent(s, r))
  {
    var x := s.runs[r];
    assert RunOk(x) && s.epoch <= r;
    FirstEventKeepsRun(x);
    var status := if x.status.Starting? || x.status.Running? then Running else x.status;
    PlainEdit(s, ReadFirstEvent(s, r), r, x.(phase := Streaming(true), status := status));
  }

  // The run task ends with the outcome unknown: recorded, and its instance closed.
  lemma EndUnresolved(s: Sys, r: nat)
    requires Inv(s) && r < |s.runs| && !s.runs[r].phase.NoTask?
    ensures Inv(EndTask(Unresolved(s, r), r))
  {
    var x := s.runs[r];
    var t := EndTask(Unresolved(s, r), r);
    assert RunOk(x) && s.epoch <= r;
    UnresolvedKeepsRun(x);
    FinishEdits(s, r, Unknown, OUnknown);
    assert t.runs == s.runs[r := x.(status := Unknown, outcome := Some(OUnknown), phase := NoTask)];
    assert t.quarantine == s.quarantine[x.inst := r];
    assert x.started ==> x.Holding();
    LocalStepPreserved(s, t, r);
  }

  // Every step of one run's task rewrites that run's record once.
  lemma FinishEdits(s: Sys, r: nat, status: Status, outcome: Outcome)
    requires r < |s.runs|
    ensures var t := Finish(s, r, status, outcome);
      && t.runs == s.runs[r := s.runs[r].(status := status, outcome := Some(outcome))]
      && t.tasks == s.tasks && t.epoch == s.epoch
      && (t.quarantine == s.quarantine
          || (s.runs[r].inst in s.quarantine && s.quarantine[s.runs[r].inst] == r
              && t.quarantine == s.quarantine - {s.runs[r].inst}))
      && (!Validated(status) ==> t.quarantine == s.quarantine)
  {
  }

  lemma AnswerKeepsRun(x: Run, status: Status, outcome: Outcome)
    requires RunOk(x) && x.phase.Streaming? && x.rpc == Replied(Answer(status, outcome))
    ensures RunStepOk(x, x.(status := status, outcome := Some(outcome), phase := Closing))
  {
  }

  lemma RejectionKeepsRun(x: Run, code: Code)
    requires RunOk(x) && x.phase.Streaming? && x.rpc == Replied(Error(code)) && NoEffectCode(code)
    ensures RunStepOk(x, x.(status := Failed, outcome := Some(Rejected), phase := NoTask))
  {
  }

  lemma UnresolvedKeepsRun(x: Run)
    requires RunOk(x) && !x.phase.NoTask?
    ensures RunStepOk(x, x.(status := Unknown, outcome := Some(OUnknown), phase := NoTask))
  {
  }

  // What reading the reply does to the run's record.
  lemma AnswerEdits(s: Sys, r: nat)
    requires CanReadReply(s, r) && s.runs[r].rpc.reply.Answer? && RunOk(s.runs[r])
    ensures var t := ReadReply(s, r);
      var reply := s.runs[r].rpc.reply;
      && t.runs == s.runs[r := s.runs[r].(status := reply.status, outcome := Some(reply.outcome), phase := Closing)]
      && Touches(s, t, r) && (reply.status.Unknown? ==> s.runs[r].inst in t.quarantine)
  {
    var reply := s.runs[r].rpc.reply;
    FinishEdits(s, r, reply.status, reply.outcome);
    FinishEdits(s, r, Unknown, OUnknown);
    assert ReadReply(s, r).runs == s.runs[r := s.runs[r].(status := reply.status, outcome := Some(reply.outcome),
        phase := Closing)];
  }

  lemma AnswerPreserved(s: Sys, r: nat)
    requires Inv(s) && CanReadReply(s, r) && s.runs[r].rpc.reply.Answer?
    ensures Inv(ReadReply(s, r))
  {
    var reply := s.runs[r].rpc.reply;
    assert RunOk(s.runs[r]) && s.epoch <= r;
    AnswerEdits(s, r);
    AnswerKeepsRun(s.runs[r], reply.status, reply.outcome);
    LocalStepPreserved(s, ReadReply(s, r), r);
  }

  lemma RejectionPreserved(s: Sys, r: nat, code: Code)
    requires Inv(s) && CanReadReply(s, r) && s.runs[r].rpc.reply == Error(code) && NoEffectCode(code)
    ensures Inv(EndTask(Finish(s, r, Failed, Rejected), r))
  {
    var x := s.runs[r];
    var t := EndTask(Finish(s, r, Failed, Rejected), r);
    assert RunOk(x) && s.epoch <= r;
    FinishEdits(s, r, Failed, Rejected);
    RejectionKeepsRun(x, code);
    assert t.runs == s.runs[r := x.(status := Failed, outcome := Some(Rejected), phase := NoTask)];
    LocalStepPreserved(s, t, r);
  }

  lemma ReplyPreserved(s: Sys, r: nat)
    requires Inv(s) && CanReadReply(s, r)
    ensures Inv(ReadReply(s, r))
  {
    match s.runs[r].rpc.reply
    case Answer(_, _) => AnswerPreserved(s, r);
    case Error(code) =>
      if !s.runs[r].phase.sawEvent && NoEffectCode(code) {
        RejectionPreserved(s, r, code);
      } else {
        EndUnresolved(s, r);
      }
  }

  lemma ClosePreserved(s: Sys, r: nat, raised: bool)
    requires Inv(s) && CanClose(s, r)
    ensures Inv(Close(s, r, raised))
  {
    var x := s.runs[r];
    assert RunOk(x) && s.epoch <= r;
    if raised {
      EndUnresolved(s, r);
    } else {
      assert RunStepOk(x, x.(phase := NoTask));
      PlainEdit(s, Close(s, r, raised), r, x.(phase := NoTask));
    }
  }

  lemma CancelTaskPreserved(s: Sys, r: nat)
    requires Inv(s) && CanCancelTask(s, r)
    ensures Inv(CancelTask(s, r))
  {
    EndUnresolved(s, r);
  }

  lemma CancelMarks(s: Sys, r: nat)
    requires Inv(s) && r < |s.runs| && s.runs[r].phase.Waiting?
    ensures Inv(SetRun(s, r, s.runs[r].(phase := Waiting(true))))
  {
    assert RunOk(s.runs[r]) && s.epoch <= r;
    LocalStepPreserved(s, SetRun(s, r, s.runs[r].(phase := Waiting(true))), r);
  }

  lemma CancelAsks(s: Sys, r: nat)
    requires Inv(s) && r < |s.runs|
    requires s.runs[r].status.Starting? || s.runs[r].status.Running? || s.runs[r].status.Cancelling?
    ensures Inv(SetRun(s, r, s.runs[r].(status := Cancelling, cancelAsked := true)))
  {
    var x := s.runs[r];
    var y := x.(status := Cancelling, cancelAsked := true);
    assert RunOk(x) && s.epoch <= r;
    assert RunStepOk(x, y);
    PlainEdit(s, SetRun(s, r, y), r, y);
  }

  function CancelEdit(s: Sys, r: nat): Sys
    requires r < |s.runs|
  {
    var x := s.runs[r];
    if x.phase.Waiting? then SetRun(s, r, x.(phase := Waiting(true)))
    else if x.status.Starting? || x.status.Running? || x.status.Cancelling?
      then SetRun(s, r, x.(status := Cancelling, cancelAsked := true))
    else s
  }

  // A cancel call edits a waiting or a dispatched run, and no other.
  lemma CancelCallEdits(s: Sys, r: nat)
    requires r < |s.runs| && RunOk(s.runs[r])
    ensures CancelCall(s, r) == CancelEdit(s, r)
  {
  }

  lemma CancelCallPreserved(s: Sys, r: nat)
    requires Inv(s) && r < |s.runs|
    ensures Inv(CancelCall(s, r))
  {
    assert RunOk(s.runs[r]);
    CancelCallEdits(s, r);
    var status := s.runs[r].status;
    if s.runs[r].phase.Waiting? {
      CancelMarks(s, r);
    } else if status.Starting? || status.Running? || status.Cancelling? {
      CancelAsks(s, r);
    }
  }

  lemma CancelReturnPreserved(s: Sys, r: nat)
    requires Inv(s) && CanCancelReturn(s, r)
    ensures Inv(CancelReturn(s, r))
  {
    assert RunOk(s.runs[r]);
    if CancelReturn(s, r) != s {
      LocalStepPreserved(s, CancelReturn(s, r), r);
    }
  }

  lemma MoveKeepsRun(x: Run, m: RunnerMove)
    requires RunOk(x) && CanMove(x, m)
    ensures RunStepOk(x, Move(x, m))
  {
  }

  lemma QuarantineIgnoresPast(s: Sys, t: Sys, r: nat)
    requires QuarantineOk(s) && Touches(s, t, r) && r < s.epoch
    requires t.quarantine == s.quarantine && t.runs[r].phase == s.runs[r].phase
    ensures QuarantineOk(t)
  {
    RowsPreserved(s, t, r);
    assert forall i :: t.epoch <= i < |t.runs| ==> t.runs[i] == s.runs[i];
  }

  lemma RunnerPreserved(s: Sys, r: nat, m: RunnerMove)
    requires Inv(s) && r < |s.runs| && CanMove(s.runs[r], m)
    ensures Inv(SetRun(s, r, Move(s.runs[r], m)))
  {
    var t := SetRun(s, r, Move(s.runs[r], m));
    MoveKeepsRun(s.runs[r], m);
    MoveFrame(s.runs[r], m);
    if s.epoch <= r {
      LocalStepPreserved(s, t, r);
    } else {
      AllOkPreserved(s, t, r);
      OnlyNewestPreserved(s, t, r);
      TasksPreserved(s, t, r);
      QuarantineIgnoresPast(s, t, r);
    }
  }

  /** No Runner move writes an attempt row or the API's own task state. */
  lemma MoveFrame(x: Run, m: RunnerMove)
    requires CanMove(x, m)
    ensures var y := Move(x, m);
      y == x.(rpc := y.rpc, events := y.events, executed := y.executed, driverLive := y.driverLive)
  {
  }

  lemma SubmitPreserved(s: Sys, key: Key, hash: nat, preset: nat, inst: nat, available: bool, full: bool)
    requires Inv(s)
    ensures Inv(Submit(s, key, hash, preset, inst, available, full).0)
  {
    var t := Submit(s, key, hash, preset, inst, available, full).0;
    if t != s {
      assert t == Reserve(s, key, hash, preset, inst);
      ReservePreserved(s, key, hash, preset, inst);
    }
  }

  lemma ReserveKeepsNewest(s: Sys, key: Key, hash: nat, preset: nat, inst: nat)
    requires OnlyNewestMatters(s.runs) && ReserveCheck(s, key, hash).Admitted?
    ensures OnlyNewestMatters(Reserve(s, key, hash, preset, inst).runs)
  {
    var t := Reserve(s, key, hash, preset, inst);
    var n := |s.runs|;
    forall i, j | 0 <= i < j < |t.runs| && t.runs[i].key == t.runs[j].key
      ensures t.runs[i].Proven()
    {
      var x := s.runs[i];
      assert t.runs[i] == x;
      if j == n {
        BlockerMirrorsPython(x.status, x.outcome, x.started);
      } else {
        assert t.runs[j] == s.runs[j];
      }
    }
  }

  lemma ReserveKeepsTasks(s: Sys, key: Key, hash: nat, preset: nat, inst: nat)
    requires TasksOk(s) && ReserveCheck(s, key, hash).Admitted?
    ensures TasksOk(Reserve(s, key, hash, preset, inst))
  {
    var t := Reserve(s, key, hash, preset, inst);
    forall i | 0 <= i < |t.runs|
      ensures t.runs[i].key in t.tasks && t.tasks[t.runs[i].key] == t.runs[i].hash
    {
      if i < |s.runs| { assert t.runs[i] == s.runs[i]; }
    }
    forall k | k in t.tasks
      ensures exists i :: 0 <= i < |t.runs| && t.runs[i].key == k
    {
      if k == key {
        assert t.runs[|s.runs|].key == k;
      } else {
        var i :| 0 <= i < |s.runs| && s.runs[i].key == k;
        assert t.runs[i].key == k;
      }
    }
  }

  lemma ReserveKeepsQuarantine(s: Sys, key: Key, hash: nat, preset: nat, inst: nat)
    requires QuarantineOk(s) && s.epoch <= |s.runs|
    ensures QuarantineOk(Reserve(s, key, hash, preset, inst))
  {
    var t := Reserve(s, key, hash, preset, inst);
    assert t.runs[|s.runs|] == NewRun(key, hash, preset, inst);
    assert forall i :: 0 <= i < |s.runs| ==> t.runs[i] == s.runs[i];
  }

  lemma ReserveKeepsRuns(s: Sys, key: Key, hash: nat, preset: nat, inst: nat)
    requires AllOk(s)
    ensures AllOk(Reserve(s, key, hash, preset, inst))
  {
    var t := Reserve(s, key, hash, preset, inst);
    forall i | 0 <= i < |t.runs|
      ensures RunOk(t.runs[i]) && (i < t.epoch ==> t.runs[i].phase.NoTask?)
    {
      if i < |s.runs| { assert t.runs[i] == s.runs[i]; }
    }
  }

  lemma ReservePreserved(s: Sys, key: Key, hash: nat, preset: nat, inst: nat)
    requires Inv(s) && ReserveCheck(s, key, hash).Admitted?
    ensures Inv(Reserve(s, key, hash, preset, inst))
  {
    ReserveKeepsRuns(s, key, hash, preset, inst);
    ReserveKeepsNewest(s, key, hash, preset, inst);
    ReserveKeepsTasks(s, key, hash, preset, inst);
    ReserveKeepsQuarantine(s, key, hash, preset, inst);
  }

  lemma RestartKeepsRun(x: Run)
    requires RunOk(x)
    ensures RunStepOk(x, RestartRun(x)) && RestartRun(x).phase.NoTask?
  {
  }

  lemma RestartKeepsRuns(s: Sys)
    requires AllOk(s)
    ensures AllOk(Restart(s))
  {
    forall i | 0 <= i < |s.runs|
      ensures RunOk(Restart(s).runs[i]) && Restart(s).runs[i].phase.NoTask?
    {
      RestartKeepsRun(s.runs[i]);
    }
  }

  lemma RestartKeepsNewest(s: Sys)
    requires AllOk(s) && OnlyNewestMatters(s.runs)
    ensures OnlyNewestMatters(Restart(s).runs)
  {
    var t := Restart(s);
    forall i, j | 0 <= i < j < |t.runs| && t.runs[i].key == t.runs[j].key
      ensures t.runs[i].Proven()
    {
      assert s.runs[i].key == s.runs[j].key;
      RestartKeepsRun(s.runs[i]);
    }
  }

  lemma RestartKeepsTasks(s: Sys)
    requires TasksOk(s)
    ensures TasksOk(Restart(s))
  {
    var t := Restart(s);
    assert forall i :: 0 <= i < |s.runs| ==> t.runs[i].key == s.runs[i].key && t.runs[i].hash == s.runs[i].hash;
    forall k | k in t.tasks
      ensures exists i :: 0 <= i < |t.runs| && t.runs[i].key == k
    {
      var i :| 0 <= i < |s.runs| && s.runs[i].key == k;
      assert t.runs[i].key == k;
    }
  }

  lemma RestartKeepsRows(s: Sys)
    requires QuarantineOk(s) && AllOk(Restart(s))
    ensures QuarantineOk(Restart(s))
  {
    var t := Restart(s);
    forall c | c in t.quarantine
      ensures t.quarantine[c] < |t.runs| && t.runs[t.quarantine[c]].inst == c && !t.runs[t.quarantine[c]].phase.Waiting?
    {
      assert t.runs[t.quarantine[c]] == RestartRun(s.runs[s.quarantine[c]]);
    }
  }

  lemma RestartPreserved(s: Sys)
    requires Inv(s)
    ensures Inv(Restart(s))
  {
    RestartKeepsRuns(s);
    RestartKeepsNewest(s);
    RestartKeepsTasks(s);
    RestartKeepsRows(s);
  }

  lemma OutsideStepPreserves(s: Sys, a: Action)
    requires Inv(s) && Enabled(s, a) && (a.ASubmit? || a.ARestart? || a.ARunner?)
    ensures Inv(Apply(s, a))
  {
    match a
    case ASubmit(key, hash, preset, inst, available, full) =>
      SubmitPreserved(s, key, hash, preset, inst, available, full);
    case ARestart => RestartPreserved(s);
    case ARunner(r, m) => RunnerPreserved(s, r, m);
  }

  lemma StepPreserves(s: Sys, a: Action)
    requires Inv(s) && Enabled(s, a)
    ensures Inv(Apply(s, a))
  {
    match a
    case AWake(r, w) => WakePreserved(s, r, w);
    case ASend(r) => SendPreserved(s, r);
    case AFirstEvent(r) => FirstEventPreserved(s, r);
    case AFail(r) => EndUnresolved(s, r);
    case AReply(r) => ReplyPreserved(s, r);
    case AClose(r, raised) => ClosePreserved(s, r, raised);
    case ACancelTask(r) => CancelTaskPreserved(s, r);
    case ACancelCall(r) => CancelCallPreserved(s, r);
    case ACancelReturn(r) => CancelReturnPreserved(s, r);
    case _ => OutsideStepPreserves(s, a);
  }

  lemma {:induction false} Always(states: seq<Sys>, acts: seq<Action>, n: nat)
    requires IsTrace(states, acts) && n < |states|
    ensures Inv(states[n])
  {
    if n > 0 {
      Always(states, acts, n - 1);
      assert StepOk(states[n - 1], acts[n - 1], states[n - 1 + 1]);
      StepPreserves(states[n - 1], acts[n - 1]);
    }
  }

  // ------------------------------------------------------------- main results

  /** At most one attempt of a task ever has its driver started, at every moment
      of every interleaving; and the older attempts can never start one. */
  lemma AtMostOneExecution(states: seq<Sys>, acts: seq<Action>, n: nat, i: nat, j: nat)
    requires IsTrace(states, acts) && n < |states|
    requires i < j < |states[n].runs| && states[n].runs[i].key == states[n].runs[j].key
    ensures !states[n].runs[i].executed
    ensures states[n].runs[i].Proven()
  {
    Always(states, acts, n);
    assert RunOk(states[n].runs[i]);
  }

  /** Looking only at the newest attempt decides admission exactly as the
      whole-history SQL check of the reservation transaction does, so in every
      reachable state a reservation that follows an accepted check cannot fail. */
  lemma PrecheckAgreesWithReserve(states: seq<Sys>, acts: seq<Action>, n: nat, key: Key, hash: nat, preset: nat)
    requires IsTrace(states, acts) && n < |states|
    ensures Precheck(states[n], key, hash, preset).Admitted? <==> ReserveCheck(states[n], key, hash).Admitted?
  {
    Always(states, acts, n);
    match Latest(states[n].runs, key)
    case None => NoHistoryAdmits(states[n], key, hash);
    case Some(r) =>
      OlderNeverBlock(states[n], key, r);
      NewestDecides(states[n], key, hash, preset, r);
  }

  lemma NoHistoryAdmits(s: Sys, key: Key, hash: nat)
    requires TasksOk(s) && Latest(s.runs, key).None?
    ensures ReserveCheck(s, key, hash).Admitted?
  {
  }

  lemma NewestDecides(s: Sys, key: Key, hash: nat, preset: nat, r: nat)
    requires Latest(s.runs, key) == Some(r)
    requires SomeLocked(s.runs, key) <==> HoldsLock(s.runs[r].status)
    requires SomeBlocker(s.runs, key)
       <==> Blocker(s.runs[r].status, s.runs[r].started, SqlCoalescedOutcomeIn(s.runs[r].outcome)) == True
    ensures Precheck(s, key, hash, preset).Admitted? <==> ReserveCheck(s, key, hash).Admitted?
  {
    BlockerMirrorsPython(s.runs[r].status, s.runs[r].outcome, s.runs[r].started);
  }

  lemma OlderIsHarmless(x: Run)
    requires x.Proven()
    ensures !HoldsLock(x.status) && Blocker(x.status, x.started, SqlCoalescedOutcomeIn(x.outcome)) != True
  {
    BlockerMirrorsPython(x.status, x.outcome, x.started);
  }

  // All that the history check can find is the newest attempt.
  lemma OlderNeverBlock(s: Sys, key: Key, r: nat)
    requires Inv(s) && Latest(s.runs, key) == Some(r)
    ensures SomeLocked(s.runs, key) <==> HoldsLock(s.runs[r].status)
    ensures SomeBlocker(s.runs, key)
       <==> Blocker(s.runs[r].status, s.runs[r].started, SqlCoalescedOutcomeIn(s.runs[r].outcome)) == True
  {
    forall i | 0 <= i < |s.runs| && s.runs[i].key == key && i != r
      ensures !HoldsLock(s.runs[i].status)
      ensures Blocker(s.runs[i].status, s.runs[i].started, SqlCoalescedOutcomeIn(s.runs[i].outcome)) != True
    {
      OlderIsHarmless(s.runs[i]);
    }
  }

  /** The partial unique index on (principal, task) is never violated by a status
      update: at most one row of a task holds the logical lock. */
  lemma LogicalLockUnique(states: seq<Sys>, acts: seq<Action>, n: nat, i: nat, j: nat)
    requires IsTrace(states, acts) && n < |states|
    requires i < j < |states[n].runs| && states[n].runs[i].key == states[n].runs[j].key
    ensures !(HoldsLock(states[n].runs[i].status) && HoldsLock(states[n].runs[j].status))
  {
    Always(states, acts, n);
  }

  // The Runner answered with a validated result.
  predicate Answered(x: Run) {
    x.rpc.Replied? && x.rpc.reply.Answer? && Validated(x.rpc.reply.status)
  }

  // What one action makes of "left running".
  predicate LeftAfter(a: Action, r: nat, left: bool) {
    if !a.ARunner? || a.run != r then left
    else match a.m
      case Conclude(_, _, stopped) => !stopped
      case AbandonedStops => false
      case _ => left
  }

  /** Read off the actions alone: run r's result was concluded though its process
      was not confirmed stopped, and the process has not gone since. */
  predicate LeftRunning(acts: seq<Action>, r: nat, n: nat)
    requires n <= |acts|
  {
    n > 0 && LeftAfter(acts[n - 1], r, LeftRunning(acts, r, n - 1))
  }

  // After a validated answer the driver is alive exactly when it was left running.
  predicate Traced(x: Run, left: bool) {
    if Answered(x) then x.driverLive == left else !left
  }

  lemma OwnMoveTraced(x: Run, m: RunnerMove, left: bool)
    requires RunOk(x) && CanMove(x, m) && Traced(x, left)
    ensures Traced(Move(x, m), LeftAfter(ARunner(0, m), 0, left))
  {
  }

  // What another action leaves of a run's driver and RPC: all, but for its sending.
  predicate SameDriver(x: Run, y: Run) {
    y.driverLive == x.driverLive && (y.rpc == x.rpc || (x.rpc.Unsent? && y.rpc.InFlight?))
  }

  lemma OthersKeepDriver(s: Sys, a: Action, r: nat)
    requires Enabled(s, a) && r < |s.runs| && RunOk(s.runs[r]) && !(a.ARunner? && a.run == r)
    ensures r < |Apply(s, a).runs| && SameDriver(s.runs[r], Apply(s, a).runs[r])
  {
    if a.ASubmit? || a.ARestart? || a.ARunner? || a.AFirstEvent? || a.ASend? {
      QuietKeepsDriver(s, a, r);
    } else {
      TaskKeepsDriver(s, a, r);
    }
  }

  lemma QuietKeepsDriver(s: Sys, a: Action, r: nat)
    requires Enabled(s, a) && r < |s.runs| && RunOk(s.runs[r]) && !(a.ARunner? && a.run == r)
    requires a.ASubmit? || a.ARestart? || a.ARunner? || a.AFirstEvent? || a.ASend?
    ensures r < |Apply(s, a).runs| && SameDriver(s.runs[r], Apply(s, a).runs[r])
  {
    if a.ASend? { SendKeepsDriver(s, a.run, r); }
  }

  lemma TaskKeepsDriver(s: Sys, a: Action, r: nat)
    requires Enabled(s, a) && r < |s.runs|
    requires a.AReply? || a.AWake? || a.AFail? || a.ACancelTask? || a.AClose? || a.ACancelCall? || a.ACancelReturn?
    ensures r < |Apply(s, a).runs| && SameDriver(s.runs[r], Apply(s, a).runs[r])
  {
    match a
    case AReply(q) => ReplyKeepsDriver(s, q, r);
    case AWake(q, w) => WakeKeepsDriver(s, q, w, r);
    case ACancelCall(q) => CancelKeepsDriver(s, q, r);
    case ACancelReturn(q) => CancelKeepsDriver(s, q, r);
    case AFail(q) => UnresolvedKeepsDriver(s, q, r);
    case ACancelTask(q) => UnresolvedKeepsDriver(s, q, r);
    case AClose(q, _) => UnresolvedKeepsDriver(s, q, r);
  }

  lemma SendKeepsDriver(s: Sys, q: nat, r: nat)
    requires CanSend(s, q) && r < |s.runs| && RunOk(s.runs[r])
    ensures SameDriver(s.runs[r], Send(s, q).runs[r])
  {
  }

  lemma WakeKeepsDriver(s: Sys, q: nat, w: Wakeup, r: nat)
    requires CanWake(s, q, w) && r < |s.runs|
    ensures |Wake(s, q, w).runs| == |s.runs| && SameDriver(s.runs[r], Wake(s, q, w).runs[r])
  {
    FinishMoves(s, q, Failed, QueueTimeout, r);
    FinishMoves(s, q, Failed, Rejected, r);
    FinishMoves(s, q, Cancelled, OCancelled, r);
  }

  lemma UnresolvedKeepsDriver(s: Sys, q: nat, r: nat)
    requires q < |s.runs| && r < |s.runs|
    ensures SameDriver(s.runs[r], EndTask(Unresolved(s, q), q).runs[r]) && SameDriver(s.runs[r], EndTask(s, q).runs[r])
  {
    FinishMoves(s, q, Unknown, OUnknown, r);
  }

  lemma CancelKeepsDriver(s: Sys, q: nat, r: nat)
    requires q < |s.runs| && r < |s.runs|
    ensures SameDriver(s.runs[r], CancelCall(s, q).runs[r])
    ensures CanCancelReturn(s, q) ==> SameDriver(s.runs[r], CancelReturn(s, q).runs[r])
  {
    if q == r {
      FinishMoves(s, q, Unknown, OUnknown, r);
      FinishMoves(s, q, Cancelled, OCancelled, r);
    } else {
      assert CancelCall(s, q).runs[r] == s.runs[r];
    }
  }

  lemma ReplyKeepsDriver(s: Sys, q: nat, r: nat)
    requires CanReadReply(s, q) && r < |s.runs|
    ensures SameDriver(s.runs[r], ReadReply(s, q).runs[r])
  {
    if s.runs[q].rpc.reply.Answer? {
      FinishMoves(s, q, s.runs[q].rpc.reply.status, s.runs[q].rpc.reply.outcome, r);
      FinishMoves(s, q, Unknown, OUnknown, r);
    } else {
      FinishMoves(s, q, Failed, Rejected, r);
      FinishMoves(s, q, Unknown, OUnknown, r);
    }
  }

  // A run that an action brings about has not been sent anywhere.
  lemma NewRunsAreUnsent(s: Sys, a: Action)
    requires Enabled(s, a)
    ensures forall r :: |s.runs| <= r < |Apply(s, a).runs| ==> Apply(s, a).runs[r].rpc.Unsent?
  {
    if !a.ASubmit? { assert |Apply(s, a).runs| == |s.runs|; }
  }

  lemma TracedStep(s: Sys, a: Action, r: nat, left: bool)
    requires Enabled(s, a) && r < |s.runs| && RunOk(s.runs[r]) && Traced(s.runs[r], left)
    ensures r < |Apply(s, a).runs| && Traced(Apply(s, a).runs[r], LeftAfter(a, r, left))
  {
    if a.ARunner? && a.run == r {
      OwnMoveTraced(s.runs[r], a.m, left);
    } else {
      OthersKeepDriver(s, a, r);
    }
  }

  lemma {:induction false} DriverIsTraced(states: seq<Sys>, acts: seq<Action>, n: nat, r: nat)
    requires IsTrace(states, acts) && n < |states|
    ensures if r < |states[n].runs| then Traced(states[n].runs[r], LeftRunning(acts, r, n))
      else !LeftRunning(acts, r, n)
  {
    if n > 0 {
      var s, a := states[n - 1], acts[n - 1];
      DriverIsTraced(states, acts, n - 1, r);
      assert StepOk(s, a, states[n - 1 + 1]);
      if r < |s.runs| {
        AllRunsOk(states, acts, n - 1, r);
        TracedStep(s, a, r, LeftRunning(acts, r, n - 1));
      } else {
        NewRunsAreUnsent(s, a);
      }
    }
  }

  lemma AllRunsOk(states: seq<Sys>, acts: seq<Action>, n: nat, r: nat)
    requires IsTrace(states, acts) && n < |states| && r < |states[n].runs|
    ensures RunOk(states[n].runs[r])
  {
    Always(states, acts, n);
  }

  // A validated run was answered so, or its driver never started.
  lemma ValidatedIsAnsweredOrIdle(x: Run)
    requires RunOk(x) && Validated(x.status)
    ensures Answered(x) || !x.driverLive
  {
  }

  /** With one permit per instance and no operator clear: when a run RPC is about
      to be issued, every other run this process dispatched to the instance has a
      validated terminal. Its driver may yet be at work, exactly when its result
      was concluded over a stop that was not confirmed. */
  lemma NeverDispatchesOverUnresolved(states: seq<Sys>, acts: seq<Action>, n: nat, r: nat, d: nat)
    requires IsTrace(states, acts) && n < |states| && CanSend(states[n], r)
    requires d < |states[n].runs| && d != r && states[n].epoch <= d
    requires states[n].runs[d].inst == states[n].runs[r].inst && states[n].runs[d].started
    ensures Validated(states[n].runs[d].status)
    ensures states[n].runs[d].driverLive <==> LeftRunning(acts, d, n)
  {
    Always(states, acts, n);
    DriverIsTraced(states, acts, n, d);
    var s := states[n];
    assert RunOk(s.runs[d]) && RunOk(s.runs[r]) && s.epoch <= r;
    assert s.runs[r].Holding();
    assert !Abandoned(s.runs[d]);
    assert !s.runs[d].Holding();
    ValidatedIsAnsweredOrIdle(s.runs[d]);
  }

  function Rank(s: Status): nat {
    match s
    case Reserved => 0 case Queued => 0 case Starting => 1 case Running => 2 case Cancelling => 3
    case Unknown => 4 case Completed => 5 case Failed => 5 case Cancelled => 5
  }

  // Leaving a stored validated terminal because the session close then raised.
  predicate LateFailure(s: Sys, a: Action, r: nat)
    requires r < |s.runs|
  {
    s.runs[r].phase.Closing? && Validated(s.runs[r].status) && (a == AClose(r, true) || a == ACancelTask(r))
  }

  /** A run's status moves down the rank in exactly one situation: its validated
      terminal is stored and then closing the session raises. */
  lemma StatusMovesDownOnlyOnLateFailure(states: seq<Sys>, acts: seq<Action>, n: nat, r: nat)
    requires IsTrace(states, acts) && n < |acts| && r < |states[n].runs|
    ensures r < |states[n + 1].runs|
    ensures Rank(states[n + 1].runs[r].status) < Rank(states[n].runs[r].status) <==> LateFailure(states[n], acts[n], r)
  {
    Always(states, acts, n);
    assert StepOk(states[n], acts[n], states[n + 1]);
    assert RunOk(states[n].runs[r]);
    StepRank(states[n], acts[n], r);
  }

  /** A validated terminal is final: no cancel, late reply, crash or restart
      replaces it, unless the session close raises right after it. */
  lemma ValidatedTerminalIsFinal(states: seq<Sys>, acts: seq<Action>, n: nat, r: nat)
    requires IsTrace(states, acts) && n < |acts| && r < |states[n].runs|
    requires Validated(states[n].runs[r].status) && !LateFailure(states[n], acts[n], r)
    ensures r < |states[n + 1].runs| && states[n + 1].runs[r].status == states[n].runs[r].status
    ensures states[n + 1].runs[r].outcome == states[n].runs[r].outcome
  {
    Always(states, acts, n);
    assert StepOk(states[n], acts[n], states[n + 1]);
    assert RunOk(states[n].runs[r]);
    StepRank(states[n], acts[n], r);
  }

  ghost predicate RankStep(s: Sys, a: Action, t: Sys, r: nat) {
    && r < |s.runs| && r < |t.runs|
    && (Rank(t.runs[r].status) < Rank(s.runs[r].status) <==> LateFailure(s, a, r))
    && (Validated(s.runs[r].status) && !LateFailure(s, a, r)
        ==> t.runs[r].status == s.runs[r].status && t.runs[r].outcome == s.runs[r].outcome)
  }

  // What a run's task does to the rows when it stores a status and moves on.
  lemma FinishMoves(s: Sys, q: nat, status: Status, outcome: Outcome, r: nat)
    requires q < |s.runs| && r < |s.runs|
    ensures var u := Finish(s, q, status, outcome);
      && |u.runs| == |s.runs|
      && u.runs[r] == (if q == r then s.runs[r].(status := status, outcome := Some(outcome)) else s.runs[r])
  {
  }

  lemma WakeStepRank(s: Sys, q: nat, w: Wakeup, r: nat)
    requires CanWake(s, q, w) && r < |s.runs| && RunOk(s.runs[r])
    ensures RankStep(s, AWake(q, w), Wake(s, q, w), r)
  {
    FinishMoves(s, q, Failed, QueueTimeout, r);
    FinishMoves(s, q, Failed, Rejected, r);
    FinishMoves(s, q, Cancelled, OCancelled, r);
  }

  lemma UnresolvedStepRank(s: Sys, a: Action, r: nat)
    requires Enabled(s, a) && r < |s.runs| && RunOk(s.runs[r])
    requires a.AFail? || a.ACancelTask? || (a.AClose? && a.raised)
    ensures RankStep(s, a, Apply(s, a), r)
  {
    FinishMoves(s, a.run, Unknown, OUnknown, r);
    assert Apply(s, a) == EndTask(Unresolved(s, a.run), a.run);
  }

  lemma QuietStepRank(s: Sys, a: Action, r: nat)
    requires Enabled(s, a) && r < |s.runs| && RunOk(s.runs[r])
    requires a.ASend? || a.AFirstEvent? || (a.AClose? && !a.raised)
    ensures RankStep(s, a, Apply(s, a), r)
  {
  }

  lemma ReplyElsewhere(s: Sys, q: nat, r: nat)
    requires CanReadReply(s, q) && r < |s.runs| && q != r
    ensures |ReadReply(s, q).runs| == |s.runs| && ReadReply(s, q).runs[r] == s.runs[r]
  {
    match s.runs[q].rpc.reply
    case Answer(status, outcome) => FinishMoves(s, q, status, outcome, r);
    case Error(_) =>
      FinishMoves(s, q, Failed, Rejected, r);
      FinishMoves(s, q, Unknown, OUnknown, r);
  }

  lemma ReplyHere(s: Sys, r: nat)
    requires CanReadReply(s, r)
    ensures |ReadReply(s, r).runs| == |s.runs|
    ensures ReadReply(s, r).runs[r].status == (match s.runs[r].rpc.reply
           case Answer(status, _) => status
           case Error(code) => if !s.runs[r].phase.sawEvent && NoEffectCode(code) then Failed else Unknown)
  {
    match s.runs[r].rpc.reply
    case Answer(status, outcome) => FinishMoves(s, r, status, outcome, r);
    case Error(_) =>
      FinishMoves(s, r, Failed, Rejected, r);
      FinishMoves(s, r, Unknown, OUnknown, r);
  }

  lemma ReplyStepRank(s: Sys, q: nat, r: nat)
    requires CanReadReply(s, q) && r < |s.runs| && RunOk(s.runs[r]) && RunOk(s.runs[q])
    ensures RankStep(s, AReply(q), ReadReply(s, q), r)
  {
    if q == r { ReplyHere(s, r); } else { ReplyElsewhere(s, q, r); }
  }

  lemma CancelCallRank(s: Sys, q: nat, r: nat)
    requires q < |s.runs| && r < |s.runs| && RunOk(s.runs[r])
    ensures RankStep(s, ACancelCall(q), CancelCall(s, q), r)
  {
    FinishMoves(s, q, Cancelled, OCancelled, r);
  }

  lemma CancelReturnRank(s: Sys, q: nat, r: nat)
    requires CanCancelReturn(s, q) && r < |s.runs| && RunOk(s.runs[r])
    ensures RankStep(s, ACancelReturn(q), CancelReturn(s, q), r)
  {
    FinishMoves(s, q, Unknown, OUnknown, r);
  }

  // Submits, restarts and the Runner's moves never touch a status downwards.
  lemma OutsideStepRank(s: Sys, a: Action, r: nat)
    requires Enabled(s, a) && r < |s.runs| && (a.ASubmit? || a.ARestart? || a.ARunner?)
    ensures RankStep(s, a, Apply(s, a), r)
  {
    if a.ARunner? { MoveFrame(s.runs[a.run], a.m); }
  }

  lemma StepRank(s: Sys, a: Action, r: nat)
    requires AllOk(s) && Enabled(s, a) && r < |s.runs|
    ensures RankStep(s, a, Apply(s, a), r)
  {
    assert RunOk(s.runs[r]);
    if a.ASubmit? || a.ARestart? || a.ARunner? {
      OutsideStepRank(s, a, r);
    } else {
      TaskStepRank(s, a, r);
    }
  }

  lemma TaskStepRank(s: Sys, a: Action, r: nat)
    requires Enabled(s, a) && r < |s.runs| && RunOk(s.runs[r]) && !(a.ASubmit? || a.ARestart? || a.ARunner?)
    requires a.AReply? ==> RunOk(s.runs[a.run])
    ensures RankStep(s, a, Apply(s, a), r)
  {
    match a
    case ACancelCall(q) => CancelCallRank(s, q, r);
    case ACancelReturn(q) => CancelReturnRank(s, q, r);
    case AWake(q, w) => WakeStepRank(s, q, w, r);
    case AReply(q) => ReplyStepRank(s, q, r);
    case ASend(_) => QuietStepRank(s, a, r);
    case AFirstEvent(_) => QuietStepRank(s, a, r);
    case AClose(_, raised) => if raised { UnresolvedStepRank(s, a, r); } else { QuietStepRank(s, a, r); }
    case AFail(_) => UnresolvedStepRank(s, a, r);
    case ACancelTask(_) => UnresolvedStepRank(s, a, r);
  }

  /** The single permit matters. Were two runs a and b of one instance streaming
      at once (capacity 2), then a failing, a cancel of b that is not confirmed in
      time, and b's own validated result would leave a unresolved, its driver
      possibly alive, and the instance open for dispatch again. */
  lemma TwoPermitsLoseTheQuarantine(s: Sys, a: nat, b: nat)
    requires CanFailStream(s, a) && CanReadReply(s, b) && a != b && s.runs[a].inst == s.runs[b].inst
    requires s.runs[b].status.Running? && s.runs[b].rpc.reply.Answer? && Validated(s.runs[b].rpc.reply.status)
    requires s.runs[a].started && s.runs[a].driverLive
    ensures CanCancelReturn(CancelCall(FailStream(s, a), b), b)
    ensures CanReadReply(CancelReturn(CancelCall(FailStream(s, a), b), b), b)
    ensures var u := ReadReply(CancelReturn(CancelCall(FailStream(s, a), b), b), b);
      a < |u.runs| && Abandoned(u.runs[a]) && u.runs[a].driverLive && u.runs[a].inst !in u.quarantine
  {
    var t0 := FailStream(s, a);
    assert t0.runs[b] == s.runs[b];
    assert Abandoned(t0.runs[a]) && t0.runs[a].driverLive;
    var t1 := CancelCall(t0, b);
    assert t1.runs[a] == t0.runs[a];
    var t2 := CancelReturn(t1, b);
    assert t2.runs[a] == t0.runs[a] && t2.quarantine[s.runs[b].inst] == b;
    assert t2.runs[b].rpc == s.runs[b].rpc && t2.runs[b].phase == s.runs[b].phase;
    var u := ReadReply(t2, b);
    assert u.runs[a] == t0.runs[a];
  }
}
