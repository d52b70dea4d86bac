/**
 What the durable rows say at the end of a run, and that runs get there: the
 counterpart of the safety results, which a system that does nothing would meet.
 */
module LifecycleOutcomes {
  import opened Common
  import opened Lifecycle
  import opened LifecycleProofs
  import opened SubmitVerdicts

  // ------------------------------------------------------ a row tells the truth

  /** How a row came to its terminal status: by the Runner's answer, by a rejection
      before any effect, or without the run ever having been dispatched. */
  predicate Truthful(x: Run) {
    && (x.outcome.None? <==> Unfinished(x))
    && (x.status.Unknown? ==> x.outcome == Some(OUnknown))
    && (x.status.Completed? ==> ByAnswer(x))
    && (x.status.Failed? ==> ByAnswer(x) || ByRejection(x) || InQueue(x, Rejected) || InQueue(x, QueueTimeout))
    && (x.status.Cancelled? ==> ByAnswer(x) || InQueue(x, OCancelled))
  }

  predicate ByAnswer(x: Run) {
    x.outcome.Some? && x.rpc == Replied(Answer(x.status, x.outcome.value))
  }

  predicate ByRejection(x: Run) {
    x.outcome == Some(Rejected) && x.rpc.Replied? && x.rpc.reply.Error? && !x.rpc.reply.code.InternalError?
  }

  predicate InQueue(x: Run, outcome: Outcome) {
    x.outcome == Some(outcome) && x.rpc.Unsent? && !x.started
  }

  lemma WakeIsTruthful(s: Sys, q: nat, w: Wakeup)
    requires CanWake(s, q, w) && RunOk(s.runs[q]) && Truthful(s.runs[q])
    ensures Truthful(Wake(s, q, w).runs[q])
  {
  }

  lemma AnswerIsTruthful(x: Run, y: Run)
    requires x.rpc.Replied? && x.rpc.reply.Answer? && RunOk(x)
    requires var status := x.rpc.reply.status;
      y == x.(status := status, outcome := Some(if status.Unknown? then OUnknown else x.rpc.reply.outcome),
              phase := Closing)
    ensures Truthful(y)
  {
  }

  lemma ErrorIsTruthful(x: Run, y: Run)
    requires x.rpc.Replied? && x.rpc.reply.Error? && x.phase.Streaming?
    requires var harmless := !x.phase.sawEvent && NoEffectCode(x.rpc.reply.code);
      y == x.(status := if harmless then Failed else Unknown,
              outcome := Some(if harmless then Rejected else OUnknown), phase := NoTask)
    ensures Truthful(y)
  {
  }

  lemma AnswerRow(s: Sys, q: nat)
    requires CanReadReply(s, q) && s.runs[q].rpc.reply.Answer?
    ensures var x := s.runs[q];
      var status := x.rpc.reply.status;
      ReadReply(s, q).runs[q] == x.(status := status, phase := Closing,
          outcome := Some(if status.Unknown? then OUnknown else x.rpc.reply.outcome))
  {
  }

  lemma ErrorRow(s: Sys, q: nat)
    requires CanReadReply(s, q) && s.runs[q].rpc.reply.Error?
    ensures var x := s.runs[q];
      var harmless := !x.phase.sawEvent && NoEffectCode(x.rpc.reply.code);
      ReadReply(s, q).runs[q] == x.(status := if harmless then Failed else Unknown, phase := NoTask,
          outcome := Some(if harmless then Rejected else OUnknown))
  {
  }

  lemma ReplyIsTruthful(s: Sys, q: nat)
    requires CanReadReply(s, q) && RunOk(s.runs[q]) && Truthful(s.runs[q])
    ensures Truthful(ReadReply(s, q).runs[q])
  {
    var x, y := s.runs[q], ReadReply(s, q).runs[q];
    if x.rpc.reply.Answer? {
      AnswerRow(s, q);
      AnswerIsTruthful(x, y);
    } else {
      ErrorRow(s, q);
      ErrorIsTruthful(x, y);
    }
  }

  lemma EndIsTruthful(s: Sys, a: Action, q: nat)
    requires Enabled(s, a) && q < |s.runs| && RunOk(s.runs[q]) && Truthful(s.runs[q])
    requires a == AFail(q) || a == AClose(q, true) || a == ACancelTask(q) || a == ACancelReturn(q)
    ensures Truthful(Apply(s, a).runs[q])
  {
  }

  lemma StepIsTruthful(s: Sys, a: Action, q: nat)
    requires Enabled(s, a) && q < |s.runs| && RunOk(s.runs[q]) && Truthful(s.runs[q])
    requires a == AClose(q, false) || a == ACancelCall(q) || a == ASend(q) || a == AFirstEvent(q)
    ensures Truthful(Apply(s, a).runs[q])
  {
  }

  lemma MoveIsTruthful(x: Run, m: RunnerMove)
    requires CanMove(x, m) && RunOk(x) && Truthful(x)
    ensures Truthful(Move(x, m))
  {
  }

  // The run an action is about.
  function Subject(a: Action): Option<nat> {
    match a
    case ASubmit(_, _, _, _, _, _) => None
    case ARestart => None
    case AWake(r, _) => Some(r) case ASend(r) => Some(r) case AFirstEvent(r) => Some(r) case AReply(r) => Some(r)
    case AFail(r) => Some(r) case AClose(r, _) => Some(r) case ACancelTask(r) => Some(r)
    case ACancelCall(r) => Some(r) case ACancelReturn(r) => Some(r) case ARunner(r, _) => Some(r)
  }

  lemma OthersStay(s: Sys, a: Action, r: nat)
    requires Enabled(s, a) && Subject(a).Some? && Subject(a) != Some(r) && r < |s.runs|
    ensures |Apply(s, a).runs| == |s.runs| && Apply(s, a).runs[r] == s.runs[r]
  {
    match a
    case AWake(q, w) => WakeKeepsOthers(s, q, w, r);
    case AReply(q) => ReplyKeepsOthers(s, q, r);
    case _ =>
  }

  lemma WakeKeepsOthers(s: Sys, q: nat, w: Wakeup, r: nat)
    requires CanWake(s, q, w) && r < |s.runs| && q != r
    ensures |Wake(s, q, w).runs| == |s.runs| && Wake(s, q, w).runs[r] == s.runs[r]
  {
  }

  lemma ReplyKeepsOthers(s: Sys, q: nat, r: nat)
    requires CanReadReply(s, q) && r < |s.runs| && q != r
    ensures |ReadReply(s, q).runs| == |s.runs| && ReadReply(s, q).runs[r] == s.runs[r]
  {
  }

  lemma SubjectIsTruthful(s: Sys, a: Action, r: nat)
    requires Enabled(s, a) && Subject(a) == Some(r) && r < |s.runs| && RunOk(s.runs[r]) && Truthful(s.runs[r])
    ensures |Apply(s, a).runs| == |s.runs| && Truthful(Apply(s, a).runs[r])
  {
    match a
    case AWake(_, w) => WakeIsTruthful(s, r, w);
    case AReply(_) => ReplyIsTruthful(s, r);
    case ARunner(_, m) => MoveIsTruthful(s.runs[r], m);
    case ASend(_) => StepIsTruthful(s, a, r);
    case AFirstEvent(_) => StepIsTruthful(s, a, r);
    case ACancelCall(_) => StepIsTruthful(s, a, r);
    case AClose(_, raised) => if raised { EndIsTruthful(s, a, r); } else { StepIsTruthful(s, a, r); }
    case _ => EndIsTruthful(s, a, r);
  }

  lemma NewIsTruthful(s: Sys, a: Action, r: nat)
    requires Subject(a).None? && r < |Apply(s, a).runs|
    requires r < |s.runs| ==> RunOk(s.runs[r]) && Truthful(s.runs[r])
    ensures Truthful(Apply(s, a).runs[r])
  {
    match a
    case ASubmit(key, hash, preset, inst, available, full) => SubmitAdds(s, key, hash, preset, inst, available, full);
    case ARestart =>
  }

  /** In every reachable state, every row tells how its run ended: Completed with an
      outcome means that the Runner answered just that. */
  lemma {:induction false} RowsAreTruthful(states: seq<Sys>, acts: seq<Action>, n: nat, r: nat)
    requires IsTrace(states, acts) && n < |states| && r < |states[n].runs|
    ensures Truthful(states[n].runs[r])
  {
    if n > 0 {
      var s, a := states[n - 1], acts[n - 1];
      assert StepOk(s, a, states[n - 1 + 1]);
      if r < |s.runs| {
        RowsAreTruthful(states, acts, n - 1, r);
        AllRunsOk(states, acts, n - 1, r);
      }
      if Subject(a).None? {
        NewIsTruthful(s, a, r);
      } else {
        assert |states[n].runs| == |s.runs| by {
          if Subject(a) != Some(r) && r < |s.runs| { OthersStay(s, a, r); }
          SameRows(s, a);
        }
        if Subject(a) == Some(r) { SubjectIsTruthful(s, a, r); } else { OthersStay(s, a, r); }
      }
    }
  }

  lemma SameRows(s: Sys, a: Action)
    requires Enabled(s, a) && Subject(a).Some?
    ensures |Apply(s, a).runs| == |s.runs|
  {
  }

  /** The submit verdicts of a reachable state: the newest attempt decides alone. */
  lemma ReachableVerdicts(states: seq<Sys>, acts: seq<Action>, n: nat, key: Key, hash: nat, preset: nat, inst: nat,
                          available: bool, full: bool)
    requires IsTrace(states, acts) && n < |states|
    ensures var s := states[n];
      var newest := Latest(s.runs, key);
      var v := Submit(s, key, hash, preset, inst, available, full).1;
      var same := newest.Some? && !OtherContent(s, key, hash);
      && (v.ContentConflict? <==> OtherContent(s, key, hash))
      && (v.RunActive? <==> same && Unfinished(s.runs[newest.value]))
      && (v.NotRetryable? <==> same && Ended(s.runs[newest.value]) && !Harmless(s.runs[newest.value]))
      && (v.Fresh? <==>
            Open(s, inst, available, full) && (newest.None? || (same && Harmless(s.runs[newest.value]))))
  {
    var s := states[n];
    var newest := Latest(s.runs, key);
    Always(states, acts, n);
    SubmitAnswers(s, key, hash, preset, inst, available, full);
    if newest.None? {
      assert !SomeLocks(s, key) && !SomeHarmful(s, key) && key !in s.tasks;
    } else if Passes(s, key, hash, newest) {
      OlderAreHarmless(s);
      NewestIsEnough(s, key, hash, newest);
    }
  }

  lemma OlderAreHarmless(s: Sys)
    requires Inv(s)
    ensures forall i, j :: 0 <= i < j < |s.runs| && s.runs[i].key == s.runs[j].key ==> Harmless(s.runs[i])
  {
    forall i, j | 0 <= i < j < |s.runs| && s.runs[i].key == s.runs[j].key ensures Harmless(s.runs[i]) {
      assert s.runs[i].Proven();
    }
  }

  // --------------------------------------------------------------- runs get there

  /** The state after a list of actions, if each is enabled when its turn comes. */
  function After(s: Sys, acts: seq<Action>): Option<Sys> {
    if acts == [] then Some(s)
    else
      match After(s, acts[..|acts| - 1])
      case Some(t) => if Enabled(t, acts[|acts| - 1]) then Some(Apply(t, acts[|acts| - 1])) else None
      case None => None
  }

  // What the Runner may answer with a validated result.
  predicate Answerable(status: Status, outcome: Outcome) {
    || (status.Completed? && (outcome.Succeeded? || outcome.Partial?))
    || (status.Failed? && outcome.ProviderError?) || (status.Cancelled? && outcome.OCancelled?)
  }

  /** The actions of one undisturbed run, from its permit to its end. */
  function Service(r: nat, status: Status, outcome: Outcome): seq<Action> {
    [AWake(r, Acquired), ASend(r), ARunner(r, Accept), ARunner(r, StartDriver), ARunner(r, EmitEvent), AFirstEvent(r),
     ARunner(r, Conclude(status, outcome, true)), AReply(r), AClose(r, false)]
  }

  // Its row after k of them.
  function RowAt(x: Run, k: nat, status: Status, outcome: Outcome): Run {
    var marked := x.(status := Starting, started := true, phase := Marked);
    var driving := marked.(phase := Streaming(false), rpc := Driving, executed := true, driverLive := true);
    var answered := driving.(status := Running, phase := Streaming(true), events := true, driverLive := false,
                             rpc := Replied(Answer(status, outcome)));
    if k == 0 then x
    else if k == 1 then marked
    else if k == 2 then marked.(phase := Streaming(false), rpc := InFlight)
    else if k == 3 then marked.(phase := Streaming(false), rpc := AtRunner(false))
    else if k == 4 then driving
    else if k == 5 then driving.(events := true)
    else if k == 6 then driving.(events := true, status := Running, phase := Streaming(true))
    else if k == 7 then answered
    else answered.(status := status, outcome := Some(outcome), phase := if k == 8 then Closing else NoTask)
  }

  // A state like s but for the row of r.
  ghost predicate At(s: Sys, t: Sys, r: nat, x: Run) {
    r < |s.runs| && t.runs == s.runs[r := x] && t.tasks == s.tasks && t.quarantine == s.quarantine && t.epoch == s.epoch
  }

  predicate Serves(s: Sys, t: Sys, a: Action, r: nat, y: Run)
    requires r < |t.runs|
  {
    Enabled(t, a) && Apply(t, a) == t.(runs := t.runs[r := y])
  }

  lemma IsDispatched(s: Sys, t: Sys, r: nat, k: nat, status: Status, outcome: Outcome)
    requires CanWake(s, r, Acquired) && s.runs[r].status.Queued? && s.runs[r].inst !in s.quarantine
    requires k < 2 && At(s, t, r, RowAt(s.runs[r], k, status, outcome))
    ensures Serves(s, t, Service(r, status, outcome)[k], r, RowAt(s.runs[r], k + 1, status, outcome))
  {
    if k == 0 { assert t == s; }
  }

  lemma IsDriven(s: Sys, t: Sys, r: nat, k: nat, status: Status, outcome: Outcome)
    requires r < |s.runs| && 2 <= k < 5 && At(s, t, r, RowAt(s.runs[r], k, status, outcome))
    ensures Serves(s, t, Service(r, status, outcome)[k], r, RowAt(s.runs[r], k + 1, status, outcome))
  {
  }

  lemma IsAnswered(s: Sys, t: Sys, r: nat, k: nat, status: Status, outcome: Outcome)
    requires r < |s.runs| && 5 <= k < 7 && At(s, t, r, RowAt(s.runs[r], k, status, outcome))
    requires Answerable(status, outcome)
    ensures Serves(s, t, Service(r, status, outcome)[k], r, RowAt(s.runs[r], k + 1, status, outcome))
  {
  }

  lemma IsStored(s: Sys, t: Sys, r: nat, k: nat, status: Status, outcome: Outcome)
    requires r < |s.runs| && 7 <= k < 9 && At(s, t, r, RowAt(s.runs[r], k, status, outcome))
    requires Answerable(status, outcome) && s.runs[r].inst !in s.quarantine
    ensures Serves(s, t, Service(r, status, outcome)[k], r, RowAt(s.runs[r], k + 1, status, outcome))
  {
  }

  lemma IsServed(s: Sys, t: Sys, r: nat, k: nat, status: Status, outcome: Outcome)
    requires CanWake(s, r, Acquired) && s.runs[r].status.Queued? && s.runs[r].inst !in s.quarantine
    requires Answerable(status, outcome) && k < 9 && At(s, t, r, RowAt(s.runs[r], k, status, outcome))
    ensures var a := Service(r, status, outcome)[k];
      Enabled(t, a) && At(s, Apply(t, a), r, RowAt(s.runs[r], k + 1, status, outcome))
  {
    ServesNext(s, t, r, k, status, outcome);
    AtNext(s, t, Service(r, status, outcome)[k], r, RowAt(s.runs[r], k, status, outcome),
           RowAt(s.runs[r], k + 1, status, outcome));
  }

  lemma AtNext(s: Sys, t: Sys, a: Action, r: nat, x: Run, y: Run)
    requires At(s, t, r, x) && Serves(s, t, a, r, y)
    ensures At(s, Apply(t, a), r, y)
  {
  }

  lemma ServesNext(s: Sys, t: Sys, r: nat, k: nat, status: Status, outcome: Outcome)
    requires CanWake(s, r, Acquired) && s.runs[r].status.Queued? && s.runs[r].inst !in s.quarantine
    requires Answerable(status, outcome) && k < 9 && At(s, t, r, RowAt(s.runs[r], k, status, outcome))
    ensures Serves(s, t, Service(r, status, outcome)[k], r, RowAt(s.runs[r], k + 1, status, outcome))
  {
    if k < 2 {
      IsDispatched(s, t, r, k, status, outcome);
    } else if k < 5 {
      IsDriven(s, t, r, k, status, outcome);
    } else if k < 7 {
      IsAnswered(s, t, r, k, status, outcome);
    } else {
      IsStored(s, t, r, k, status, outcome);
    }
  }

  lemma OneMore(s: Sys, acts: seq<Action>, t: Sys, a: Action)
    requires After(s, acts) == Some(t) && Enabled(t, a)
    ensures After(s, acts + [a]) == Some(Apply(t, a))
  {
    assert (acts + [a])[..|acts|] == acts;
  }

  lemma {:induction false} ServedUpTo(s: Sys, r: nat, k: nat, status: Status, outcome: Outcome) returns (t: Sys)
    requires CanWake(s, r, Acquired) && s.runs[r].status.Queued? && s.runs[r].inst !in s.quarantine
    requires Answerable(status, outcome) && k <= 9
    ensures After(s, Service(r, status, outcome)[..k]) == Some(t) && At(s, t, r, RowAt(s.runs[r], k, status, outcome))
  {
    var acts := Service(r, status, outcome);
    if k == 0 {
      t := s;
    } else {
      var u := ServedUpTo(s, r, k - 1, status, outcome);
      IsServed(s, u, r, k - 1, status, outcome);
      OneMore(s, acts[..k - 1], u, acts[k - 1]);
      assert acts[..k] == acts[..k - 1] + [acts[k - 1]];
      t := Apply(u, acts[k - 1]);
    }
  }

  /** From every reachable state, a queued run whose instance is free and not
      quarantined can be dispatched, executed and finished with whatever its Runner
      answers; its row then says so, and nothing else has changed. */
  lemma QueuedRunIsServed(states: seq<Sys>, acts: seq<Action>, n: nat, r: nat, status: Status, outcome: Outcome)
    returns (t: Sys)
    requires IsTrace(states, acts) && n < |states| && r < |states[n].runs| && states[n].runs[r].phase.Waiting?
    requires states[n].runs[r].inst !in states[n].quarantine && Answerable(status, outcome)
    requires forall i :: states[n].epoch <= i < |states[n].runs| && states[n].runs[i].inst == states[n].runs[r].inst ==>
      !states[n].runs[i].Holding()
    ensures After(states[n], Service(r, status, outcome)) == Some(t)
    ensures At(states[n], t, r, states[n].runs[r].(status := status, outcome := Some(outcome), started := true,
        phase := NoTask, rpc := Replied(Answer(status, outcome)), events := true, executed := true,
        driverLive := false))
  {
    AllRunsOk(states, acts, n, r);
    t := ServedUpTo(states[n], r, 9, status, outcome);
    assert Service(r, status, outcome)[..9] == Service(r, status, outcome);
  }

  lemma CancelIsSeen(s: Sys, r: nat)
    requires r < |s.runs| && s.runs[r].phase == Waiting(true)
    requires s.runs[r].inst in s.quarantine ==> s.quarantine[s.runs[r].inst] != r
    ensures Serves(s, s, AWake(r, CancelSeen), r,
      s.runs[r].(status := Cancelled, outcome := Some(OCancelled), phase := NoTask))
  {
  }

  /** From every reachable state, a queued run can be cancelled: it is recorded as
      cancelled, undispatched, and nothing else has changed. */
  lemma QueuedRunIsCancelled(states: seq<Sys>, acts: seq<Action>, n: nat, r: nat) returns (t: Sys)
    requires IsTrace(states, acts) && n < |states| && r < |states[n].runs| && states[n].runs[r].phase.Waiting?
    ensures After(states[n], [ACancelCall(r), AWake(r, CancelSeen)]) == Some(t)
    ensures var x := states[n].runs[r];
      At(states[n], t, r, x.(status := Cancelled, outcome := Some(OCancelled), phase := NoTask))
      && !x.started && !x.executed
  {
    AllRunsOk(states, acts, n, r);
    Always(states, acts, n);
    var s := states[n];
    assert s.runs[r].inst in s.quarantine ==> s.quarantine[s.runs[r].inst] != r;
    CancelIsCarriedOut(s, r);
    t := After(s, [ACancelCall(r), AWake(r, CancelSeen)]).value;
  }

  lemma CancelIsCarriedOut(s: Sys, r: nat)
    requires r < |s.runs| && s.runs[r].status.Queued? && s.runs[r].phase.Waiting?
    requires s.runs[r].inst in s.quarantine ==> s.quarantine[s.runs[r].inst] != r
    ensures var t := After(s, [ACancelCall(r), AWake(r, CancelSeen)]);
      t.Some? && At(s, t.value, r, s.runs[r].(status := Cancelled, outcome := Some(OCancelled), phase := NoTask))
  {
    var flagged := s.(runs := s.runs[r := s.runs[r].(phase := Waiting(true))]);
    assert Apply(s, ACancelCall(r)) == flagged;
    CancelIsSeen(flagged, r);
    Both(s, ACancelCall(r), flagged, AWake(r, CancelSeen));
  }

  lemma Both(s: Sys, a: Action, t: Sys, b: Action)
    requires Enabled(s, a) && Apply(s, a) == t && Enabled(t, b)
    ensures After(s, [a, b]) == Some(Apply(t, b))
  {
    OneMore(s, [], s, a);
    assert [] + [a] == [a] && [a] + [b] == [a, b];
    OneMore(s, [a], t, b);
  }

  // -------------------------------------------------------------- the Runner side

  /** The reply that each move of the Runner sends, if any. */
  lemma MoveReplies(x: Run, m: RunnerMove)
    requires CanMove(x, m)
    ensures var y := Move(x, m);
      && (m.Reject? ==> y.rpc == Replied(Error(m.code)))
      && (m.Deny? ==> y.rpc == Replied(Answer(Failed, ProviderError)))
      && (m.AnswerCancelled? ==> y.rpc == Replied(Answer(Cancelled, OCancelled)))
      && (m.Conclude? ==> y.rpc == Replied(Answer(m.status, m.outcome)))
      && (m.GiveUp? ==> y.rpc == Replied(Answer(Unknown, OUnknown)))
      && (m.Crash? ==> y.rpc == Replied(Error(InternalError)))
      && (m.Lose? ==> y.rpc == Lost)
      && (m.EmitEvent? || m.AbandonedStops? ==> y.rpc == x.rpc)
  {
  }

  /** What it does to the driver. */
  lemma MoveDrives(x: Run, m: RunnerMove)
    requires CanMove(x, m)
    ensures var live := Move(x, m).driverLive;
      && (m.StartDriver? ==> live)
      && (m.Conclude? || m.GiveUp? ==> live == !m.stopped)
      && (m.Crash? ==> live == (x.driverLive && !m.stopped))
      && (m.AbandonedStops? ==> !live)
      && (m.Reject? || m.Deny? || m.Accept? || m.CancelQueued? || m.AnswerCancelled? || m.EmitEvent? || m.Lose? ==>
            live == x.driverLive)
  {
  }

  /** And the run's history; the rest, which the API process keeps, it leaves alone. */
  lemma MoveRecords(x: Run, m: RunnerMove)
    requires CanMove(x, m)
    ensures var y := Move(x, m);
      y.events == (x.events || m.Deny? || m.EmitEvent?) && y.executed == (x.executed || m.StartDriver?)
  {
  }
}
