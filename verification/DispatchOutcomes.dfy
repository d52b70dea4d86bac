/**
 What each step of a dispatch makes of its receipt, step by step and over a whole
 tick: the counterpart of the prohibitions, which a dispatcher that does nothing
 would keep.
 */
module DispatchOutcomes {
  import opened Common
  import opened DispatchLedger
  import opened DispatchProtocol

  // No transition leaves one of these states.
  predicate Closed(r: Receipt) {
    r.state.Review? || r.state.Blocked? || r.state.Aborted? || r.state.Cancelled? || r.state.Failed?
  }

  // Only receipt d and the tick differ, and of the receipt at most these columns.
  predicate Rewrites(s: Sys, t: Sys, d: nat) {
    && Known(s, d) && t.flows == s.flows && t.ledger.approvals == s.ledger.approvals
    && |t.ledger.receipts| == |s.ledger.receipts|
    && t.ledger.receipts == s.ledger.receipts[d := t.ledger.receipts[d]]
    && var r, q := s.ledger.receipts[d], t.ledger.receipts[d];
       q == r.(state := q.state, run := q.run, kernelRun := q.kernelRun)
  }

  // -------------------------------------------------------------- the run view

  /** What the tick does with the view it reads of a submitted, uncancelled request. */
  lemma ViewDecides(s: Sys, d: nat)
    requires Enabled(s, HandleView) && s.tick.id == d
    requires s.ledger.receipts[d].state.Submitted? && !s.ledger.receipts[d].cancelRequested
    ensures var view, t := s.tick.pc.view, DispatchProtocol.Apply(s, HandleView);
      && Rewrites(s, t, d)
      && var q := t.ledger.receipts[d];
      && q == s.ledger.receipts[d].(state := q.state)
      && (q.state.Completing? <==> view == HasCompleted(true))
      && (q.state.Failed? <==> view.HasFailed? || view == HasCompleted(false))
      && (q.state.Cancelled? <==> view.WasCancelled?)
      && (q.state.Unknown? <==> view.Foreign?)
      && (q.state.Submitted? <==> view.Live?)
      && t.tick == if q.state.Completing? then Working(d, AtCompleting) else Scanning
  {
  }

  /** Under a cancel the view still decides, but for a success: that goes to the
      cancel path, unrecorded. */
  lemma ViewUnderCancelDecides(s: Sys, d: nat)
    requires Enabled(s, HandleView) && s.tick.id == d
    requires s.ledger.receipts[d].state.Submitted? && s.ledger.receipts[d].cancelRequested
    ensures var view, t := s.tick.pc.view, DispatchProtocol.Apply(s, HandleView);
      && Rewrites(s, t, d)
      && var q := t.ledger.receipts[d];
      && (t.tick == Working(d, OnCancelPath) <==> view == HasCompleted(true))
      && (t.tick.Scanning? <==> view != HasCompleted(true))
      && (q.state.Failed? <==> view.HasFailed? || view == HasCompleted(false))
      && (q.state.Cancelled? <==> view.WasCancelled?)
      && (q.state.Unknown? <==> view.Foreign?)
      && (q.state.Submitted? <==> view.Live? || view == HasCompleted(true))
  {
  }

  // --------------------------------------------------------- the other writes

  // The steps of a tick that write a state of their own choosing.
  predicate Writes(step: Step) {
    || step.AbortUnclaimed? || step.BlockUnsubmitted? || step.MarkClaimed? || step.LoseReply? || step.TakeReply?
    || step.FailVerification? || step.RefuseReview? || step.FinishReview? || step.TakeCancelPath? || step.KernelFails?
  }

  /** The state each of them is there to record. */
  function Recorded(step: Step): State
    requires Writes(step)
  {
    match step
    case AbortUnclaimed => Aborted
    case BlockUnsubmitted => Blocked
    case MarkClaimed(_) => Claimed
    case LoseReply => Unknown
    case TakeReply(_, _) => Submitted
    case FailVerification => Blocked
    case RefuseReview => Unknown
    case FinishReview => Review
    case TakeCancelPath => Cancelled
    case KernelFails => Unknown
  }

  // Refused exactly on a closed receipt, and for the review on a cancelled one;
  // otherwise that state is written, with the run ids the step has learned.
  ghost predicate RecordsIt(s: Sys, step: Step, t: Sys)
    requires Enabled(s, step) && Writes(step)
  {
    var d := s.tick.id;
    && Rewrites(s, t, d)
    && var r, q := s.ledger.receipts[d], t.ledger.receipts[d];
    if Closed(r) || (step.FinishReview? && r.cancelRequested) then q == r
    else
      && q.state == Recorded(step)
      && q.run == (if step.TakeReply? then Some(step.run) else r.run)
      && q.kernelRun == (if step.MarkClaimed? then Some(step.krun) else r.kernelRun)
  }

  lemma EarlyWriteIsRecorded(s: Sys, step: Step)
    requires Enabled(s, step) && Writes(step) && Prepares(step)
    ensures RecordsIt(s, step, DispatchProtocol.Apply(s, step))
  {
  }

  lemma ReplyWriteIsRecorded(s: Sys, step: Step)
    requires Enabled(s, step) && (step.TakeReply? || step.FinishReview? || step.TakeCancelPath?)
    ensures RecordsIt(s, step, DispatchProtocol.Apply(s, step))
  {
  }

  lemma FailureIsRecorded(s: Sys, step: Step)
    requires Enabled(s, step)
    requires step.LoseReply? || step.FailVerification? || step.RefuseReview? || step.KernelFails?
    ensures RecordsIt(s, step, DispatchProtocol.Apply(s, step))
  {
  }

  /** Every write of the tick is refused exactly on a closed receipt, and for the
      review on a cancelled one; otherwise it is the step's state that is recorded. */
  lemma WriteIsRecorded(s: Sys, step: Step)
    requires Enabled(s, step) && Writes(step)
    ensures RecordsIt(s, step, DispatchProtocol.Apply(s, step))
  {
    if Prepares(step) {
      EarlyWriteIsRecorded(s, step);
    } else if step.TakeReply? || step.FinishReview? || step.TakeCancelPath? {
      ReplyWriteIsRecorded(s, step);
    } else {
      FailureIsRecorded(s, step);
    }
  }

  /** After a write the tick goes on with this receipt or scans further; a refused
      one goes to the cancel path where a cancel can explain it. */
  lemma WriteMovesOn(s: Sys, step: Step)
    requires Enabled(s, step) && Writes(step)
    ensures var d, t := s.tick.id, DispatchProtocol.Apply(s, step);
      var r := s.ledger.receipts[d];
      if Closed(r) || (step.FinishReview? && r.cancelRequested) then
        t.tick == (if step.TakeCancelPath? then Scanning
          else if step.KernelFails? then NoTick
          else if step.BlockUnsubmitted? then (if r.cancelRequested then Scanning else NoTick)
          else if step.AbortUnclaimed? || step.MarkClaimed? || step.TakeReply? || step.FinishReview?
               || r.cancelRequested || r.state.Cancelled? then Working(d, OnCancelPath)
          else NoTick)
      else
        t.tick == (if step.MarkClaimed? then Working(d, AtClaimed)
          else if step.TakeReply? then Working(d, AtReplied(step.view))
          else Scanning)
  {
  }

  /** Recovery resolves each row of its snapshot: a reservation that was never claimed
      is aborted, anything else that is still open becomes unknown. */
  lemma RecoveryResolves(s: Sys)
    requires Enabled(s, Recover)
    ensures var (d, seen), t := s.tick.stale[0], DispatchProtocol.Apply(s, Recover);
      && t.tick == Recovering(s.tick.stale[1..]) && Rewrites(s, t, d)
      && var r, q := s.ledger.receipts[d], t.ledger.receipts[d];
      && q == r.(state := q.state)
      && q.state == (if Closed(r) || seen.Unknown? then r.state else if seen.Reserved? then Aborted else Unknown)
  {
  }

  /** An operator's resolve records what it asked for on an open receipt, a review
      only without a cancel on record; closing a cancelled dispatch records that. */
  lemma ControlIsRecorded(s: Sys, step: Step)
    requires Enabled(s, step) && (step.Resolve? || step.CloseCancelled?)
    ensures var t := DispatchProtocol.Apply(s, step);
      && Rewrites(s, t, step.id) && t.tick == s.tick
      && var r, q := s.ledger.receipts[step.id], t.ledger.receipts[step.id];
      && q.run == r.run
      && q.kernelRun == (if step.Resolve? && step.to.Unknown? && step.kernelRun.Some? && !Closed(r) then step.kernelRun
          else r.kernelRun)
      && q.state == (if Closed(r) || (step.Resolve? && step.to.Review? && r.cancelRequested) then r.state
          else if step.Resolve? then step.to else Cancelled)
  {
  }

  // ------------------------------------------------------------- a whole dispatch

  /** The state after a list of steps, if each is enabled when its turn comes. */
  function After(s: Sys, steps: seq<Step>): Option<Sys> {
    if steps == [] then Some(s)
    else
      match After(s, steps[..|steps| - 1])
      case Some(t) =>
        var step := steps[|steps| - 1];
        if Enabled(t, step) then Some(DispatchProtocol.Apply(t, step)) else None
      case None => None
  }

  lemma OneMore(s: Sys, steps: seq<Step>, t: Sys, step: Step)
    requires After(s, steps) == Some(t) && Enabled(t, step)
    ensures After(s, steps + [step]) == Some(DispatchProtocol.Apply(t, step))
  {
    assert (steps + [step])[..|steps|] == steps;
  }

  /** What the dispatcher, the wrapper and then the dispatcher again do about a fresh
      reservation whose request succeeds. */
  function Dispatching(d: nat, krun: nat, run: nat): seq<Step> {
    [WinClaim, MarkClaimed(krun), CheckCancel, Submit, RequestEnds(d), TakeReply(HasCompleted(true), run), HandleView,
     EnterReview, FinishReview]
  }

  // The receipt after k of them.
  function ReceiptAt(r: Receipt, k: nat, krun: nat, run: nat): Receipt {
    if k < 2 then r
    else if k < 6 then r.(state := Claimed, kernelRun := Some(krun))
    else r.(state := if k == 6 then Submitted else if k < 9 then Completing else Review,
            kernelRun := Some(krun), run := Some(run))
  }

  function FlowAt(f: Flow, k: nat): Flow {
    f.(submitted := k >= 4, ended := k >= 5)
  }

  function TickAt(d: nat, k: nat): Tick {
    if k == 9 then Scanning
    else Working(d, if k == 0 then AtReserved else if k == 1 then AtClaimWon else if k == 2 then AtClaimed
      else if k == 3 then AtChecked else if k < 6 then InHttp else if k == 6 then AtReplied(HasCompleted(true))
      else if k == 7 then AtCompleting else AtReviewed)
  }

  // A state like s but for the tick and what concerns d.
  ghost predicate At(s: Sys, t: Sys, d: nat, r: Receipt, f: Flow, tick: Tick) {
    && Known(s, d) && t.tick == tick && t.ledger.approvals == s.ledger.approvals
    && t.ledger.receipts == s.ledger.receipts[d := r] && t.flows == s.flows[d := f]
  }

  // A reservation just made, with nothing on record against it.
  predicate JustReserved(s: Sys, d: nat) {
    Known(s, d) && s.tick == Working(d, AtReserved) && s.flows[d] == Flow(false, false, None)
    && s.ledger.receipts[d].state.Reserved? && !s.ledger.receipts[d].cancelRequested
  }

  ghost predicate Stage(s: Sys, t: Sys, d: nat, k: nat, krun: nat, run: nat) {
    Known(s, d) && At(s, t, d, ReceiptAt(s.ledger.receipts[d], k, krun, run), FlowAt(s.flows[d], k), TickAt(d, k))
  }

  lemma IsSubmitted(s: Sys, t: Sys, d: nat, k: nat, krun: nat, run: nat)
    requires JustReserved(s, d) && k < 4 && Stage(s, t, d, k, krun, run)
    ensures var step := Dispatching(d, krun, run)[k];
      Enabled(t, step) && Stage(s, DispatchProtocol.Apply(t, step), d, k + 1, krun, run)
  {
  }

  lemma IsReviewed(s: Sys, t: Sys, d: nat, k: nat, krun: nat, run: nat)
    requires JustReserved(s, d) && 4 <= k < 9 && Stage(s, t, d, k, krun, run)
    ensures var step := Dispatching(d, krun, run)[k];
      Enabled(t, step) && Stage(s, DispatchProtocol.Apply(t, step), d, k + 1, krun, run)
  {
  }

  lemma IsServed(s: Sys, t: Sys, d: nat, k: nat, krun: nat, run: nat)
    requires JustReserved(s, d) && k < 9 && Stage(s, t, d, k, krun, run)
    ensures var step := Dispatching(d, krun, run)[k];
      Enabled(t, step) && Stage(s, DispatchProtocol.Apply(t, step), d, k + 1, krun, run)
  {
    if k < 4 { IsSubmitted(s, t, d, k, krun, run); } else { IsReviewed(s, t, d, k, krun, run); }
  }

  lemma {:induction false} ServedUpTo(s: Sys, d: nat, k: nat, krun: nat, run: nat) returns (t: Sys)
    requires JustReserved(s, d) && k <= 9
    ensures After(s, Dispatching(d, krun, run)[..k]) == Some(t) && Stage(s, t, d, k, krun, run)
  {
    var steps := Dispatching(d, krun, run);
    if k == 0 {
      t := s;
    } else {
      var v := ServedUpTo(s, d, k - 1, krun, run);
      IsServed(s, v, d, k - 1, krun, run);
      OneMore(s, steps[..k - 1], v, steps[k - 1]);
      assert steps[..k] == steps[..k - 1] + [steps[k - 1]];
      t := DispatchProtocol.Apply(v, steps[k - 1]);
    }
  }

  lemma {:induction false} AfterBoth(s: Sys, xs: seq<Step>, t: Sys, ys: seq<Step>)
    requires After(s, xs) == Some(t)
    ensures After(s, xs + ys) == After(t, ys)
  {
    if ys == [] {
      assert xs + ys == xs;
    } else {
      AfterBoth(s, xs, t, ys[..|ys| - 1]);
      assert (xs + ys)[..|xs + ys| - 1] == xs + ys[..|ys| - 1];
    }
  }

  // Nothing stands against a reservation: no open receipt of its task or workspace,
  // and the grant it is to consume, if any, is applied, exact and unexpired.
  predicate Reservable(l: Ledger, scope: Scope, workspace: nat, consume: Option<nat>, now: int) {
    && (forall i :: 0 <= i < |l.receipts| && Unresolved(l.receipts[i]) ==>
          l.receipts[i].scope.task != scope.task && l.receipts[i].workspace != workspace)
    && (consume.Some? ==>
          consume.value < |l.approvals| && var a := l.approvals[consume.value];
          a.state.Applied? && a.scope == scope && a.forDispatch && now < a.expiresAt)
  }

  predicate Unresolved(r: Receipt) {
    r.state.Reserved? || r.state.Claimed? || r.state.Submitted? || r.state.Completing? || r.state.Unknown?
  }

  // The reservation itself: one more receipt, and the grant burned.
  lemma IsReserved(s: Sys, scope: Scope, workspace: nat, consume: Option<nat>, now: int)
    requires s.tick.Scanning? && |s.flows| == |s.ledger.receipts|
    requires Reservable(s.ledger, scope, workspace, consume, now)
    ensures var d, step := |s.ledger.receipts|, NewReceipt(scope, workspace, consume, now);
      var t := DispatchProtocol.Apply(s, step);
      && JustReserved(t, d) && t.flows == s.flows + [Flow(false, false, None)]
      && t.ledger.receipts
         == s.ledger.receipts + [Receipt(scope, workspace, Reserved, None, None, false, now, consume)]
      && t.ledger.approvals == match consume
         case None => s.ledger.approvals
         case Some(a) => s.ledger.approvals[a := s.ledger.approvals[a].(state := Consumed)]
  {
  }

  /** From every reachable state of a scanning tick, a dispatch that nothing stands
      against can go all the way: reserved, claimed, submitted, and, when its request
      succeeds, in review, with its run and its claim on record. */
  lemma DispatchIsReviewed(states: seq<Sys>, trace: seq<Step>, n: nat, scope: Scope, workspace: nat,
                           consume: Option<nat>, now: int, krun: nat, run: nat) returns (t: Sys)
    requires IsTrace(states, trace) && n < |states| && states[n].tick.Scanning?
    requires Reservable(states[n].ledger, scope, workspace, consume, now)
    ensures var s, d := states[n], |states[n].ledger.receipts|;
      && After(s, [NewReceipt(scope, workspace, consume, now)] + Dispatching(d, krun, run)) == Some(t)
      && t.tick.Scanning? && t.flows == s.flows + [Flow(true, true, None)]
      && t.ledger.receipts == s.ledger.receipts
           + [Receipt(scope, workspace, Review, Some(run), Some(krun), false, now, consume)]
  {
    var s, d := states[n], |states[n].ledger.receipts|;
    DispatchProtocol.Always(states, trace, n);
    var first := NewReceipt(scope, workspace, consume, now);
    IsReserved(s, scope, workspace, consume, now);
    var s1 := DispatchProtocol.Apply(s, first);
    OneMore(s, [], s, first);
    assert [] + [first] == [first];
    t := ServedUpTo(s1, d, 9, krun, run);
    var steps := Dispatching(d, krun, run);
    assert steps[..9] == steps;
    AfterBoth(s, [first], s1, steps);
  }

  const HANDOFF: seq<Step> := [HandleView, EnterReview, FinishReview]

  predicate AwaitsHandoff(s: Sys, d: nat) {
    Known(s, d) && s.tick == Working(d, AtReplied(HasCompleted(true)))
    && s.ledger.receipts[d].state.Submitted? && !s.ledger.receipts[d].cancelRequested
  }

  // The state after k steps of the handoff.
  function HandoffAt(s: Sys, d: nat, k: nat): Sys
    requires Known(s, d)
  {
    var q := s.ledger.receipts[d].(state := if k == 0 then Submitted else if k < 3 then Completing else Review);
    Sys(s.ledger.(receipts := s.ledger.receipts[d := q]), s.flows,
        if k == 0 then Working(d, AtReplied(HasCompleted(true))) else if k == 1 then Working(d, AtCompleting)
        else if k == 2 then Working(d, AtReviewed) else Scanning)
  }

  lemma HandoffStep(s: Sys, d: nat, k: nat)
    requires AwaitsHandoff(s, d) && k < 3
    ensures Enabled(HandoffAt(s, d, k), HANDOFF[k])
    ensures DispatchProtocol.Apply(HandoffAt(s, d, k), HANDOFF[k]) == HandoffAt(s, d, k + 1)
  {
    var u, t := HandoffAt(s, d, k), HandoffAt(s, d, k + 1);
    assert u.ledger.receipts[d := t.ledger.receipts[d]] == t.ledger.receipts;
  }

  lemma {:induction false} HandedOffUpTo(s: Sys, d: nat, k: nat)
    requires AwaitsHandoff(s, d) && k <= 3
    ensures After(s, HANDOFF[..k]) == Some(HandoffAt(s, d, k))
  {
    if k == 0 {
      assert HandoffAt(s, d, 0) == s;
    } else {
      HandedOffUpTo(s, d, k - 1);
      HandoffStep(s, d, k - 1);
      OneMore(s, HANDOFF[..k - 1], HandoffAt(s, d, k - 1), HANDOFF[k - 1]);
      assert HANDOFF[..k] == HANDOFF[..k - 1] + [HANDOFF[k - 1]];
    }
  }

  /** From every state in which a tick holds a succeeded view of a submitted,
      uncancelled request, three steps put it into review, and nothing else changes. */
  lemma SuccessIsReviewed(s: Sys, d: nat)
    requires Known(s, d) && s.tick == Working(d, AtReplied(HasCompleted(true)))
    requires s.ledger.receipts[d].state.Submitted? && !s.ledger.receipts[d].cancelRequested
    ensures var reviewed := s.ledger.receipts[d := s.ledger.receipts[d].(state := Review)];
      After(s, [HandleView, EnterReview, FinishReview])
        == Some(Sys(Ledger(reviewed, s.ledger.approvals), s.flows, Scanning))
  {
    HandedOffUpTo(s, d, 3);
    assert HANDOFF[..3] == [HandleView, EnterReview, FinishReview];
  }

  /** The cancel check before the request: it turns back exactly when a cancel is on
      record, and writes nothing. */
  lemma CancelIsChecked(s: Sys)
    requires Enabled(s, CheckCancel)
    ensures var d, t := s.tick.id, DispatchProtocol.Apply(s, CheckCancel);
      t == s.(tick := Working(d, t.tick.pc))
      && (t.tick.pc.OnCancelPath? <==> s.ledger.receipts[d].cancelRequested)
      && (t.tick.pc.AtChecked? <==> !s.ledger.receipts[d].cancelRequested)
  {
  }
}
