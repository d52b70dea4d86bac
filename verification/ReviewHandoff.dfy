/**
 The dispatcher handing a verified card to review while an operator cancels the
 same dispatch, and other actors keep changing the card.

 The kernel is an environment: its calls either refuse or do what they are fenced
 to do, and each is atomic. A kernel error ends neither actor normally, so runs
 with one are not among those that finish here.
 */
module ReviewHandoff {
  import opened Common
  import opened DispatchLedger

  datatype CardStatus = CRunning | CReady | CReview | CBlocked | COther

  datatype Card = Card(status: CardStatus, current: Option<nat>, reviewRun: Option<nat>)

  // From a submitted receipt with a completed run to the end of the tick.
  datatype Dispatcher =
    | BeforeVerify | Verified | HandedOff
    | CancelRead | CancelReopen | CancelBlock | CancelClose
    | DispatcherDone

  datatype Canceller = Idle | Flagged | MustBlock | MustReopen | MustClose | CancellerDone

  datatype Sys = Sys(receipt: Receipt, krun: nat, card: Card, disp: Dispatcher, canc: Canceller)

  datatype Step =
    | StartVerify | GiveUp(to: State) | RequestReview(ok: bool, after: Card) | RecordReview
    | ReadCard | Reopen(after: Card) | Block(after: Card) | CloseReceipt
    | RequestCancelCmd | ReadCardCmd | BlockCmd(after: Card) | ReopenCmd(after: Card) | CloseCmd
    | Foreign(after: Card)

  /** The card sits in review on the strength of this dispatch's run. */
  predicate InReviewUnderUs(s: Sys) {
    s.card.status.CReview? && s.card.reviewRun == Some(s.krun)
  }

  // The bridge's guard for reopening a review.
  predicate MayReopen(c: Card, expected: nat) {
    c.status.CReview? && c.reviewRun == Some(expected) && (c.current.None? || c.current.value == expected)
  }

  predicate MayBlock(c: Card, ours: nat) {
    (c.status.CRunning? || c.status.CReady?) && (c.current.None? || c.current.value == ours)
  }

  // A fenced call: refused outside its guard, otherwise it has its effect.
  predicate ReopenEffect(c: Card, expected: nat, after: Card) {
    if MayReopen(c, expected) then !after.status.CReview? else after == c
  }

  // Blocking may also be refused by the kernel itself.
  predicate BlockEffect(c: Card, ours: nat, after: Card) {
    after == c || (MayBlock(c, ours) && after == c.(status := CBlocked))
  }

  predicate Enabled(s: Sys, step: Step) {
    match step
    case StartVerify => s.disp.BeforeVerify?
    case GiveUp(to) => (s.disp.BeforeVerify? || s.disp.Verified?) && !to.Review?
    case RequestReview(ok, after) =>
      s.disp.Verified?
      && (if ok then s.card.current == Some(s.krun) && after.status.CReview? && after.reviewRun == Some(s.krun)
                     && (after.current.None? || after.current == Some(s.krun))
          else after == s.card)
    case RecordReview => s.disp.HandedOff?
    case ReadCard => s.disp.CancelRead?
    case Reopen(after) => s.disp.CancelReopen? && ReopenEffect(s.card, s.krun, after)
    case Block(after) => s.disp.CancelBlock? && BlockEffect(s.card, s.krun, after)
    case CloseReceipt => s.disp.CancelClose?
    case RequestCancelCmd => s.canc.Idle?
    case ReadCardCmd => s.canc.Flagged?
    case BlockCmd(after) => s.canc.MustBlock? && BlockEffect(s.card, s.krun, after)
    case ReopenCmd(after) => s.canc.MustReopen? && ReopenEffect(s.card, s.krun, after)
    case CloseCmd => s.canc.MustClose?
    // others never create our review, and a card in review runs nothing foreign
    case Foreign(after) =>
      after.status.CReview? && after.reviewRun == Some(s.krun) ==>
        InReviewUnderUs(s) && (after.current.None? || after.current == Some(s.krun))
  }

  function Moved(r: Receipt, to: State, nc: bool): Receipt {
    match Move(r, to, None, None, nc) case Some(x) => x case None => r
  }

  // What the cancel command does about the card it reads.
  function PlanFor(c: Card): Canceller {
    if c.status.CRunning? || c.status.CReady? then MustBlock else if c.status.CReview? then MustReopen else MustClose
  }

  function Apply(s: Sys, step: Step): Sys
    requires Enabled(s, step)
  {
    match step
    case StartVerify =>
      if Move(s.receipt, Completing, None, None, true).Some?
      then s.(receipt := Moved(s.receipt, Completing, true), disp := Verified)
      else s.(disp := CancelRead)
    case GiveUp(to) =>
      if Move(s.receipt, to, None, None, false).Some?
      then s.(receipt := Moved(s.receipt, to, false), disp := DispatcherDone)
      else s.(disp := CancelRead)
    case RequestReview(ok, after) =>
      if ok then s.(card := after, disp := HandedOff)
      else if Move(s.receipt, Unknown, None, None, false).Some?
      then s.(receipt := Moved(s.receipt, Unknown, false), disp := DispatcherDone)
      else s.(disp := CancelRead)
    case RecordReview =>
      if Move(s.receipt, Review, None, None, true).Some?
      then s.(receipt := Moved(s.receipt, Review, true), disp := DispatcherDone)
      else s.(disp := CancelRead)
    case ReadCard => s.(disp := if s.card.status.CReview? then CancelReopen else CancelBlock)
    case Reopen(after) => s.(card := after, disp := if MayReopen(s.card, s.krun) then CancelBlock else CancelClose)
    case Block(after) => s.(card := after, disp := CancelClose)
    case CloseReceipt => s.(receipt := Moved(s.receipt, Cancelled, false), disp := DispatcherDone)
    case RequestCancelCmd => s.(receipt := s.receipt.(cancelRequested := true), canc := Flagged)
    case ReadCardCmd =>
      s.(canc := PlanFor(s.card))
    case BlockCmd(after) => s.(card := after, canc := MustClose)
    case ReopenCmd(after) => s.(card := after, canc := if MayReopen(s.card, s.krun) then MustBlock else MustClose)
    case CloseCmd => s.(receipt := Moved(s.receipt, Cancelled, false), canc := CancellerDone)
    case Foreign(after) => s.(card := after)
  }

  predicate Init(s: Sys) {
    s.receipt.state.Submitted? && !s.receipt.cancelRequested && s.receipt.kernelRun == Some(s.krun)
    && s.disp.BeforeVerify? && s.canc.Idle? && !InReviewUnderUs(s)
  }

  predicate Inv(s: Sys) {
    && (InReviewUnderUs(s) ==> s.card.current.None? || s.card.current == Some(s.krun))
    && (s.canc.Idle? <==> !s.receipt.cancelRequested)
    // until the dispatcher asks for it there is no review of ours
    && (s.disp.BeforeVerify? || s.disp.Verified? || s.disp.CancelBlock? || s.disp.CancelClose? ==> !InReviewUnderUs(s))
    && (s.receipt.state.Review? ==> s.disp.DispatcherDone?)
    && (s.disp.DispatcherDone? && InReviewUnderUs(s) ==> s.receipt.state.Review?)
    // a review recorded before the cancel is one the canceller then sees
    && (s.receipt.state.Review? && InReviewUnderUs(s) ==> s.canc.Idle? || s.canc.Flagged? || s.canc.MustReopen?)
  }

  lemma StepPreserves(s: Sys, step: Step)
    requires Inv(s) && Enabled(s, step)
    ensures Inv(Apply(s, step))
  {
  }

  ghost predicate IsTrace(states: seq<Sys>, steps: seq<Step>) {
    |states| == |steps| + 1 && Init(states[0])
    && forall i :: 0 <= i < |steps| ==> Enabled(states[i], steps[i]) && states[i + 1] == Apply(states[i], steps[i])
  }

  lemma {:induction false} Always(states: seq<Sys>, steps: seq<Step>, n: nat)
    requires IsTrace(states, steps) && n < |states|
    ensures Inv(states[n])
  {
    if n > 0 {
      Always(states, steps, n - 1);
      StepPreserves(states[n - 1], steps[n - 1]);
      assert states[n - 1 + 1] == Apply(states[n - 1], steps[n - 1]);
    }
  }

  /** However handoff and cancel interleave, with each other and with other actors:
      once both have finished, the card is not in review under this dispatch's
      run. Without a cancel, a receipt in review is the only way it can be. */
  lemma CancelledDispatchIsNotInReview(states: seq<Sys>, steps: seq<Step>, n: nat)
    requires IsTrace(states, steps) && n < |states| && states[n].disp.DispatcherDone?
    ensures states[n].canc.CancellerDone? ==> !InReviewUnderUs(states[n])
    ensures InReviewUnderUs(states[n]) ==> states[n].receipt.state.Review?
  {
    Always(states, steps, n);
  }

  /** Undisturbed, each of the two gets its way: the handoff records the review of a
      card this dispatch runs, and the cancel command blocks it and closes the receipt. */
  lemma EachGetsItsWay(s: Sys, review: Card)
    requires Init(s) && s.card.status.CRunning? && s.card.current == Some(s.krun)
    requires review == Card(CReview, None, Some(s.krun))
    ensures Enabled(s, StartVerify)
    ensures var s1 := Apply(s, StartVerify);
      && Enabled(s1, RequestReview(true, review))
      && var s2 := Apply(s1, RequestReview(true, review));
      && Enabled(s2, RecordReview)
      && Apply(s2, RecordReview)
         == s.(receipt := s.receipt.(state := Review), card := review, disp := DispatcherDone)
    ensures var blocked := s.card.(status := CBlocked);
      var c1 := Apply(s, RequestCancelCmd);
      && Enabled(c1, ReadCardCmd)
      && var c2 := Apply(c1, ReadCardCmd);
      && Enabled(c2, BlockCmd(blocked))
      && var c3 := Apply(c2, BlockCmd(blocked));
      && Enabled(c3, CloseCmd)
      && Apply(c3, CloseCmd)
         == s.(receipt := s.receipt.(state := Cancelled, cancelRequested := true), card := blocked,
               canc := CancellerDone)
  {
  }

  // No transition leaves one of these states.
  predicate Closed(r: Receipt) {
    r.state.Review? || r.state.Blocked? || r.state.Aborted? || r.state.Cancelled? || r.state.Failed?
  }

  /** The state each write is there to record. */
  function Recorded(step: Step): State
    requires step.StartVerify? || step.GiveUp? || step.RecordReview? || step.CloseReceipt? || step.CloseCmd?
  {
    match step
    case StartVerify => Completing
    case GiveUp(to) => to
    case RecordReview => Review
    case _ => Cancelled
  }

  /** A write changes an open receipt to that state, verification and review only
      without a cancel on record; a refused one turns the dispatcher to the cancel. */
  lemma WriteIsRecorded(s: Sys, step: Step)
    requires Enabled(s, step)
    requires step.StartVerify? || step.GiveUp? || step.RecordReview? || step.CloseReceipt? || step.CloseCmd?
    ensures var t := Apply(s, step);
      var refused := Closed(s.receipt) || ((step.StartVerify? || step.RecordReview?) && s.receipt.cancelRequested);
      && t.card == s.card && t.krun == s.krun
      && t.receipt == (if refused then s.receipt else s.receipt.(state := Recorded(step)))
      && (!step.CloseReceipt? && !step.CloseCmd? ==> (t.disp.CancelRead? <==> refused))
      && (step.CloseReceipt? ==> t.disp.DispatcherDone?) && (step.CloseCmd? ==> t.canc.CancellerDone?)
  {
  }

  /** What either side does about the card it finds: the dispatcher's cancel path
      reopens a review of its own and then blocks; the command blocks a card at work,
      reopens one in review, and closes at once otherwise. */
  lemma CardDecides(s: Sys, step: Step)
    requires Enabled(s, step)
    ensures step.ReadCard? ==>
      Apply(s, step) == s.(disp := if s.card.status.CReview? then CancelReopen else CancelBlock)
    ensures step.Reopen? ==>
      var mine := s.card.status.CReview? && s.card.reviewRun == Some(s.krun)
        && (s.card.current.None? || s.card.current.value == s.krun);
      Apply(s, step) == s.(card := step.after, disp := if mine then CancelBlock else CancelClose)
    ensures step.Block? ==> Apply(s, step) == s.(card := step.after, disp := CancelClose)
    ensures step.ReadCardCmd? ==>
      var canc := Apply(s, step).canc;
      && (canc.MustBlock? <==> s.card.status.CRunning? || s.card.status.CReady?)
      && (canc.MustReopen? <==> s.card.status.CReview?)
      && (canc.MustClose? <==> s.card.status.CBlocked? || s.card.status.COther?)
  {
  }

  // ------------------------------------------------- the command the other way

  /** A cancel command that reads the card before it records its intent: `plan` is
      what it made of the card, to be carried out after the intent. */
  datatype Reversed = Reversed(sys: Sys, plan: Option<Canceller>)

  datatype ReversedStep = Usual(step: Step) | PeekCmd | FlagCmd

  predicate ReversedEnabled(r: Reversed, step: ReversedStep) {
    match step
    case Usual(u) => !u.RequestCancelCmd? && !u.ReadCardCmd? && Enabled(r.sys, u)
    case PeekCmd => r.plan.None? && r.sys.canc.Idle?
    case FlagCmd => r.plan.Some? && r.sys.canc.Idle?
  }

  function ReversedApply(r: Reversed, step: ReversedStep): Reversed
    requires ReversedEnabled(r, step)
  {
    match step
    case Usual(u) => r.(sys := Apply(r.sys, u))
    case PeekCmd => r.(plan := Some(PlanFor(r.sys.card)))
    case FlagCmd => r.(sys := r.sys.(receipt := r.sys.receipt.(cancelRequested := true), canc := r.plan.value))
  }

  ghost predicate IsReversedTrace(states: seq<Reversed>, steps: seq<ReversedStep>) {
    |states| == |steps| + 1 && Init(states[0].sys) && states[0].plan.None?
    && forall i :: 0 <= i < |steps| ==>
          ReversedEnabled(states[i], steps[i]) && states[i + 1] == ReversedApply(states[i], steps[i])
  }

  // The look, then the whole handoff, then the late intent.
  function PeekedHandoff(review: Card): seq<ReversedStep> {
    [PeekCmd, Usual(StartVerify), Usual(RequestReview(true, review)), Usual(RecordReview)]
  }

  lemma HandoffAfterPeek(s: Sys, review: Card) returns (states: seq<Reversed>)
    requires Init(s) && s.card.status.CRunning? && s.card.current == Some(s.krun)
    requires review == Card(CReview, None, Some(s.krun))
    ensures IsReversedTrace(states, PeekedHandoff(review)) && states[0] == Reversed(s, None)
    ensures states[4].plan == Some(MustBlock) && states[4].sys.canc.Idle? && states[4].sys.disp.DispatcherDone?
    ensures states[4].sys.receipt.state.Review? && states[4].sys.card == review && states[4].sys.krun == s.krun
  {
    var r0 := Reversed(s, None);
    var r1 := ReversedApply(r0, PeekCmd);
    var r2 := ReversedApply(r1, Usual(StartVerify));
    var r3 := ReversedApply(r2, Usual(RequestReview(true, review)));
    var r4 := ReversedApply(r3, Usual(RecordReview));
    states := [r0, r1, r2, r3, r4];
  }

  lemma TraceGrows(states: seq<Reversed>, steps: seq<ReversedStep>, step: ReversedStep)
    requires IsReversedTrace(states, steps) && ReversedEnabled(states[|steps|], step)
    ensures IsReversedTrace(states + [ReversedApply(states[|steps|], step)], steps + [step])
  {
  }

  /** The order of the cancel command's two effects is what makes this work. With it
      reversed, from any start with this dispatch's run live on the card, both actors
      can finish with the card in review under the cancelled dispatch: the command
      looks, the review is handed over and recorded, and only then the intent. */
  lemma IntentMustComeFirst(s: Sys, review: Card) returns (states: seq<Reversed>, steps: seq<ReversedStep>)
    requires Init(s) && s.card.status.CRunning? && s.card.current == Some(s.krun)
    requires review == Card(CReview, None, Some(s.krun))
    ensures IsReversedTrace(states, steps) && states[0].sys == s
    ensures var t := states[|steps|].sys;
      t.disp.DispatcherDone? && t.canc.CancellerDone? && t.receipt.cancelRequested && InReviewUnderUs(t)
  {
    states := HandoffAfterPeek(s, review);
    steps := PeekedHandoff(review);
    var r := states[4];
    TraceGrows(states, steps, FlagCmd);
    var r5 := ReversedApply(r, FlagCmd);
    states, steps := states + [r5], steps + [FlagCmd];
    TraceGrows(states, steps, Usual(BlockCmd(review)));
    var r6 := ReversedApply(r5, Usual(BlockCmd(review)));
    states, steps := states + [r6], steps + [Usual(BlockCmd(review))];
    TraceGrows(states, steps, Usual(CloseCmd));
    states, steps := states + [ReversedApply(r6, Usual(CloseCmd))], steps + [Usual(CloseCmd)];
  }
}
