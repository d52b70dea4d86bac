/**
 Dispatch ticks, crashes, operator cancels and resolves over one receipt ledger.

 A dispatcher holds the kernel's tick lock from acquiring it until its process
 dies or its tick ends; control commands run in other processes without it. The
 wrapper is an environment that may execute a submitted request until it ends;
 a terminal run view is authoritative: it is shown only after that end.
 */
module DispatchProtocol {
  import opened Common
  import opened DispatchLedger

  datatype View = Foreign | Live | WasCancelled | HasFailed | HasCompleted(succeeded: bool)

  predicate TerminalView(v: View) {
    v.WasCancelled? || v.HasFailed? || v.HasCompleted?
  }

  /** What happened to a receipt's one request. */
  datatype Flow = Flow(
    submitted: bool,          // the request may have reached the wrapper
    ended: bool,              // wrapper truth: nothing of it runs any more
    resolver: Option<View>)   // view a resolve command is acting on

  datatype Pc =
    | AtReserved | AtClaimWon | AtClaimed | AtChecked | InHttp
    | AtReplied(view: View) | AtCompleting | AtReviewed | OnCancelPath

  datatype Tick =
    | NoTick
    | Recovering(stale: seq<(nat, State)>)  // snapshot of the live receipts
    | Scanning
    | Working(id: nat, pc: Pc)

  datatype Sys = Sys(ledger: Ledger, flows: seq<Flow>, tick: Tick)

  datatype Step =
    // the dispatcher
    | StartTick(stale: seq<(nat, State)>) | Recover | EndRecovery
    | NewReceipt(scope: Scope, workspace: nat, consume: Option<nat>, now: int)
    | AbortUnclaimed | BlockUnsubmitted | WinClaim | MarkClaimed(krun: nat) | CheckCancel | Submit
    | LoseReply | TakeReply(view: View, run: nat) | HandleView
    | FailVerification | RefuseReview | EnterReview | FinishReview
    | TakeCancelPath | KernelFails | EndTick | Die
    // the wrapper
    | RequestEnds(id: nat)
    // control commands
    | AskCancel(id: nat) | CloseCancelled(id: nat)
    | ReadForResolve(id: nat, view: View) | Resolve(id: nat, to: State, kernelRun: Option<nat>)

  predicate Known(s: Sys, d: nat) {
    d < |s.ledger.receipts| && d < |s.flows|
  }

  // Snapshot rows name existing receipts with the state they have now.
  predicate IsSnapshot(s: Sys, stale: seq<(nat, State)>) {
    forall i :: 0 <= i < |stale| ==>
      Known(s, stale[i].0) && s.ledger.receipts[stale[i].0].state == stale[i].1 && Blocking(stale[i].1)
  }

  predicate ResolveTarget(view: View, to: State) {
    match view
    case WasCancelled => to.Cancelled?
    case HasFailed => to.Failed?
    case HasCompleted(false) => to.Failed?
    case HasCompleted(true) => to.Cancelled? || to.Blocked? || to.Unknown? || to.Review?
    case _ => false
  }

  predicate Enabled(s: Sys, step: Step) {
    var working := s.tick.Working? && Known(s, s.tick.id);
    match step
    case StartTick(stale) => s.tick.NoTick? && IsSnapshot(s, stale)
    case Recover => s.tick.Recovering? && s.tick.stale != [] && Known(s, s.tick.stale[0].0)
    case EndRecovery => s.tick == Recovering([])
    case NewReceipt(_, _, _, _) => s.tick.Scanning?
    case AbortUnclaimed => working && s.tick.pc.AtReserved?
    case BlockUnsubmitted => working && (s.tick.pc.AtReserved? || s.tick.pc.AtClaimWon?)
    case WinClaim => working && s.tick.pc.AtReserved?
    case MarkClaimed(_) => working && s.tick.pc.AtClaimWon?
    case CheckCancel => working && s.tick.pc.AtClaimed?
    case Submit => working && s.tick.pc.AtChecked?
    case LoseReply => working && s.tick.pc.InHttp?
    case TakeReply(view, _) => working && s.tick.pc.InHttp? && (TerminalView(view) ==> s.flows[s.tick.id].ended)
    case HandleView => working && s.tick.pc.AtReplied?
    case FailVerification => working && s.tick.pc.AtCompleting?
    case RefuseReview => working && s.tick.pc.AtCompleting?
    case EnterReview => working && s.tick.pc.AtCompleting?
    case FinishReview => working && s.tick.pc.AtReviewed?
    case TakeCancelPath => working && s.tick.pc.OnCancelPath?
    case KernelFails => working && !s.tick.pc.OnCancelPath?
    case EndTick => s.tick.Scanning?
    case Die => !s.tick.NoTick?
    case RequestEnds(d) => Known(s, d) && s.flows[d].submitted
    case AskCancel(d) => Known(s, d)
    case CloseCancelled(d) => Known(s, d) && s.ledger.receipts[d].cancelRequested
    case ReadForResolve(d, view) =>
      Known(s, d) && s.ledger.receipts[d].state.Unknown? && s.ledger.receipts[d].run.Some?
      && (TerminalView(view) ==> s.flows[d].ended)
    case Resolve(d, to, _) => Known(s, d) && s.flows[d].resolver.Some? && ResolveTarget(s.flows[d].resolver.value, to)
  }

  function To(s: Sys, d: nat, state: State, nc: bool): Sys
    requires Known(s, d)
  {
    s.(ledger := Transition(s.ledger, d, state, None, None, nc))
  }

  predicate Moves(s: Sys, d: nat, nc: bool)
    requires Known(s, d)
  {
    !OneWay(s.ledger.receipts[d].state) && !(nc && s.ledger.receipts[d].cancelRequested)
  }

  // A transition that loses to a persisted cancel; any other refusal ends the tick.
  function Guarded(s: Sys, d: nat, state: State): Sys
    requires Known(s, d)
  {
    var r := s.ledger.receipts[d];
    if Moves(s, d, false) then To(s, d, state, false).(tick := Scanning)
    else if r.cancelRequested || r.state.Cancelled? then s.(tick := Working(d, OnCancelPath))
    else s.(tick := NoTick)
  }

  // A transition whose refusal always leads to the cancel path.
  function OrCancel(s: Sys, d: nat, state: State, run: Option<nat>, kernelRun: Option<nat>, nc: bool, next: Tick): Sys
    requires Known(s, d)
  {
    if Moves(s, d, nc) then Sys(Transition(s.ledger, d, state, run, kernelRun, nc), s.flows, next)
    else s.(tick := Working(d, OnCancelPath))
  }

  function SetFlow(s: Sys, d: nat, f: Flow): Sys
    requires Known(s, d)
  {
    s.(flows := s.flows[d := f])
  }

  // The dispatcher's own steps up to the request, and from its reply on.
  predicate Prepares(step: Step) {
    || step.AbortUnclaimed? || step.BlockUnsubmitted? || step.WinClaim? || step.MarkClaimed? || step.CheckCancel?
    || step.Submit?
  }

  predicate Concludes(step: Step) {
    || step.LoseReply? || step.TakeReply? || step.HandleView? || step.FailVerification? || step.RefuseReview?
    || step.EnterReview? || step.FinishReview? || step.TakeCancelPath? || step.KernelFails?
  }

  // What the wrapper and the control commands do.
  predicate Outside(step: Step) {
    step.RequestEnds? || step.AskCancel? || step.CloseCancelled? || step.ReadForResolve? || step.Resolve?
  }

  function Prepare(s: Sys, step: Step): Sys
    requires Enabled(s, step) && Prepares(step)
  {
    match step
    case AbortUnclaimed => OrCancel(s, s.tick.id, Aborted, None, None, false, Scanning)
    case BlockUnsubmitted =>
      if Moves(s, s.tick.id, false) then To(s, s.tick.id, Blocked, false).(tick := Scanning)
      else s.(tick := if s.ledger.receipts[s.tick.id].cancelRequested then Scanning else NoTick)
    case WinClaim => s.(tick := Working(s.tick.id, AtClaimWon))
    case MarkClaimed(k) => OrCancel(s, s.tick.id, Claimed, None, Some(k), false, Working(s.tick.id, AtClaimed))
    case CheckCancel =>
      s.(tick := Working(s.tick.id, if s.ledger.receipts[s.tick.id].cancelRequested then OnCancelPath else AtChecked))
    case Submit =>
      SetFlow(s, s.tick.id, s.flows[s.tick.id].(submitted := true)).(tick := Working(s.tick.id, InHttp))
  }

  function HandleReply(s: Sys, d: nat, view: View): Sys
    requires Known(s, d)
  {
    match view
    case Foreign => Guarded(s, d, Unknown)
    case Live => s.(tick := Scanning)
    case WasCancelled => Guarded(s, d, Cancelled)
    case HasFailed => Guarded(s, d, Failed)
    case HasCompleted(succeeded) =>
      if succeeded then OrCancel(s, d, Completing, None, None, true, Working(d, AtCompleting))
      else Guarded(s, d, Failed)
  }

  function Conclude(s: Sys, step: Step): Sys
    requires Enabled(s, step) && Concludes(step)
  {
    match step
    case LoseReply => Guarded(s, s.tick.id, Unknown)
    case TakeReply(view, run) =>
      OrCancel(s, s.tick.id, Submitted, Some(run), None, false, Working(s.tick.id, AtReplied(view)))
    case HandleView => HandleReply(s, s.tick.id, s.tick.pc.view)
    case FailVerification => Guarded(s, s.tick.id, Blocked)
    case RefuseReview => Guarded(s, s.tick.id, Unknown)
    case EnterReview => s.(tick := Working(s.tick.id, AtReviewed))
    case FinishReview => OrCancel(s, s.tick.id, Review, None, None, true, Scanning)
    case TakeCancelPath => To(s, s.tick.id, Cancelled, false).(tick := Scanning)
    case KernelFails => if Moves(s, s.tick.id, false) then To(s, s.tick.id, Unknown, false).(tick := Scanning)
                        else s.(tick := NoTick)
  }

  function Control(s: Sys, step: Step): Sys
    requires Enabled(s, step) && Outside(step)
  {
    match step
    case RequestEnds(d) => SetFlow(s, d, s.flows[d].(ended := true))
    case AskCancel(d) => s.(ledger := RequestCancel(s.ledger, d))
    case CloseCancelled(d) => To(s, d, Cancelled, false)
    case ReadForResolve(d, view) => SetFlow(s, d, s.flows[d].(resolver := Some(view)))
    case Resolve(d, to, k) =>
      s.(ledger := Transition(s.ledger, d, to, None, if to.Unknown? then k else None, to.Review?))
  }

  function Apply(s: Sys, step: Step): Sys
    requires Enabled(s, step)
  {
    if Prepares(step) then Prepare(s, step)
    else if Concludes(step) then Conclude(s, step)
    else if Outside(step) then Control(s, step)
    else
      match step
      case StartTick(stale) => s.(tick := Recovering(stale))
      case Recover =>
        var (d, seen) := s.tick.stale[0];
        var t := if seen.Unknown? then s else To(s, d, if seen.Reserved? then Aborted else Unknown, false);
        t.(tick := Recovering(s.tick.stale[1..]))
      case EndRecovery => s.(tick := Scanning)
      case NewReceipt(scope, workspace, consume, now) =>
        var (l, res) := Reserve(s.ledger, scope, workspace, consume, now);
        if res.Created? then Sys(l, s.flows + [Flow(false, false, None)], Working(res.id, AtReserved)) else s
      case EndTick => s.(tick := NoTick)
      case Die => s.(tick := NoTick)
  }

  // ---------------------------------------------------------------- invariant

  predicate FlowOk(r: Receipt, f: Flow) {
    && (r.state.Reserved? || r.state.Aborted? ==> !f.submitted)
    && (f.submitted && !f.ended && !r.cancelRequested ==> Blocking(r.state))
    && (f.resolver.Some? && TerminalView(f.resolver.value) ==> f.ended)
    && (f.ended ==> f.submitted)
  }

  predicate PcOk(r: Receipt, f: Flow, pc: Pc) {
    match pc
    case AtReserved => !f.submitted && (r.state.Reserved? || OneWay(r.state))
    case AtClaimWon => !f.submitted && (r.state.Reserved? || OneWay(r.state))
    case AtClaimed => !f.submitted && (r.state.Claimed? || (r.state.Cancelled? && r.cancelRequested))
    case AtChecked => !f.submitted && (r.state.Claimed? || (r.state.Cancelled? && r.cancelRequested))
    case InHttp => f.submitted
    case AtReplied(view) => f.submitted && (TerminalView(view) ==> f.ended)
    case AtCompleting => f.ended
    case AtReviewed => f.ended
    case OnCancelPath => r.cancelRequested || OneWay(r.state)
  }

  ghost predicate TickOk(s: Sys) {
    match s.tick
    case Working(d, pc) => Known(s, d) && PcOk(s.ledger.receipts[d], s.flows[d], pc)
    case Recovering(stale) => forall i :: 0 <= i < |stale| ==> StaleOk(s, stale[i])
    case _ => true
  }

  // Nothing but the lock holder moves a reserved receipt forward.
  predicate StaleOk(s: Sys, row: (nat, State)) {
    Known(s, row.0)
    && (row.1.Reserved? ==> !s.flows[row.0].submitted
                            && (s.ledger.receipts[row.0].state.Reserved? || OneWay(s.ledger.receipts[row.0].state)))
    && (!row.1.Reserved? ==> !s.ledger.receipts[row.0].state.Reserved?)
  }

  ghost predicate Inv(s: Sys) {
    && |s.flows| == |s.ledger.receipts|
    && AtMostOneLive(s.ledger.receipts)
    && (forall d :: 0 <= d < |s.flows| ==> FlowOk(s.ledger.receipts[d], s.flows[d]))
    && TickOk(s)
  }

  // ------------------------------------------------------------- preservation

  /** One receipt and its flow change; nothing else but the tick does. */
  predicate Edits(s: Sys, t: Sys, d: nat) {
    Known(s, d)
    && |t.ledger.receipts| == |s.ledger.receipts| && |t.flows| == |s.flows|
    && t.ledger.receipts == s.ledger.receipts[d := t.ledger.receipts[d]]
    && t.flows == s.flows[d := t.flows[d]]
    && t.ledger.receipts[d].scope == s.ledger.receipts[d].scope
    && t.ledger.receipts[d].workspace == s.ledger.receipts[d].workspace
    && (Blocking(t.ledger.receipts[d].state) ==> Blocking(s.ledger.receipts[d].state))
  }

  lemma EditKeepsRows(s: Sys, t: Sys, d: nat)
    requires Inv(s) && Edits(s, t, d) && FlowOk(t.ledger.receipts[d], t.flows[d])
    ensures |t.flows| == |t.ledger.receipts| && AtMostOneLive(t.ledger.receipts)
    ensures forall e :: 0 <= e < |t.flows| ==> FlowOk(t.ledger.receipts[e], t.flows[e])
  {
    forall e | 0 <= e < |t.flows|
      ensures FlowOk(t.ledger.receipts[e], t.flows[e])
    {
      if e != d { assert t.ledger.receipts[e] == s.ledger.receipts[e] && t.flows[e] == s.flows[e]; }
    }
    forall i, j | 0 <= i < j < |t.flows| && Blocking(t.ledger.receipts[i].state) && Blocking(t.ledger.receipts[j].state)
      ensures t.ledger.receipts[i].scope.task != t.ledger.receipts[j].scope.task
           && t.ledger.receipts[i].workspace != t.ledger.receipts[j].workspace
    {
      if i != d { assert t.ledger.receipts[i] == s.ledger.receipts[i]; }
      if j != d { assert t.ledger.receipts[j] == s.ledger.receipts[j]; }
    }
  }

  /** What a control command or the wrapper may do to a receipt, whoever is working
      on it. */
  predicate OutsideEdit(r: Receipt, f: Flow, r': Receipt, f': Flow) {
    && FlowOk(r', f')
    && (r'.state == r.state || (OneWay(r'.state) && r'.state.Cancelled? && r'.cancelRequested)
        || (f.ended && !r.state.Reserved? && !r'.state.Reserved?))
    && (r.cancelRequested ==> r'.cancelRequested)
    && (f'.submitted == f.submitted) && (f.ended ==> f'.ended)
    && (OneWay(r.state) ==> r'.state == r.state)
  }

  lemma OutsidePreserves(s: Sys, t: Sys, d: nat)
    requires Inv(s) && Edits(s, t, d) && t.tick == s.tick
    requires OutsideEdit(s.ledger.receipts[d], s.flows[d], t.ledger.receipts[d], t.flows[d])
    ensures Inv(t)
  {
    EditKeepsRows(s, t, d);
    match s.tick {
      case Recovering(stale) =>
        forall i | 0 <= i < |stale|
          ensures StaleOk(t, stale[i])
        {
          assert StaleOk(s, stale[i]);
          if stale[i].0 != d {
            assert t.ledger.receipts[stale[i].0] == s.ledger.receipts[stale[i].0]
               && t.flows[stale[i].0] == s.flows[stale[i].0];
          }
        }
      case Working(e, pc) =>
        if e != d { assert t.ledger.receipts[e] == s.ledger.receipts[e] && t.flows[e] == s.flows[e]; }
      case _ =>
    }
  }

  lemma ControlPreserves(s: Sys, step: Step)
    requires Inv(s) && Enabled(s, step) && Outside(step)
    ensures Inv(Control(s, step))
  {
    assert FlowOk(s.ledger.receipts[step.id], s.flows[step.id]);
    if step.Resolve? {
      ResolvePreserves(s, step);
    } else {
      OutsidePreserves(s, Control(s, step), step.id);
    }
  }

  lemma ResolvePreserves(s: Sys, step: Step)
    requires Inv(s) && Enabled(s, step) && step.Resolve?
    ensures Inv(Control(s, step))
  {
    assert FlowOk(s.ledger.receipts[step.id], s.flows[step.id]);
    OutsidePreserves(s, Control(s, step), step.id);
  }

  /** The working dispatcher moves its own receipt and its program counter. */
  lemma OwnPreserves(s: Sys, t: Sys)
    requires Inv(s) && s.tick.Working? && Edits(s, t, s.tick.id)
    requires FlowOk(t.ledger.receipts[s.tick.id], t.flows[s.tick.id])
    requires t.tick.Scanning? || t.tick.NoTick?
          || (t.tick.Working? && t.tick.id == s.tick.id
              && PcOk(t.ledger.receipts[t.tick.id], t.flows[t.tick.id], t.tick.pc))
    ensures Inv(t)
  {
    EditKeepsRows(s, t, s.tick.id);
  }

  lemma PreparePreserves(s: Sys, step: Step)
    requires Inv(s) && Enabled(s, step) && Prepares(step)
    ensures Inv(Prepare(s, step))
  {
    assert FlowOk(s.ledger.receipts[s.tick.id], s.flows[s.tick.id]);
    assert PcOk(s.ledger.receipts[s.tick.id], s.flows[s.tick.id], s.tick.pc);
    OwnPreserves(s, Prepare(s, step));
  }

  lemma GuardedPreserves(s: Sys, d: nat, state: State)
    requires Inv(s) && s.tick.Working? && d == s.tick.id && Known(s, d) && s.flows[d].submitted
    requires state.Unknown? || (OneWay(state) && !state.Aborted? && s.flows[d].ended)
    ensures Inv(Guarded(s, d, state))
  {
    assert FlowOk(s.ledger.receipts[d], s.flows[d]);
    OwnPreserves(s, Guarded(s, d, state));
  }

  lemma ReplyPreserves(s: Sys)
    requires Inv(s) && Enabled(s, HandleView)
    ensures Inv(HandleReply(s, s.tick.id, s.tick.pc.view))
  {
    var d := s.tick.id;
    assert FlowOk(s.ledger.receipts[d], s.flows[d]) && PcOk(s.ledger.receipts[d], s.flows[d], s.tick.pc);
    match s.tick.pc.view
    case Foreign => GuardedPreserves(s, d, Unknown);
    case Live => OwnPreserves(s, s.(tick := Scanning));
    case WasCancelled => GuardedPreserves(s, d, Cancelled);
    case HasFailed => GuardedPreserves(s, d, Failed);
    case HasCompleted(succeeded) =>
      if succeeded { CompletingPreserves(s, d); } else { GuardedPreserves(s, d, Failed); }
  }

  lemma CompletingPreserves(s: Sys, d: nat)
    requires Inv(s) && s.tick.Working? && d == s.tick.id && Known(s, d) && s.flows[d].ended
    ensures Inv(OrCancel(s, d, Completing, None, None, true, Working(d, AtCompleting)))
  {
    assert FlowOk(s.ledger.receipts[d], s.flows[d]);
    OwnPreserves(s, OrCancel(s, d, Completing, None, None, true, Working(d, AtCompleting)));
  }

  lemma TakeReplyPreserves(s: Sys, view: View, run: nat)
    requires Inv(s) && Enabled(s, TakeReply(view, run))
    ensures Inv(Conclude(s, TakeReply(view, run)))
  {
    var d := s.tick.id;
    assert FlowOk(s.ledger.receipts[d], s.flows[d]) && PcOk(s.ledger.receipts[d], s.flows[d], s.tick.pc);
    OwnPreserves(s, OrCancel(s, d, Submitted, Some(run), None, false, Working(d, AtReplied(view))));
  }

  // The review handoff, the cancel path, and a kernel error.
  lemma ClosingPreserves(s: Sys, step: Step)
    requires Inv(s) && Enabled(s, step)
    requires (step.EnterReview? || step.FinishReview? || step.TakeCancelPath? || step.KernelFails?)
    ensures Inv(Conclude(s, step))
  {
    var d := s.tick.id;
    assert FlowOk(s.ledger.receipts[d], s.flows[d]) && PcOk(s.ledger.receipts[d], s.flows[d], s.tick.pc);
    OwnPreserves(s, Conclude(s, step));
  }

  lemma ConcludePreserves(s: Sys, step: Step)
    requires Inv(s) && Enabled(s, step) && Concludes(step)
    ensures Inv(Conclude(s, step))
  {
    var d := s.tick.id;
    assert FlowOk(s.ledger.receipts[d], s.flows[d]) && PcOk(s.ledger.receipts[d], s.flows[d], s.tick.pc);
    match step
    case LoseReply => GuardedPreserves(s, d, Unknown);
    case TakeReply(view, run) => TakeReplyPreserves(s, view, run);
    case HandleView => ReplyPreserves(s);
    case FailVerification => GuardedPreserves(s, d, Blocked);
    case RefuseReview => GuardedPreserves(s, d, Unknown);
    case EnterReview => ClosingPreserves(s, step);
    case FinishReview => ClosingPreserves(s, step);
    case TakeCancelPath => ClosingPreserves(s, step);
    case KernelFails => ClosingPreserves(s, step);
  }

  lemma RecoverPreserves(s: Sys)
    requires Inv(s) && Enabled(s, Recover)
    ensures Inv(Apply(s, Recover))
  {
    var t := Apply(s, Recover);
    var stale := s.tick.stale;
    var d := stale[0].0;
    assert StaleOk(s, stale[0]) && FlowOk(s.ledger.receipts[d], s.flows[d]);
    EditKeepsRows(s, t, d);
    forall i | 0 <= i < |t.tick.stale|
      ensures StaleOk(t, t.tick.stale[i])
    {
      assert t.tick.stale[i] == stale[i + 1] && StaleOk(s, stale[i + 1]);
      if stale[i + 1].0 != d { assert t.ledger.receipts[stale[i + 1].0] == s.ledger.receipts[stale[i + 1].0]; }
    }
  }

  lemma ReceiptPreserves(s: Sys, step: Step)
    requires Inv(s) && Enabled(s, step) && step.NewReceipt?
    ensures Inv(Apply(s, step))
  {
    var t := Apply(s, step);
    if t != s {
      forall d | 0 <= d < |t.flows|
        ensures FlowOk(t.ledger.receipts[d], t.flows[d])
      {
        if d < |s.flows| { assert t.ledger.receipts[d] == s.ledger.receipts[d] && t.flows[d] == s.flows[d]; }
      }
      assert forall i :: 0 <= i < |s.flows| ==> t.ledger.receipts[i] == s.ledger.receipts[i];
    }
  }

  lemma StepPreserves(s: Sys, step: Step)
    requires Inv(s) && Enabled(s, step)
    ensures Inv(Apply(s, step))
  {
    if Prepares(step) {
      PreparePreserves(s, step);
    } else if Concludes(step) {
      ConcludePreserves(s, step);
    } else if Outside(step) {
      ControlPreserves(s, step);
    } else {
      match step
      case NewReceipt(_, _, _, _) => ReceiptPreserves(s, step);
      case Recover => RecoverPreserves(s);
      case StartTick(stale) =>
        forall i | 0 <= i < |stale| ensures StaleOk(s, stale[i]) {
          assert FlowOk(s.ledger.receipts[stale[i].0], s.flows[stale[i].0]);
        }
      case _ =>
    }
  }

  const INITIAL := Sys(Ledger([], []), [], NoTick)

  predicate StepOk(s: Sys, step: Step, t: Sys) {
    Enabled(s, step) && t == Apply(s, step)
  }

  /** Any interleaving, with the dispatcher dying anywhere, of any number of ticks
      and control commands. */
  ghost predicate IsTrace(states: seq<Sys>, steps: seq<Step>) {
    |states| == |steps| + 1 && states[0] == INITIAL
    && forall i :: 0 <= i < |steps| ==> StepOk(states[i], steps[i], states[i + 1])
  }

  lemma {:induction false} Always(states: seq<Sys>, steps: seq<Step>, n: nat)
    requires IsTrace(states, steps) && n < |states|
    ensures Inv(states[n])
  {
    if n > 0 {
      Always(states, steps, n - 1);
      assert StepOk(states[n - 1], steps[n - 1], states[n - 1 + 1]);
      StepPreserves(states[n - 1], steps[n - 1]);
    }
  }

  // ------------------------------------------------------------- main results

  predicate Executing(s: Sys, d: nat) {
    Known(s, d) && s.flows[d].submitted && !s.flows[d].ended
  }

  /** A submitted request keeps its receipt in a blocking state until the request
      has ended or a cancel is on record. */
  lemma SubmittedStaysBlocking(states: seq<Sys>, steps: seq<Step>, n: nat, d: nat)
    requires IsTrace(states, steps) && n < |states| && Executing(states[n], d)
    requires !states[n].ledger.receipts[d].cancelRequested
    ensures Blocking(states[n].ledger.receipts[d].state)
  {
    Always(states, steps, n);
    assert FlowOk(states[n].ledger.receipts[d], states[n].flows[d]);
  }

  /** Per task and per workspace, at most one uncancelled dispatch may be executing. */
  lemma OneUncancelledExecution(states: seq<Sys>, steps: seq<Step>, n: nat, d: nat, e: nat)
    requires IsTrace(states, steps) && n < |states| && d != e
    requires Executing(states[n], d) && !states[n].ledger.receipts[d].cancelRequested
    requires Executing(states[n], e) && !states[n].ledger.receipts[e].cancelRequested
    ensures states[n].ledger.receipts[d].scope.task != states[n].ledger.receipts[e].scope.task
    ensures states[n].ledger.receipts[d].workspace != states[n].ledger.receipts[e].workspace
  {
    Always(states, steps, n);
    SubmittedStaysBlocking(states, steps, n, d);
    SubmittedStaysBlocking(states, steps, n, e);
  }

  // What every step keeps of every receipt: its one-way state, and out of review
  // while cancelled.
  predicate Kept(r: Receipt, q: Receipt) {
    && (OneWay(r.state) ==> q.state == r.state)
    && (r.cancelRequested && q.state.Review? ==> r.state.Review?)
  }

  predicate KeptAt(s: Sys, t: Sys, d: nat)
    requires Known(s, d)
  {
    Known(t, d) && Kept(s.ledger.receipts[d], t.ledger.receipts[d])
  }

  lemma PrepareKeeps(s: Sys, step: Step, d: nat)
    requires Enabled(s, step) && Prepares(step) && Known(s, d)
    ensures KeptAt(s, Prepare(s, step), d)
  {
  }

  lemma ReplyKeeps(s: Sys, e: nat, view: View, d: nat)
    requires Known(s, e) && Known(s, d)
    ensures KeptAt(s, HandleReply(s, e, view), d)
  {
  }

  lemma ConcludeKeeps(s: Sys, step: Step, d: nat)
    requires Enabled(s, step) && Concludes(step) && Known(s, d)
    ensures KeptAt(s, Conclude(s, step), d)
  {
    if step.HandleView? { ReplyKeeps(s, s.tick.id, s.tick.pc.view, d); }
  }

  lemma ControlKeeps(s: Sys, step: Step, d: nat)
    requires Enabled(s, step) && Outside(step) && Known(s, d)
    ensures KeptAt(s, Control(s, step), d)
  {
  }

  lemma StepKeeps(s: Sys, step: Step, d: nat)
    requires Enabled(s, step) && Known(s, d)
    ensures KeptAt(s, Apply(s, step), d)
  {
    if Prepares(step) {
      PrepareKeeps(s, step, d);
    } else if Concludes(step) {
      ConcludeKeeps(s, step, d);
    } else if Outside(step) {
      ControlKeeps(s, step, d);
    }
  }

  /** No step of anyone, resolve included, puts a receipt into review while its
      cancel is on record. */
  lemma NoReviewUnderCancel(s: Sys, step: Step, d: nat)
    requires Enabled(s, step) && Known(s, d) && s.ledger.receipts[d].cancelRequested
    ensures Known(Apply(s, step), d)
    ensures Apply(s, step).ledger.receipts[d].state.Review? ==> s.ledger.receipts[d].state.Review?
  {
    StepKeeps(s, step, d);
  }

  lemma {:induction false} AbortedStays(states: seq<Sys>, steps: seq<Step>, n: nat, m: nat, d: nat)
    requires IsTrace(states, steps) && n <= m < |states|
    requires Known(states[n], d) && states[n].ledger.receipts[d].state.Aborted?
    ensures Known(states[m], d) && states[m].ledger.receipts[d].state.Aborted?
  {
    if n < m {
      AbortedStays(states, steps, n, m - 1, d);
      assert StepOk(states[m - 1], steps[m - 1], states[m - 1 + 1]);
      StepKeeps(states[m - 1], steps[m - 1], d);
    }
  }

  /** An aborted receipt never reached the wrapper, and never will: its task can be
      dispatched again. */
  lemma AbortedNeverSubmitted(states: seq<Sys>, steps: seq<Step>, n: nat, m: nat, d: nat)
    requires IsTrace(states, steps) && n <= m < |states|
    requires Known(states[n], d) && states[n].ledger.receipts[d].state.Aborted?
    ensures Known(states[m], d) && !states[m].flows[d].submitted
  {
    AbortedStays(states, steps, n, m, d);
    Always(states, steps, m);
    assert FlowOk(states[m].ledger.receipts[d], states[m].flows[d]);
  }

  /** The tick lock is what makes recovery sound: its guarded UPDATE alone would
      abort a receipt that another dispatcher claimed and submitted after the
      recovery read it as reserved. */
  lemma RecoveryNeedsTheLock(l: Ledger, d: nat, run: nat, kernelRun: nat)
    requires d < |l.receipts| && l.receipts[d].state.Reserved?
    ensures var claimed := Transition(l, d, Claimed, None, Some(kernelRun), false);
      var submitted := Transition(claimed, d, Submitted, Some(run), None, false);
      var recovered := Transition(submitted, d, Aborted, None, None, false);
      recovered.receipts[d].state.Aborted? && recovered.receipts[d].run == Some(run)
      && !Taken(recovered.receipts[d..d + 1], l.receipts[d].scope.task, l.receipts[d].workspace)
  {
  }
}
