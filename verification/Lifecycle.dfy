/**
 The run lifecycle of the API process: durable attempt rows, the in-memory task
 of each run, the Runner's side of each run RPC, and the quarantine table.

 A run is named by the position of its attempt row (run ids are fresh, rows are
 never deleted, and the position is the insertion order the store sorts by).
 Code between two suspension points is one atomic step, so every step below is
 one function from the whole state to the whole state.
 */
module Lifecycle {
  import opened Common

  datatype Status =
    | Reserved | Queued | Starting | Running | Cancelling
    | Completed | Failed | Cancelled | Unknown

  datatype Outcome =
    | Succeeded | Partial | ProviderError | OCancelled | OUnknown
    | QueueTimeout | Rejected

  predicate Active(s: Status) {
    s.Reserved? || s.Queued? || s.Starting? || s.Running? || s.Cancelling?
  }

  // Statuses covered by the partial unique index on (principal, task).
  predicate HoldsLock(s: Status) {
    Active(s) || s.Unknown?
  }

  predicate Validated(s: Status) {
    s.Completed? || s.Failed? || s.Cancelled?
  }

  predicate Terminal(s: Status) {
    Validated(s) || s.Unknown?
  }

  // ------------------------------------------------------------ the store's SQL

  /** SQL truth values. */
  datatype Sql = True | False | Null

  function SqlBool(b: bool): Sql {
    if b then True else False
  }

  function SqlNot(a: Sql): Sql {
    match a case True => False case False => True case Null => Null
  }

  function SqlAnd(a: Sql, b: Sql): Sql {
    if a == False || b == False then False
    else if a == Null || b == Null then Null
    else True
  }

  function SqlOr(a: Sql, b: Sql): Sql {
    if a == True || b == True then True
    else if a == Null || b == Null then Null
    else False
  }

  predicate SafeOutcome(o: Outcome) {
    o.Rejected? || o.QueueTimeout?
  }

  // outcome IN ('rejected','queue_timeout') on a nullable column
  function SqlOutcomeIn(o: Option<Outcome>): Sql {
    match o case None => Null case Some(v) => SqlBool(SafeOutcome(v))
  }

  // the same on COALESCE(outcome,''): the empty string is in no list
  function SqlCoalescedOutcomeIn(o: Option<Outcome>): Sql {
    match o case None => False case Some(v) => SqlBool(SafeOutcome(v))
  }

  function Blocker(status: Status, started: bool, outcomeTest: Sql): Sql {
    SqlNot(SqlOr(SqlAnd(SqlBool(status.Failed?), outcomeTest),
                 SqlAnd(SqlBool(status.Cancelled?), SqlBool(!started))))
  }

  predicate ProvenPreExecution(status: Status, outcome: Option<Outcome>, started: bool) {
    (status.Failed? && outcome.Some? && SafeOutcome(outcome.value))
    || (status.Cancelled? && !started)
  }

  /** A WHERE clause keeps a row only on True: the SQL filter and the Python
      predicate are complementary on every row, a NULL outcome included. */
  lemma BlockerMirrorsPython(status: Status, outcome: Option<Outcome>, started: bool)
    ensures Blocker(status, started, SqlCoalescedOutcomeIn(outcome)) == True
       <==> !ProvenPreExecution(status, outcome, started)
  {
  }

  /** Without COALESCE the filter would lose exactly the failed rows that have
      no recorded outcome, and so admit a retry after them. */
  lemma BareComparisonFailsOpen(status: Status, outcome: Option<Outcome>, started: bool)
    ensures (Blocker(status, started, SqlOutcomeIn(outcome)) == True
       <==> !ProvenPreExecution(status, outcome, started))
       <==> !(status.Failed? && outcome.None?)
  {
  }

  // ------------------------------------------------------------------- state

  datatype Key = Key(principal: nat, task: nat)

  datatype Code = InvalidParams | RunAlreadyActive | RunnerQueueFull | InternalError

  predicate NoEffectCode(c: Code) {
    !c.InternalError?
  }

  datatype Reply = Answer(status: Status, outcome: Outcome) | Error(code: Code)

  /** The run task of this API process. `Closing` is the wait for the session to
      close after a result was stored; `NoTask` also covers earlier processes. */
  datatype Phase =
    | NoTask
    | Waiting(cancelSet: bool)
    | Marked
    | Streaming(sawEvent: bool)
    | Closing

  /** The Runner's side of the one run RPC a run can issue. */
  datatype Rpc =
    | Unsent
    | InFlight
    | AtRunner(cancelled: bool)
    | Driving
    | Replied(reply: Reply)
    | Lost

  datatype Run = Run(
    key: Key, hash: nat, preset: nat, inst: nat,
    status: Status, outcome: Option<Outcome>, started: bool,
    phase: Phase, cancelAsked: bool,
    rpc: Rpc, events: bool,
    executed: bool,    // ghost history: the driver was started for this run
    driverLive: bool)  // ghost truth: driver work of this run may still go on
  {
    predicate Proven() { ProvenPreExecution(status, outcome, started) }

    // Holds the instance's permit: acquired, not yet released.
    predicate Holding() { phase.Marked? || phase.Streaming? || phase.Closing? }
  }

  datatype Sys = Sys(
    runs: seq<Run>,
    tasks: map<Key, nat>,        // content hash of each known task
    quarantine: map<nat, nat>,   // instance -> run recorded on its quarantine row
    epoch: nat)                  // first run of the current process

  // ------------------------------------------------------------- small edits

  function SetRun(s: Sys, r: nat, x: Run): (t: Sys)
    requires r < |s.runs|
    ensures |t.runs| == |s.runs|
  {
    s.(runs := s.runs[r := x])
  }

  function Quarantine(s: Sys, r: nat): Sys
    requires r < |s.runs|
  {
    s.(quarantine := s.quarantine[s.runs[r].inst := r])
  }

  function ReconcileQuarantine(s: Sys, r: nat): Sys
    requires r < |s.runs|
  {
    var i := s.runs[r].inst;
    if i in s.quarantine && s.quarantine[i] == r then s.(quarantine := s.quarantine - {i}) else s
  }

  function Finish(s: Sys, r: nat, status: Status, outcome: Outcome): (t: Sys)
    requires r < |s.runs|
    ensures |t.runs| == |s.runs|
  {
    var t := SetRun(s, r, s.runs[r].(status := status, outcome := Some(outcome)));
    if Validated(status) then ReconcileQuarantine(t, r) else t
  }

  function EndTask(s: Sys, r: nat): (t: Sys)
    requires r < |s.runs|
    ensures |t.runs| == |s.runs|
  {
    SetRun(s, r, s.runs[r].(phase := NoTask))
  }

  function Unresolved(s: Sys, r: nat): (t: Sys)
    requires r < |s.runs|
    ensures |t.runs| == |s.runs|
  {
    Quarantine(Finish(s, r, Unknown, OUnknown), r)
  }

  // ------------------------------------------------------------------ submit

  datatype Verdict =
    | Admitted
    | Fresh(run: nat)
    | Cached(run: nat)
    | ContentConflict
    | RunActive
    | UnknownAttempt
    | ModelConflict
    | NotRetryable
    | Unavailable
    | RunnerQuarantined
    | QueueFull

  function Latest(runs: seq<Run>, key: Key): (r: Option<nat>)
    ensures r.Some? ==> r.value < |runs| && runs[r.value].key == key
    ensures r.Some? ==> forall i :: r.value < i < |runs| ==> runs[i].key != key
    ensures r.None? ==> forall i :: 0 <= i < |runs| ==> runs[i].key != key
  {
    if runs == [] then None
    else if runs[|runs| - 1].key == key then Some(|runs| - 1)
    else Latest(runs[..|runs| - 1], key)
  }

  /** submit's look at the newest attempt only. */
  function Precheck(s: Sys, key: Key, hash: nat, preset: nat): Verdict {
    match Latest(s.runs, key)
    case None => Admitted
    case Some(r) =>
      var last := s.runs[r];
      if key in s.tasks && s.tasks[key] != hash then ContentConflict
      else if Active(last.status) then RunActive
      else if last.status.Unknown? then UnknownAttempt
      else if last.status.Completed? then
        if last.preset != preset then ModelConflict else Cached(r)
      else if !last.Proven() then NotRetryable
      else Admitted
  }

  predicate SomeLocked(runs: seq<Run>, key: Key) {
    exists i :: 0 <= i < |runs| && runs[i].key == key && HoldsLock(runs[i].status)
  }

  predicate SomeBlocker(runs: seq<Run>, key: Key) {
    exists i :: 0 <= i < |runs| && runs[i].key == key
             && Blocker(runs[i].status, runs[i].started, SqlCoalescedOutcomeIn(runs[i].outcome)) == True
  }

  /** reserve's look at the whole history, inside its transaction. */
  function ReserveCheck(s: Sys, key: Key, hash: nat): Verdict {
    if key in s.tasks && s.tasks[key] != hash then ContentConflict
    else if SomeLocked(s.runs, key) then RunActive
    else if SomeBlocker(s.runs, key) then NotRetryable
    else Admitted
  }

  function NewRun(key: Key, hash: nat, preset: nat, inst: nat): Run {
    Run(key, hash, preset, inst, Queued, None, false, Waiting(false), false, Unsent, false, false, false)
  }

  function Reserve(s: Sys, key: Key, hash: nat, preset: nat, inst: nat): Sys {
    s.(runs := s.runs + [NewRun(key, hash, preset, inst)],
       tasks := if key in s.tasks then s.tasks else s.tasks[key := hash])
  }

  /** `available` and `full` stand for the registry snapshot and the admission
      counters (the latter are the Admission module). */
  function Submit(s: Sys, key: Key, hash: nat, preset: nat, inst: nat, available: bool, full: bool)
    : (Sys, Verdict)
  {
    var pre := Precheck(s, key, hash, preset);
    if !pre.Admitted? then (s, pre)
    else if !available then (s, Unavailable)
    else if inst in s.quarantine then (s, RunnerQuarantined)
    else if full then (s, QueueFull)
    else
      var check := ReserveCheck(s, key, hash);
      if check.Admitted? then (Reserve(s, key, hash, preset, inst), Fresh(|s.runs|))
      else if !check.NotRetryable? then (s, check)
      else
        match Latest(s.runs, key)
        case None => (s, check)
        case Some(r) =>
          if !s.runs[r].status.Completed? || key !in s.tasks || s.tasks[key] != hash then (s, check)
          else if s.runs[r].preset != preset then (s, ModelConflict)
          else (s, Cached(r))
  }

  // ---------------------------------------------------------- the run's task

  datatype Wakeup = Acquired | TimedOut | AcquireFailed | CancelSeen

  predicate PermitFree(s: Sys, inst: nat) {
    forall i :: s.epoch <= i < |s.runs| && s.runs[i].inst == inst ==> !s.runs[i].Holding()
  }

  predicate CanWake(s: Sys, r: nat, w: Wakeup) {
    r < |s.runs| && s.runs[r].phase.Waiting?
    && (w.Acquired? ==> PermitFree(s, s.runs[r].inst))
    && (w.CancelSeen? ==> s.runs[r].phase.cancelSet)
  }

  function MarkStarting(s: Sys, r: nat): Sys
    requires r < |s.runs|
  {
    var x := s.runs[r];
    var status := if x.status.Queued? || x.status.Reserved? || x.status.Starting? then Starting else x.status;
    SetRun(s, r, x.(status := status, started := true, phase := Marked))
  }

  function Wake(s: Sys, r: nat, w: Wakeup): Sys
    requires CanWake(s, r, w)
  {
    match w
    case TimedOut => EndTask(Finish(s, r, Failed, QueueTimeout), r)
    case AcquireFailed => EndTask(Finish(s, r, Failed, Rejected), r)
    case CancelSeen => EndTask(Finish(s, r, Cancelled, OCancelled), r)
    case Acquired =>
      if s.runs[r].inst in s.quarantine then EndTask(Finish(s, r, Failed, Rejected), r)
      else MarkStarting(s, r)
  }

  predicate CanSend(s: Sys, r: nat) {
    r < |s.runs| && s.runs[r].phase.Marked?
  }

  function Send(s: Sys, r: nat): Sys
    requires CanSend(s, r)
  {
    SetRun(s, r, s.runs[r].(phase := Streaming(false), rpc := InFlight))
  }

  predicate CanReadFirstEvent(s: Sys, r: nat) {
    r < |s.runs| && s.runs[r].phase == Streaming(false) && s.runs[r].events
  }

  function ReadFirstEvent(s: Sys, r: nat): Sys
    requires CanReadFirstEvent(s, r)
  {
    var x := s.runs[r];
    SetRun(s, r, x.(phase := Streaming(true),
                    status := if x.status.Starting? || x.status.Running? then Running else x.status))
  }

  // The reply is the last frame of its stream, so it is read after the events.
  predicate CanReadReply(s: Sys, r: nat) {
    r < |s.runs| && s.runs[r].phase.Streaming? && s.runs[r].rpc.Replied?
    && s.runs[r].phase.sawEvent == s.runs[r].events
  }

  function ReadReply(s: Sys, r: nat): Sys
    requires CanReadReply(s, r)
  {
    match s.runs[r].rpc.reply
    case Answer(status, outcome) =>
      var t := if status.Unknown? then Unresolved(s, r) else Finish(s, r, status, outcome);
      SetRun(t, r, t.runs[r].(phase := Closing))
    case Error(code) =>
      if !s.runs[r].phase.sawEvent && NoEffectCode(code) then EndTask(Finish(s, r, Failed, Rejected), r)
      else EndTask(Unresolved(s, r), r)
  }

  // Any other exception before a result was stored: connect failure, broken or
  // malformed stream, budget exceeded, closed connection.
  predicate CanFailStream(s: Sys, r: nat) {
    r < |s.runs| && (s.runs[r].phase.Marked? || s.runs[r].phase.Streaming?)
  }

  function FailStream(s: Sys, r: nat): Sys
    requires CanFailStream(s, r)
  {
    EndTask(Unresolved(s, r), r)
  }

  predicate CanClose(s: Sys, r: nat) {
    r < |s.runs| && s.runs[r].phase.Closing?
  }

  function Close(s: Sys, r: nat, raised: bool): Sys
    requires CanClose(s, r)
  {
    if raised then EndTask(Unresolved(s, r), r) else EndTask(s, r)
  }

  predicate CanCancelTask(s: Sys, r: nat) {
    r < |s.runs| && !s.runs[r].phase.NoTask?
  }

  /** The run task itself is cancelled from outside. */
  function CancelTask(s: Sys, r: nat): Sys
    requires CanCancelTask(s, r)
  {
    EndTask(Unresolved(s, r), r)
  }

  // ------------------------------------------------------------ cancel calls

  function CancelCall(s: Sys, r: nat): Sys
    requires r < |s.runs|
  {
    var x := s.runs[r];
    if x.status.Queued? || x.status.Reserved? then
      if x.phase.NoTask? then Finish(s, r, Cancelled, OCancelled)
      else if x.phase.Waiting? then SetRun(s, r, x.(phase := Waiting(true)))
      else s
    else if x.status.Starting? || x.status.Running? || x.status.Cancelling? then
      SetRun(s, r, x.(status := Cancelling, cancelAsked := true))
    else s
  }

  predicate CanCancelReturn(s: Sys, r: nat) {
    r < |s.runs| && s.runs[r].cancelAsked
  }

  /** The cancel call's second half, after its bounded waits. */
  function CancelReturn(s: Sys, r: nat): Sys
    requires CanCancelReturn(s, r)
  {
    if Terminal(s.runs[r].status) then s else Unresolved(s, r)
  }

  // --------------------------------------------------------- crash / restart

  function RestartRun(x: Run): Run {
    var y := x.(phase := NoTask, cancelAsked := false);
    if Active(x.status) then y.(status := Unknown, outcome := Some(OUnknown)) else y
  }

  function Restart(s: Sys): Sys {
    s.(runs := seq(|s.runs|, i requires 0 <= i < |s.runs| => RestartRun(s.runs[i])), epoch := |s.runs|)
  }

  // ---------------------------------------------------------- the Runner side

  datatype RunnerMove =
    | Reject(code: Code)        // typed error before the run is admitted
    | Deny                      // operator binding refuses: one run.failed event
    | Accept
    | CancelQueued
    | AnswerCancelled           // cancelled before start, driver never called
    | StartDriver
    | EmitEvent
    | Conclude(status: Status, outcome: Outcome, stopped: bool) // a validated result; the process may not be gone
    | GiveUp(stopped: bool)     // unknown result; the driver may be abandoned
    | Crash(stopped: bool)      // internal error reply
    | Lose                      // the Runner or the connection is gone
    | AbandonedStops

  predicate ConsistentAnswer(status: Status, outcome: Outcome) {
    (status.Completed? && (outcome.Succeeded? || outcome.Partial?))
    || (status.Failed? && outcome.ProviderError?)
    || (status.Cancelled? && outcome.OCancelled?)
    || (status.Unknown? && outcome.OUnknown?)
  }

  predicate CanMove(x: Run, m: RunnerMove) {
    match m
    case Reject(code) => x.rpc.InFlight? && NoEffectCode(code)
    case Deny => x.rpc.InFlight? || x.rpc == AtRunner(false)
    case Accept => x.rpc.InFlight?
    case CancelQueued => x.rpc.AtRunner?
    case AnswerCancelled => x.rpc == AtRunner(true)
    case StartDriver => x.rpc == AtRunner(false)
    case EmitEvent => x.rpc.Driving?
    case Conclude(status, outcome, _) =>
      x.rpc.Driving? && Validated(status) && ConsistentAnswer(status, outcome) && (x.events || status.Cancelled?)
    case GiveUp(_) => x.rpc.Driving?
    case Crash(_) => x.rpc.AtRunner? || x.rpc.Driving?
    case Lose => x.rpc.InFlight? || x.rpc.AtRunner? || x.rpc.Driving?
    case AbandonedStops => x.rpc.Replied? || x.rpc.Lost?
  }

  function Move(x: Run, m: RunnerMove): Run
    requires CanMove(x, m)
  {
    match m
    case Reject(code) => x.(rpc := Replied(Error(code)))
    case Deny => x.(rpc := Replied(Answer(Failed, ProviderError)), events := true)
    case Accept => x.(rpc := AtRunner(false))
    case CancelQueued => x.(rpc := AtRunner(true))
    case AnswerCancelled => x.(rpc := Replied(Answer(Cancelled, OCancelled)))
    case StartDriver => x.(rpc := Driving, executed := true, driverLive := true)
    case EmitEvent => x.(events := true)
    case Conclude(status, outcome, stopped) => x.(rpc := Replied(Answer(status, outcome)), driverLive := !stopped)
    case GiveUp(stopped) => x.(rpc := Replied(Answer(Unknown, OUnknown)), driverLive := !stopped)
    case Crash(stopped) => x.(rpc := Replied(Error(InternalError)), driverLive := x.driverLive && !stopped)
    case Lose => x.(rpc := Lost)
    case AbandonedStops => x.(driverLive := false)
  }

  // --------------------------------------------------------------- the system

  datatype Action =
    | ASubmit(key: Key, hash: nat, preset: nat, inst: nat, available: bool, full: bool)
    | AWake(run: nat, w: Wakeup)
    | ASend(run: nat)
    | AFirstEvent(run: nat)
    | AReply(run: nat)
    | AFail(run: nat)
    | AClose(run: nat, raised: bool)
    | ACancelTask(run: nat)
    | ACancelCall(run: nat)
    | ACancelReturn(run: nat)
    | ARestart
    | ARunner(run: nat, m: RunnerMove)

  predicate Enabled(s: Sys, a: Action) {
    match a
    case ASubmit(_, _, _, _, _, _) => true
    case AWake(r, w) => CanWake(s, r, w)
    case ASend(r) => CanSend(s, r)
    case AFirstEvent(r) => CanReadFirstEvent(s, r)
    case AReply(r) => CanReadReply(s, r)
    case AFail(r) => CanFailStream(s, r)
    case AClose(r, _) => CanClose(s, r)
    case ACancelTask(r) => CanCancelTask(s, r)
    case ACancelCall(r) => r < |s.runs|
    case ACancelReturn(r) => CanCancelReturn(s, r)
    case ARestart => true
    case ARunner(r, m) => r < |s.runs| && CanMove(s.runs[r], m)
  }

  function Apply(s: Sys, a: Action): Sys
    requires Enabled(s, a)
  {
    match a
    case ASubmit(key, hash, preset, inst, available, full) =>
      Submit(s, key, hash, preset, inst, available, full).0
    case AWake(r, w) => Wake(s, r, w)
    case ASend(r) => Send(s, r)
    case AFirstEvent(r) => ReadFirstEvent(s, r)
    case AReply(r) => ReadReply(s, r)
    case AFail(r) => FailStream(s, r)
    case AClose(r, raised) => Close(s, r, raised)
    case ACancelTask(r) => CancelTask(s, r)
    case ACancelCall(r) => CancelCall(s, r)
    case ACancelReturn(r) => CancelReturn(s, r)
    case ARestart => Restart(s)
    case ARunner(r, m) => SetRun(s, r, Move(s.runs[r], m))
  }

  // A fresh deployment: no attempts. Quarantine rows are absent.
  const INITIAL := Sys([], map[], map[], 0)

  predicate StepOk(s: Sys, a: Action, t: Sys) {
    Enabled(s, a) && t == Apply(s, a)
  }

  /** A run of the whole system: any interleaving of the actions. */
  ghost predicate IsTrace(states: seq<Sys>, acts: seq<Action>) {
    |states| == |acts| + 1 && states[0] == INITIAL
    && forall i :: 0 <= i < |acts| ==> StepOk(states[i], acts[i], states[i + 1])
  }
}
