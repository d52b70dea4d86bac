/**
 The dispatcher's sidecar ledger: reservation receipts with one-way terminal
 states, and consume-once approvals. Rows are named by their position.
 */
module DispatchLedger {
  import opened Common

  datatype State =
    | Reserved | Claimed | Submitted | Completing
    | Review | Blocked | Aborted | Cancelled | Failed | Unknown

  // States the two partial unique indexes cover.
  predicate Blocking(s: State) {
    s.Reserved? || s.Claimed? || s.Submitted? || s.Completing? || s.Unknown?
  }

  // A receipt in one of these states is never moved again.
  predicate OneWay(s: State) {
    s.Review? || s.Blocked? || s.Aborted? || s.Cancelled? || s.Failed?
  }

  datatype Scope = Scope(task: nat, revision: nat, spec: nat, policy: nat)

  datatype Receipt = Receipt(
    scope: Scope, workspace: nat, state: State,
    run: Option<nat>, kernelRun: Option<nat>, cancelRequested: bool,
    createdAt: int,
    grant: Option<nat>)   // history: the approval this reservation consumed

  datatype Decision = Pending | Applied | Denied | Expired | Consumed

  datatype Approval = Approval(
    scope: Scope, forDispatch: bool, actors: set<nat>,
    state: Decision, expiresAt: int, decidedBy: Option<nat>)

  datatype Ledger = Ledger(receipts: seq<Receipt>, approvals: seq<Approval>)

  // ------------------------------------------------------------- reservations

  predicate Taken(receipts: seq<Receipt>, task: nat, workspace: nat) {
    exists i :: 0 <= i < |receipts| && Blocking(receipts[i].state)
             && (receipts[i].scope.task == task || receipts[i].workspace == workspace)
  }

  predicate Grants(approvals: seq<Approval>, a: nat, scope: Scope, now: int) {
    a < |approvals| && approvals[a].state.Applied? && approvals[a].scope == scope
    && approvals[a].forDispatch && approvals[a].expiresAt > now
  }

  function Burn(approvals: seq<Approval>, a: nat): seq<Approval>
    requires a < |approvals|
  {
    approvals[a := approvals[a].(state := Consumed)]
  }

  datatype ReserveResult = Created(id: nat) | ReservationExists | GrantMismatch

  function Reserve(l: Ledger, scope: Scope, workspace: nat, consume: Option<nat>, now: int): (Ledger, ReserveResult) {
    if consume.Some? && !Grants(l.approvals, consume.value, scope, now) then (l, GrantMismatch)
    else if Taken(l.receipts, scope.task, workspace) then (l, ReservationExists)
    else
      (Ledger(l.receipts + [Receipt(scope, workspace, Reserved, None, None, false, now, consume)],
              if consume.Some? then Burn(l.approvals, consume.value) else l.approvals),
       Created(|l.receipts|))
  }

  /** One guarded UPDATE of one receipt; None when it matches no row. */
  function Move(r: Receipt, state: State, run: Option<nat>, kernelRun: Option<nat>,
                requireNoCancel: bool): Option<Receipt> {
    if OneWay(r.state) || (requireNoCancel && r.cancelRequested) then None
    else Some(r.(state := state,
                 run := if run.Some? then run else r.run,
                 kernelRun := if kernelRun.Some? then kernelRun else r.kernelRun))
  }

  function Transition(l: Ledger, d: nat, state: State, run: Option<nat>, kernelRun: Option<nat>,
                      requireNoCancel: bool): Ledger
    requires d < |l.receipts|
  {
    match Move(l.receipts[d], state, run, kernelRun, requireNoCancel)
    case None => l
    case Some(r) => l.(receipts := l.receipts[d := r])
  }

  function RequestCancel(l: Ledger, d: nat): Ledger
    requires d < |l.receipts|
  {
    l.(receipts := l.receipts[d := l.receipts[d].(cancelRequested := true)])
  }

  // ---------------------------------------------------------------- approvals

  predicate IsPendingFor(a: Approval, scope: Scope, forDispatch: bool) {
    a.state.Pending? && a.scope == scope && a.forDispatch == forDispatch
  }

  function LastPending(approvals: seq<Approval>, scope: Scope, forDispatch: bool): (r: Option<nat>)
    ensures r.Some? ==> r.value < |approvals| && IsPendingFor(approvals[r.value], scope, forDispatch)
    ensures r.Some? ==> forall i :: r.value < i < |approvals| ==> !IsPendingFor(approvals[i], scope, forDispatch)
    ensures r.None? ==> forall i :: 0 <= i < |approvals| ==> !IsPendingFor(approvals[i], scope, forDispatch)
  {
    if approvals == [] then None
    else if IsPendingFor(approvals[|approvals| - 1], scope, forDispatch) then Some(|approvals| - 1)
    else LastPending(approvals[..|approvals| - 1], scope, forDispatch)
  }

  function Create(l: Ledger, scope: Scope, forDispatch: bool, actors: set<nat>, expiresAt: int): (Ledger, Option<nat>) {
    if actors == {} then (l, None)
    else
      match LastPending(l.approvals, scope, forDispatch)
      case Some(a) => (l, Some(a))
      case None =>
        (l.(approvals := l.approvals + [Approval(scope, forDispatch, actors, Pending, expiresAt, None)]),
         Some(|l.approvals|))
  }

  function ExpireApplied(a: Approval, now: int): Approval {
    if a.state.Applied? && a.expiresAt <= now then a.(state := Expired) else a
  }

  function ExpireAll(approvals: seq<Approval>, now: int): seq<Approval> {
    seq(|approvals|, i requires 0 <= i < |approvals| => ExpireApplied(approvals[i], now))
  }

  function Decide(l: Ledger, a: nat, actor: nat, apply: bool, now: int): (Ledger, bool) {
    if a >= |l.approvals| || !l.approvals[a].state.Pending? || actor !in l.approvals[a].actors then (l, false)
    else if now >= l.approvals[a].expiresAt then
      (l.(approvals := l.approvals[a := l.approvals[a].(state := Expired, decidedBy := Some(actor))]), false)
    else
      var state := if apply then Applied else Denied;
      (l.(approvals := l.approvals[a := l.approvals[a].(state := state, decidedBy := Some(actor))]), true)
  }

  // ---------------------------------------------------------------- all calls

  datatype Call =
    | CReserve(scope: Scope, workspace: nat, consume: Option<nat>, now: int)
    | CTransition(id: nat, state: State, run: Option<nat>, kernelRun: Option<nat>, requireNoCancel: bool)
    | CRequestCancel(id: nat)
    | CCreate(scope: Scope, forDispatch: bool, actors: set<nat>, expiresAt: int)
    | CFindGrant(now: int)
    | CDecide(approval: nat, actor: nat, apply: bool, now: int)

  function Apply(l: Ledger, c: Call): Ledger {
    match c
    case CReserve(scope, workspace, consume, now) => Reserve(l, scope, workspace, consume, now).0
    case CTransition(d, state, run, kernelRun, nc) =>
      if d < |l.receipts| then Transition(l, d, state, run, kernelRun, nc) else l
    case CRequestCancel(d) => if d < |l.receipts| then RequestCancel(l, d) else l
    case CCreate(scope, forDispatch, actors, expiresAt) => Create(l, scope, forDispatch, actors, expiresAt).0
    case CFindGrant(now) => l.(approvals := ExpireAll(l.approvals, now))
    case CDecide(a, actor, apply, now) => Decide(l, a, actor, apply, now).0
  }

  function ApplyAll(l: Ledger, calls: seq<Call>): Ledger {
    if calls == [] then l else Apply(ApplyAll(l, calls[..|calls| - 1]), calls[|calls| - 1])
  }

  // ---------------------------------------------------------------- invariant

  predicate AtMostOneLive(receipts: seq<Receipt>) {
    forall i, j :: 0 <= i < j < |receipts| && Blocking(receipts[i].state) && Blocking(receipts[j].state) ==>
      receipts[i].scope.task != receipts[j].scope.task && receipts[i].workspace != receipts[j].workspace
  }

  // Receipt r was created by burning exactly this approval.
  predicate PaidBy(r: Receipt, a: Approval) {
    a.state.Consumed? && a.scope == r.scope && a.forDispatch && r.createdAt < a.expiresAt
    && a.decidedBy.Some? && a.decidedBy.value in a.actors
  }

  ghost predicate GrantsPaid(l: Ledger) {
    forall i :: 0 <= i < |l.receipts| && l.receipts[i].grant.Some? ==>
      l.receipts[i].grant.value < |l.approvals| && PaidBy(l.receipts[i], l.approvals[l.receipts[i].grant.value])
  }

  ghost predicate GrantsApart(l: Ledger) {
    forall i, j :: 0 <= i < j < |l.receipts| && l.receipts[i].grant.Some? ==>
      l.receipts[i].grant != l.receipts[j].grant
  }

  ghost predicate ConsumedPaid(l: Ledger) {
    forall a :: 0 <= a < |l.approvals| && l.approvals[a].state.Consumed? ==>
      exists i :: 0 <= i < |l.receipts| && l.receipts[i].grant == Some(a)
  }

  ghost predicate GrantsDecided(l: Ledger) {
    forall a :: 0 <= a < |l.approvals| && (l.approvals[a].state.Applied? || l.approvals[a].state.Consumed?) ==>
      l.approvals[a].decidedBy.Some? && l.approvals[a].decidedBy.value in l.approvals[a].actors
  }

  ghost predicate GrantsOk(l: Ledger) {
    GrantsPaid(l) && GrantsApart(l) && ConsumedPaid(l) && GrantsDecided(l)
  }

  ghost predicate Inv(l: Ledger) {
    AtMostOneLive(l.receipts) && GrantsOk(l)
  }

  // Old receipts keep their grants; the new one names what it burned.
  lemma ConsumedStayPaid(l: Ledger, t: Ledger, consume: Option<nat>, a: nat)
    requires |t.receipts| == |l.receipts| + 1 && t.receipts[|l.receipts|].grant == consume
    requires forall i :: 0 <= i < |l.receipts| ==> t.receipts[i] == l.receipts[i]
    requires consume == Some(a) || exists i :: 0 <= i < |l.receipts| && l.receipts[i].grant == Some(a)
    ensures exists i :: 0 <= i < |t.receipts| && t.receipts[i].grant == Some(a)
  {
    if consume != Some(a) {
      var i :| 0 <= i < |l.receipts| && l.receipts[i].grant == Some(a);
      assert t.receipts[i].grant == Some(a);
    }
  }

  // A created receipt is appended, and the grant it consumed burned.
  ghost predicate Reserves(l: Ledger, t: Ledger, scope: Scope, consume: Option<nat>, now: int) {
    && |t.receipts| == |l.receipts| + 1 && |t.approvals| == |l.approvals|
    && (forall i :: 0 <= i < |l.receipts| ==> t.receipts[i] == l.receipts[i])
    && t.receipts[|l.receipts|].scope == scope && t.receipts[|l.receipts|].grant == consume
    && t.receipts[|l.receipts|].createdAt == now
    && (match consume
        case Some(a) => Grants(l.approvals, a, scope, now) && t.approvals == Burn(l.approvals, a)
        case None => t.approvals == l.approvals)
  }

  lemma ReserveReserves(l: Ledger, scope: Scope, workspace: nat, consume: Option<nat>, now: int)
    requires Reserve(l, scope, workspace, consume, now).1.Created?
    ensures Reserves(l, Reserve(l, scope, workspace, consume, now).0, scope, consume, now)
  {
  }

  lemma ReservedArePaid(l: Ledger, t: Ledger, scope: Scope, consume: Option<nat>, now: int)
    requires GrantsPaid(l) && GrantsDecided(l) && Reserves(l, t, scope, consume, now)
    ensures GrantsPaid(t) && GrantsDecided(t)
  {
  }

  lemma ReservedStayApart(l: Ledger, t: Ledger, scope: Scope, consume: Option<nat>, now: int)
    requires GrantsPaid(l) && GrantsApart(l) && Reserves(l, t, scope, consume, now)
    ensures GrantsApart(t)
  {
  }

  lemma ReserveKeepsGrants(l: Ledger, scope: Scope, workspace: nat, consume: Option<nat>, now: int)
    requires GrantsOk(l) && Reserve(l, scope, workspace, consume, now).1.Created?
    ensures GrantsOk(Reserve(l, scope, workspace, consume, now).0)
  {
    var t := Reserve(l, scope, workspace, consume, now).0;
    ReserveReserves(l, scope, workspace, consume, now);
    ReservedArePaid(l, t, scope, consume, now);
    ReservedStayApart(l, t, scope, consume, now);
    forall a | 0 <= a < |t.approvals| && t.approvals[a].state.Consumed?
      ensures exists i :: 0 <= i < |t.receipts| && t.receipts[i].grant == Some(a)
    {
      if consume != Some(a) { assert t.approvals[a] == l.approvals[a]; }
      ConsumedStayPaid(l, t, consume, a);
    }
  }

  // The remaining calls rewrite receipts without touching what was paid, and
  // approvals without touching a consumed one.
  lemma RewriteKeepsGrants(l: Ledger, t: Ledger)
    requires GrantsOk(l) && |t.receipts| == |l.receipts| && |l.approvals| <= |t.approvals|
    requires forall i :: 0 <= i < |l.receipts| ==>
      t.receipts[i].grant == l.receipts[i].grant && t.receipts[i].scope == l.receipts[i].scope
      && t.receipts[i].createdAt == l.receipts[i].createdAt
    requires forall a :: 0 <= a < |l.approvals| ==>
      (l.approvals[a].state.Consumed? ==> t.approvals[a] == l.approvals[a])
      && (t.approvals[a].state.Consumed? ==> l.approvals[a].state.Consumed?)
    requires forall a :: 0 <= a < |t.approvals| && t.approvals[a].state.Applied? ==>
      t.approvals[a].decidedBy.Some? && t.approvals[a].decidedBy.value in t.approvals[a].actors
    requires forall a :: |l.approvals| <= a < |t.approvals| ==> !t.approvals[a].state.Consumed?
    ensures GrantsOk(t)
  {
    forall a | 0 <= a < |t.approvals| && t.approvals[a].state.Consumed?
      ensures exists i :: 0 <= i < |t.receipts| && t.receipts[i].grant == Some(a)
    {
      var i :| 0 <= i < |l.receipts| && l.receipts[i].grant == Some(a);
      assert t.receipts[i].grant == Some(a);
    }
  }

  lemma ReceiptEditPreserves(l: Ledger, d: nat, r: Receipt)
    requires Inv(l) && d < |l.receipts|
    requires r.scope == l.receipts[d].scope && r.workspace == l.receipts[d].workspace
    requires r.grant == l.receipts[d].grant && r.createdAt == l.receipts[d].createdAt
    requires Blocking(r.state) ==> Blocking(l.receipts[d].state)
    ensures Inv(l.(receipts := l.receipts[d := r]))
  {
    var t := l.(receipts := l.receipts[d := r]);
    assert forall i :: 0 <= i < |l.receipts| && i != d ==> t.receipts[i] == l.receipts[i];
    RewriteKeepsGrants(l, t);
  }

  lemma ApprovalEditPreserves(l: Ledger, a: nat, x: Approval)
    requires Inv(l) && a < |l.approvals|
    requires !l.approvals[a].state.Consumed? && !x.state.Consumed?
    requires x.state.Applied? ==> x.decidedBy.Some? && x.decidedBy.value in x.actors
    ensures Inv(l.(approvals := l.approvals[a := x]))
  {
    RewriteKeepsGrants(l, l.(approvals := l.approvals[a := x]));
  }

  lemma CreatePreserves(l: Ledger, scope: Scope, forDispatch: bool, actors: set<nat>, expiresAt: int)
    requires Inv(l)
    ensures Inv(Create(l, scope, forDispatch, actors, expiresAt).0)
  {
    RewriteKeepsGrants(l, Create(l, scope, forDispatch, actors, expiresAt).0);
  }

  lemma ExpirePreserves(l: Ledger, now: int)
    requires Inv(l)
    ensures Inv(l.(approvals := ExpireAll(l.approvals, now)))
  {
    RewriteKeepsGrants(l, l.(approvals := ExpireAll(l.approvals, now)));
  }

  lemma ReservePreserves(l: Ledger, scope: Scope, workspace: nat, consume: Option<nat>, now: int)
    requires Inv(l)
    ensures Inv(Reserve(l, scope, workspace, consume, now).0)
  {
    var (t, res) := Reserve(l, scope, workspace, consume, now);
    if res.Created? {
      ReserveKeepsGrants(l, scope, workspace, consume, now);
      assert forall i :: 0 <= i < |l.receipts| ==> t.receipts[i] == l.receipts[i];
      assert AtMostOneLive(t.receipts);
    }
  }

  lemma TransitionPreserves(l: Ledger, d: nat, state: State, run: Option<nat>, kernelRun: Option<nat>, nc: bool)
    requires Inv(l) && d < |l.receipts|
    ensures Inv(Transition(l, d, state, run, kernelRun, nc))
  {
    var moved := Move(l.receipts[d], state, run, kernelRun, nc);
    if moved.Some? {
      ReceiptEditPreserves(l, d, moved.value);
    }
  }

  lemma CallPreserves(l: Ledger, c: Call)
    requires Inv(l)
    ensures Inv(Apply(l, c))
  {
    match c {
      case CReserve(scope, workspace, consume, now) => ReservePreserves(l, scope, workspace, consume, now);
      case CTransition(d, state, run, kernelRun, nc) =>
        if d < |l.receipts| { TransitionPreserves(l, d, state, run, kernelRun, nc); }
      case CRequestCancel(d) =>
        if d < |l.receipts| { ReceiptEditPreserves(l, d, l.receipts[d].(cancelRequested := true)); }
      case CCreate(scope, forDispatch, actors, expiresAt) => CreatePreserves(l, scope, forDispatch, actors, expiresAt);
      case CFindGrant(now) => ExpirePreserves(l, now);
      case CDecide(a, actor, apply, now) =>
        var t := Decide(l, a, actor, apply, now).0;
        if t != l { ApprovalEditPreserves(l, a, t.approvals[a]); }
    }
  }

  lemma {:induction false} Always(calls: seq<Call>)
    ensures Inv(ApplyAll(Ledger([], []), calls))
  {
    if calls != [] {
      Always(calls[..|calls| - 1]);
      CallPreserves(ApplyAll(Ledger([], []), calls[..|calls| - 1]), calls[|calls| - 1]);
    }
  }

  // ------------------------------------------------------------- main results

  /** Over every history of calls: a consumed approval paid for exactly one
      reservation, with the identical scope, applied by an actor on its own list,
      and unexpired when it was burned; nothing else is ever paid for. */
  lemma ApprovalsAreLinear(calls: seq<Call>, a: nat)
    requires var l := ApplyAll(Ledger([], []), calls); a < |l.approvals|
    ensures var l := ApplyAll(Ledger([], []), calls);
      && (l.approvals[a].state.Consumed? <==> exists i :: 0 <= i < |l.receipts| && l.receipts[i].grant == Some(a))
      && (forall i :: 0 <= i < |l.receipts| && l.receipts[i].grant == Some(a) ==>
            PaidBy(l.receipts[i], l.approvals[a])
            && forall j :: 0 <= j < |l.receipts| && l.receipts[j].grant == Some(a) ==> j == i)
  {
    Always(calls);
  }

  /** Over every history of calls: at most one receipt per task, and at most one
      per workspace, is in a blocking state. */
  lemma OneLiveReceipt(calls: seq<Call>, i: nat, j: nat)
    requires var l := ApplyAll(Ledger([], []), calls); i < j < |l.receipts|
    ensures var l := ApplyAll(Ledger([], []), calls);
      Blocking(l.receipts[i].state) && Blocking(l.receipts[j].state) ==>
        l.receipts[i].scope.task != l.receipts[j].scope.task && l.receipts[i].workspace != l.receipts[j].workspace
  {
    Always(calls);
  }

  /** No call takes a receipt out of a one-way state, or withdraws a cancel. */
  lemma OneWayDoors(l: Ledger, c: Call, d: nat)
    requires d < |l.receipts|
    ensures d < |Apply(l, c).receipts|
    ensures OneWay(l.receipts[d].state) ==> Apply(l, c).receipts[d].state == l.receipts[d].state
    ensures l.receipts[d].cancelRequested ==> Apply(l, c).receipts[d].cancelRequested
    ensures Apply(l, c).receipts[d].scope == l.receipts[d].scope
  {
  }
}

/** The store as the source writes it: an object over two tables, one method per
    transaction. */
module DispatchStores {
  import opened Common
  import opened DispatchLedger

  class DispatchStore {
    var receipts: seq<Receipt>
    var approvals: seq<Approval>

    ghost function View(): Ledger
      reads this
    {
      Ledger(receipts, approvals)
    }

    constructor ()
      ensures View() == Ledger([], [])
    {
      receipts, approvals := [], [];
    }

    // An applied dispatch grant of exactly this scope, still good.
    static predicate IsExact(approvals: seq<Approval>, a: nat, scope: Scope, now: int) {
      a < |approvals| && approvals[a].state.Applied? && approvals[a].scope == scope && approvals[a].forDispatch
      && now < approvals[a].expiresAt
    }

    static predicate Unresolved(r: Receipt) {
      r.state.Reserved? || r.state.Claimed? || r.state.Submitted? || r.state.Completing? || r.state.Unknown?
    }

    static ghost predicate Occupied(receipts: seq<Receipt>, task: nat, workspace: nat) {
      exists i :: 0 <= i < |receipts| && Unresolved(receipts[i])
        && (receipts[i].scope.task == task || receipts[i].workspace == workspace)
    }

    static predicate Closed(r: Receipt) {
      r.state.Review? || r.state.Blocked? || r.state.Aborted? || r.state.Cancelled? || r.state.Failed?
    }

    /** Consuming the grant and inserting the receipt are one transaction: the
        insert's uniqueness failure also rolls the consumption back. */
    method ReserveReceipt(scope: Scope, workspace: nat, consume: Option<nat>, now: int) returns (res: ReserveResult)
      modifies this
      ensures (View(), res) == Reserve(old(View()), scope, workspace, consume, now)
      ensures !res.Created? ==> View() == old(View())
      ensures res.GrantMismatch? <==> consume.Some? && !IsExact(old(approvals), consume.value, scope, now)
      ensures res.ReservationExists? <==> !res.GrantMismatch? && Occupied(old(receipts), scope.task, workspace)
      ensures res.Created? ==> res.id == |old(receipts)|
      ensures res.Created? ==>
        receipts == old(receipts) + [Receipt(scope, workspace, Reserved, None, None, false, now, consume)]
      ensures res.Created? ==> approvals == match consume
        case None => old(approvals)
        case Some(a) => old(approvals)[a := old(approvals)[a].(state := Consumed)]
    {
      var saved := approvals;
      if consume.Some? {
        var ok := Grants(approvals, consume.value, scope, now);
        if !ok { return GrantMismatch; }
        approvals := Burn(approvals, consume.value);
      }
      var taken := Taken(receipts, scope.task, workspace);
      if taken {
        approvals := saved;
        return ReservationExists;
      }
      res := Created(|receipts|);
      receipts := receipts + [Receipt(scope, workspace, Reserved, None, None, false, now, consume)];
    }

    /** `moved` is false where the source raises StoreError. */
    method MoveReceipt(d: nat, state: State, run: Option<nat>, kernelRun: Option<nat>, requireNoCancel: bool)
      returns (moved: bool)
      modifies this`receipts
      ensures d < |old(receipts)| ==> View() == Transition(old(View()), d, state, run, kernelRun, requireNoCancel)
      ensures moved <==> d < |old(receipts)| && !Closed(old(receipts)[d])
                         && !(requireNoCancel && old(receipts)[d].cancelRequested)
      ensures moved ==> var r := old(receipts)[d];
        receipts == old(receipts)[d := r.(state := state, run := if run.Some? then run else r.run,
                                          kernelRun := if kernelRun.Some? then kernelRun else r.kernelRun)]
      ensures !moved ==> View() == old(View())
    {
      if d >= |receipts| { return false; }
      var r := receipts[d];
      if OneWay(r.state) { return false; }
      if requireNoCancel && r.cancelRequested { return false; }
      r := r.(state := state);
      if run.Some? { r := r.(run := run); }
      if kernelRun.Some? { r := r.(kernelRun := kernelRun); }
      receipts := receipts[d := r];
      moved := true;
    }

    method CancelReceipt(d: nat) returns (found: bool)
      modifies this`receipts
      ensures found <==> d < |old(receipts)|
      ensures found ==> View() == RequestCancel(old(View()), d)
      ensures found ==> receipts == old(receipts)[d := old(receipts)[d].(cancelRequested := true)]
      ensures !found ==> View() == old(View())
    {
      if d >= |receipts| { return false; }
      receipts := receipts[d := receipts[d].(cancelRequested := true)];
      found := true;
    }

    static predicate Awaits(a: Approval, scope: Scope, forDispatch: bool) {
      a.state.Pending? && a.scope == scope && a.forDispatch == forDispatch
    }

    method CreateApproval(scope: Scope, forDispatch: bool, actors: set<nat>, expiresAt: int) returns (id: Option<nat>)
      modifies this`approvals
      ensures (View(), id) == Create(old(View()), scope, forDispatch, actors, expiresAt)
      ensures id.None? <==> actors == {}
      ensures id.Some? ==> id.value < |approvals| && Awaits(approvals[id.value], scope, forDispatch)
      ensures var known := exists i :: 0 <= i < |old(approvals)| && Awaits(old(approvals)[i], scope, forDispatch);
        approvals == if actors == {} || known then old(approvals)
          else old(approvals) + [Approval(scope, forDispatch, actors, Pending, expiresAt, None)]
      ensures id.Some? ==> forall i :: id.value < i < |approvals| ==> !Awaits(approvals[i], scope, forDispatch)
    {
      if actors == {} { return None; }
      id := LastPending(approvals, scope, forDispatch);
      if id.None? {
        id := Some(|approvals|);
        approvals := approvals + [Approval(scope, forDispatch, actors, Pending, expiresAt, None)];
      }
    }

    /** Marks every expired applied grant, then returns the newest grant that binds
        this exact scope, which Reserve would still accept at the same time. */
    method FindAppliedGrant(scope: Scope, now: int) returns (id: Option<nat>)
      modifies this`approvals
      ensures View() == old(View()).(approvals := ExpireAll(old(approvals), now))
      ensures |approvals| == |old(approvals)| && forall i :: 0 <= i < |approvals| ==>
        var x := old(approvals)[i];
        approvals[i] == x.(state := if x.state.Applied? && x.expiresAt <= now then Expired else x.state)
      ensures id.Some? ==> IsExact(old(approvals), id.value, scope, now)
      ensures id.None? ==> forall a :: 0 <= a < |approvals| ==> !IsExact(old(approvals), a, scope, now)
      ensures id.Some? ==> forall a :: id.value < a < |approvals| ==> !IsExact(old(approvals), a, scope, now)
    {
      ghost var before := approvals;
      var i := 0;
      while i < |approvals|
        invariant 0 <= i <= |approvals| == |before|
        invariant forall k :: 0 <= k < i ==> approvals[k] == ExpireApplied(before[k], now)
        invariant forall k :: i <= k < |approvals| ==> approvals[k] == before[k]
      {
        if approvals[i].state.Applied? && approvals[i].expiresAt <= now {
          approvals := approvals[i := approvals[i].(state := Expired)];
        }
        i := i + 1;
      }
      assert approvals == ExpireAll(before, now);
      id := None;
      for k := 0 to |approvals|
        invariant |approvals| == |before| && approvals == ExpireAll(before, now)
        invariant id.None? ==> forall a :: 0 <= a < k ==> !IsExact(before, a, scope, now)
        invariant id.Some? ==> id.value < k && IsExact(before, id.value, scope, now)
        invariant id.Some? ==> forall a :: id.value < a < k ==> !IsExact(before, a, scope, now)
      {
        var x := approvals[k];
        assert x == ExpireApplied(before[k], now);
        if x.state.Applied? && x.scope == scope && x.forDispatch { id := Some(k); }
      }
    }

    static predicate Decidable(approvals: seq<Approval>, a: nat, actor: nat) {
      a < |approvals| && approvals[a].state.Pending? && actor in approvals[a].actors
    }

    method DecideApproval(a: nat, actor: nat, apply: bool, now: int) returns (ok: bool)
      modifies this`approvals
      ensures (View(), ok) == Decide(old(View()), a, actor, apply, now)
      ensures ok <==> Decidable(old(approvals), a, actor) && now < old(approvals)[a].expiresAt
      ensures approvals ==
        if !Decidable(old(approvals), a, actor) then old(approvals)
        else old(approvals)[a := old(approvals)[a].(decidedBy := Some(actor),
               state := if !ok then Expired else if apply then Applied else Denied)]
    {
      if a >= |approvals| { return false; }
      var row := approvals[a];
      if !row.state.Pending? { return false; }
      if actor !in row.actors { return false; }
      if now >= row.expiresAt {
        approvals := approvals[a := row.(state := Expired, decidedBy := Some(actor))];
        return false;
      }
      approvals := approvals[a := row.(state := if apply then Applied else Denied, decidedBy := Some(actor))];
      ok := true;
    }
  }
}
