/**
 The kernel bridge's guarded connection: an arbitrary mutator issues statements
 through it while foreign connections use the same database.

 SQLite gives one writer at a time: a foreign commit is possible only while this
 connection is outside a transaction. A write's effect is arbitrary, so a write
 statement simply carries the board it leaves.
 */
module FencedConnection {
  import opened Common

  datatype Status = Todo | Ready | Running | Review | Blocked | Scheduled | Done

  datatype BlockEvent = BlockEvent(run: Option<nat>, reason: Option<string>)

  datatype Card = Card(
    status: Status, current: Option<nat>,
    latestRun: Option<nat>,           // MAX(id) of its runs
    review: Option<Option<nat>>,      // run column of its latest review_requested event
    block: Option<BlockEvent>)        // its latest block event

  datatype Board = Board(cards: map<nat, Card>, rest: nat)

  // ------------------------------------------------------------------ guards

  datatype Guard =
    | Blockable(task: nat, ours: Option<nat>)
    | ReviewOwned(task: nat, expected: nat)
    | UnblockOwned(task: nat, ours: Option<nat>, latest: Option<nat>, prefix: string, suffix: string)
    | SoleRun(task: nat, expected: nat)

  predicate ForeignLive(c: Card, ours: Option<nat>) {
    c.current.Some? && c.current != ours
  }

  predicate EndsWith(s: string, t: string) {
    |t| <= |s| && s[|s| - |t|..] == t
  }

  // An empty prefix or suffix is an absent one.
  predicate ReasonMatches(reason: string, prefix: string, suffix: string) {
    (prefix != "" && prefix <= reason) || (suffix != "" && EndsWith(reason, suffix))
  }

  predicate Holds(g: Guard, b: Board) {
    match g
    case Blockable(task, ours) =>
      task in b.cards
      && (b.cards[task].status.Running? || b.cards[task].status.Ready?)
      && !ForeignLive(b.cards[task], ours)
    case ReviewOwned(task, expected) =>
      task in b.cards && b.cards[task].status.Review?
      && !ForeignLive(b.cards[task], Some(expected))
      && b.cards[task].review == Some(Some(expected))
    case UnblockOwned(task, ours, latest, prefix, suffix) =>
      task in b.cards
      && (b.cards[task].status.Blocked? || b.cards[task].status.Scheduled?)
      && !ForeignLive(b.cards[task], ours)
      && (latest.Some? ==> b.cards[task].latestRun == latest)
      && (ours.Some? || prefix != "" || suffix != "" ==>
            b.cards[task].block.Some?
            && (ours.Some? ==> b.cards[task].block.value.run == ours)
            && ReasonMatches(match b.cards[task].block.value.reason case Some(r) => r case None => "", prefix, suffix))
    case SoleRun(task, expected) =>
      (task in b.cards ==> !ForeignLive(b.cards[task], Some(expected)))
      && task in b.cards && b.cards[task].latestRun == Some(expected)
  }

  predicate AllHold(guards: seq<Guard>, b: Board) {
    forall i :: 0 <= i < |guards| ==> Holds(guards[i], b)
  }

  // -------------------------------------------------------------- statements

  datatype Statement =
    | BeginLocking(busy: bool)   // BEGIN IMMEDIATE / EXCLUSIVE
    | BeginDeferred
    | Savepoint
    | Release
    | Commit
    | Rollback
    | Write(after: Board)        // DML, DDL, writing PRAGMA
    | Read

  /** What the mutator calls a method on. A raw object is what the proxies hand out
      unwrapped: the sqlite3 cursor an execute returns, a cursor's `connection`. */
  datatype Handle = Proxy | ProxyCursor | Raw

  datatype Method =
    | Execute(stmt: Statement)
    | ExecuteMany(after: Board)     // sqlite3 itself accepts only DML here
    | ExecuteScript(after: Board)   // commits first, then leaves this board
    | Fetch                         // fetchone, fetchall, rowcount, lastrowid
    | CommitMethod                  // the connection's own commit()
    | RollbackMethod
    | GetConnection                 // a cursor's `connection` attribute
    | Other(after: Board)           // any other connection method: blobopen, deserialize

  datatype Call = Call(via: Handle, m: Method)

  datatype Answer = Executed | Fenced | SqlError

  // `handed`: the mutator has been given a raw object.
  datatype Db = Db(guards: seq<Guard>, committed: Board, txn: Option<Board>, handed: bool)

  datatype Verdict = IsBegin | Pass | Refuse

  function Gate(stmt: Statement, inTxn: bool): Verdict {
    match stmt
    case BeginLocking(_) => IsBegin
    case BeginDeferred => if inTxn then Pass else Refuse
    case Savepoint => if inTxn then Pass else Refuse
    case Write(_) => if inTxn then Pass else Refuse
    case _ => Pass
  }

  // What SQLite does with a statement that reaches it.
  function Sqlite(d: Db, stmt: Statement): (Db, Answer) {
    match stmt
    case BeginLocking(busy) =>
      if d.txn.Some? || busy then (d, SqlError) else (d.(txn := Some(d.committed)), Executed)
    case BeginDeferred => if d.txn.Some? then (d, SqlError) else (d.(txn := Some(d.committed)), Executed)
    case Savepoint => if d.txn.Some? then (d, Executed) else (d.(txn := Some(d.committed)), Executed)
    case Release => (d, if d.txn.Some? then Executed else SqlError)
    case Commit => if d.txn.Some? then (d.(committed := d.txn.value, txn := None), Executed) else (d, SqlError)
    case Rollback => if d.txn.Some? then (d.(txn := None), Executed) else (d, SqlError)
    case Write(after) => if d.txn.Some? then (d.(txn := Some(after)), Executed) else (d.(committed := after), Executed)
    case Read => (d, Executed)
  }

  // A call that reaches the underlying connection or cursor as it is.
  function Direct(d: Db, m: Method): (Db, Answer) {
    match m
    case Execute(stmt) => Sqlite(d, stmt)
    case ExecuteMany(after) => Sqlite(d, Write(after))
    case ExecuteScript(after) => (d.(committed := after, txn := None), Executed)
    case Fetch => (d, Executed)
    case CommitMethod => (if d.txn.Some? then Sqlite(d, Commit).0 else d, Executed)
    case RollbackMethod => (if d.txn.Some? then Sqlite(d, Rollback).0 else d, Executed)
    case GetConnection => (d, Executed)
    case Other(after) => (d.(committed := after, txn := None), Executed)
  }

  // The gate, then the statement, then for a locking BEGIN the guards.
  function Gated(d: Db, stmt: Statement): (Db, Answer) {
    match Gate(stmt, d.txn.Some?)
    case Refuse => (d, Fenced)
    case Pass => Sqlite(d, stmt)
    case IsBegin =>
      var (locked, answer) := Sqlite(d, stmt);
      if answer != Executed then (locked, answer)
      else if AllHold(d.guards, locked.committed) then (locked, Executed)
      else (Sqlite(locked, Rollback).0, Fenced)
  }

  // An executed call returns sqlite3's own cursor, so the mutator now has it.
  function Hand(r: (Db, Answer)): (Db, Answer) {
    if r.1.Executed? then (r.0.(handed := true), r.1) else r
  }

  function Exec(d: Db, c: Call): (Db, Answer) {
    match c.via
    case Raw => Direct(d, c.m)
    case Proxy =>
      (match c.m
       case Execute(stmt) => Hand(Gated(d, stmt))
       case ExecuteMany(after) => Hand(Gated(d, Write(after)))
       case ExecuteScript(_) => (d, Fenced)
       case Fetch => (d, SqlError)
       case GetConnection => (d, SqlError)
       case _ => Direct(d, c.m))
    case ProxyCursor =>
      (match c.m
       case Execute(stmt) => if stmt.BeginLocking? then Gated(d, stmt) else Hand(Gated(d, stmt))
       case ExecuteMany(after) => Hand(Gated(d, Write(after)))
       case ExecuteScript(_) => Hand(Direct(d, c.m))
       case Fetch => (d, Executed)
       case GetConnection => Hand(Direct(d, c.m))
       case _ => (d, SqlError))
  }

  datatype Step =
    | Ours(call: Call)
    | ForeignCommit(after: Board)

  predicate Enabled(d: Db, step: Step) {
    match step
    case ForeignCommit(_) => d.txn.None?
    case Ours(c) => c.via.Raw? ==> d.handed
  }

  function Apply(d: Db, step: Step): Db {
    match step
    case Ours(call) => Exec(d, call).0
    case ForeignCommit(after) => d.(committed := after)
  }

  /** The calls that go round the fence: a method that begins or writes, on a raw
      object or through the attributes a proxy passes on unread. */
  predicate Bypasses(c: Call) {
    match c.via
    case Raw =>
      (match c.m
       case Execute(stmt) => stmt == BeginLocking(false) || stmt.BeginDeferred? || stmt.Savepoint? || stmt.Write?
       case _ => c.m.ExecuteMany? || c.m.ExecuteScript? || c.m.Other?)
    case Proxy => c.m.Other?
    case ProxyCursor => c.m.ExecuteScript?
  }

  // An open transaction of ours began under guards that held, and still hold.
  predicate Inv(d: Db) {
    d.txn.Some? ==> AllHold(d.guards, d.committed)
  }

  ghost predicate IsTrace(states: seq<Db>, steps: seq<Step>) {
    |states| == |steps| + 1 && states[0].txn.None? && !states[0].handed
    && forall i :: 0 <= i < |steps| ==> Enabled(states[i], steps[i]) && states[i + 1] == Apply(states[i], steps[i])
  }

  // The mutator keeps to calls that the proxies see.
  predicate Disciplined(steps: seq<Step>) {
    forall i :: 0 <= i < |steps| && steps[i].Ours? ==> !Bypasses(steps[i].call)
  }

  // A change of the board is the commit of a transaction under its guards.
  ghost predicate ChangeIsGuarded(d: Db, t: Db) {
    t.committed != d.committed ==> d.txn == Some(t.committed) && AllHold(d.guards, d.committed)
  }

  // A gated statement never opens a transaction unguarded, nor writes outside one.
  lemma GatedKeeps(d: Db, stmt: Statement)
    requires Inv(d)
    ensures var t := Gated(d, stmt).0; Inv(t) && t.guards == d.guards && ChangeIsGuarded(d, t)
  {
  }

  lemma StepPreserves(d: Db, step: Step)
    requires Inv(d) && Enabled(d, step) && (step.Ours? ==> !Bypasses(step.call))
    ensures Inv(Apply(d, step)) && Apply(d, step).guards == d.guards
    ensures step.Ours? ==> ChangeIsGuarded(d, Apply(d, step))
  {
    if step.Ours? && !step.call.via.Raw? {
      match step.call.m
      case Execute(stmt) => GatedKeeps(d, stmt);
      case ExecuteMany(after) => GatedKeeps(d, Write(after));
      case _ =>
    }
  }

  lemma {:induction false} Always(states: seq<Db>, steps: seq<Step>, n: nat)
    requires IsTrace(states, steps) && Disciplined(steps) && n < |states|
    ensures Inv(states[n]) && states[n].guards == states[0].guards
  {
    if n > 0 {
      Always(states, steps, n - 1);
      StepPreserves(states[n - 1], steps[n - 1]);
      assert states[n - 1 + 1] == Apply(states[n - 1], steps[n - 1]);
    }
  }

  // ------------------------------------------------------------- main results

  /** Over any interleaving with foreign connections, every change a disciplined
      mutator makes to the board is the commit of a transaction, and every guard
      holds on the board that commit replaces: no foreign commit fits between the
      check under the lock and the write. */
  lemma ChangesOnlyUnderGuards(states: seq<Db>, steps: seq<Step>, n: nat)
    requires IsTrace(states, steps) && Disciplined(steps) && n < |steps| && steps[n].Ours?
    ensures states[n].guards == states[0].guards && ChangeIsGuarded(states[n], states[n + 1])
  {
    Always(states, steps, n);
    StepPreserves(states[n], steps[n]);
    assert states[n + 1] == Apply(states[n], steps[n]);
  }

  // A call that cannot break the fence, whatever the board, guards and transaction.
  ghost predicate AlwaysSafe(c: Call) {
    forall d: Db :: Inv(d) && Enabled(d, Ours(c)) ==> Inv(Exec(d, c).0) && ChangeIsGuarded(d, Exec(d, c).0)
  }

  /** The discipline is exact: a call is safe in every state if and only if it is
      none of the bypassing ones. */
  lemma SafeIffNotBypassing(c: Call)
    ensures AlwaysSafe(c) <==> !Bypasses(c)
  {
    if Bypasses(c) {
      BypassBreaksTheFence(c);
    } else {
      forall d: Db | Inv(d) && Enabled(d, Ours(c)) ensures Inv(Exec(d, c).0) && ChangeIsGuarded(d, Exec(d, c).0) {
        StepPreserves(d, Ours(c));
      }
    }
  }

  // A board that the call would not leave, under a guard that fails on it.
  lemma BypassBreaksTheFence(c: Call)
    requires Bypasses(c)
    ensures !AlwaysSafe(c)
  {
    var rest := match c.m
      case Execute(Write(after)) => after.rest + 1
      case ExecuteMany(after) => after.rest + 1
      case ExecuteScript(after) => after.rest + 1
      case Other(after) => after.rest + 1
      case _ => 0;
    var d := Db([SoleRun(0, 0)], Board(map[], rest), None, true);
    assert !Holds(d.guards[0], d.committed);
    assert Inv(d) && Enabled(d, Ours(c));
    assert !(Inv(Exec(d, c).0) && ChangeIsGuarded(d, Exec(d, c).0));
  }

  // The bypassing runs: idle, some guard failing, and no raw object in hand yet.
  predicate Shut(d: Db) {
    d.txn.None? && !d.handed && !AllHold(d.guards, d.committed)
  }

  /** One gated SELECT hands out sqlite3's cursor, and a write on that cursor commits
      any board, where the proxy would refuse the same statement. */
  lemma ReturnedCursorIsNotFenced(d: Db, after: Board)
    requires Shut(d)
    ensures var (e, _) := Exec(d, Call(Proxy, Execute(Read)));
      && Enabled(d, Ours(Call(Proxy, Execute(Read)))) && Enabled(e, Ours(Call(Raw, Execute(Write(after)))))
      && Exec(e, Call(Raw, Execute(Write(after)))).0.committed == after
      && Exec(e, Call(Proxy, Execute(Write(after)))) == (e, Fenced)
  {
  }

  /** A BEGIN on it opens a transaction whose guards were never run; the proxy's own
      writes and commit then pass the gate. */
  lemma RawBeginDisarmsTheGate(d: Db, after: Board)
    requires Shut(d)
    ensures var e := Exec(d, Call(Proxy, Execute(Read))).0;
      var begun := Exec(e, Call(Raw, Execute(BeginLocking(false)))).0;
      var (written, answer) := Exec(begun, Call(Proxy, Execute(Write(after))));
      answer == Executed && Exec(written, Call(Proxy, Execute(Commit))).0.committed == after
  {
  }

  /** A cursor's executescript is passed through, and so is its connection. */
  lemma CursorScriptIsNotFenced(d: Db, after: Board)
    requires Shut(d)
    ensures Exec(d, Call(ProxyCursor, ExecuteScript(after))).0.committed == after
    ensures Exec(d, Call(Proxy, ExecuteScript(after))) == (d, Fenced)
    ensures Exec(Exec(d, Call(ProxyCursor, GetConnection)).0, Call(Raw, Execute(Write(after)))).0.committed == after
  {
  }

  /** A guard that fails under the lock leaves the board and the connection as they
      were. */
  lemma FailedGuardChangesNothing(d: Db, via: Handle, busy: bool)
    requires d.txn.None? && !AllHold(d.guards, d.committed) && !via.Raw?
    ensures Exec(d, Call(via, Execute(BeginLocking(busy)))).0 == d
    ensures Exec(d, Call(via, Execute(BeginLocking(busy)))).1 != Executed
  {
  }

  // The board that the foreign commits among steps n to m alone would leave.
  function ForeignOnly(board: Board, steps: seq<Step>, n: nat, m: nat): Board
    requires n <= m <= |steps|
  {
    if n == m then board
    else if steps[m - 1].ForeignCommit? then steps[m - 1].after
    else ForeignOnly(board, steps, n, m - 1)
  }

  lemma StepUnderFailingGuard(d: Db, step: Step, g: Guard)
    requires Inv(d) && Enabled(d, step) && (step.Ours? ==> !Bypasses(step.call)) && g in d.guards
    requires !Holds(g, d.committed)
    ensures Apply(d, step).committed == if step.ForeignCommit? then step.after else d.committed
  {
    assert !AllHold(d.guards, d.committed);
  }

  lemma OneStepUnderFailingGuard(states: seq<Db>, steps: seq<Step>, k: nat, g: Guard)
    requires IsTrace(states, steps) && Disciplined(steps) && k < |steps| && g in states[0].guards
    requires !Holds(g, states[k].committed)
    ensures states[k + 1].committed == if steps[k].ForeignCommit? then steps[k].after else states[k].committed
  {
    Always(states, steps, k);
    StepUnderFailingGuard(states[k], steps[k], g);
    assert states[k + 1] == Apply(states[k], steps[k]);
  }

  /** Over a stretch in which some guard fails whatever the foreign connections
      commit, the board is what they alone make of it: ours changes nothing. */
  lemma {:induction false} ForeignCardUntouched(states: seq<Db>, steps: seq<Step>, n: nat, m: nat, g: Guard)
    requires IsTrace(states, steps) && Disciplined(steps) && n <= m < |states| && g in states[0].guards
    requires forall i :: n <= i < m ==> !Holds(g, states[i].committed)
    ensures states[m].committed == ForeignOnly(states[n].committed, steps, n, m)
  {
    if n < m {
      ForeignCardUntouched(states, steps, n, m - 1, g);
      OneStepUnderFailingGuard(states, steps, m - 1, g);
    }
  }

  // --------------------------------------------------------------- operations

  /** The fenced operations, with the arguments their callers pass. */
  datatype Op =
    | Claim(task: nat, expected: Option<nat>)
    | BlockOwned(task: nat, run: Option<nat>)
    | ReopenReviewIf(task: nat, expected: Option<nat>)
    | UnblockOwnedOp(task: nat, run: Option<nat>, latest: Option<nat>, prefix: string, suffix: string)

  // From the unlocked read: refused at once, or the guards the mutator runs under.
  function Fence(op: Op, read: Board): Option<seq<Guard>> {
    match op
    case Claim(task, expected) => Some(if expected.Some? then [SoleRun(task, expected.value)] else [])
    case BlockOwned(task, run) =>
      if task !in read.cards || !(read.cards[task].status.Running? || read.cards[task].status.Ready?) then None
      else if ForeignLive(read.cards[task], run) then None
      else Some([Blockable(task, run)])
    case ReopenReviewIf(task, expected) =>
      if expected.None? || task !in read.cards || read.cards[task].review != Some(expected) then None
      else Some([ReviewOwned(task, expected.value)])
    case UnblockOwnedOp(task, run, latest, prefix, suffix) => Some([UnblockOwned(task, run, latest, prefix, suffix)])
  }

  /** A run of one operation: its guards come from what it read earlier, and foreign
      connections commit before and during its mutator. */
  ghost predicate OpTrace(op: Op, read: Board, states: seq<Db>, steps: seq<Step>) {
    IsTrace(states, steps) && Disciplined(steps) && Some(states[0].guards) == Fence(op, read)
  }

  // Our mutator's step changed the board.
  ghost predicate Changes(states: seq<Db>, steps: seq<Step>, n: nat)
    requires |states| == |steps| + 1
  {
    n < |steps| && steps[n].Ours? && states[n + 1].committed != states[n].committed
  }

  /** However foreign claims, blocks and reviews interleave, block_owned never
      replaces a board on which the card is in review, blocked, finished, or live
      under another run. */
  lemma BlockOwnedSparesOthers(task: nat, run: Option<nat>, read: Board, states: seq<Db>, steps: seq<Step>, n: nat)
    requires OpTrace(BlockOwned(task, run), read, states, steps) && Changes(states, steps, n)
    ensures task in states[n].committed.cards
    ensures var c := states[n].committed.cards[task];
      (c.status.Running? || c.status.Ready?) && (c.current.None? || c.current == run)
  {
    ChangesOnlyUnderGuards(states, steps, n);
    assert Holds(states[n].guards[0], states[n].committed);
  }

  /** reopen_review_if never replaces a board whose latest review is another run's. */
  lemma ReopenSparesOtherReviews(task: nat, expected: Option<nat>, read: Board, states: seq<Db>, steps: seq<Step>,
                                 n: nat)
    requires OpTrace(ReopenReviewIf(task, expected), read, states, steps) && Changes(states, steps, n)
    ensures task in states[n].committed.cards
    ensures var c := states[n].committed.cards[task];
      expected.Some? && c.status.Review? && c.review == Some(expected) && (c.current.None? || c.current == expected)
  {
    ChangesOnlyUnderGuards(states, steps, n);
    assert Holds(states[n].guards[0], states[n].committed);
  }

  /** A fenced claim never replaces a board on which a newer run used the card. */
  lemma ClaimSparesNewerRuns(task: nat, expected: nat, read: Board, states: seq<Db>, steps: seq<Step>, n: nat)
    requires OpTrace(Claim(task, Some(expected)), read, states, steps) && Changes(states, steps, n)
    ensures task in states[n].committed.cards
    ensures var c := states[n].committed.cards[task];
      c.latestRun == Some(expected) && (c.current.None? || c.current == Some(expected))
  {
    ChangesOnlyUnderGuards(states, steps, n);
    assert Holds(states[n].guards[0], states[n].committed);
  }

  /** unblock_owned never replaces a board on which the card's block is another
      run's, or a newer run or live claim has appeared. */
  lemma UnblockSparesOtherBlocks(task: nat, run: nat, latest: Option<nat>, prefix: string, suffix: string,
                                 read: Board, states: seq<Db>, steps: seq<Step>, n: nat)
    requires OpTrace(UnblockOwnedOp(task, Some(run), latest, prefix, suffix), read, states, steps)
    requires Changes(states, steps, n)
    ensures task in states[n].committed.cards
    ensures var c := states[n].committed.cards[task];
      && (c.status.Blocked? || c.status.Scheduled?) && c.block.Some? && c.block.value.run == Some(run)
      && (c.current.None? || c.current == Some(run)) && (latest.Some? ==> c.latestRun == latest)
  {
    ChangesOnlyUnderGuards(states, steps, n);
    assert Holds(states[n].guards[0], states[n].committed);
  }

  // ------------------------------------------------------- what goes through

  /** On an idle connection a locking BEGIN is executed exactly when the lock is free
      and every guard holds; it then has a transaction open on the committed board. */
  lemma BeginIsExecutedIff(d: Db, via: Handle, busy: bool)
    requires d.txn.None? && !via.Raw?
    ensures var (e, answer) := Exec(d, Call(via, Execute(BeginLocking(busy))));
      var allHold := forall i :: 0 <= i < |d.guards| ==> Holds(d.guards[i], d.committed);
      && (answer.Executed? <==> !busy && allHold)
      && (answer.Fenced? <==> !busy && !allHold)
      && (answer.Executed? ==> e == d.(txn := Some(d.committed), handed := e.handed))
      && (!answer.Executed? ==> e == d)
  {
  }

  /** Inside a transaction a write changes only its own view of the board; COMMIT
      makes that view the board, ROLLBACK forgets it. */
  lemma TransactionStatements(d: Db, via: Handle, b: Board)
    requires d.txn.Some? && !via.Raw?
    ensures Exec(d, Call(via, Execute(Write(b)))) == (d.(txn := Some(b), handed := true), Executed)
    ensures Exec(d, Call(via, Execute(Commit))) == (d.(committed := d.txn.value, txn := None, handed := true), Executed)
    ensures Exec(d, Call(via, Execute(Rollback))) == (d.(txn := None, handed := true), Executed)
    ensures Exec(d, Call(via, Execute(Read))) == (d.(handed := true), Executed)
    ensures Exec(d, Call(Proxy, CommitMethod)) == (d.(committed := d.txn.value, txn := None), Executed)
    ensures Exec(d, Call(Proxy, RollbackMethod)) == (d.(txn := None), Executed)
  {
  }

  /** Outside one, a statement that would write or begin without the guards is refused. */
  lemma IdleStatements(d: Db, via: Handle, b: Board)
    requires d.txn.None? && !via.Raw?
    ensures Exec(d, Call(via, Execute(Write(b)))) == (d, Fenced)
    ensures Exec(d, Call(via, Execute(BeginDeferred))) == (d, Fenced)
    ensures Exec(d, Call(via, Execute(Savepoint))) == (d, Fenced)
    ensures Exec(d, Call(via, Execute(Read))) == (d.(handed := true), Executed)
    ensures Exec(d, Call(via, Execute(Commit))) == (d, SqlError)
  {
  }

  // BEGIN, a write and a commit, each through either proxy.
  function Transact(d: Db, begin: Handle, write: Handle, commit: Handle, b: Board): (Db, seq<Answer>) {
    var (d1, a1) := Exec(d, Call(begin, Execute(BeginLocking(false))));
    var (d2, a2) := Exec(d1, Call(write, Execute(Write(b))));
    var (d3, a3) := Exec(d2, Call(commit, Execute(Commit)));
    (d3, [a1, a2, a3])
  }

  ghost predicate GoesThrough(d: Db, b: Board) {
    forall begin: Handle, write: Handle, commit: Handle :: !begin.Raw? && !write.Raw? && !commit.Raw? ==>
      var (e, answers) := Transact(d, begin, write, commit, b);
      answers == [Executed, Executed, Executed] && e.committed == b && e.txn.None?
  }

  lemma TransactDoes(d: Db, begin: Handle, write: Handle, commit: Handle, b: Board)
    requires d.txn.None? && !begin.Raw? && !write.Raw? && !commit.Raw?
    ensures var (e, answers) := Transact(d, begin, write, commit, b);
      && (answers[0].Executed? <==> AllHold(d.guards, d.committed))
      && (AllHold(d.guards, d.committed) ==>
            answers == [Executed, Executed, Executed] && e.committed == b && e.txn.None?)
  {
  }

  /** So a mutation goes through, every statement answered, exactly when the guards
      hold. */
  lemma GoesThroughIff(d: Db, b: Board)
    requires d.txn.None?
    ensures GoesThrough(d, b) <==> forall i :: 0 <= i < |d.guards| ==> Holds(d.guards[i], d.committed)
  {
    forall begin: Handle, write: Handle, commit: Handle | !begin.Raw? && !write.Raw? && !commit.Raw?
      ensures var (e, answers) := Transact(d, begin, write, commit, b);
        && (AllHold(d.guards, d.committed) ==>
              answers == [Executed, Executed, Executed] && e.committed == b && e.txn.None?)
    {
      TransactDoes(d, begin, write, commit, b);
    }
    TransactDoes(d, Proxy, Proxy, Proxy, b);
    if GoesThrough(d, b) {
      assert Transact(d, Proxy, Proxy, Proxy, b).1 == [Executed, Executed, Executed];
    }
  }

  // The operation passes its unlocked read, and its mutation goes through.
  ghost predicate Succeeds(op: Op, read: Board, board: Board, after: Board) {
    Fence(op, read).Some? && GoesThrough(Db(Fence(op, read).value, board, None, false), after)
  }

  lemma OneGuardDecides(g: Guard, board: Board, after: Board)
    ensures GoesThrough(Db([g], board, None, false), after) <==> Holds(g, board)
  {
    GoesThroughIff(Db([g], board, None, false), after);
    assert [g][0] == g;
  }

  // Nobody but `ours` holds the card.
  predicate Unclaimed(c: Card, ours: Option<nat>) {
    c.current == None || c.current == ours
  }

  predicate CanBlock(b: Board, task: nat, run: Option<nat>) {
    task in b.cards && b.cards[task].status in {Running, Ready} && Unclaimed(b.cards[task], run)
  }

  /** block_owned goes through exactly when the card was and is running or ready, with
      no foreign run on it. */
  lemma BlockOwnedSucceedsIff(task: nat, run: Option<nat>, read: Board, board: Board, after: Board)
    ensures Succeeds(BlockOwned(task, run), read, board, after)
       <==> CanBlock(read, task, run) && CanBlock(board, task, run)
  {
    if Fence(BlockOwned(task, run), read).Some? { OneGuardDecides(Blockable(task, run), board, after); }
  }

  /** reopen_review_if, exactly when the latest review was and is the expected run's,
      and the card is in review with no foreign run on it. */
  lemma ReopenSucceedsIff(task: nat, expected: Option<nat>, read: Board, board: Board, after: Board)
    ensures Succeeds(ReopenReviewIf(task, expected), read, board, after)
       <==> && expected.Some? && task in read.cards && read.cards[task].review == Some(expected)
            && task in board.cards && board.cards[task].review == Some(expected)
            && board.cards[task].status == Review && Unclaimed(board.cards[task], expected)
  {
    if Fence(ReopenReviewIf(task, expected), read).Some? {
      OneGuardDecides(ReviewOwned(task, expected.value), board, after);
    }
  }

  /** A claim, exactly when it is unfenced or the expected run is still the newest one
      of the card, and no foreign run is on it. */
  lemma ClaimSucceedsIff(task: nat, expected: Option<nat>, read: Board, board: Board, after: Board)
    ensures Succeeds(Claim(task, expected), read, board, after)
       <==> expected.Some? ==>
              task in board.cards && board.cards[task].latestRun == expected && Unclaimed(board.cards[task], expected)
  {
    if expected.Some? {
      OneGuardDecides(SoleRun(task, expected.value), board, after);
    } else {
      GoesThroughIff(Db([], board, None, false), after);
    }
  }

  predicate Begins(s: string, prefix: string) {
    |prefix| <= |s| && s[..|prefix|] == prefix
  }

  predicate Ends(s: string, suffix: string) {
    |suffix| <= |s| && s[|s| - |suffix|..] == suffix
  }

  // The latest block is the caller's: by its run, where given, and by its reason.
  predicate BlockIsOurs(c: Card, run: Option<nat>, prefix: string, suffix: string) {
    c.block.Some?
    && (run.Some? ==> c.block.value.run == run)
    && var reason := match c.block.value.reason case Some(r) => r case None => "";
       (prefix != "" && Begins(reason, prefix)) || (suffix != "" && Ends(reason, suffix))
  }

  /** unblock_owned, exactly when the card is blocked or scheduled with no foreign run
      on it, no newer run where one is named, and its latest block the caller's. */
  lemma UnblockSucceedsIff(task: nat, run: Option<nat>, latest: Option<nat>, prefix: string, suffix: string,
                           read: Board, board: Board, after: Board)
    ensures Succeeds(UnblockOwnedOp(task, run, latest, prefix, suffix), read, board, after)
       <==> && task in board.cards
            && var c := board.cards[task];
            && c.status in {Blocked, Scheduled} && Unclaimed(c, run) && (latest.Some? ==> c.latestRun == latest)
            && (run.Some? || prefix != "" || suffix != "" ==> BlockIsOurs(c, run, prefix, suffix))
  {
    OneGuardDecides(UnblockOwned(task, run, latest, prefix, suffix), board, after);
  }

  // ------------------------------------------------------ block attribution

  function ResolvePrefix(id: string): string { "resolve " + id + ":" }

  function DispatchSuffix(id: string): string { "[dispatch " + id + "]" }

  // The rule the control command applies to the block it read.
  predicate DispatchBlockMarked(reason: Option<string>, id: string) {
    reason.Some? && reason.value != ""
    && (ResolvePrefix(id) <= reason.value || EndsWith(reason.value, DispatchSuffix(id)))
  }

  /** The hand-written rule of the control command and the bridge's guard under the
      lock agree on whose block it is. */
  lemma ControlAndGuardAgree(b: Board, task: nat, ours: nat, latest: Option<nat>, id: string)
    requires task in b.cards && (b.cards[task].status.Blocked? || b.cards[task].status.Scheduled?)
    requires !ForeignLive(b.cards[task], Some(ours)) && (latest.Some? ==> b.cards[task].latestRun == latest)
    ensures Holds(UnblockOwned(task, Some(ours), latest, ResolvePrefix(id), DispatchSuffix(id)), b)
       <==> (b.cards[task].block.Some? && b.cards[task].block.value.run == Some(ours)
             && DispatchBlockMarked(b.cards[task].block.value.reason, id))
  {
    assert |ResolvePrefix(id)| > 0 && |DispatchSuffix(id)| > 0;
  }

  /** Dispatch ids have one length, so a block's closing marker names one dispatch. */
  lemma MarkerNamesOneDispatch(reason: string, a: string, b: string)
    requires |a| == |b| && EndsWith(reason, DispatchSuffix(a)) && EndsWith(reason, DispatchSuffix(b))
    ensures a == b
  {
    var n := |"[dispatch "|;
    assert DispatchSuffix(a) == DispatchSuffix(b);
    assert DispatchSuffix(a)[n..n + |a|] == a && DispatchSuffix(b)[n..n + |b|] == b;
  }

  // ------------------------------------------------------------------ object

  /** The proxies as the source writes them, over one underlying connection. */
  class GuardedConn {
    const guards: seq<Guard>
    var committed: Board
    var txn: Option<Board>
    ghost var handed: bool

    ghost function View(): Db
      reads this
    {
      Db(guards, committed, txn, handed)
    }

    constructor (board: Board, guards: seq<Guard>)
      ensures View() == Db(guards, board, None, false)
    {
      this.guards := guards;
      committed, txn, handed := board, None, false;
    }

    /** A method of the connection proxy; what it does not define is passed on. */
    method OnProxy(m: Method) returns (answer: Answer)
      modifies this
      ensures (View(), answer) == Exec(old(View()), Call(Proxy, m))
    {
      if m.Execute? || m.ExecuteMany? {
        answer := RunGated(if m.Execute? then m.stmt else Write(m.after));
        if answer.Executed? { handed := true; }
      } else if m.ExecuteScript? {
        answer := Fenced;
      } else if m.Fetch? || m.GetConnection? {
        answer := SqlError;
      } else {
        answer := OnRaw(m);
      }
    }

    /** A method of a cursor proxy: a boundary statement returns the proxy itself. */
    method OnCursor(m: Method) returns (answer: Answer)
      modifies this
      ensures (View(), answer) == Exec(old(View()), Call(ProxyCursor, m))
    {
      if m.Execute? || m.ExecuteMany? {
        answer := RunGated(if m.Execute? then m.stmt else Write(m.after));
        if answer.Executed? && !(m.Execute? && m.stmt.BeginLocking?) { handed := true; }
      } else if m.ExecuteScript? || m.GetConnection? {
        answer := OnRaw(m);
        handed := true;
      } else {
        answer := if m.Fetch? then Executed else SqlError;
      }
    }

    // A method of the underlying object itself.
    method OnRaw(m: Method) returns (answer: Answer)
      modifies this`committed, this`txn
      ensures (View(), answer) == Exec(old(View()), Call(Raw, m))
    {
      answer := Executed;
      match m
      case Execute(stmt) => answer := Pass(stmt);
      case ExecuteMany(after) => answer := Pass(Write(after));
      case ExecuteScript(after) => committed, txn := after, None;
      case Other(after) => committed, txn := after, None;
      case CommitMethod => if txn.Some? { committed, txn := txn.value, None; }
      case RollbackMethod => txn := None;
      case Fetch =>
      case GetConnection =>
    }

    /** Gate first; a locking BEGIN takes the lock and only then runs the guards,
        rolling the fresh transaction back when one fails. */
    method RunGated(stmt: Statement) returns (answer: Answer)
      modifies this`committed, this`txn
      ensures (View(), answer) == Gated(old(View()), stmt)
      ensures old(txn).None? && !AllHold(guards, old(committed)) ==> View() == old(View())
      ensures stmt == BeginLocking(false) && old(txn).None? && AllHold(guards, old(committed)) ==>
        answer == Executed && txn == Some(committed) && committed == old(committed)
    {
      var verdict := Gate(stmt, txn.Some?);
      if verdict.Refuse? { return Fenced; }
      answer := Pass(stmt);
      if verdict.IsBegin? && answer == Executed {
        var i := 0;
        while i < |guards|
          invariant 0 <= i <= |guards| && txn == Some(committed)
          invariant forall k :: 0 <= k < i ==> Holds(guards[k], committed)
        {
          if !Holds(guards[i], committed) {
            txn := None;
            return Fenced;
          }
          i := i + 1;
        }
      }
    }

    // The statement as the underlying connection carries it out.
    method Pass(stmt: Statement) returns (answer: Answer)
      modifies this`committed, this`txn
      ensures (View(), answer) == Sqlite(old(View()), stmt)
    {
      answer := Executed;
      match stmt {
        case BeginLocking(busy) =>
          if txn.Some? || busy { answer := SqlError; } else { txn := Some(committed); }
        case BeginDeferred =>
          if txn.Some? { answer := SqlError; } else { txn := Some(committed); }
        case Savepoint => if txn.None? { txn := Some(committed); }
        case Release => if txn.None? { answer := SqlError; }
        case Commit =>
          if txn.Some? { committed, txn := txn.value, None; } else { answer := SqlError; }
        case Rollback => if txn.Some? { txn := None; } else { answer := SqlError; }
        case Write(after) => if txn.Some? { txn := Some(after); } else { committed := after; }
        case Read =>
      }
    }
  }
}
