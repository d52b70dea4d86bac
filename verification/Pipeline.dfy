/**
 One run's events on their way from the driver to the durable store: the Runner
 validates and forwards (`Consume`), the client session validates again
 (`ReadRun`), the controller stores within its budgets (`StoreStream`).
 */
module Pipeline {
  import opened Common

  datatype Kind =
    | RunStarted | Delta(text: string) | ToolStarted | ToolCompleted
    | PermissionRequired | ArtifactCreated | UsageUpdated
    | RunCompleted(partial: bool) | RunFailed | RunCancelled

  predicate TerminalKind(k: Kind) {
    k.RunCompleted? || k.RunFailed? || k.RunCancelled?
  }

  datatype Event = Event(run: nat, sequence: nat, kind: Kind)

  /** Right run, sequences 1..n, and nothing after a terminal. */
  predicate Valid(run: nat, es: seq<Event>) {
    forall i :: 0 <= i < |es| ==>
      es[i].run == run && es[i].sequence == i + 1 && (TerminalKind(es[i].kind) ==> i == |es| - 1)
  }

  /** Valid, and ended by its one terminal. */
  predicate Complete(run: nat, es: seq<Event>) {
    Valid(run, es) && es != [] && TerminalKind(es[|es| - 1].kind)
  }

  lemma ValidPrefix(run: nat, es: seq<Event>, n: nat)
    requires n <= |es| && Valid(run, es)
    ensures Valid(run, es[..n])
  {
  }

  /** The longest prefix of `es` that is valid. */
  predicate LongestValid(run: nat, es: seq<Event>, p: seq<Event>) {
    p <= es && Valid(run, p) && (|p| < |es| ==> !Valid(run, es[..|p| + 1]))
  }

  lemma LongestValidIsUnique(run: nat, es: seq<Event>, p: seq<Event>, q: seq<Event>)
    requires LongestValid(run, es, p) && LongestValid(run, es, q)
    ensures p == q
  {
    assert forall n :: 0 <= n <= |p| ==> p[..n] == es[..n];
    assert forall n :: 0 <= n <= |q| ==> q[..n] == es[..n];
  }

  function LongestFrom(run: nat, es: seq<Event>, n: nat): (p: seq<Event>)
    requires n <= |es| && Valid(run, es[..n])
    ensures LongestValid(run, es, p)
    decreases |es| - n
  {
    if n < |es| && Valid(run, es[..n + 1]) then LongestFrom(run, es, n + 1) else es[..n]
  }

  function Longest(run: nat, es: seq<Event>): (p: seq<Event>)
    ensures LongestValid(run, es, p)
  {
    LongestFrom(run, es, 0)
  }

  lemma ValidIsWithinLongest(run: nat, es: seq<Event>, q: seq<Event>)
    requires q <= es && Valid(run, q)
    ensures q <= Longest(run, es)
  {
    var p := Longest(run, es);
    assert q == es[..|q|] && p == es[..|p|];
    if |q| > |p| {
      assert q[..|p| + 1] == es[..|p| + 1];
      ValidPrefix(run, q, |p| + 1);
    }
  }

  // ------------------------------------------------------------------ result

  datatype Completion = CCompleted | CFailed | CCancelled | CUnknown

  datatype Outcome = Succeeded | Partial | ProviderError | Cancelled | Unknown

  datatype RunResult = RunResult(
    run: nat, status: Completion, outcome: Outcome,
    terminal: Option<Kind>, terminalSequence: Option<int>, eventsSeen: nat)

  /** The schema's own consistency rule. */
  predicate Consistent(r: RunResult) {
    && (r.terminal.Some? ==> TerminalKind(r.terminal.value))
    && match r.status
       case CCompleted => (r.outcome.Succeeded? || r.outcome.Partial?) && r.terminal.Some?
          && r.terminal.value.RunCompleted?
       case CFailed => r.outcome.ProviderError? && r.terminal.Some? && r.terminal.value.RunFailed?
       case CCancelled => r.outcome.Cancelled? && (r.terminal.None? || r.terminal.value.RunCancelled?)
       case CUnknown => r.outcome.Unknown? && r.terminal.None?
  }

  function ResultFor(run: nat, e: Event, seen: nat): RunResult
    requires TerminalKind(e.kind)
  {
    var (status, outcome) :=
      match e.kind
      case RunCompleted(partial) => (CCompleted, if partial then Partial else Succeeded)
      case RunFailed => (CFailed, ProviderError)
      case _ => (CCancelled, Cancelled);
    RunResult(run, status, outcome, Some(e.kind), Some(e.sequence), seen)
  }

  /** What a terminal event means, and that it is the only one to mean it. */
  predicate Means(k: Kind, status: Completion, outcome: Outcome) {
    && (status.CCompleted? && outcome.Succeeded? <==> k == RunCompleted(false))
    && (status.CCompleted? && outcome.Partial? <==> k == RunCompleted(true))
    && (status.CFailed? && outcome.ProviderError? <==> k.RunFailed?)
    && (status.CCancelled? && outcome.Cancelled? <==> k.RunCancelled?)
  }

  function UnknownResult(run: nat, seen: nat): RunResult {
    RunResult(run, CUnknown, Unknown, None, None, seen)
  }

  // ------------------------------------------------------------------ Runner

  /** The Runner consumes what the driver yields. `crashes` says the driver raises
      after its last event; writes to the client succeed for the first `writable`
      events only. */
  method Consume(run: nat, es: seq<Event>, crashes: bool, writable: nat)
    returns (out: seq<Event>, res: RunResult)
    ensures out <= es && Valid(run, out) && |out| <= writable
    ensures |es| <= writable ==> LongestValid(run, es, out)
    ensures |out| < |es| ==> |out| == writable || !Valid(run, es[..|out| + 1])
    ensures Consistent(res) && res.run == run
    ensures !res.status.CUnknown? <==> Complete(run, es) && !crashes && |es| <= writable
    ensures !res.status.CUnknown? ==> out == es && Means(es[|es| - 1].kind, res.status, res.outcome)
    ensures !res.status.CUnknown? ==> res.terminal == Some(es[|es| - 1].kind) && res.terminalSequence == Some(|es|)
    ensures res.status.CUnknown? ==> res.outcome.Unknown? && res.terminal.None? && res.terminalSequence.None?
    ensures res.eventsSeen == if |out| < |es| then |out| + 1 else |es|
  {
    out := [];
    var terminal: Option<Event> := None;
    var lastSequence, seen := 0, 0;
    var violation := false;
    var i := 0;
    while i < |es| && !violation
      invariant 0 <= i <= |es| && seen == i
      invariant violation ==> 0 < i
      invariant out == if violation then es[..i - 1] else es[..i]
      invariant Valid(run, out) && lastSequence == |out| <= writable
      invariant !violation ==> (terminal.Some? <==> out != [] && TerminalKind(out[|out| - 1].kind))
      invariant !violation && terminal.Some? ==> terminal.value == out[|out| - 1]
      invariant violation ==> |out| == writable || !Valid(run, es[..i])
    {
      var e := es[i];
      i, seen := i + 1, seen + 1;
      if e.run != run {
        violation := true;
        assert es[..i][i - 1] == e;
      } else if terminal.Some? {
        violation := true;
        assert es[..i][i - 2] == out[|out| - 1];
      } else if e.sequence != lastSequence + 1 {
        violation := true;
        assert es[..i][i - 1] == e;
      } else {
        lastSequence := e.sequence;
        if |out| < writable {
          assert es[..i] == out + [e];
          out := out + [e];
          if TerminalKind(e.kind) { terminal := Some(e); }
        } else {
          violation := true;
          lastSequence := |out|;
        }
      }
    }
    if violation {
      res := UnknownResult(run, seen);
      if Valid(run, es) { ValidPrefix(run, es, i); }
      assert es[..|out| + 1] == es[..i];
    } else {
      assert out == es;
      if crashes || terminal.None? {
        res := UnknownResult(run, seen);
      } else {
        res := ResultFor(run, terminal.value, seen);
      }
    }
  }

  // ------------------------------------------------------------------ client

  const PROTOCOL_VERSION := 1

  datatype Reply = Success(result: RunResult) | Failure(code: string, retryable: bool)

  datatype Frame =
    | EventFrame(version: int, rid: nat, event: Event)
    | ReplyFrame(version: int, rid: nat, reply: Reply)
    | OtherFrame

  datatype SessionEnd =
    | Answered(result: RunResult)
    | RejectedRun(code: string, retryable: bool, preExecution: bool)
    | ProtocolError

  predicate GoodEvent(run: nat, rid: nat, f: Frame, expected: nat) {
    f.EventFrame? && f.version == PROTOCOL_VERSION && f.rid == rid && f.event.run == run && f.event.sequence == expected
  }

  /** How the session ends when the first frame it does not yield is `f`: with an
      answer exactly on a consistent result of its own request, with a rejection
      exactly on an error of it, proven pre-execution when nothing came before. */
  predicate EndsOn(rid: nat, f: Frame, nothingSeen: bool, end: SessionEnd) {
    var mine := f.ReplyFrame? && f.version == PROTOCOL_VERSION && f.rid == rid;
    && (end.Answered? <==> mine && f.reply.Success? && Consistent(f.reply.result))
    && (end.Answered? ==> end.result == f.reply.result)
    && (end.RejectedRun? <==> mine && f.reply.Failure?)
    && (end.RejectedRun? ==>
          end.code == f.reply.code && end.retryable == f.reply.retryable && end.preExecution == nothingSeen)
  }

  /** The session yields exactly the leading in-order events of its own request and
      ends on the first frame after them; end of input is a protocol error. */
  method ReadRun(run: nat, rid: nat, frames: seq<Frame>) returns (yielded: seq<Event>, end: SessionEnd)
    ensures |yielded| <= |frames|
    ensures forall i :: 0 <= i < |yielded| ==> GoodEvent(run, rid, frames[i], i + 1) && frames[i].event == yielded[i]
    ensures |yielded| == |frames| ==> end == ProtocolError
    ensures |yielded| < |frames| ==>
      !GoodEvent(run, rid, frames[|yielded|], |yielded| + 1) && EndsOn(rid, frames[|yielded|], yielded == [], end)
  {
    yielded := [];
    var expected, sawEvent := 1, false;
    for i := 0 to |frames|
      invariant |yielded| == i && expected == i + 1 && sawEvent == (i > 0)
      invariant forall k :: 0 <= k < i ==> GoodEvent(run, rid, frames[k], k + 1) && frames[k].event == yielded[k]
    {
      var f := frames[i];
      match f {
        case OtherFrame => return yielded, ProtocolError;
        case EventFrame(version, id, event) =>
          if version != PROTOCOL_VERSION || id != rid { return yielded, ProtocolError; }
          if event.run != run || event.sequence != expected { return yielded, ProtocolError; }
          expected, sawEvent := expected + 1, true;
          yielded := yielded + [event];
        case ReplyFrame(version, id, reply) =>
          if version != PROTOCOL_VERSION || id != rid { return yielded, ProtocolError; }
          match reply {
            case Failure(code, retryable) => return yielded, RejectedRun(code, retryable, !sawEvent);
            case Success(result) =>
              if !Consistent(result) { return yielded, ProtocolError; }
              return yielded, Answered(result);
          }
      }
    }
    return yielded, ProtocolError;
  }

  // -------------------------------------------------------------- controller

  function CharBytes(c: char): nat {
    var n := c as int;
    if n < 0x80 then 1 else if n < 0x800 then 2 else if n < 0x10000 then 3 else 4
  }

  function Utf8Bytes(s: string): nat {
    if s == [] then 0 else CharBytes(s[0]) + Utf8Bytes(s[1..])
  }

  function Texts(es: seq<Event>): seq<string> {
    if es == [] then []
    else
      var e := es[|es| - 1];
      Texts(es[..|es| - 1]) + if e.kind.Delta? then [e.kind.text] else []
  }

  function Bytes(es: seq<Event>): nat {
    if es == [] then 0
    else
      var e := es[|es| - 1];
      Bytes(es[..|es| - 1]) + if e.kind.Delta? then Utf8Bytes(e.kind.text) else 0
  }

  function Join(parts: seq<string>): string {
    if parts == [] then "" else Join(parts[..|parts| - 1]) + parts[|parts| - 1]
  }

  function Summary(es: seq<Event>): Option<string> {
    if Texts(es) == [] then None else Some(Join(Texts(es)))
  }

  lemma JoinSnoc(parts: seq<string>, text: string)
    ensures Join([]) == "" && Join(parts + [text]) == Join(parts) + text
  {
    assert (parts + [text])[..|parts|] == parts;
  }

  /** The summary of a longer stream is the old text with the new delta's text after
      it; it is there exactly when some delta was, an empty one included. */
  lemma SummaryGrows(es: seq<Event>, e: Event)
    ensures Summary([]) == None
    ensures !e.kind.Delta? ==> Summary(es + [e]) == Summary(es)
    ensures e.kind.Delta? ==>
      Summary(es + [e]) == Some((match Summary(es) case Some(text) => text case None => "") + e.kind.text)
  {
    assert (es + [e])[..|es|] == es;
    assert Texts(es) + [] == Texts(es);
    if e.kind.Delta? { JoinSnoc(Texts(es), e.kind.text); }
  }

  /** Output is counted in UTF-8 bytes: text after text, one to four a character. */
  lemma {:induction false} Utf8Appends(s: string, c: char)
    ensures Utf8Bytes("") == 0
    ensures var n := Utf8Bytes(s + [c]) - Utf8Bytes(s);
      && (n == 1 <==> c as int < 0x80) && (n == 2 <==> 0x80 <= c as int < 0x800)
      && (n == 3 <==> 0x800 <= c as int < 0x10000) && (n == 4 <==> 0x10000 <= c as int)
  {
    if s == "" {
      assert "" + [c] == [c] && [c][1..] == "";
    } else {
      Utf8Appends(s[1..], c);
      assert (s + [c])[1..] == s[1..] + [c];
    }
  }

  lemma BytesGrowBy(es: seq<Event>, e: Event)
    ensures Bytes([]) == 0
    ensures Bytes(es + [e]) == Bytes(es) + if e.kind.Delta? then Utf8Bytes(e.kind.text) else 0
  {
    assert (es + [e])[..|es|] == es;
  }

  // The events table of one run, keyed by sequence.
  type Rows = map<int, Event>

  function RowsOf(es: seq<Event>): Rows {
    if es == [] then map[]
    else RowsOf(es[..|es| - 1])[es[|es| - 1].sequence := es[|es| - 1]]
  }

  predicate Contiguous(es: seq<Event>) {
    forall i :: 0 <= i < |es| ==> es[i].sequence == i + 1
  }

  lemma {:induction false} RowsOfContiguous(es: seq<Event>)
    requires Contiguous(es)
    ensures forall k :: k in RowsOf(es) <==> 1 <= k <= |es|
    ensures forall i :: 0 <= i < |es| ==> RowsOf(es)[es[i].sequence] == es[i]
  {
    if es != [] {
      var front := es[..|es| - 1];
      RowsOfContiguous(front);
      forall i | 0 <= i < |es|
        ensures es[i].sequence in RowsOf(es) && RowsOf(es)[es[i].sequence] == es[i]
      {
        if i < |front| { assert front[i] == es[i]; }
      }
    }
  }

  datatype Stored = Stored(status: Completion, outcome: Outcome, summary: Option<string>)

  /** What the stream leaves: a stored result, or an exception for the caller to
      classify. */
  datatype StreamEnd = Finished(stored: Stored) | Raised(rejection: Option<string>)

  predicate WithinBudget(es: seq<Event>, maxEvents: nat, maxBytes: nat) {
    |es| <= maxEvents && Bytes(es) <= maxBytes
  }

  /** Storing stopped right after `es`: at its last event by the byte budget, or
      before a further one by the event budget. */
  predicate Breach(es: seq<Event>, rows: Rows, maxEvents: nat, maxBytes: nat) {
    rows == RowsOf(es) && |es| <= maxEvents
    && (if Bytes(es) > maxBytes then es != [] && Bytes(es[..|es| - 1]) <= maxBytes else |es| == maxEvents)
  }

  /** Store every yielded event, then the result. */
  method StoreStream(yielded: seq<Event>, end: SessionEnd, maxEvents: nat, maxBytes: nat)
    returns (rows: Rows, stop: StreamEnd)
    requires Contiguous(yielded)
    ensures WithinBudget(yielded, maxEvents, maxBytes) ==>
      && rows == RowsOf(yielded)
      && (match end
          case Answered(r) =>
            stop == Finished(Stored(r.status, r.outcome, Summary(yielded)))
          case RejectedRun(code, _, _) => stop == Raised(Some(code))
          case ProtocolError => stop == Raised(None))
    // over budget: exactly the events up to the breach are stored, and the run is
    // not finished with a result
    ensures !WithinBudget(yielded, maxEvents, maxBytes) ==>
      stop == Raised(None) && exists n :: 0 <= n <= |yielded| && Breach(yielded[..n], rows, maxEvents, maxBytes)
  {
    rows := map[];
    var chunks: seq<string> := [];
    var outputBytes, seen := 0, 0;
    for i := 0 to |yielded|
      invariant seen == i <= maxEvents
      invariant rows == RowsOf(yielded[..i])
      invariant chunks == Texts(yielded[..i])
      invariant outputBytes == Bytes(yielded[..i]) <= maxBytes
    {
      var e := yielded[i];
      seen := seen + 1;
      assert yielded[..i + 1][..i] == yielded[..i];
      if seen > maxEvents {
        assert Breach(yielded[..i], rows, maxEvents, maxBytes);
        return rows, Raised(None);
      }
      RowsOfContiguous(yielded[..i]);
      if e.sequence in rows {
        assert false;
        return rows, Raised(None);
      }
      rows := rows[e.sequence := e];
      assert rows == RowsOf(yielded[..i + 1]);
      if e.kind.Delta? {
        outputBytes := outputBytes + Utf8Bytes(e.kind.text);
        if outputBytes > maxBytes {
          BytesGrow(yielded, i + 1);
          assert Breach(yielded[..i + 1], rows, maxEvents, maxBytes);
          return rows, Raised(None);
        }
        chunks := chunks + [e.kind.text];
      }
    }
    assert yielded[..|yielded|] == yielded;
    match end {
      case Answered(r) =>
        stop := Finished(Stored(r.status, r.outcome, if chunks == [] then None else Some(Join(chunks))));
      case RejectedRun(code, _, _) => stop := Raised(Some(code));
      case ProtocolError => stop := Raised(None);
    }
  }

  lemma {:induction false} BytesGrow(es: seq<Event>, n: nat)
    requires n <= |es|
    ensures Bytes(es[..n]) <= Bytes(es)
    decreases |es|
  {
    if n < |es| {
      BytesGrow(es[..|es| - 1], n);
      assert es[..|es| - 1][..n] == es[..n];
    } else {
      assert es[..n] == es;
    }
  }

  // ------------------------------------------------------------- composition

  function Wire(rid: nat, es: seq<Event>, res: RunResult): seq<Frame> {
    seq(|es|, i requires 0 <= i < |es| => EventFrame(PROTOCOL_VERSION, rid, es[i]))
    + [ReplyFrame(PROTOCOL_VERSION, rid, Reply.Success(res))]
  }

  /** The connection may be lost after some number of frames. */
  function Cut<T>(xs: seq<T>, lost: Option<nat>): seq<T> {
    if lost.Some? && lost.value < |xs| then xs[..lost.value] else xs
  }

  // Of the valid prefix, what the client was sent before the connection was lost.
  function Delivered(run: nat, es: seq<Event>, lost: Option<nat>): seq<Event> {
    Cut(Longest(run, es), lost)
  }

  // The reply comes after the events.
  predicate ReplyDelivered(run: nat, es: seq<Event>, lost: Option<nat>) {
    lost.None? || |Longest(run, es)| < lost.value
  }

  // The Runner forwards what it could write of the longest valid prefix.
  lemma ForwardedIsDelivered(run: nat, es: seq<Event>, out: seq<Event>, writable: nat, lost: Option<nat>)
    requires out <= es && Valid(run, out) && |out| <= writable
    requires |out| < |es| ==> |out| == writable || !Valid(run, es[..|out| + 1])
    requires writable == match lost case Some(n) => n case None => |es|
    ensures out == Delivered(run, es, lost)
    ensures ReplyDelivered(run, es, lost) ==> out == Longest(run, es)
    ensures !ReplyDelivered(run, es, lost) ==> |out| == writable
  {
    ValidIsWithinLongest(run, es, out);
    var p := Longest(run, es);
    if |out| < |p| {
      assert p[..|out| + 1] == es[..|out| + 1];
      ValidPrefix(run, p, |out| + 1);
    }
  }

  // What the session makes of the frames that arrive.
  lemma DeliveredIsRead(run: nat, rid: nat, out: seq<Event>, frames: seq<Frame>, yielded: seq<Event>)
    requires |out| <= |frames| && |yielded| <= |frames| && Valid(run, out)
    requires forall i :: 0 <= i < |out| ==> frames[i] == EventFrame(PROTOCOL_VERSION, rid, out[i])
    requires |out| < |frames| ==> frames[|out|].ReplyFrame?
    requires |frames| <= |out| + 1
    requires forall i :: 0 <= i < |yielded| ==> GoodEvent(run, rid, frames[i], i + 1) && frames[i].event == yielded[i]
    requires |yielded| < |frames| ==> !GoodEvent(run, rid, frames[|yielded|], |yielded| + 1)
    ensures yielded == out
  {
    assert forall i :: 0 <= i < |out| ==> GoodEvent(run, rid, frames[i], i + 1) && frames[i].event == out[i];
  }

  /** Whatever the driver does, with no deadline: let q be its longest valid prefix as
      far as the connection carried it. Within the budgets the store holds exactly q,
      and the stored status is other than unknown exactly when the reply arrived, the
      whole stream is valid with its terminal in last place, and the driver did not
      crash; the stored summary is then the text of all its deltas. Without a reply,
      or past a budget, no result is stored, and of q exactly what the budgets allow. */
  method DriverToStore(run: nat, rid: nat, es: seq<Event>, crashes: bool, lost: Option<nat>, maxEvents: nat,
                       maxBytes: nat)
    returns (rows: Rows, stop: StreamEnd)
    ensures var q := Delivered(run, es, lost);
      if WithinBudget(q, maxEvents, maxBytes) then
        rows == RowsOf(q) && (if ReplyDelivered(run, es, lost) then StoredAs(run, es, crashes, stop)
          else stop == Raised(None))
      else
        stop == Raised(None) && exists n :: 0 <= n <= |q| && Breach(q[..n], rows, maxEvents, maxBytes)
  {
    var writable := match lost case Some(n) => n case None => |es|;
    var out, res := Consume(run, es, crashes, writable);
    ForwardedIsDelivered(run, es, out, writable, lost);
    var frames := Cut(Wire(rid, out, res), lost);
    var yielded, end := ReadRun(run, rid, frames);
    DeliveredIsRead(run, rid, out, frames, yielded);
    if ReplyDelivered(run, es, lost) {
      assert frames[|out|] == ReplyFrame(PROTOCOL_VERSION, rid, Reply.Success(res));
      WholeIffComplete(run, es);
    }
    rows, stop := StoreStream(yielded, end, maxEvents, maxBytes);
  }

  // A stored result: known exactly for a complete stream, with all of its text.
  predicate StoredAs(run: nat, es: seq<Event>, crashes: bool, stop: StreamEnd) {
    && stop.Finished?
    && stop.stored.summary == Summary(Longest(run, es))
    && (!stop.stored.status.CUnknown? <==> Complete(run, es) && !crashes)
    && (Complete(run, es) && !crashes ==>
          && Longest(run, es) == es
          && Means(es[|es| - 1].kind, stop.stored.status, stop.stored.outcome))
    && (stop.stored.status.CUnknown? ==> stop.stored.outcome.Unknown?)
  }

  lemma WholeIffComplete(run: nat, es: seq<Event>)
    ensures Valid(run, es) ==> Longest(run, es) == es
  {
    if Valid(run, es) { ValidIsWithinLongest(run, es, es); }
  }

  // ---------------------------------------------------------------- read side

  /** SELECT ... WHERE sequence > after ORDER BY sequence ASC LIMIT limit. */
  ghost predicate IsPage(rows: Rows, after: int, limit: nat, page: seq<Event>) {
    && |page| <= limit
    && (forall i :: 0 <= i < |page| ==>
          page[i].sequence in rows && rows[page[i].sequence] == page[i] && page[i].sequence > after)
    && (forall i, j :: 0 <= i < j < |page| ==> page[i].sequence < page[j].sequence)
    && (forall k :: k in rows && k > after && Absent(page, k) ==> |page| == limit && AllBelow(page, k))
  }

  predicate Absent(page: seq<Event>, k: int) {
    forall i :: 0 <= i < |page| ==> page[i].sequence != k
  }

  predicate AllBelow(page: seq<Event>, k: int) {
    forall i :: 0 <= i < |page| ==> page[i].sequence < k
  }

  function Min(a: nat, b: nat): nat {
    if a < b then a else b
  }

  /** Over rows without gaps a page is the next slice of the stored stream. */
  lemma PageIsNextSlice(es: seq<Event>, after: nat, limit: nat, page: seq<Event>)
    requires Contiguous(es) && after <= |es| && IsPage(RowsOf(es), after, limit, page)
    ensures page == es[after..Min(after + limit, |es|)]
  {
    RowsOfContiguous(es);
    PageOfGapless(es, RowsOf(es), after, limit, page);
  }

  ghost predicate Gapless(es: seq<Event>, rows: Rows) {
    Contiguous(es)
    && (forall k :: k in rows <==> 1 <= k <= |es|)
    && (forall i :: 0 <= i < |es| ==> rows[es[i].sequence] == es[i])
  }

  lemma PageOfGapless(es: seq<Event>, rows: Rows, after: nat, limit: nat, page: seq<Event>)
    requires Gapless(es, rows) && after <= |es| && IsPage(rows, after, limit, page)
    ensures page == es[after..Min(after + limit, |es|)]
  {
    PageIsContiguous(es, rows, after, limit, page, |page|);
    var k := after + |page| + 1;
    assert Absent(page, k);
    assert k <= |es| ==> k in rows;
    assert |page| == limit || after + |page| == |es|;
  }

  lemma {:induction false} PageIsContiguous(es: seq<Event>, rows: Rows, after: nat, limit: nat, page: seq<Event>,
                                            n: nat)
    requires Gapless(es, rows) && after <= |es| && IsPage(rows, after, limit, page) && n <= |page|
    ensures after + n <= |es|
    ensures forall i :: 0 <= i < n ==> page[i].sequence == after + i + 1 && page[i] == es[after + i]
  {
    if n > 0 {
      PageIsContiguous(es, rows, after, limit, page, n - 1);
      var got := page[n - 1].sequence;
      assert n >= 2 ==> page[n - 2].sequence < got;
      assert got in rows && got >= after + n;
      if after + n < got {
        NotSkipped(es, rows, after, limit, page, n);
      }
      assert es[got - 1].sequence == got;
    }
  }

  // The page's n-th row cannot lie beyond the n-th missing sequence.
  lemma NotSkipped(es: seq<Event>, rows: Rows, after: nat, limit: nat, page: seq<Event>, n: nat)
    requires Gapless(es, rows) && IsPage(rows, after, limit, page) && 0 < n <= |page|
    requires forall i :: 0 <= i < n - 1 ==> page[i].sequence == after + i + 1
    requires after + n <= |es|
    ensures page[n - 1].sequence <= after + n
  {
    var k := after + n;
    if page[n - 1].sequence > k {
      forall i | 0 <= i < |page|
        ensures page[i].sequence != k
      {
        if i >= n { assert page[n - 1].sequence < page[i].sequence; }
      }
      assert Absent(page, k);
      assert false;
    }
  }
}
