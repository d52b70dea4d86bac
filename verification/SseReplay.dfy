/**
 The SSE reader of one run, interleaved with the run that keeps appending events.
 A reader suspends at every yield and await; everything the run does between two
 of its own suspension points is one step here.
 */
module SseReplay {
  import opened Common
  import opened Pipeline

  const PAGE_SIZE: nat := 1000

  datatype Status = Live | Final(status: Completion)

  datatype Reader =
    | Starting                    // metadata chunk yielded, loop not entered
    | Draining(page: seq<Event>)  // records of the fetched page still to handle
    | Probing                     // awaiting is_disconnected
    | Sleeping                    // awaiting the wakeup, with the keepalive timeout
    | Finished(final: Status)     // loop left; final attempt row read
    | Gone                        // client disconnected

  datatype Sys = Sys(
    // the run
    events: seq<Event>, streaming: bool, doomed: bool,
    row: Status, summary: Option<string>,
    // shared between run and reader
    wakeup: bool, ended: bool,
    // the reader
    reader: Reader, last: nat, emitted: seq<string>)

  datatype Step =
    | Append(e: Event)        // stored, then the wakeup is set
    | AppendOverBudget(e: Event) // stored, then the output budget raises
    | RefuseEvent             // the event budget raises; nothing is stored
    | FinishStream(status: Completion, raised: bool) // result stored, or an exception classified
    | CancelUnconfirmed       // a cancel call gives up on a run still streaming
    | CloseRaises             // session close raises after the result was stored
    | Enter | Emit | Recheck | Probe(disconnected: bool) | Awake | Keepalive

  predicate Next(e: Event, s: Sys) {
    e.sequence == |s.events| + 1 && (e.kind.Delta? ==> e.kind.text != "")
  }

  predicate Enabled(s: Sys, step: Step) {
    match step
    case Append(e) => s.streaming && !s.doomed && Next(e, s)
    case AppendOverBudget(e) => s.streaming && !s.doomed && Next(e, s) && e.kind.Delta?
    case RefuseEvent => s.streaming && !s.doomed
    case FinishStream(status, raised) => s.streaming && (s.doomed ==> raised) && (raised ==> status.CUnknown?)
    case CancelUnconfirmed => s.row.Live?
    case CloseRaises => !s.streaming && s.row.Final?
    case Enter => s.reader.Starting?
    case Emit => s.reader.Draining? && s.reader.page != []
    case Recheck => s.reader.Draining? && s.reader.page == []
    case Probe(_) => s.reader.Probing?
    case Awake => s.reader.Sleeping? && s.wakeup
    case Keepalive => s.reader.Sleeping?
  }

  // Clear the wakeup before draining, then read the next page.
  function Fetch(s: Sys): Sys
    requires s.last <= |s.events|
  {
    s.(wakeup := false, reader := Draining(s.events[s.last..Min(s.last + PAGE_SIZE, |s.events|)]))
  }

  function Apply(s: Sys, step: Step): Sys
    requires Enabled(s, step) && s.last <= |s.events|
  {
    match step
    case Append(e) => s.(events := s.events + [e], wakeup := true)
    case AppendOverBudget(e) => s.(events := s.events + [e], doomed := true)
    case RefuseEvent => s.(doomed := true)
    case FinishStream(status, raised) =>
      s.(streaming := false, row := Final(status), ended := true, wakeup := true,
         summary := if raised || Summary(s.events).None? then s.summary else Summary(s.events))
    case CancelUnconfirmed => s.(row := Final(CUnknown), ended := true, wakeup := true)
    case CloseRaises => s.(row := Final(CUnknown), wakeup := true)
    case Enter => Fetch(s)
    case Emit =>
      var e := s.reader.page[0];
      s.(last := e.sequence, reader := Draining(s.reader.page[1..]),
         emitted := if e.kind.Delta? && e.kind.text != "" then s.emitted + [e.kind.text] else s.emitted)
    case Recheck =>
      if s.last < |s.events| then Fetch(s)
      else if s.ended then s.(reader := Reader.Finished(s.row))
      else s.(reader := Probing)
    case Probe(disconnected) => s.(reader := if disconnected then Gone else Sleeping)
    case Awake => Fetch(s)
    case Keepalive => Fetch(s)
  }

  /** A reader may attach at any time, to a run at any point. */
  predicate Init(s: Sys) {
    RunFacts(s) && s.reader.Starting? && s.last == 0 && s.emitted == []
  }

  // ---------------------------------------------------------------- invariant

  predicate RunFacts(s: Sys) {
    && Contiguous(s.events)
    && (forall i :: 0 <= i < |s.events| && s.events[i].kind.Delta? ==> s.events[i].kind.text != "")
    && (s.row.Live? ==> s.streaming)
    && (s.row.Final? ==> s.ended)
    && (s.row == Final(CCompleted) ==> !s.streaming && s.summary == Summary(s.events))
    && (s.streaming ==> s.row.Live? || s.row == Final(CUnknown))
    && (s.streaming ==> s.summary.None?)
    && (s.ended ==> s.row.Final?)
  }

  predicate Inv(s: Sys) {
    && RunFacts(s)
    && s.last <= |s.events|
    // each stored delta up to the cursor was emitted once, in order
    && s.emitted == Texts(s.events[..s.last])
    && (s.reader.Draining? ==> s.reader.page <= s.events[s.last..])
    // no lost wakeup
    && (s.reader.Sleeping? || s.reader.Probing? ==> s.wakeup || NothingPending(s))
    && (s.reader.Finished? && s.reader.final == Final(CCompleted) ==>
          s.last == |s.events| && s.summary == Summary(s.events) && !s.streaming)
  }

  // Nothing to read and not ended; one event may be waiting only when its run is
  // already failing on the output budget.
  predicate NothingPending(s: Sys) {
    !s.ended && (s.last == |s.events| || (s.doomed && s.streaming && s.last + 1 == |s.events|))
  }

  lemma TextsSnoc(es: seq<Event>, n: nat)
    requires n < |es|
    ensures Texts(es[..n + 1]) == Texts(es[..n]) + if es[n].kind.Delta? then [es[n].kind.text] else []
  {
    assert es[..n + 1][..n] == es[..n];
  }

  // The run stores one more event.
  lemma AppendPreserves(s: Sys, step: Step)
    requires Inv(s) && Enabled(s, step) && (step.Append? || step.AppendOverBudget?)
    ensures Inv(Apply(s, step))
  {
    var t := Apply(s, step);
    assert t.events[..t.last] == s.events[..s.last];
  }

  // The reader sends one record of its page.
  lemma EmitPreserves(s: Sys)
    requires Inv(s) && Enabled(s, Emit)
    ensures Inv(Apply(s, Emit))
  {
    var t := Apply(s, Emit);
    assert s.reader.page[0] == s.events[s.last..][0] == s.events[s.last];
    TextsSnoc(s.events, s.last);
    assert s.events[s.last..][1..] == s.events[t.last..];
  }

  lemma FetchPreserves(s: Sys)
    requires Inv(s) && !s.reader.Finished?
    ensures Inv(Fetch(s))
  {
  }

  lemma StepPreserves(s: Sys, step: Step)
    requires Inv(s) && Enabled(s, step)
    ensures Inv(Apply(s, step))
  {
    match step
    case Append(e) => AppendPreserves(s, step);
    case AppendOverBudget(e) => AppendPreserves(s, step);
    case Emit => EmitPreserves(s);
    case Enter => FetchPreserves(s);
    case Awake => FetchPreserves(s);
    case Keepalive => FetchPreserves(s);
    case Recheck => if s.last < |s.events| { FetchPreserves(s); }
    case _ =>
  }

  /** Any interleaving of run and reader. */
  ghost predicate IsTrace(states: seq<Sys>, steps: seq<Step>) {
    |states| == |steps| + 1 && Init(states[0])
    && forall i :: 0 <= i < |steps| ==>
         && Enabled(states[i], steps[i]) && states[i].last <= |states[i].events|
         && states[i + 1] == Apply(states[i], steps[i])
  }

  lemma {:induction false} Always(states: seq<Sys>, steps: seq<Step>, n: nat)
    requires IsTrace(states, steps) && n < |states|
    ensures Inv(states[n])
  {
    if n > 0 {
      Always(states, steps, n - 1);
      StepPreserves(states[n - 1], steps[n - 1]);
      assert states[n - 1 + 1] == Apply(states[n - 1], steps[n - 1]);
    } else {
      assert states[0].events[..0] == [];
    }
  }

  // ------------------------------------------------------------- main results

  /** At every moment the client was sent exactly the stored deltas up to the
      reader's cursor, each once and in order. */
  lemma EmittedExactlyOnceInOrder(states: seq<Sys>, steps: seq<Step>, n: nat)
    requires IsTrace(states, steps) && n < |states|
    ensures states[n].last <= |states[n].events|
    ensures states[n].emitted == Texts(states[n].events[..states[n].last])
  {
    Always(states, steps, n);
  }

  /** The reader never sleeps on a cleared wakeup while the run has ended; and not
      while a backlog exists either, except for the one event a run that is
      already failing on its output budget stored without a wakeup. */
  lemma NoLostWakeup(states: seq<Sys>, steps: seq<Step>, n: nat)
    requires IsTrace(states, steps) && n < |states|
    requires states[n].reader.Sleeping? && !states[n].wakeup
    ensures !states[n].ended
    ensures states[n].last < |states[n].events| ==>
      states[n].doomed && states[n].streaming && states[n].last + 1 == |states[n].events|
  {
    Always(states, steps, n);
  }

  /** That exception is real: in every state where the reader sleeps on a cleared
      wakeup with nothing to read, the over-budget event of a streaming run leaves
      it asleep over a backlog. */
  lemma OverBudgetEventSleeps(s: Sys, e: Event)
    requires Inv(s) && s.reader.Sleeping? && !s.wakeup && s.last == |s.events|
    requires Enabled(s, AppendOverBudget(e))
    ensures var t := Apply(s, AppendOverBudget(e));
      Inv(t) && t.reader.Sleeping? && !t.wakeup && t.last < |t.events| && !Enabled(t, Awake)
  {
    StepPreserves(s, AppendOverBudget(e));
  }

  const ATTACHED := Sys([], true, false, Live, None, false, false, Starting, 0, [])

  // A reader that attaches to a fresh run and finds nothing goes to sleep.
  lemma GoesToSleep()
    ensures Init(ATTACHED)
    ensures Apply(ATTACHED, Enter) == ATTACHED.(reader := Draining([]))
    ensures Apply(ATTACHED.(reader := Draining([])), Recheck) == ATTACHED.(reader := Probing)
    ensures Apply(ATTACHED.(reader := Probing), Probe(false)) == ATTACHED.(reader := Sleeping)
  {
    var none: seq<Event> := [];
    assert none[0..0] == [];
  }

  /** And it is reached: the first event of such a run may already break the budget. */
  lemma OverBudgetSleepIsReachable(e: Event) returns (states: seq<Sys>, steps: seq<Step>)
    requires e.sequence == 1 && e.kind.Delta? && e.kind.text != ""
    ensures IsTrace(states, steps)
    ensures var t := states[|steps|]; t.reader.Sleeping? && !t.wakeup && t.last < |t.events|
  {
    GoesToSleep();
    var s3 := ATTACHED.(reader := Sleeping);
    var s4 := Apply(s3, AppendOverBudget(e));
    steps := [Enter, Recheck, Probe(false), AppendOverBudget(e)];
    states := [ATTACHED, ATTACHED.(reader := Draining([])), ATTACHED.(reader := Probing), s3, s4];
  }

  /** stream_cached and the non-stream response send the stored summary. */
  function CachedChunks(summary: Option<string>): seq<string> {
    match summary case Some(text) => if text != "" then [text] else [] case None => []
  }

  /** When the reader's last chunk reports a completed run, the concatenation of
      what it streamed is the text the cached replay sends. */
  lemma CompletedStreamEqualsCachedReplay(states: seq<Sys>, steps: seq<Step>, n: nat)
    requires IsTrace(states, steps) && n < |states|
    requires states[n].reader == Reader.Finished(Final(CCompleted))
    ensures Join(states[n].emitted) == Join(CachedChunks(states[n].summary))
    ensures states[n].emitted == Texts(states[n].events)
  {
    Always(states, steps, n);
    var s := states[n];
    assert s.events[..s.last] == s.events;
    match s.summary {
      case Some(text) =>
        assert text == Join(s.emitted);
        if text != "" { assert Join([text]) == Join([]) + text; }
      case None =>
    }
  }

  function PageLeft(r: Reader): nat {
    if r.Draining? && r.page == [] then 1 else 0
  }

  /** One step of a draining reader on an ended run makes progress. */
  method ReaderStep(s: Sys) returns (t: Sys)
    requires Inv(s) && s.ended && s.reader.Draining?
    ensures Inv(t) && t == s.(last := t.last, emitted := t.emitted, reader := t.reader, wakeup := t.wakeup)
    ensures t.reader.Draining? || (t.reader == Reader.Finished(s.row) && t.last == |t.events|)
    ensures t.reader.Draining? ==> s.last < t.last || (t.last == s.last && PageLeft(t.reader) < PageLeft(s.reader))
    ensures s.last <= t.last
  {
    if s.reader.page != [] {
      StepPreserves(s, Emit);
      assert s.reader.page[0] == s.events[s.last..][0] == s.events[s.last];
      t := Apply(s, Emit);
    } else {
      StepPreserves(s, Recheck);
      t := Apply(s, Recheck);
    }
  }

  /** Once the run has ended, the reader alone gets to the end: it replays the
      whole backlog, page after page, and finishes. */
  method DrainToEnd(s: Sys) returns (t: Sys)
    requires Inv(s) && s.ended && !s.streaming && !s.reader.Gone?
    requires !s.reader.Finished?
    ensures Inv(t) && t.reader == Reader.Finished(s.row)
    ensures t.events == s.events && t.emitted == Texts(s.events)
  {
    t := s;
    if t.reader.Probing? {
      StepPreserves(t, Probe(false));
      t := Apply(t, Probe(false));
    }
    if t.reader.Sleeping? {
      StepPreserves(t, Awake);
      t := Apply(t, Awake);
    } else if t.reader.Starting? {
      StepPreserves(t, Enter);
      t := Apply(t, Enter);
    }
    while t.reader.Draining?
      invariant Inv(t) && t.ended && t.events == s.events && t.row == s.row
      invariant t.reader.Draining? || (t.reader == Reader.Finished(s.row) && t.last == |t.events|)
      decreases |t.events| - t.last, if t.reader.Draining? then 1 + PageLeft(t.reader) else 0
    {
      t := ReaderStep(t);
    }
    assert t.events[..t.last] == t.events;
  }

  /** One step of a draining reader over a live run makes progress too. */
  method LiveStep(s: Sys) returns (t: Sys)
    requires Inv(s) && !s.ended && s.reader.Draining?
    ensures Inv(t) && t == s.(last := t.last, emitted := t.emitted, reader := t.reader, wakeup := t.wakeup)
    ensures t.reader.Draining? || (t.reader.Probing? && t.last == |t.events|)
    ensures t.reader.Draining? ==> s.last < t.last || (t.last == s.last && PageLeft(t.reader) < PageLeft(s.reader))
    ensures s.last <= t.last
  {
    if s.reader.page != [] {
      StepPreserves(s, Emit);
      assert s.reader.page[0] == s.events[s.last..][0] == s.events[s.last];
      t := Apply(s, Emit);
    } else {
      StepPreserves(s, Recheck);
      t := Apply(s, Recheck);
    }
  }

  /** Nor does a live run's reader fall behind for good: from any sleep its keepalive
      brings it through the whole backlog, an over-budget event included. */
  method CatchUp(s: Sys) returns (t: Sys)
    requires Inv(s) && !s.ended && s.reader.Sleeping?
    ensures Inv(t) && t.reader.Probing? && t.events == s.events && t.emitted == Texts(s.events)
  {
    StepPreserves(s, Keepalive);
    t := Apply(s, Keepalive);
    while t.reader.Draining?
      invariant Inv(t) && !t.ended && t.events == s.events
      invariant t.reader.Draining? || (t.reader.Probing? && t.last == |t.events|)
      decreases |t.events| - t.last, if t.reader.Draining? then 1 + PageLeft(t.reader) else 0
    {
      t := LiveStep(t);
    }
    assert t.events[..t.last] == t.events;
  }

  /** What the run tells its readers: a stored event wakes them, unless it broke the
      output budget; every end is recorded, and wakes them. */
  lemma RunTells(s: Sys, step: Step)
    requires Enabled(s, step) && s.last <= |s.events|
    requires step.Append? || step.AppendOverBudget? || step.RefuseEvent? || step.FinishStream?
          || step.CancelUnconfirmed? || step.CloseRaises?
    ensures var t := Apply(s, step);
      && t.reader == s.reader && t.last == s.last && t.emitted == s.emitted
      && t.events == (if step.Append? || step.AppendOverBudget? then s.events + [step.e] else s.events)
      && t.wakeup == (s.wakeup || !(step.AppendOverBudget? || step.RefuseEvent?))
      && t.doomed == (s.doomed || step.AppendOverBudget? || step.RefuseEvent?)
      && t.ended == (s.ended || step.FinishStream? || step.CancelUnconfirmed?)
      && t.streaming == (s.streaming && !step.FinishStream?)
      && t.row == (if step.FinishStream? then Final(step.status)
                   else if step.CancelUnconfirmed? || step.CloseRaises? then Final(CUnknown) else s.row)
      && (t.summary != s.summary ==> step.FinishStream? && !step.raised && t.summary == Summary(s.events))
  {
  }

  /** The reader stops for a client that is gone, and otherwise sleeps until woken. */
  lemma ProbeDecides(s: Sys, disconnected: bool)
    requires Enabled(s, Probe(disconnected)) && s.last <= |s.events|
    ensures var t := Apply(s, Probe(disconnected));
      t == s.(reader := t.reader) && (t.reader.Gone? <==> disconnected) && (t.reader.Sleeping? <==> !disconnected)
  {
  }
}
