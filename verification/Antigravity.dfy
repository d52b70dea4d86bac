/**
 The Antigravity driver's run: one verified init frame, one prompt, then a
 stream of step frames up to a result frame, turned into run events.
 */
module Antigravity {
  import opened Common

  // ------------------------------------------------------------------ frames

  datatype Index = IntIndex(n: int) | BoolIndex(b: bool) | NoIndex

  // "tool-<index>", or "tool-<sequence>" without one; a bool prints as itself.
  datatype ToolId = Numbered(n: int) | Named(b: bool)

  datatype ToolState = Active | DoneState | OtherState

  datatype StepBody =
    | AgentResponse(delta: Option<string>)
    | ToolStep(index: Index, state: ToolState, errored: bool)
    | OtherStep

  datatype InitBody = InitBody(model: Option<string>, mode: Option<string>, cwd: Option<string>, cwdReadable: bool)

  datatype Frame =
    | InitFrame(init: Option<InitBody>)
    | StepFrame(step: Option<StepBody>)
    | ResultFrame(status: Option<string>)
    | UnknownFrame

  // ------------------------------------------------------------------- state

  datatype Kind =
    | Started | Delta(text: string) | ToolStarted(tool: ToolId) | ToolCompleted(tool: ToolId, failed: bool)
    | RunCompleted(succeeded: bool) | RunCancelled | RunFailed(code: string)

  datatype Event = Event(sequence: nat, kind: Kind)

  predicate TerminalKind(k: Kind) {
    k.RunCompleted? || k.RunCancelled? || k.RunFailed?
  }

  // `sequence` is the number of the next event.
  datatype RunState = RunState(
    sequence: nat, events: seq<Event>, toolsSeen: set<ToolId>, sawDenial: bool,
    consumed: seq<Frame>)   // history: frames read in the turn

  const FRESH := RunState(1, [], {}, false, [])

  datatype Cfg = Cfg(model: string, mode: string, workspace: string)

  function EventsFrom(from: nat, kinds: seq<Kind>): seq<Event> {
    seq(|kinds|, i requires 0 <= i < |kinds| => Event(from + i, kinds[i]))
  }

  function Append(s: RunState, kinds: seq<Kind>): RunState {
    s.(events := s.events + EventsFrom(s.sequence, kinds), sequence := s.sequence + |kinds|)
  }

  function IdOf(x: Index, sequence: nat): ToolId {
    match x
    case IntIndex(n) => Numbered(n)
    case BoolIndex(b) => Named(b)
    case NoIndex => Numbered(sequence)
  }

  // The events one step frame stands for.
  function StepKinds(seen: set<ToolId>, sequence: nat, b: StepBody): seq<Kind> {
    match b
    case AgentResponse(Some(text)) => if text == "" then [] else [Delta(text)]
    case AgentResponse(None) => []
    case OtherStep => []
    case ToolStep(x, state, errored) =>
      var id := IdOf(x, sequence);
      var start := if id in seen then [] else [ToolStarted(id)];
      match state
      case Active => start
      case DoneState => start + [ToolCompleted(id, errored)]
      case OtherState => []
  }

  function StepSeen(seen: set<ToolId>, sequence: nat, b: StepBody): set<ToolId> {
    if b.ToolStep? && !b.state.OtherState? then seen + {IdOf(b.index, sequence)} else seen
  }

  predicate Errs(b: StepBody) {
    b.ToolStep? && b.state.DoneState? && b.errored
  }

  function TakeStep(s: RunState, b: StepBody): RunState {
    Append(s, StepKinds(s.toolsSeen, s.sequence, b))
      .(toolsSeen := StepSeen(s.toolsSeen, s.sequence, b), sawDenial := s.sawDenial || Errs(b))
  }

  // --------------------------------------------------------------------- run

  datatype Got = Nothing | FrameIn(frame: Frame) | EndOfStream | InvalidFrame | ReadFails

  datatype Input = Input(cancelled: bool, handshakeOver: bool, expired: bool, got: Got)

  datatype Written = Sent | SendTimeout | BrokenPipe | SendFails

  /** Everything outside the run; the last three are read by the forced stop. */
  datatype Env = Env(rejected: Option<string>, spawned: bool, inputs: seq<Input>, prompt: Written,
                     stopping: bool, expired: bool, stopped: bool)

  // Why a phase did not go on: a forced stop, or an exception nothing handles.
  datatype Why = Stop(code: string, asked: bool) | Escape

  datatype Stage = More(rest: seq<Input>) | Halt(why: Why)

  function CheckInit(cfg: Cfg, f: Frame): Option<Why> {
    if !f.InitFrame? || f.init.None? then Some(Stop("protocol_error", false))
    else
      var i := f.init.value;
      if i.model != Some(cfg.model) then Some(Stop("model_mismatch", false))
      else if i.mode != Some(cfg.mode) then Some(Stop("permission_mode_mismatch", false))
      else if i.cwd.Some? && !i.cwdReadable then Some(Escape)
      else if i.cwd != Some(cfg.workspace) then Some(Stop("cwd_mismatch", false))
      else None
  }

  // Past the last input the bound being waited for has expired.
  function Handshake(cfg: Cfg, inputs: seq<Input>): Stage
    decreases |inputs|
  {
    if inputs == [] then Halt(Stop("missing_init", true))
    else
      var i := inputs[0];
      if i.cancelled then Halt(Stop("cancelled", true))
      else if i.handshakeOver then Halt(Stop("missing_init", i.expired))
      else match i.got
        case Nothing => Handshake(cfg, inputs[1..])
        case InvalidFrame => Halt(Stop("protocol_error", false))
        case EndOfStream => Halt(Stop("missing_init", false))
        case ReadFails => Halt(Escape)
        case FrameIn(f) =>
          var bad := CheckInit(cfg, f);
          if bad.Some? then Halt(bad.value) else More(inputs[1..])
  }

  datatype Turn = Turn(state: RunState, ended: Option<Why>)   // None: completed

  function TakeTurn(s: RunState, inputs: seq<Input>): Turn
    decreases |inputs|
  {
    if inputs == [] then Turn(s, Some(Stop("deadline", true)))
    else
      var i := inputs[0];
      if i.cancelled then Turn(s, Some(Stop("cancelled", true)))
      else if i.expired then Turn(s, Some(Stop("deadline", true)))
      else match i.got
        case Nothing => TakeTurn(s, inputs[1..])
        case InvalidFrame => Turn(s, Some(Stop("protocol_error", false)))
        case EndOfStream => Turn(s, Some(Stop("missing_result", false)))
        case ReadFails => Turn(s, Some(Escape))
        case FrameIn(f) =>
          var t := s.(consumed := s.consumed + [f]);
          match f
          case UnknownFrame => Turn(t, Some(Stop("unknown_event", false)))
          case InitFrame(_) => TakeTurn(t, inputs[1..])
          case StepFrame(None) => Turn(t, Some(Stop("protocol_error", false)))
          case StepFrame(Some(b)) => TakeTurn(TakeStep(t, b), inputs[1..])
          case ResultFrame(None) => Turn(t, Some(Stop("protocol_error", false)))
          case ResultFrame(Some(status)) =>
            if status != "SUCCESS" then Turn(t, Some(Stop("cli_reported_error", false)))
            else Turn(Append(t, [RunCompleted(!t.sawDenial)]), None)
  }

  function ForcedStop(env: Env, s: RunState, why: Why): RunState {
    match why
    case Escape => s
    case Stop(code, asked) =>
      if asked || env.stopping || env.expired then (if env.stopped then Append(s, [RunCancelled]) else s)
      else Append(s, [RunFailed(code)])
  }

  function AfterPrompt(w: Written): Option<Why> {
    match w
    case Sent => None
    case SendTimeout => Some(Stop("send_timeout", true))
    case BrokenPipe => Some(Stop("cli_broken_pipe", false))
    case SendFails => Some(Escape)
  }

  // How the run halts before or during its turn, and the state it halts in.
  function Session(cfg: Cfg, env: Env, s: RunState): Turn {
    match Handshake(cfg, env.inputs)
    case Halt(why) => Turn(s, Some(why))
    case More(rest) =>
      var bad := AfterPrompt(env.prompt);
      if bad.Some? then Turn(s, bad) else TakeTurn(s, rest)
  }

  function Execute(cfg: Cfg, env: Env): RunState {
    if env.rejected.Some? then Append(FRESH, [RunFailed(env.rejected.value)])
    else
      var s := Append(FRESH, [Started]);
      if !env.spawned then Append(s, [RunFailed("cli_not_startable")])
      else
        var t := Session(cfg, env, s);
        if t.ended.Some? then ForcedStop(env, t.state, t.ended.value) else t.state
  }
}

/** What an Antigravity run emits, over every frame sequence and schedule. */
module AntigravityProofs {
  import opened Common
  import opened Antigravity

  // The answer text of one frame, if it carries any.
  function AnswerOf(f: Frame): seq<string> {
    match f
    case StepFrame(Some(AgentResponse(Some(text)))) => if text != "" then [text] else []
    case _ => []
  }

  // The answer texts of the frames read, in order.
  function Answers(frames: seq<Frame>): seq<string> {
    if frames == [] then [] else Answers(frames[..|frames| - 1]) + AnswerOf(frames[|frames| - 1])
  }

  function Deltas(events: seq<Event>): seq<string> {
    if events == [] then []
    else
      var k := events[|events| - 1].kind;
      Deltas(events[..|events| - 1]) + if k.Delta? then [k.text] else []
  }

  predicate ToolErrored(f: Frame) {
    f.StepFrame? && f.step.Some? && Errs(f.step.value)
  }

  // ------------------------------------------------------------- invariant

  ghost predicate Contiguous(s: RunState) {
    |s.events| + 1 == s.sequence && forall i :: 0 <= i < |s.events| ==> s.events[i].sequence == i + 1
  }

  ghost predicate NoTerminalYet(s: RunState) {
    forall i :: 0 <= i < |s.events| ==> !TerminalKind(s.events[i].kind)
  }

  predicate StartsAt(s: RunState, i: int, id: ToolId) {
    0 <= i < |s.events| && s.events[i].kind == ToolStarted(id)
  }

  // A tool id is seen exactly when it was started, started once, and before any
  // completion of it.
  ghost predicate ToolsOk(s: RunState) {
    && (forall id :: id in s.toolsSeen <==> exists i :: StartsAt(s, i, id))
    && (forall i, j, id :: StartsAt(s, i, id) && StartsAt(s, j, id) ==> i == j)
    && (forall j :: 0 <= j < |s.events| && s.events[j].kind.ToolCompleted? ==>
          exists i :: i < j && StartsAt(s, i, s.events[j].kind.tool))
  }

  ghost predicate DenialOk(s: RunState) {
    && (s.sawDenial <==> exists f :: f in s.consumed && ToolErrored(f))
    && (s.sawDenial <==> exists i :: 0 <= i < |s.events| && s.events[i].kind.ToolCompleted? && s.events[i].kind.failed)
  }

  ghost predicate Open(s: RunState) {
    Contiguous(s) && NoTerminalYet(s) && ToolsOk(s) && DenialOk(s) && Deltas(s.events) == Answers(s.consumed)
  }

  lemma {:induction false} DeltasAppend(a: seq<Event>, b: seq<Event>)
    ensures Deltas(a + b) == Deltas(a) + Deltas(b)
  {
    if b == [] {
      assert a + b == a;
    } else {
      var front := b[..|b| - 1];
      DeltasAppend(a, front);
      assert (a + b)[..|a + b| - 1] == a + front;
    }
  }

  lemma AppendKeepsNumbers(s: RunState, kinds: seq<Kind>)
    requires Contiguous(s)
    ensures var t := Append(s, kinds);
      && Contiguous(t) && |t.events| == |s.events| + |kinds|
      && (forall i :: 0 <= i < |s.events| ==> t.events[i] == s.events[i])
      && (forall i :: 0 <= i < |kinds| ==> t.events[|s.events| + i].kind == kinds[i])
  {
  }

  // The at most two events of a step: a first sight of its tool, then its end.
  lemma StepShape(seen: set<ToolId>, sequence: nat, b: StepBody)
    ensures var ks := StepKinds(seen, sequence, b);
      && |ks| <= 2
      && (forall i :: 0 <= i < |ks| ==> !TerminalKind(ks[i]))
      && (forall i :: 0 <= i < |ks| && ks[i].ToolStarted? ==> i == 0 && ks[i].tool !in seen)
      && (forall i :: 0 <= i < |ks| && ks[i].ToolCompleted? ==>
            if ks[i].tool in seen then i == 0 else i == 1 && ks[0] == ToolStarted(ks[i].tool))
      && StepSeen(seen, sequence, b) == seen + (set i | 0 <= i < |ks| && ks[i].ToolStarted? :: ks[i].tool)
      && (Errs(b) <==> exists i :: 0 <= i < |ks| && ks[i].ToolCompleted? && ks[i].failed)
  {
    var ks := StepKinds(seen, sequence, b);
    if b.ToolStep? {
      var id := IdOf(b.index, sequence);
      if b.state.DoneState? {
        assert ks[|ks| - 1] == ToolCompleted(id, b.errored);
      }
      if !b.state.OtherState? && id !in seen {
        assert ks[0] == ToolStarted(id);
      }
    }
  }

  lemma ToolsStep(s: RunState, b: StepBody)
    requires Contiguous(s) && ToolsOk(s)
    ensures ToolsOk(TakeStep(s, b))
  {
    var ks := StepKinds(s.toolsSeen, s.sequence, b);
    var t := TakeStep(s, b);
    var n := |s.events|;
    StepShape(s.toolsSeen, s.sequence, b);
    AppendKeepsNumbers(s, ks);
    assert forall i, id ::
      StartsAt(t, i, id) <==> StartsAt(s, i, id) || (i == n && |ks| > 0 && ks[0] == ToolStarted(id));
    forall id ensures id in t.toolsSeen <==> exists i :: StartsAt(t, i, id) {
      if id in s.toolsSeen {
        var i :| StartsAt(s, i, id);
        assert StartsAt(t, i, id);
      } else if id in t.toolsSeen {
        assert StartsAt(t, n, id);
      }
    }
    forall j | 0 <= j < |t.events| && t.events[j].kind.ToolCompleted?
      ensures exists i :: i < j && StartsAt(t, i, t.events[j].kind.tool)
    {
      var id := t.events[j].kind.tool;
      if j < n {
        var i :| i < j && StartsAt(s, i, id);
        assert StartsAt(t, i, id);
      } else if id in s.toolsSeen {
        var i :| StartsAt(s, i, id);
        assert StartsAt(t, i, id);
      } else {
        assert t.events[j].kind == ks[j - n];
        assert StartsAt(t, n, id);
      }
    }
  }

  lemma DenialStep(s: RunState, b: StepBody, before: seq<Frame>)
    requires Contiguous(s) && s.consumed == before + [StepFrame(Some(b))]
    requires DenialOk(s.(consumed := before))
    ensures DenialOk(TakeStep(s, b))
  {
    var ks := StepKinds(s.toolsSeen, s.sequence, b);
    var t := TakeStep(s, b);
    StepShape(s.toolsSeen, s.sequence, b);
    AppendKeepsNumbers(s, ks);
    assert StepFrame(Some(b)) in t.consumed;
    assert forall f :: f in before ==> f in t.consumed;
    if Errs(b) {
      var i :| 0 <= i < |ks| && ks[i].ToolCompleted? && ks[i].failed;
      assert t.events[|s.events| + i].kind == ks[i];
    }
    if i :| 0 <= i < |t.events| && t.events[i].kind.ToolCompleted? && t.events[i].kind.failed {
      if i < |s.events| {
        assert s.events[i] == t.events[i];
      } else {
        assert ks[i - |s.events|] == t.events[i].kind;
      }
    }
    if i :| 0 <= i < |s.events| && s.events[i].kind.ToolCompleted? && s.events[i].kind.failed {
      assert t.events[i] == s.events[i];
    }
  }

  lemma AnswersSnoc(frames: seq<Frame>, f: Frame)
    ensures Answers(frames + [f]) == Answers(frames) + AnswerOf(f)
  {
    assert (frames + [f])[..|frames|] == frames;
  }

  lemma DeltasOfStep(from: nat, ks: seq<Kind>)
    requires |ks| <= 2 && (|ks| == 2 ==> !ks[0].Delta? && !ks[1].Delta?)
    ensures Deltas(EventsFrom(from, ks)) == if |ks| == 1 && ks[0].Delta? then [ks[0].text] else []
  {
    var es := EventsFrom(from, ks);
    if |ks| > 0 {
      assert es[..|es| - 1] == EventsFrom(from, ks[..|ks| - 1]);
      if |ks| == 2 {
        assert es[..1][..0] == [];
        assert Deltas(es[..1]) == [];
      }
    }
  }

  lemma DeltasOfBody(seen: set<ToolId>, sequence: nat, b: StepBody)
    ensures Deltas(EventsFrom(sequence, StepKinds(seen, sequence, b))) == AnswerOf(StepFrame(Some(b)))
  {
    DeltasOfStep(sequence, StepKinds(seen, sequence, b));
  }

  lemma AnswersStep(s: RunState, b: StepBody, before: seq<Frame>)
    requires s.consumed == before + [StepFrame(Some(b))] && Deltas(s.events) == Answers(before)
    ensures Deltas(TakeStep(s, b).events) == Answers(TakeStep(s, b).consumed)
  {
    AnswersSnoc(before, StepFrame(Some(b)));
    DeltasOfBody(s.toolsSeen, s.sequence, b);
    DeltasAppend(s.events, EventsFrom(s.sequence, StepKinds(s.toolsSeen, s.sequence, b)));
  }

  lemma NumbersStep(s: RunState, b: StepBody)
    requires Contiguous(s) && NoTerminalYet(s)
    ensures Contiguous(TakeStep(s, b)) && NoTerminalYet(TakeStep(s, b))
  {
    StepShape(s.toolsSeen, s.sequence, b);
    AppendKeepsNumbers(s, StepKinds(s.toolsSeen, s.sequence, b));
  }

  lemma ReadingKeepsTools(s: RunState, f: Frame)
    requires ToolsOk(s)
    ensures ToolsOk(s.(consumed := s.consumed + [f]))
  {
    assert forall i, id :: StartsAt(s.(consumed := s.consumed + [f]), i, id) <==> StartsAt(s, i, id);
  }

  lemma StepKeeps(s: RunState, b: StepBody)
    requires Open(s)
    ensures Open(TakeStep(s.(consumed := s.consumed + [StepFrame(Some(b))]), b))
  {
    var t := s.(consumed := s.consumed + [StepFrame(Some(b))]);
    NumbersStep(t, b);
    ReadingKeepsTools(s, StepFrame(Some(b)));
    ToolsStep(t, b);
    assert t.(consumed := s.consumed) == s;
    DenialStep(t, b, s.consumed);
    AnswersStep(t, b, s.consumed);
  }

  // A frame that is not a step changes nothing but the history.
  lemma OtherFrameKeeps(s: RunState, f: Frame)
    requires Open(s) && !(f.StepFrame? && f.step.Some?)
    ensures Open(s.(consumed := s.consumed + [f]))
  {
    var t := s.(consumed := s.consumed + [f]);
    AnswersSnoc(s.consumed, f);
    ReadingKeepsTools(s, f);
    assert !ToolErrored(f) && forall g :: g in t.consumed <==> g in s.consumed || g == f;
  }

  // ------------------------------------------------------------- the ending

  // The run's last event is terminal, and before it the run was open.
  ghost predicate ClosedBy(s: RunState, open: RunState, k: Kind) {
    Open(open) && TerminalKind(k) && s == Append(open, [k])
  }

  ghost predicate TurnOk(t: Turn) {
    if t.ended.Some? then Open(t.state)
    else exists open: RunState :: ClosedBy(t.state, open, RunCompleted(!open.sawDenial))
  }

  lemma {:induction false} TurnKeeps(s: RunState, inputs: seq<Input>)
    requires Open(s)
    ensures TurnOk(TakeTurn(s, inputs))
    decreases |inputs|
  {
    if inputs != [] && !inputs[0].cancelled && !inputs[0].expired {
      match inputs[0].got
      case Nothing => TurnKeeps(s, inputs[1..]);
      case FrameIn(f) =>
        var t := s.(consumed := s.consumed + [f]);
        match f {
          case StepFrame(Some(b)) =>
            StepKeeps(s, b);
            TurnKeeps(TakeStep(t, b), inputs[1..]);
          case InitFrame(_) =>
            OtherFrameKeeps(s, f);
            TurnKeeps(t, inputs[1..]);
          case ResultFrame(Some(status)) =>
            OtherFrameKeeps(s, f);
            if status == "SUCCESS" {
              assert ClosedBy(TakeTurn(s, inputs).state, t, RunCompleted(!t.sawDenial));
            }
          case _ => OtherFrameKeeps(s, f);
        }
      case _ =>
    }
  }

  lemma FreshIsOpen()
    ensures Open(Append(FRESH, [Started]))
    ensures Open(FRESH)
  {
    var s := Append(FRESH, [Started]);
    assert s.events == [Event(1, Started)];
    assert Deltas(s.events[..0]) == [];
  }

  // The run's end: still open, or closed by one terminal event.
  ghost predicate Ended(s: RunState, open: RunState) {
    && Open(open)
    && (s == open || exists k :: ClosedBy(s, open, k) && (k.RunCompleted? ==> k == RunCompleted(!open.sawDenial)))
  }

  // No terminal event: an exception escaped, or a requested stop is unconfirmed.
  predicate Silent(env: Env, t: Turn) {
    t.ended.Some? && (t.ended.value.Escape? || ((t.ended.value.asked || env.stopping || env.expired) && !env.stopped))
  }

  predicate SilentRun(cfg: Cfg, env: Env) {
    env.rejected.None? && env.spawned && Silent(env, Session(cfg, env, Append(FRESH, [Started])))
  }

  lemma SessionEnds(cfg: Cfg, env: Env, t: Turn) returns (open: RunState)
    requires TurnOk(t)
    requires Execute(cfg, env) == if t.ended.Some? then ForcedStop(env, t.state, t.ended.value) else t.state
    ensures Ended(Execute(cfg, env), open) && (Execute(cfg, env) == open <==> Silent(env, t))
  {
    var e := Execute(cfg, env);
    if t.ended.None? {
      open :| ClosedBy(t.state, open, RunCompleted(!open.sawDenial));
    } else if Silent(env, t) {
      open := t.state;
    } else {
      open := t.state;
      var k := if t.ended.value.asked || env.stopping || env.expired then RunCancelled
        else RunFailed(t.ended.value.code);
      assert ClosedBy(e, open, k);
    }
  }

  lemma RunEnds(cfg: Cfg, env: Env) returns (open: RunState)
    ensures Ended(Execute(cfg, env), open) && (Execute(cfg, env) == open <==> SilentRun(cfg, env))
  {
    FreshIsOpen();
    var s := Append(FRESH, [Started]);
    var e := Execute(cfg, env);
    if env.rejected.Some? {
      open := FRESH;
      assert ClosedBy(e, FRESH, RunFailed(env.rejected.value));
    } else if !env.spawned {
      open := s;
      assert ClosedBy(e, s, RunFailed("cli_not_startable"));
    } else {
      match Handshake(cfg, env.inputs) {
        case Halt(_) =>
        case More(rest) => TurnKeeps(s, rest);
      }
      open := SessionEnds(cfg, env, Session(cfg, env, s));
    }
  }

  lemma ClosedTools(s: RunState, open: RunState, k: Kind)
    requires ClosedBy(s, open, k)
    ensures ToolsOk(s)
  {
    AppendKeepsNumbers(open, [k]);
    assert forall i, id :: StartsAt(s, i, id) <==> StartsAt(open, i, id);
    forall j | 0 <= j < |s.events| && s.events[j].kind.ToolCompleted?
      ensures exists i :: i < j && StartsAt(s, i, s.events[j].kind.tool)
    {
      assert s.events[j] == open.events[j];
      var i :| i < j && StartsAt(open, i, open.events[j].kind.tool);
      assert StartsAt(s, i, s.events[j].kind.tool);
    }
  }

  lemma ClosedDeltas(s: RunState, open: RunState, k: Kind)
    requires ClosedBy(s, open, k)
    ensures Deltas(s.events) == Answers(s.consumed)
  {
    DeltasAppend(open.events, EventsFrom(open.sequence, [k]));
    DeltasOfStep(open.sequence, [k]);
  }

  ghost predicate Numbers(s: RunState) {
    && (forall i :: 0 <= i < |s.events| ==> s.events[i].sequence == i + 1)
    && (forall i :: 0 <= i < |s.events| - 1 ==> !TerminalKind(s.events[i].kind))
  }

  // What an ended run shows, read off its events alone.
  ghost predicate Shows(s: RunState) {
    && Numbers(s) && ToolsOk(s) && Deltas(s.events) == Answers(s.consumed)
    && forall i :: 0 <= i < |s.events| && s.events[i].kind.RunCompleted? ==>
      (s.events[i].kind.succeeded <==> forall f :: f in s.consumed ==> !ToolErrored(f))
  }

  lemma ClosedShows(s: RunState, open: RunState, k: Kind)
    requires ClosedBy(s, open, k) && (k.RunCompleted? ==> k == RunCompleted(!open.sawDenial))
    ensures Shows(s) && !NoTerminalYet(s)
  {
    AppendKeepsNumbers(open, [k]);
    ClosedTools(s, open, k);
    ClosedDeltas(s, open, k);
    assert s.events[|open.events|].kind == k;
    assert s.consumed == open.consumed;
  }

  lemma EndedShows(s: RunState, open: RunState)
    requires Ended(s, open)
    ensures Shows(s) && (s == open <==> NoTerminalYet(s))
  {
    if s != open {
      var k :| ClosedBy(s, open, k) && (k.RunCompleted? ==> k == RunCompleted(!open.sawDenial));
      ClosedShows(s, open, k);
    }
  }

  // ------------------------------------------------------------- main results

  /** Events are contiguous from 1 and at most one terminal event closes them;
      there is none exactly when the stop was asked for and not confirmed, or an
      exception escaped. */
  lemma OneTerminalLast(cfg: Cfg, env: Env)
    ensures var s := Execute(cfg, env);
      && (forall i :: 0 <= i < |s.events| ==> s.events[i].sequence == i + 1)
      && (forall i :: 0 <= i < |s.events| - 1 ==> !TerminalKind(s.events[i].kind))
      && ((forall i :: 0 <= i < |s.events| ==> !TerminalKind(s.events[i].kind))
          <==> SilentRun(cfg, env))
  {
    var open := RunEnds(cfg, env);
    EndedShows(Execute(cfg, env), open);
  }

  /** The text a run delivers is the agent's answer texts, all of them, in order. */
  lemma DeltasAreTheAnswer(cfg: Cfg, env: Env)
    ensures Deltas(Execute(cfg, env).events) == Answers(Execute(cfg, env).consumed)
  {
    var open := RunEnds(cfg, env);
    EndedShows(Execute(cfg, env), open);
  }

  /** Each tool id starts at most once, and before any of its completions. */
  lemma ToolsStartOnceAndFirst(cfg: Cfg, env: Env)
    ensures ToolsOk(Execute(cfg, env))
  {
    var open := RunEnds(cfg, env);
    EndedShows(Execute(cfg, env), open);
  }

  /** A completed run succeeded exactly when no tool step it read ended in error. */
  lemma SucceededIffNoToolErrored(cfg: Cfg, env: Env)
    ensures var s := Execute(cfg, env);
      forall i :: 0 <= i < |s.events| && s.events[i].kind.RunCompleted? ==>
        (s.events[i].kind.succeeded <==> forall f :: f in s.consumed ==> !ToolErrored(f))
  {
    var open := RunEnds(cfg, env);
    EndedShows(Execute(cfg, env), open);
  }

  // A confirmed stop and an unconfirmed one report the same, unless it was asked for.
  lemma ForcedStopDiffers(env: Env, s: RunState, code: string, asked: bool)
    ensures var why := Stop(code, asked);
      ForcedStop(env.(stopped := true), s, why) != ForcedStop(env.(stopped := false), s, why)
      <==> asked || env.stopping || env.expired
  {
    assert |Append(s, [RunCancelled]).events| == |s.events| + 1;
  }

  /** What a run reports depends on the stop's success exactly when it was asked to
      stop: any other terminal event says nothing about the process. */
  lemma StopMattersIffAsked(cfg: Cfg, env: Env)
    requires env.rejected.None? && env.spawned
    ensures var t := Session(cfg, env, Append(FRESH, [Started]));
      Execute(cfg, env.(stopped := true)) != Execute(cfg, env.(stopped := false))
      <==> t.ended.Some? && t.ended.value.Stop? && (t.ended.value.asked || env.stopping || env.expired)
  {
    var s := Append(FRESH, [Started]);
    var t := Session(cfg, env, s);
    assert Session(cfg, env.(stopped := true), s) == t == Session(cfg, env.(stopped := false), s);
    if t.ended.Some? && t.ended.value.Stop? {
      ForcedStopDiffers(env, t.state, t.ended.value.code, t.ended.value.asked);
    }
  }
}
