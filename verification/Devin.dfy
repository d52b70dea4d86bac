/**
 The Devin ACP driver's run: JSON-RPC requests over stdio, a pump that reads
 frames until a condition holds, and the events it yields.

 A frame is what the driver's own dictionary reads see of it. Values of a shape
 on which those reads raise are marked as such: the exception is not one the run
 handles.
 */
module Devin {
  import opened Common

  const BYPASS_MODE := "bypass"
  const ACP_PROTOCOL_VERSION := 1

  // ------------------------------------------------------------------ frames

  /** A JSON scalar as Python compares it: 1, 1.0 and true are equal. */
  datatype Scalar = Absent | Null | Number(n: int) | Flag(b: bool) | Text(text: string) | OtherValue

  predicate EqualsNumber(x: Scalar, n: int) {
    match x
    case Number(m) => m == n
    case Flag(b) => n == if b then 1 else 0
    case _ => false
  }

  datatype Modes = UnreadableModes | Modes(current: Option<string>, available: set<string>)

  datatype ModelProbe = UnreadableModel | NotShown | Shown(value: string)

  datatype Stop = EndTurn | KnownPartial | StopCancelled | UndocumentedStop | UnreadableStop

  datatype Value =
    | NoValue              // null, or no result member
    | NotADict
    | Dict(protocolVersion: Scalar, hasSessionId: bool, modes: Modes, model: ModelProbe, stop: Stop)

  datatype Content = UnreadableContent | NotText | TextContent(text: string)

  datatype Update =
    | Unreadable
    | Ignored
    | Chunk(content: Content)
    | ToolCall(tool: string, over: bool)
    | ToolCallUpdate(tool: string, over: bool, diffs: seq<string>, readable: bool)
    | ModeUpdate(mode: Option<string>)
    | ModelOption(value: string)
    | ModeOption(value: string)

  datatype Method =
    | RequestPermission(readable: bool, optionsReadable: bool)
    | SessionUpdate(update: Update)
    | OtherMethod

  datatype Frame = Frame(
    id: Scalar, call: Option<Method>, hasResult: bool, hasError: bool, errorIsDict: bool, result: Value)

  // ------------------------------------------------------------------- state

  datatype Kind =
    | Started | PermissionRequired | Delta(text: string)
    | ToolStarted(tool: string) | ToolCompleted(tool: string) | Artifact(path: string)
    | RunCompleted(succeeded: bool) | RunCancelled | RunFailed(code: string)

  datatype Event = Event(sequence: nat, kind: Kind)

  predicate TerminalKind(k: Kind) {
    k.RunCompleted? || k.RunCancelled? || k.RunFailed?
  }

  // A client request as it was written, with what the run knew at that moment.
  datatype Call =
    | Initialize | NewSession | SetMode(wanted: string)
    | Prompt(protocolOk: bool, model: Option<string>, mode: Option<string>)

  datatype RunState = RunState(
    sequence: nat, rpcId: nat, awaiting: Option<nat>, response: Value,
    protocolOk: bool, currentMode: Option<string>, modelValue: Option<string>, awaitingMode: Option<string>,
    denied: bool,
    events: seq<Event>, calls: seq<Call>,
    consumed: seq<Frame>)   // history: frames handed to dispatch

  const FRESH := RunState(0, 0, None, NoValue, false, None, None, None, false, [], [], [])

  datatype Cfg = Cfg(model: string, mode: string, bypassAllowed: bool)

  datatype Exn =
    | Cancelled | DeadlineExceeded | PhaseTimeout | RpcError | ProtocolError(code: string)
    | BadFrame | Eof | TransportError | ModeAckFailed
    | Unhandled   // a TypeError or AttributeError on an unexpected shape

  function Emit(s: RunState, k: Kind): RunState {
    s.(sequence := s.sequence + 1, events := s.events + [Event(s.sequence + 1, k)])
  }

  function EmitAll(s: RunState, ks: seq<Kind>): RunState
    decreases |ks|
  {
    if ks == [] then s else EmitAll(Emit(s, ks[0]), ks[1..])
  }

  datatype Step = Step(state: RunState, raised: Option<Exn>)

  // ---------------------------------------------------------------- dispatch

  // Python's frame.get("id") == state.awaiting, where a missing id reads as None.
  predicate IdMatches(s: RunState, id: Scalar) {
    match s.awaiting
    case None => id.Absent? || id.Null?
    case Some(n) => EqualsNumber(id, n)
  }

  predicate TakenAsResponse(s: RunState, f: Frame) {
    IdMatches(s, f.id) && (f.hasResult || f.hasError)
  }

  function Dispatch(cfg: Cfg, before: RunState, f: Frame): Step {
    var s := before.(consumed := before.consumed + [f]);
    if TakenAsResponse(s, f) then
      if f.hasError && f.errorIsDict then Step(s, Some(RpcError))
      else Step(s.(response := if f.hasResult then f.result else NoValue), None)
    else if f.call.Some? && !f.id.Absent? then HandleRequest(s, f.call.value)
    else if f.call.Some? then HandleNotification(cfg, s, f.call.value)
    else if !f.id.Absent? then Step(s, None)
    else Step(s, Some(ProtocolError("protocol_error")))
  }

  function HandleRequest(s: RunState, m: Method): Step {
    if !m.RequestPermission? then Step(s, None)
    else if !m.readable then Step(s, Some(Unhandled))
    else Step(Emit(s, PermissionRequired).(denied := true), if m.optionsReadable then None else Some(Unhandled))
  }

  function HandleNotification(cfg: Cfg, s: RunState, m: Method): Step {
    if !m.SessionUpdate? then Step(s, None)
    else match m.update
      case Unreadable => Step(s, Some(Unhandled))
      case Ignored => Step(s, None)
      case Chunk(UnreadableContent) => Step(s, Some(Unhandled))
      case Chunk(NotText) => Step(s, None)
      case Chunk(TextContent(text)) => Step(if text == "" then s else Emit(s, Delta(text)), None)
      case ToolCall(tool, over) =>
        Step(EmitAll(s, [ToolStarted(tool)] + (if over then [ToolCompleted(tool)] else [])), None)
      case ToolCallUpdate(tool, over, diffs, readable) =>
        var kinds := (if over then [ToolCompleted(tool)] else []) + Artifacts(diffs);
        Step(EmitAll(s, kinds), if readable then None else Some(Unhandled))
      case ModeUpdate(mode) =>
        if mode.None? then Step(s, None)
        else if s.awaitingMode.Some? && mode != s.awaitingMode then Step(s, Some(ModeAckFailed))
        else Step(s.(currentMode := mode), None)
      case ModelOption(value) => Step(s, if value != cfg.model then Some(ProtocolError("model_changed")) else None)
      case ModeOption(value) => Step(s.(currentMode := Some(value)), None)
  }

  function Artifacts(paths: seq<string>): seq<Kind> {
    if paths == [] then [] else (if paths[0] == "" then [] else [Artifact(paths[0])]) + Artifacts(paths[1..])
  }

  // -------------------------------------------------------------------- pump

  datatype Got = Nothing | FrameIn(frame: Frame) | EndOfStream | InvalidFrame | ReadFails

  /** What one turn of the pump meets: the flags it tests, then a bounded read. */
  datatype Input = Input(cancelled: bool, expired: bool, phaseOver: bool, got: Got)

  datatype Until = Answered | ModeIs(mode: string)

  predicate Done(s: RunState, u: Until) {
    match u
    case Answered => !s.response.NoValue?
    case ModeIs(m) => s.currentMode == Some(m)
  }

  datatype Flow = Flow(state: RunState, rest: seq<Input>, raised: Option<Exn>)

  // Past the last input the run's deadline has expired.
  function Pump(cfg: Cfg, s: RunState, inputs: seq<Input>, u: Until, phased: bool): Flow
    decreases |inputs|
  {
    if Done(s, u) then Flow(s, inputs, None)
    else if inputs == [] then Flow(s, inputs, Some(DeadlineExceeded))
    else
      var i := inputs[0];
      if i.cancelled then Flow(s, inputs, Some(Cancelled))
      else if i.expired then Flow(s, inputs, Some(DeadlineExceeded))
      else if phased && i.phaseOver then Flow(s, inputs, Some(PhaseTimeout))
      else match i.got
        case Nothing => Pump(cfg, s, inputs[1..], u, phased)
        case EndOfStream => Flow(s, inputs[1..], Some(Eof))
        case InvalidFrame => Flow(s, inputs[1..], Some(BadFrame))
        case ReadFails => Flow(s, inputs[1..], Some(TransportError))
        case FrameIn(f) =>
          var d := Dispatch(cfg, s, f);
          if d.raised.Some? then Flow(d.state, inputs[1..], d.raised)
          else Pump(cfg, d.state, inputs[1..], u, phased)
  }

  function Rpc(cfg: Cfg, s: RunState, call: Call, sent: bool, inputs: seq<Input>, phased: bool): Flow {
    var asked := s.(rpcId := s.rpcId + 1, awaiting := Some(s.rpcId + 1), response := NoValue,
        calls := s.calls + [call]);
    if !sent then Flow(asked, inputs, Some(TransportError))
    else
      var f := Pump(cfg, asked, inputs, Answered, phased);
      if f.raised.Some? then f else f.(state := f.state.(awaiting := None))
  }

  // --------------------------------------------------------------------- run

  /** Everything outside the run: its preflight, its writes and its stop. */
  datatype Env = Env(
    rejected: Option<string>, spawned: bool,
    sentInitialize: bool, sentNewSession: bool, sentSetMode: bool, sentPrompt: bool,
    inputs: seq<Input>,
    stopping: bool, expired: bool, stopped: bool)   // read by the forced stop

  datatype Stage = More(state: RunState, rest: seq<Input>) | Raised(state: RunState, exn: Exn) | Ended(state: RunState)

  function Fail(s: RunState, code: string): Stage {
    Ended(Emit(s, RunFailed(code)))
  }

  function DoInitialize(cfg: Cfg, env: Env, s: RunState): Stage {
    var f := Rpc(cfg, s, Initialize, env.sentInitialize, env.inputs, true);
    if f.raised.Some? then Raised(f.state, f.raised.value)
    else if f.state.response.Dict? && EqualsNumber(f.state.response.protocolVersion, ACP_PROTOCOL_VERSION)
    then More(f.state.(protocolOk := true), f.rest)
    else Fail(f.state, "protocol_error")
  }

  function DoNewSession(cfg: Cfg, env: Env, s: RunState, inputs: seq<Input>): Stage {
    var f := Rpc(cfg, s, NewSession, env.sentNewSession, inputs, true);
    if f.raised.Some? then Raised(f.state, f.raised.value) else TakeSession(cfg, f.state, f.rest)
  }

  // What session/new answered must show the pinned model and offer the mode.
  function TakeSession(cfg: Cfg, s: RunState, rest: seq<Input>): Stage {
    var v := s.response;
    if !v.Dict? || !v.hasSessionId then Fail(s, "protocol_error")
    else if v.modes.UnreadableModes? then Raised(s, Unhandled)
    else
      var t := s.(currentMode := v.modes.current);
      if v.model.UnreadableModel? then Raised(t, Unhandled)
      else if v.model.NotShown? then Fail(t, "model_mismatch")
      else TakeModel(cfg, t, rest, v.modes, v.model.value)
  }

  function TakeModel(cfg: Cfg, s: RunState, rest: seq<Input>, modes: Modes, model: string): Stage
    requires modes.Modes?
  {
    var t := s.(modelValue := Some(model));
    if model != cfg.model then Fail(t, "model_mismatch")
    else if cfg.mode !in modes.available then Fail(t, "unsupported_mode")
    else if cfg.mode == BYPASS_MODE && !cfg.bypassAllowed then Fail(t, "mode_not_authorized")
    else More(t, rest)
  }

  function DoSetMode(cfg: Cfg, env: Env, s: RunState, inputs: seq<Input>): Stage {
    if s.currentMode == Some(cfg.mode) then More(s, inputs)
    else
      var f := Rpc(cfg, s, SetMode(cfg.mode), env.sentSetMode, inputs, true);
      if f.raised.Some? then Raised(f.state, f.raised.value)
      else TakeAck(Pump(cfg, f.state.(awaitingMode := Some(cfg.mode)), f.rest, ModeIs(cfg.mode), true))
  }

  // How the wait for the mode's acknowledgement ended.
  function TakeAck(g: Flow): Stage {
    var t := g.state.(awaitingMode := None);
    match g.raised
    case None => More(t, g.rest)
    case Some(ModeAckFailed) => Fail(t, "mode_ack_mismatch")
    case Some(PhaseTimeout) => Fail(t, "mode_ack_timeout")
    case Some(x) => Raised(t, x)
  }

  function DoPrompt(cfg: Cfg, env: Env, s: RunState, inputs: seq<Input>): Stage {
    var f := Rpc(cfg, s, Prompt(s.protocolOk, s.modelValue, s.currentMode), env.sentPrompt, inputs, false);
    if f.raised.Some? then Raised(f.state, f.raised.value) else TakeTurn(f.state)
  }

  function StopOf(v: Value): Stop {
    if v.Dict? then v.stop else UndocumentedStop
  }

  // The terminal event that the turn's stop reason stands for.
  function TakeTurn(s: RunState): Stage {
    match StopOf(s.response)
    case UnreadableStop => Raised(s, Unhandled)
    case EndTurn => Ended(Emit(s, RunCompleted(!s.denied)))
    case KnownPartial => Ended(Emit(s, RunCompleted(false)))
    case StopCancelled => Ended(Emit(s, RunCancelled))
    case UndocumentedStop => Fail(s, "protocol_error")
  }

  function Session(cfg: Cfg, env: Env, s: RunState): Stage {
    match DoInitialize(cfg, env, s)
    case More(s1, r1) =>
      (match DoNewSession(cfg, env, s1, r1)
       case More(s2, r2) =>
         (match DoSetMode(cfg, env, s2, r2)
          case More(s3, r3) => DoPrompt(cfg, env, s3, r3)
          case other => other)
       case other => other)
    case other => other
  }

  function CodeOf(x: Exn): string {
    match x
    case Cancelled => "cancelled"
    case DeadlineExceeded => "deadline"
    case PhaseTimeout => "handshake_timeout"
    case RpcError => "rpc_error"
    case ProtocolError(code) => code
    case BadFrame => "protocol_error"
    case Eof => "missing_result"
    case _ => "transport_error"
  }

  // A request to stop stays set, and an expired deadline stays expired.
  predicate WasAskedToStop(env: Env, x: Exn) {
    env.stopping || env.expired || x.Cancelled? || x.DeadlineExceeded?
  }

  function ForcedStop(env: Env, s: RunState, x: Exn): RunState {
    if WasAskedToStop(env, x) then (if env.stopped then Emit(s, RunCancelled) else s)
    else Emit(s, RunFailed(CodeOf(x)))
  }

  predicate Handled(x: Exn) { !x.Unhandled? && !x.ModeAckFailed? }

  function Execute(cfg: Cfg, env: Env): RunState {
    if env.rejected.Some? then Emit(FRESH, RunFailed(env.rejected.value))
    else
      var s := Emit(FRESH, Started);
      if !env.spawned then Emit(s, RunFailed("cli_not_startable"))
      else match Session(cfg, env, s)
        case Ended(t) => t
        case Raised(t, x) => if Handled(x) then ForcedStop(env, t, x) else t
        case More(t, _) => t
  }
}
