/** The Devin driver's run state as an object, updated frame by frame. */
module DevinDriver {
  import opened Common
  import opened Devin

  class Run {
    const cfg: Cfg
    var sequence: nat
    var rpcId: nat
    var awaiting: Option<nat>
    var response: Value
    var protocolOk: bool
    var currentMode: Option<string>
    var modelValue: Option<string>
    var awaitingMode: Option<string>
    var denied: bool
    var events: seq<Event>
    var calls: seq<Call>
    ghost var consumed: seq<Frame>

    ghost function View(): RunState
      reads this
    {
      RunState(sequence, rpcId, awaiting, response, protocolOk, currentMode, modelValue, awaitingMode, denied,
          events, calls, consumed)
    }

    constructor (cfg: Cfg)
      ensures View() == FRESH && this.cfg == cfg
    {
      this.cfg := cfg;
      sequence, rpcId, awaiting, response := 0, 0, None, NoValue;
      protocolOk, currentMode, modelValue, awaitingMode, denied := false, None, None, None, false;
      events, calls, consumed := [], [], [];
    }

    method Yield(k: Kind)
      modifies this`sequence, this`events
      ensures View() == Emit(old(View()), k)
    {
      sequence := sequence + 1;
      events := events + [Event(sequence, k)];
    }

    method Dispatch(f: Frame) returns (raised: Option<Exn>)
      modifies this
      ensures Step(View(), raised) == Devin.Dispatch(cfg, old(View()), f)
    {
      consumed := consumed + [f];
      var matches := match awaiting case None => f.id.Absent? || f.id.Null? case Some(n) => EqualsNumber(f.id, n);
      if matches && (f.hasResult || f.hasError) {
        if f.hasError && f.errorIsDict { return Some(RpcError); }
        response := if f.hasResult then f.result else NoValue;
        return None;
      }
      if f.call.Some? && !f.id.Absent? {
        raised := HandleAgentRequest(f.call.value);
        return;
      }
      if f.call.Some? {
        raised := HandleNotification(f.call.value);
        return;
      }
      if !f.id.Absent? { return None; }
      return Some(ProtocolError("protocol_error"));
    }

    method HandleAgentRequest(m: Method) returns (raised: Option<Exn>)
      modifies this`sequence, this`events, this`denied
      ensures Step(View(), raised) == HandleRequest(old(View()), m)
    {
      if !m.RequestPermission? { return None; }
      if !m.readable { return Some(Unhandled); }
      Yield(PermissionRequired);
      denied := true;
      return if m.optionsReadable then None else Some(Unhandled);
    }

    method HandleNotification(m: Method) returns (raised: Option<Exn>)
      modifies this`sequence, this`events, this`currentMode
      ensures Step(View(), raised) == Devin.HandleNotification(cfg, old(View()), m)
    {
      if !m.SessionUpdate? { return None; }
      raised := None;
      match m.update
      case Unreadable => raised := Some(Unhandled);
      case Ignored =>
      case Chunk(UnreadableContent) => raised := Some(Unhandled);
      case Chunk(NotText) =>
      case Chunk(TextContent(text)) =>
        if text != "" { Yield(Delta(text)); }
      case ToolCall(tool, over) =>
        ghost var s := View();
        Yield(ToolStarted(tool));
        if over { Yield(ToolCompleted(tool)); }
        EmitsOneOrTwo(s, tool, over);
      case ToolCallUpdate(tool, over, diffs, readable) =>
        ghost var s := View();
        if over { Yield(ToolCompleted(tool)); }
        YieldDiffs(diffs);
        EmitsAfter(s, tool, over, diffs);
        if !readable { raised := Some(Unhandled); }
      case ModeUpdate(mode) =>
        if mode.Some? {
          if awaitingMode.Some? && mode != awaitingMode { return Some(ModeAckFailed); }
          currentMode := mode;
        }
      case ModelOption(value) =>
        if value != cfg.model { raised := Some(ProtocolError("model_changed")); }
      case ModeOption(value) => currentMode := Some(value);
    }

    method YieldDiffs(diffs: seq<string>)
      modifies this`sequence, this`events
      ensures View() == EmitAll(old(View()), Artifacts(diffs))
    {
      ghost var all := EmitAll(View(), Artifacts(diffs));
      var i := 0;
      while i < |diffs|
        invariant i <= |diffs|
        invariant EmitAll(View(), Artifacts(diffs[i..])) == all
        invariant View() == old(View()).(sequence := sequence, events := events)
      {
        assert diffs[i..][1..] == diffs[i + 1..];
        ghost var more := Artifacts(diffs[i + 1..]);
        if diffs[i] != "" {
          assert Artifacts(diffs[i..]) == [Artifact(diffs[i])] + more;
          assert Artifacts(diffs[i..])[1..] == more;
          Yield(Artifact(diffs[i]));
        } else {
          assert Artifacts(diffs[i..]) == [] + more == more;
        }
        i := i + 1;
      }
      assert diffs[|diffs|..] == [];
    }

    // Read frames until the condition holds; dispatch everything else.
    method Pump(inputs: seq<Input>, u: Until, phased: bool) returns (rest: seq<Input>, raised: Option<Exn>)
      modifies this
      ensures Flow(View(), rest, raised) == Devin.Pump(cfg, old(View()), inputs, u, phased)
    {
      rest := inputs;
      ghost var goal := Devin.Pump(cfg, View(), inputs, u, phased);
      while !(match u case Answered => !response.NoValue? case ModeIs(m) => currentMode == Some(m))
        invariant Devin.Pump(cfg, View(), rest, u, phased) == goal
        decreases |rest|
      {
        if rest == [] { return rest, Some(DeadlineExceeded); }
        var i := rest[0];
        if i.cancelled { return rest, Some(Cancelled); }
        if i.expired { return rest, Some(DeadlineExceeded); }
        if phased && i.phaseOver { return rest, Some(PhaseTimeout); }
        rest := rest[1..];
        match i.got
        case Nothing =>
        case EndOfStream => return rest, Some(Eof);
        case InvalidFrame => return rest, Some(BadFrame);
        case ReadFails => return rest, Some(TransportError);
        case FrameIn(f) =>
          var x := Dispatch(f);
          if x.Some? { return rest, x; }
      }
      raised := None;
    }

    method Rpc(call: Call, sent: bool, inputs: seq<Input>, phased: bool) returns (rest: seq<Input>, raised: Option<Exn>)
      modifies this
      ensures Flow(View(), rest, raised) == Devin.Rpc(cfg, old(View()), call, sent, inputs, phased)
    {
      rpcId := rpcId + 1;
      awaiting := Some(rpcId);
      response := NoValue;
      calls := calls + [call];
      assert View() == old(View()).(rpcId := rpcId, awaiting := awaiting, response := NoValue, calls := calls);
      if !sent { return inputs, Some(TransportError); }
      rest, raised := Pump(inputs, Answered, phased);
      ghost var pumped := View();
      if raised.None? {
        awaiting := None;
        assert View() == pumped.(awaiting := None);
      }
    }

    // The answers below leave the run failed, raised, or ready to go on.
    ghost function Reached(failed: bool, raised: Option<Exn>, rest: seq<Input>): Stage
      reads this
    {
      if failed then Ended(View()) else if raised.Some? then Raised(View(), raised.value) else More(View(), rest)
    }

    method Initialize(env: Env) returns (rest: seq<Input>, failed: bool, raised: Option<Exn>)
      modifies this
      ensures DoInitialize(cfg, env, old(View())) == Reached(failed, raised, rest)
    {
      failed := false;
      rest, raised := Rpc(Call.Initialize, env.sentInitialize, env.inputs, true);
      if raised.Some? { return; }
      if !response.Dict? || !EqualsNumber(response.protocolVersion, ACP_PROTOCOL_VERSION) {
        Yield(RunFailed("protocol_error"));
        failed := true;
      } else {
        protocolOk := true;
      }
    }

    method NewSession(env: Env, inputs: seq<Input>) returns (rest: seq<Input>, failed: bool, raised: Option<Exn>)
      modifies this
      ensures DoNewSession(cfg, env, old(View()), inputs) == Reached(failed, raised, rest)
    {
      failed := false;
      rest, raised := Rpc(Call.NewSession, env.sentNewSession, inputs, true);
      if raised.Some? { return; }
      var v := response;
      var code := "";
      if !v.Dict? || !v.hasSessionId {
        code := "protocol_error";
      } else if v.modes.UnreadableModes? {
        return rest, false, Some(Unhandled);
      } else {
        currentMode := v.modes.current;
        if v.model.UnreadableModel? { return rest, false, Some(Unhandled); }
        if v.model.NotShown? {
          code := "model_mismatch";
        } else {
          modelValue := Some(v.model.value);
          if v.model.value != cfg.model {
            code := "model_mismatch";
          } else if cfg.mode !in v.modes.available {
            code := "unsupported_mode";
          } else if cfg.mode == BYPASS_MODE && !cfg.bypassAllowed {
            code := "mode_not_authorized";
          }
        }
      }
      if code != "" {
        Yield(RunFailed(code));
        failed := true;
      }
    }

    // session/set_mode and its acknowledgement, when the session is in another mode.
    method SwitchMode(env: Env, inputs: seq<Input>) returns (rest: seq<Input>, failed: bool, raised: Option<Exn>)
      modifies this
      ensures DoSetMode(cfg, env, old(View()), inputs) == Reached(failed, raised, rest)
    {
      failed, raised, rest := false, None, inputs;
      if currentMode == Some(cfg.mode) { return; }
      rest, raised := Rpc(SetMode(cfg.mode), env.sentSetMode, inputs, true);
      if raised.Some? { return; }
      rest, failed, raised := AwaitAck(rest);
    }

    // Wait for the update that acknowledges the mode, within the handshake bound.
    method AwaitAck(inputs: seq<Input>) returns (rest: seq<Input>, failed: bool, raised: Option<Exn>)
      modifies this
      ensures TakeAck(Devin.Pump(cfg, old(View()).(awaitingMode := Some(cfg.mode)), inputs, ModeIs(cfg.mode), true))
           == Reached(failed, raised, rest)
    {
      awaitingMode := Some(cfg.mode);
      rest, raised := Pump(inputs, ModeIs(cfg.mode), true);
      ghost var waited := Flow(View(), rest, raised);
      awaitingMode := None;
      assert View() == waited.state.(awaitingMode := None);
      failed := raised == Some(ModeAckFailed) || raised == Some(PhaseTimeout);
      if raised == Some(ModeAckFailed) {
        Yield(RunFailed("mode_ack_mismatch"));
      } else if raised == Some(PhaseTimeout) {
        Yield(RunFailed("mode_ack_timeout"));
      }
    }

    method ForcedStop(env: Env, x: Exn)
      modifies this
      ensures View() == Devin.ForcedStop(env, old(View()), x)
    {
      if env.stopping || env.expired || x.Cancelled? || x.DeadlineExceeded? {
        if env.stopped { Yield(RunCancelled); }
      } else {
        Yield(RunFailed(CodeOf(x)));
      }
    }

    /** A whole run. */
    method Execute(env: Env)
      requires View() == FRESH
      modifies this
      ensures View() == Devin.Execute(cfg, env)
    {
      if env.rejected.Some? { Yield(RunFailed(env.rejected.value)); return; }
      Yield(Started);
      if !env.spawned { Yield(RunFailed("cli_not_startable")); return; }
      var raised := RunSession(env);
      if raised.Some? && Handled(raised.value) { ForcedStop(env, raised.value); }
    }

    method RunSession(env: Env) returns (raised: Option<Exn>)
      modifies this
      ensures Session(cfg, env, old(View())) == Reached(raised.None?, raised, [])
    {
      var rest, failed;
      rest, failed, raised := Initialize(env);
      if failed { return None; }
      if raised.Some? { return; }
      rest, failed, raised := NewSession(env, rest);
      if failed { return None; }
      if raised.Some? { return; }
      rest, failed, raised := SwitchMode(env, rest);
      if failed { return None; }
      if raised.Some? { return; }
      raised := PromptTurn(env, rest);
    }

    // The prompt, its turn, and the terminal event its stop reason stands for.
    method PromptTurn(env: Env, inputs: seq<Input>) returns (raised: Option<Exn>)
      modifies this
      ensures DoPrompt(cfg, env, old(View()), inputs)
           == if raised.Some? then Raised(View(), raised.value) else Ended(View())
    {
      var rest;
      rest, raised := Rpc(Prompt(protocolOk, modelValue, currentMode), env.sentPrompt, inputs, false);
      if raised.Some? { return; }
      var stop := if response.Dict? then response.stop else UndocumentedStop;
      if stop.UnreadableStop? { return Some(Unhandled); }
      if stop.EndTurn? {
        Yield(RunCompleted(!denied));
      } else if stop.KnownPartial? {
        Yield(RunCompleted(false));
      } else if stop.StopCancelled? {
        Yield(RunCancelled);
      } else {
        Yield(RunFailed("protocol_error"));
      }
    }
  }

  lemma EmitsOneOrTwo(s: RunState, tool: string, over: bool)
    ensures EmitAll(s, [ToolStarted(tool)] + (if over then [ToolCompleted(tool)] else []))
         == if over then Emit(Emit(s, ToolStarted(tool)), ToolCompleted(tool)) else Emit(s, ToolStarted(tool))
  {
    var rest := if over then [ToolCompleted(tool)] else [];
    assert ([ToolStarted(tool)] + rest)[1..] == rest;
    var t := Emit(s, ToolStarted(tool));
    if over {
      assert [ToolCompleted(tool)][1..] == [];
      assert EmitAll(t, [ToolCompleted(tool)]) == Emit(t, ToolCompleted(tool));
    }
  }

  lemma EmitsAfter(s: RunState, tool: string, over: bool, diffs: seq<string>)
    ensures EmitAll(s, (if over then [ToolCompleted(tool)] else []) + Artifacts(diffs))
         == EmitAll(if over then Emit(s, ToolCompleted(tool)) else s, Artifacts(diffs))
  {
    if over {
      assert ([ToolCompleted(tool)] + Artifacts(diffs))[1..] == Artifacts(diffs);
    } else {
      assert [] + Artifacts(diffs) == Artifacts(diffs);
    }
  }
}
