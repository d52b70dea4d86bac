/** What a Devin run may send and emit, over every frame sequence and schedule. */
module DevinProofs {
  import opened Common
  import opened Devin

  // -------------------------------------------------------------- invariants

  // Events are contiguous from 1.
  ghost predicate Contiguous(s: RunState) {
    |s.events| == s.sequence && forall i :: 0 <= i < |s.events| ==> s.events[i].sequence == i + 1
  }

  ghost predicate NoTerminalYet(s: RunState) {
    forall i :: 0 <= i < |s.events| ==> !TerminalKind(s.events[i].kind)
  }

  // A permission request in the sense of JSON-RPC: a method call with an id.
  predicate AsksPermission(f: Frame) {
    f.call.Some? && f.call.value.RequestPermission? && !f.id.Absent? && !f.hasResult && !f.hasError
  }

  // One that also carries a result or error counts unless it was taken as a response.
  predicate Asked(f: Frame) {
    f.call.Some? && f.call.value.RequestPermission? && !f.id.Absent?
  }

  ghost predicate Heeded(s: RunState) {
    && (forall f :: f in s.consumed && AsksPermission(f) ==> s.denied)
    && (s.denied ==> exists f :: f in s.consumed && Asked(f))
  }

  ghost predicate Open(s: RunState) {
    Contiguous(s) && NoTerminalYet(s)
  }

  // What frames cannot change.
  ghost predicate SameRequests(s: RunState, t: RunState) {
    t.calls == s.calls && t.rpcId == s.rpcId && t.awaiting == s.awaiting && t.awaitingMode == s.awaitingMode
    && t.protocolOk == s.protocolOk && t.modelValue == s.modelValue
  }

  predicate NoTerminalIn(ks: seq<Kind>) {
    forall i :: 0 <= i < |ks| ==> !TerminalKind(ks[i])
  }

  lemma EmitKeeps(s: RunState, k: Kind)
    requires Open(s) && !TerminalKind(k)
    ensures Open(Emit(s, k)) && SameRequests(s, Emit(s, k)) && (Heeded(s) ==> Heeded(Emit(s, k)))
  {
  }

  lemma {:induction false} EmitAllKeeps(s: RunState, ks: seq<Kind>)
    requires Open(s) && NoTerminalIn(ks)
    ensures var t := EmitAll(s, ks);
      && Open(t) && SameRequests(s, t) && t.denied == s.denied && t.consumed == s.consumed
      && t.currentMode == s.currentMode && t.response == s.response
    decreases |ks|
  {
    if ks != [] {
      EmitKeeps(s, ks[0]);
      EmitAllKeeps(Emit(s, ks[0]), ks[1..]);
    }
  }

  lemma {:induction false} ArtifactsAreQuiet(paths: seq<string>)
    ensures NoTerminalIn(Artifacts(paths))
  {
    if paths != [] { ArtifactsAreQuiet(paths[1..]); }
  }

  // What a notification leaves alone.
  ghost predicate QuietStep(s: RunState, t: RunState) {
    Open(t) && SameRequests(s, t) && t.denied == s.denied && t.consumed == s.consumed
  }

  lemma ToolCallKeeps(s: RunState, tool: string, over: bool)
    requires Open(s)
    ensures QuietStep(s, EmitAll(s, [ToolStarted(tool)] + (if over then [ToolCompleted(tool)] else [])))
  {
    EmitAllKeeps(s, [ToolStarted(tool)] + (if over then [ToolCompleted(tool)] else []));
  }

  lemma ToolUpdateKeeps(s: RunState, tool: string, over: bool, diffs: seq<string>)
    requires Open(s)
    ensures QuietStep(s, EmitAll(s, (if over then [ToolCompleted(tool)] else []) + Artifacts(diffs)))
  {
    ArtifactsAreQuiet(diffs);
    EmitAllKeeps(s, (if over then [ToolCompleted(tool)] else []) + Artifacts(diffs));
  }

  lemma NotificationKeeps(cfg: Cfg, s: RunState, m: Method)
    requires Open(s)
    ensures QuietStep(s, HandleNotification(cfg, s, m).state)
  {
    if m.SessionUpdate? {
      match m.update
      case Chunk(TextContent(text)) => EmitKeeps(s, Delta(text));
      case ToolCall(tool, over) => ToolCallKeeps(s, tool, over);
      case ToolCallUpdate(tool, over, diffs, _) => ToolUpdateKeeps(s, tool, over, diffs);
      case _ =>
    }
  }

  lemma RequestKeeps(s: RunState, m: Method)
    requires Open(s)
    ensures var d := HandleRequest(s, m);
      && Open(d.state) && SameRequests(s, d.state) && d.state.consumed == s.consumed
      && (m.RequestPermission? && d.raised.None? ==> d.state.denied) && (!m.RequestPermission? ==> d.state == s)
  {
    EmitKeeps(s, PermissionRequired);
  }

  lemma HeededStep(s: RunState, t: RunState, f: Frame)
    requires Heeded(s) && t.consumed == s.consumed + [f]
    requires if t.denied == s.denied then AsksPermission(f) ==> t.denied else t.denied && Asked(f)
    ensures Heeded(t)
  {
    assert f in t.consumed && forall g :: g in t.consumed <==> g in s.consumed || g == f;
  }

  lemma DispatchKeeps(cfg: Cfg, s: RunState, f: Frame)
    requires Open(s)
    ensures var d := Dispatch(cfg, s, f);
      && Open(d.state) && SameRequests(s, d.state)
      && (d.raised.None? && Heeded(s) ==> Heeded(d.state))
  {
    var t := s.(consumed := s.consumed + [f]);
    var d := Dispatch(cfg, s, f);
    if !TakenAsResponse(t, f) && f.call.Some? {
      if f.id.Absent? {
        NotificationKeeps(cfg, t, f.call.value);
      } else {
        RequestKeeps(t, f.call.value);
      }
    }
    if d.raised.None? && Heeded(s) { HeededStep(s, d.state, f); }
  }

  lemma {:induction false} PumpKeeps(cfg: Cfg, s: RunState, inputs: seq<Input>, u: Until, phased: bool)
    requires Open(s)
    ensures var p := Pump(cfg, s, inputs, u, phased);
      && Open(p.state) && SameRequests(s, p.state)
      && (p.raised.None? ==> Done(p.state, u) && (Heeded(s) ==> Heeded(p.state)))
    decreases |inputs|
  {
    if !Done(s, u) && inputs != [] {
      var i := inputs[0];
      if !i.cancelled && !i.expired && !(phased && i.phaseOver) {
        match i.got
        case Nothing => PumpKeeps(cfg, s, inputs[1..], u, phased);
        case FrameIn(f) =>
          DispatchKeeps(cfg, s, f);
          var d := Dispatch(cfg, s, f);
          if d.raised.None? { PumpKeeps(cfg, d.state, inputs[1..], u, phased); }
        case _ =>
      }
    }
  }

  lemma RpcKeeps(cfg: Cfg, s: RunState, call: Call, sent: bool, inputs: seq<Input>, phased: bool)
    requires Open(s)
    ensures var p := Rpc(cfg, s, call, sent, inputs, phased);
      && Open(p.state) && p.state.calls == s.calls + [call] && p.state.protocolOk == s.protocolOk
      && p.state.modelValue == s.modelValue && p.state.awaitingMode == s.awaitingMode
      && (p.raised.None? ==> p.state.awaiting.None? && !p.state.response.NoValue? && (Heeded(s) ==> Heeded(p.state)))
  {
    var asked := s.(rpcId := s.rpcId + 1, awaiting := Some(s.rpcId + 1), response := NoValue,
        calls := s.calls + [call]);
    assert Heeded(s) ==> Heeded(asked);
    if sent { PumpKeeps(cfg, asked, inputs, Answered, phased); }
  }

  // ------------------------------------------------------------------ stages

  predicate Ready(cfg: Cfg, s: RunState) {
    s.protocolOk && s.modelValue == Some(cfg.model) && (cfg.mode == BYPASS_MODE ==> cfg.bypassAllowed)
  }

  // The handshake so far: the two first requests, and the mode request if any.
  predicate Handshake(cfg: Cfg, calls: seq<Call>) {
    calls == [Initialize, NewSession] || calls == [Initialize, NewSession, SetMode(cfg.mode)]
  }

  predicate GoodPrompt(cfg: Cfg, c: Call) {
    c == Prompt(true, Some(cfg.model), Some(cfg.mode)) && (cfg.mode == BYPASS_MODE ==> cfg.bypassAllowed)
  }

  // Requests are sent in the protocol's order, and the prompt last, if at all.
  predicate InOrder(cfg: Cfg, calls: seq<Call>) {
    || calls == [] || calls == [Initialize] || Handshake(cfg, calls)
    || (|calls| > 0 && Handshake(cfg, calls[..|calls| - 1]) && GoodPrompt(cfg, calls[|calls| - 1]))
  }

  // A stage stops with at most one terminal event, which is last.
  ghost predicate Ending(s: RunState) {
    && Contiguous(s)
    && forall i :: 0 <= i < |s.events| - 1 ==> !TerminalKind(s.events[i].kind)
  }

  ghost predicate Closed(s: RunState) {
    Ending(s) && |s.events| > 0 && TerminalKind(s.events[|s.events| - 1].kind)
  }

  ghost predicate StageOk(cfg: Cfg, g: Stage) {
    && InOrder(cfg, g.state.calls)
    && (g.Ended? ==> Closed(g.state))
    && (!g.Ended? ==> Open(g.state))
    && (g.More? ==> Heeded(g.state))
  }

  predicate LastIs(s: RunState, k: Kind) {
    |s.events| > 0 && s.events[|s.events| - 1].kind == k
  }

  lemma OpenIsNotComplete(s: RunState)
    requires Open(s)
    ensures !Completes(s)
  {
  }

  // A terminal event closes an open run and changes nothing else.
  lemma TerminalCloses(s: RunState, k: Kind)
    requires Open(s) && TerminalKind(k)
    ensures Closed(Emit(s, k)) && LastIs(Emit(s, k), k)
  {
    assert Emit(s, k).events[|s.events|].kind == k;
  }

  lemma FailCloses(s: RunState, code: string)
    requires Open(s)
    ensures Closed(Emit(s, RunFailed(code))) && !Completes(Emit(s, RunFailed(code)))
  {
    TerminalCloses(s, RunFailed(code));
  }

  // The three ways a stage ends short of a completion.
  lemma FailIsOk(cfg: Cfg, s: RunState, code: string)
    requires Open(s) && InOrder(cfg, s.calls)
    ensures StageOk(cfg, Fail(s, code)) && !Completes(Fail(s, code).state)
  {
    FailCloses(s, code);
  }

  lemma RaiseIsOk(cfg: Cfg, s: RunState, x: Exn)
    requires Open(s) && InOrder(cfg, s.calls)
    ensures StageOk(cfg, Raised(s, x)) && !Completes(s)
  {
    OpenIsNotComplete(s);
  }

  lemma MoreIsOk(cfg: Cfg, s: RunState, rest: seq<Input>)
    requires Open(s) && InOrder(cfg, s.calls) && Heeded(s)
    ensures StageOk(cfg, More(s, rest)) && !Completes(s)
  {
    OpenIsNotComplete(s);
  }

  lemma InitializeOk(cfg: Cfg, env: Env, s: RunState)
    requires Open(s) && Heeded(s) && s.calls == []
    ensures var g := DoInitialize(cfg, env, s);
      StageOk(cfg, g) && (g.More? ==> g.state.protocolOk && g.state.calls == [Initialize])
      && !Completes(g.state)
  {
    RpcKeeps(cfg, s, Initialize, env.sentInitialize, env.inputs, true);
    var f := Rpc(cfg, s, Initialize, env.sentInitialize, env.inputs, true);
    assert f.state.calls == [Initialize];
    if f.raised.Some? {
      RaiseIsOk(cfg, f.state, f.raised.value);
    } else {
      var t := f.state.(protocolOk := true);
      assert Open(t) && Heeded(t);
      MoreIsOk(cfg, t, f.rest);
      FailIsOk(cfg, f.state, "protocol_error");
    }
  }

  predicate Completes(s: RunState) {
    LastIs(s, RunCompleted(true)) || LastIs(s, RunCompleted(false))
  }

  // Noting facts about the session touches neither events nor frames.
  lemma NotingKeeps(s: RunState, mode: Option<string>, model: Option<string>)
    requires Open(s)
    ensures var t := s.(currentMode := mode, modelValue := model); Open(t) && (Heeded(s) ==> Heeded(t))
  {
  }

  lemma ModelTaken(cfg: Cfg, s: RunState, rest: seq<Input>, modes: Modes, model: string)
    requires Open(s) && Heeded(s) && s.calls == [Initialize, NewSession] && s.protocolOk && modes.Modes?
    ensures var g := TakeModel(cfg, s, rest, modes, model);
      StageOk(cfg, g) && (g.More? ==> Ready(cfg, g.state) && g.state.calls == s.calls) && !Completes(g.state)
  {
    var u := s.(modelValue := Some(model));
    NotingKeeps(s, s.currentMode, Some(model));
    if model != cfg.model {
      FailIsOk(cfg, u, "model_mismatch");
    } else if cfg.mode !in modes.available {
      FailIsOk(cfg, u, "unsupported_mode");
    } else if cfg.mode == BYPASS_MODE && !cfg.bypassAllowed {
      FailIsOk(cfg, u, "mode_not_authorized");
    } else {
      MoreIsOk(cfg, u, rest);
    }
  }

  lemma TakeSessionOk(cfg: Cfg, s: RunState, rest: seq<Input>)
    requires Open(s) && Heeded(s) && s.calls == [Initialize, NewSession] && s.protocolOk
    ensures var g := TakeSession(cfg, s, rest);
      StageOk(cfg, g) && (g.More? ==> Ready(cfg, g.state) && g.state.calls == s.calls) && !Completes(g.state)
  {
    var v := s.response;
    if !v.Dict? || !v.hasSessionId {
      FailIsOk(cfg, s, "protocol_error");
    } else if v.modes.UnreadableModes? {
      RaiseIsOk(cfg, s, Unhandled);
    } else {
      var t := s.(currentMode := v.modes.current);
      NotingKeeps(s, v.modes.current, s.modelValue);
      match v.model
      case UnreadableModel => RaiseIsOk(cfg, t, Unhandled);
      case NotShown => FailIsOk(cfg, t, "model_mismatch");
      case Shown(model) => ModelTaken(cfg, t, rest, v.modes, model);
    }
  }

  lemma NewSessionOk(cfg: Cfg, env: Env, s: RunState, inputs: seq<Input>)
    requires Open(s) && Heeded(s) && s.calls == [Initialize] && s.protocolOk
    ensures var g := DoNewSession(cfg, env, s, inputs);
      StageOk(cfg, g) && (g.More? ==> Ready(cfg, g.state) && g.state.calls == [Initialize, NewSession])
      && !Completes(g.state)
  {
    RpcKeeps(cfg, s, NewSession, env.sentNewSession, inputs, true);
    var f := Rpc(cfg, s, NewSession, env.sentNewSession, inputs, true);
    if f.raised.None? {
      TakeSessionOk(cfg, f.state, f.rest);
    } else {
      OpenIsNotComplete(f.state);
    }
  }

  lemma TakeAckOk(cfg: Cfg, g: Flow)
    requires Open(g.state) && InOrder(cfg, g.state.calls) && (g.raised.None? ==> Heeded(g.state))
    ensures var h := TakeAck(g); StageOk(cfg, h) && !Completes(h.state)
  {
    var t := g.state.(awaitingMode := None);
    assert Open(t) && (Heeded(g.state) ==> Heeded(t));
    match g.raised
    case None => MoreIsOk(cfg, t, g.rest);
    case Some(ModeAckFailed) => FailIsOk(cfg, t, "mode_ack_mismatch");
    case Some(PhaseTimeout) => FailIsOk(cfg, t, "mode_ack_timeout");
    case Some(x) => RaiseIsOk(cfg, t, x);
  }

  lemma SetModeOk(cfg: Cfg, env: Env, s: RunState, inputs: seq<Input>)
    requires Open(s) && Heeded(s) && Ready(cfg, s) && s.calls == [Initialize, NewSession]
    ensures var g := DoSetMode(cfg, env, s, inputs);
      && StageOk(cfg, g) && !Completes(g.state)
      && (g.More? ==> Ready(cfg, g.state) && Handshake(cfg, g.state.calls) && g.state.currentMode == Some(cfg.mode))
  {
    if s.currentMode == Some(cfg.mode) {
      OpenIsNotComplete(s);
    } else {
      RpcKeeps(cfg, s, SetMode(cfg.mode), env.sentSetMode, inputs, true);
      var f := Rpc(cfg, s, SetMode(cfg.mode), env.sentSetMode, inputs, true);
      assert f.state.calls == [Initialize, NewSession, SetMode(cfg.mode)];
      if f.raised.None? {
        var waiting := f.state.(awaitingMode := Some(cfg.mode));
        assert Heeded(waiting) && Open(waiting);
        PumpKeeps(cfg, waiting, f.rest, ModeIs(cfg.mode), true);
        TakeAckOk(cfg, Pump(cfg, waiting, f.rest, ModeIs(cfg.mode), true));
      } else {
        OpenIsNotComplete(f.state);
      }
    }
  }

  // A completed run was prompted as it should be; it succeeded only if no
  // permission was asked for, and is partial for one of the two reasons.
  ghost predicate Verdict(cfg: Cfg, s: RunState) {
    && (Completes(s) ==> |s.calls| > 0 && GoodPrompt(cfg, s.calls[|s.calls| - 1]) && s.response.Dict?)
    && (LastIs(s, RunCompleted(true)) ==>
          s.response.stop.EndTurn? && forall f :: f in s.consumed ==> !AsksPermission(f))
    && (LastIs(s, RunCompleted(false)) ==>
          s.response.stop.KnownPartial? || (s.response.stop.EndTurn? && exists f :: f in s.consumed && Asked(f)))
  }

  lemma PromptOk(cfg: Cfg, env: Env, s: RunState, inputs: seq<Input>)
    requires Open(s) && Heeded(s) && Ready(cfg, s) && Handshake(cfg, s.calls) && s.currentMode == Some(cfg.mode)
    ensures var g := DoPrompt(cfg, env, s, inputs); StageOk(cfg, g) && !g.More? && Verdict(cfg, g.state)
  {
    var call := Prompt(s.protocolOk, s.modelValue, s.currentMode);
    RpcKeeps(cfg, s, call, env.sentPrompt, inputs, false);
    assert (s.calls + [call])[..|s.calls|] == s.calls;
    var f := Rpc(cfg, s, call, env.sentPrompt, inputs, false);
    if f.raised.None? {
      TurnOk(cfg, f.state);
    } else {
      RaiseIsOk(cfg, f.state, f.raised.value);
    }
  }

  // A completion is recorded with the state that justifies it.
  lemma CompletionOk(cfg: Cfg, s: RunState, succeeded: bool)
    requires Open(s) && Heeded(s) && InOrder(cfg, s.calls) && |s.calls| > 0 && GoodPrompt(cfg, s.calls[|s.calls| - 1])
    requires s.response.Dict?
    requires (if s.response.stop.EndTurn? then succeeded == !s.denied else s.response.stop.KnownPartial? && !succeeded)
    ensures StageOk(cfg, Ended(Emit(s, RunCompleted(succeeded)))) && Verdict(cfg, Emit(s, RunCompleted(succeeded)))
  {
    TerminalCloses(s, RunCompleted(succeeded));
  }

  // What the final answer is turned into.
  lemma TurnOk(cfg: Cfg, s: RunState)
    requires Open(s) && Heeded(s) && InOrder(cfg, s.calls) && |s.calls| > 0 && GoodPrompt(cfg, s.calls[|s.calls| - 1])
    ensures StageOk(cfg, TakeTurn(s)) && !TakeTurn(s).More? && Verdict(cfg, TakeTurn(s).state)
  {
    match StopOf(s.response)
    case UnreadableStop => RaiseIsOk(cfg, s, Unhandled);
    case EndTurn => CompletionOk(cfg, s, !s.denied);
    case KnownPartial => CompletionOk(cfg, s, false);
    case StopCancelled => TerminalCloses(s, RunCancelled);
    case UndocumentedStop => FailIsOk(cfg, s, "protocol_error");
  }

  lemma SessionOk(cfg: Cfg, env: Env, s: RunState)
    requires Open(s) && Heeded(s) && s.calls == []
    ensures var g := Session(cfg, env, s);
      && StageOk(cfg, g) && !g.More?
      && Verdict(cfg, g.state)
  {
    InitializeOk(cfg, env, s);
    var g1 := DoInitialize(cfg, env, s);
    if g1.More? {
      NewSessionOk(cfg, env, g1.state, g1.rest);
      var g2 := DoNewSession(cfg, env, g1.state, g1.rest);
      if g2.More? {
        SetModeOk(cfg, env, g2.state, g2.rest);
        var g3 := DoSetMode(cfg, env, g2.state, g2.rest);
        if g3.More? { PromptOk(cfg, env, g3.state, g3.rest); }
      }
    }
  }

  // ------------------------------------------------------------- main results

  lemma ForcedStopEnds(env: Env, s: RunState, x: Exn)
    requires Open(s)
    ensures var t := ForcedStop(env, s, x); Ending(t) && !Completes(t) && t.calls == s.calls
    ensures Open(ForcedStop(env, s, x)) <==> WasAskedToStop(env, x) && !env.stopped
  {
    OpenIsNotComplete(s);
    TerminalCloses(s, RunCancelled);
    FailCloses(s, CodeOf(x));
  }

  // How a spawned run ends: as its session ended, or by the forced stop.
  lemma RunEnds(cfg: Cfg, env: Env)
    requires env.rejected.None? && env.spawned
    ensures var g := Session(cfg, env, Emit(FRESH, Started));
      && StageOk(cfg, g) && !g.More? && Execute(cfg, env).calls == g.state.calls
      && Ending(Execute(cfg, env)) && Verdict(cfg, Execute(cfg, env))
  {
    SessionOk(cfg, env, Emit(FRESH, Started));
    SessionEnds(cfg, env, Session(cfg, env, Emit(FRESH, Started)));
  }

  lemma SessionEnds(cfg: Cfg, env: Env, g: Stage)
    requires StageOk(cfg, g) && Verdict(cfg, g.state)
    requires Execute(cfg, env) == if g.Raised? && Handled(g.exn) then ForcedStop(env, g.state, g.exn) else g.state
    ensures Execute(cfg, env).calls == g.state.calls && Ending(Execute(cfg, env)) && Verdict(cfg, Execute(cfg, env))
  {
    if g.Raised? && Handled(g.exn) { ForcedStopEnds(env, g.state, g.exn); }
  }

  /** Events are numbered contiguously from 1, and at most one terminal event is
      emitted, as the last one. */
  lemma EventsAreContiguous(cfg: Cfg, env: Env)
    ensures var s := Execute(cfg, env);
      && (forall i :: 0 <= i < |s.events| ==> s.events[i].sequence == i + 1)
      && (forall i :: 0 <= i < |s.events| - 1 ==> !TerminalKind(s.events[i].kind))
  {
    if env.rejected.None? && env.spawned { RunEnds(cfg, env); }
  }

  /** The agent is prompted only after protocol 1, a session on the pinned model
      and the configured mode in force; and requests keep the protocol's order. */
  lemma PromptOnlyAfterHandshake(cfg: Cfg, env: Env)
    ensures InOrder(cfg, Execute(cfg, env).calls)
    ensures forall c :: c in Execute(cfg, env).calls && c.Prompt? ==> GoodPrompt(cfg, c)
  {
    if env.rejected.None? && env.spawned { RunEnds(cfg, env); }
    PromptsInOrder(cfg, Execute(cfg, env).calls);
  }

  lemma PromptsInOrder(cfg: Cfg, calls: seq<Call>)
    requires InOrder(cfg, calls)
    ensures forall c :: c in calls && c.Prompt? ==> GoodPrompt(cfg, c)
  {
    if |calls| > 0 {
      assert forall i :: 0 <= i < |calls| - 1 ==> calls[i] == calls[..|calls| - 1][i];
    }
  }

  /** Success is reported only for a prompted turn in which no permission was
      ever asked for; a partial completion has a stop reason or a denial behind it. */
  lemma SuccessMeansNeverAsked(cfg: Cfg, env: Env)
    ensures Verdict(cfg, Execute(cfg, env))
  {
    if env.rejected.None? && env.spawned { RunEnds(cfg, env); }
  }

  /** A run ends without a terminal event exactly when an exception escapes it, or
      it was stopped on request or deadline and the stop is not confirmed. */
  lemma SilentExactlyWhenUnconfirmed(cfg: Cfg, env: Env)
    requires env.rejected.None? && env.spawned
    ensures var g := Session(cfg, env, Emit(FRESH, Started));
      Open(Execute(cfg, env)) <==> g.Raised? && (!Handled(g.exn) || (WasAskedToStop(env, g.exn) && !env.stopped))
  {
    RunEnds(cfg, env);
    var g := Session(cfg, env, Emit(FRESH, Started));
    if g.Raised? && Handled(g.exn) { ForcedStopEnds(env, g.state, g.exn); }
  }

  /** While a request with id n is awaited, a frame is taken as its response
      exactly when it carries a result or error and an id that Python equates
      with n: the number itself, or `true` when n is 1. */
  lemma AwaitedIdOnly(s: RunState, f: Frame, n: nat)
    requires s.awaiting == Some(n) && n >= 1
    ensures TakenAsResponse(s, f)
         <==> (f.hasResult || f.hasError) && (f.id == Number(n) || (n == 1 && f.id == Flag(true)))
  {
  }

  /** Between requests nothing is awaited, yet a frame whose id is null or missing
      then matches: a result is swallowed, and an error stops the run. */
  lemma IdlessFrameMatchesNothing(cfg: Cfg, s: RunState, f: Frame)
    requires s.awaiting.None?
    ensures TakenAsResponse(s, f) <==> (f.hasResult || f.hasError) && (f.id.Absent? || f.id.Null?)
    ensures TakenAsResponse(s, f) ==>
      (Dispatch(cfg, s, f).raised == if f.hasError && f.errorIsDict then Some(RpcError) else None)
  {
  }

  /** What such a frame leaves behind is never read: the next request clears it. */
  lemma StrayResponseIsForgotten(cfg: Cfg, s: RunState, v: Value, call: Call, sent: bool, inputs: seq<Input>,
                                 phased: bool)
    ensures Rpc(cfg, s.(response := v), call, sent, inputs, phased) == Rpc(cfg, s, call, sent, inputs, phased)
  {
    assert s.(response := v).(rpcId := s.rpcId + 1, awaiting := Some(s.rpcId + 1), response := NoValue,
        calls := s.calls + [call])
        == s.(rpcId := s.rpcId + 1, awaiting := Some(s.rpcId + 1), response := NoValue, calls := s.calls + [call]);
  }

  // ------------------------------------------------------- runs that get there

  function Reads(f: Frame): Input {
    Input(false, false, false, FrameIn(f))
  }

  function Response(id: nat, v: Value): Frame {
    Frame(Number(id), None, true, false, false, v)
  }

  function Plain(modes: Modes, model: ModelProbe): Value {
    Dict(Number(ACP_PROTOCOL_VERSION), true, modes, model, UndocumentedStop)
  }

  // A request whose response is the next frame read.
  lemma AnsweredAtOnce(cfg: Cfg, s: RunState, call: Call, inputs: seq<Input>, v: Value)
    requires inputs != [] && inputs[0] == Reads(Response(s.rpcId + 1, v)) && !v.NoValue?
    ensures Rpc(cfg, s, call, true, inputs, true) ==
      Flow(s.(rpcId := s.rpcId + 1, awaiting := None, response := v, calls := s.calls + [call],
              consumed := s.consumed + [Response(s.rpcId + 1, v)]), inputs[1..], None)
  {
    var asked := s.(rpcId := s.rpcId + 1, awaiting := Some(s.rpcId + 1), response := NoValue,
        calls := s.calls + [call]);
    var f := Response(s.rpcId + 1, v);
    assert Dispatch(cfg, asked, f) == Step(asked.(response := v, consumed := asked.consumed + [f]), None);
    var t := asked.(response := v, consumed := asked.consumed + [f]);
    assert Pump(cfg, t, inputs[1..], Answered, true) == Flow(t, inputs[1..], None);
    assert Pump(cfg, asked, inputs, Answered, true) == Flow(t, inputs[1..], None);
  }

  // An agent in another mode that acknowledges nothing, then sends an error of its own.
  const STRAY := Frame(Absent, None, false, true, true, NoValue)

  function StrayInputs(cfg: Cfg): seq<Input> {
    [Reads(Response(1, Plain(UnreadableModes, NotShown))),
     Reads(Response(2, Plain(Modes(None, {cfg.mode}), Shown(cfg.model)))),
     Reads(Response(3, Plain(UnreadableModes, NotShown))), Reads(STRAY)]
  }

  function StrayEnv(cfg: Cfg): Env {
    Env(None, true, true, true, true, true, StrayInputs(cfg), false, false, true)
  }

  lemma StrayOpensSession(cfg: Cfg) returns (s: RunState)
    requires cfg.mode == BYPASS_MODE ==> cfg.bypassAllowed
    ensures var env := StrayEnv(cfg);
      var g := DoInitialize(cfg, env, Emit(FRESH, Started));
      g.More? && g.rest == env.inputs[1..] && DoNewSession(cfg, env, g.state, g.rest) == More(s, env.inputs[2..])
    ensures s.rpcId == 2 && s.currentMode.None? && s.awaitingMode.None? && s.calls == [Initialize, NewSession]
  {
    var env := StrayEnv(cfg);
    var s0 := Emit(FRESH, Started);
    AnsweredAtOnce(cfg, s0, Initialize, env.inputs, Plain(UnreadableModes, NotShown));
    var g := DoInitialize(cfg, env, s0);
    assert env.inputs[1..][1..] == env.inputs[2..];
    AnsweredAtOnce(cfg, g.state, NewSession, env.inputs[1..], Plain(Modes(None, {cfg.mode}), Shown(cfg.model)));
    s := DoNewSession(cfg, env, g.state, g.rest).state;
  }

  lemma StrayStopsTheWait(cfg: Cfg, s: RunState)
    requires s.rpcId == 2 && s.currentMode.None? && s.awaitingMode.None?
    ensures var g := DoSetMode(cfg, StrayEnv(cfg), s, StrayInputs(cfg)[2..]);
      g.Raised? && g.exn == RpcError && g.state.calls == s.calls + [SetMode(cfg.mode)]
  {
    var inputs := StrayInputs(cfg)[2..];
    AnsweredAtOnce(cfg, s, SetMode(cfg.mode), inputs, Plain(UnreadableModes, NotShown));
    var f := Rpc(cfg, s, SetMode(cfg.mode), true, inputs, true);
    var waiting := f.state.(awaitingMode := Some(cfg.mode));
    assert f.rest[0] == Reads(STRAY);
    assert Dispatch(cfg, waiting, STRAY).raised == Some(RpcError);
  }

  /** So a run waiting for its mode ends as failed, unprompted, over a frame that
      answers none of its requests. */
  lemma StrayErrorFailsTheRun(cfg: Cfg)
    requires cfg.mode == BYPASS_MODE ==> cfg.bypassAllowed
    ensures var s := Execute(cfg, StrayEnv(cfg));
      LastIs(s, RunFailed("rpc_error")) && s.calls == [Initialize, NewSession, SetMode(cfg.mode)]
  {
    var s := StrayOpensSession(cfg);
    StrayStopsTheWait(cfg, s);
    var g := Session(cfg, StrayEnv(cfg), Emit(FRESH, Started));
    assert g.Raised? && g.exn == RpcError;
  }

  // The stages do not look at how the stop will go.
  lemma OpeningIgnoresTheStop(cfg: Cfg, env: Env, s: RunState, inputs: seq<Input>, stopped: bool)
    ensures DoInitialize(cfg, env.(stopped := stopped), s) == DoInitialize(cfg, env, s)
    ensures DoNewSession(cfg, env.(stopped := stopped), s, inputs) == DoNewSession(cfg, env, s, inputs)
  {
  }

  lemma PromptIgnoresTheStop(cfg: Cfg, env: Env, s: RunState, inputs: seq<Input>, stopped: bool)
    ensures DoSetMode(cfg, env.(stopped := stopped), s, inputs) == DoSetMode(cfg, env, s, inputs)
    ensures DoPrompt(cfg, env.(stopped := stopped), s, inputs) == DoPrompt(cfg, env, s, inputs)
  {
  }

  lemma SessionIgnoresTheStop(cfg: Cfg, env: Env, s: RunState, stopped: bool)
    ensures Session(cfg, env.(stopped := stopped), s) == Session(cfg, env, s)
  {
    OpeningIgnoresTheStop(cfg, env, s, [], stopped);
    match DoInitialize(cfg, env, s)
    case More(s1, r1) =>
      OpeningIgnoresTheStop(cfg, env, s1, r1, stopped);
      match DoNewSession(cfg, env, s1, r1) {
        case More(s2, r2) =>
          PromptIgnoresTheStop(cfg, env, s2, r2, stopped);
          match DoSetMode(cfg, env, s2, r2) {
            case More(s3, r3) => PromptIgnoresTheStop(cfg, env, s3, r3, stopped);
            case _ =>
          }
        case _ =>
      }
    case _ =>
  }

  // A confirmed stop and an unconfirmed one report the same, unless it was asked for.
  lemma ForcedStopDiffers(env: Env, s: RunState, x: Exn)
    ensures ForcedStop(env.(stopped := true), s, x) != ForcedStop(env.(stopped := false), s, x)
       <==> WasAskedToStop(env, x)
  {
    assert |Emit(s, RunCancelled).events| == |s.events| + 1;
  }

  /** What a run reports depends on the stop's success exactly when it was asked to
      stop. */
  lemma StopMattersIffAsked(cfg: Cfg, env: Env)
    requires env.rejected.None? && env.spawned
    ensures var g := Session(cfg, env, Emit(FRESH, Started));
      Execute(cfg, env.(stopped := true)) != Execute(cfg, env.(stopped := false))
      <==> g.Raised? && Handled(g.exn) && WasAskedToStop(env, g.exn)
  {
    var s := Emit(FRESH, Started);
    SessionIgnoresTheStop(cfg, env, s, true);
    SessionIgnoresTheStop(cfg, env, s, false);
    var g := Session(cfg, env, s);
    if g.Raised? { ForcedStopDiffers(env, g.state, g.exn); }
  }

  // An agent that closes its output at once.
  function ClosedEarly(stopped: bool): Env {
    Env(None, true, true, true, true, true, [Input(false, false, false, EndOfStream)], false, false, stopped)
  }

  /** So a failure of its own is reported as such whether or not the CLI was seen
      to stop: that terminal event says nothing about the process. */
  lemma FailureIgnoresTheStop(cfg: Cfg, stopped: bool)
    ensures LastIs(Execute(cfg, ClosedEarly(stopped)), RunFailed("missing_result"))
  {
    var g := DoInitialize(cfg, ClosedEarly(stopped), Emit(FRESH, Started));
    assert g.Raised? && g.exn == Eof;
  }
}
