/**
 What a Devin run comes to: what each frame adds, what a turn's stop reason ends in,
 and that a cooperating agent's turn completes with its text.
 */
module DevinOutcomes {
  import opened Common
  import opened Devin
  import opened DevinProofs

  // -------------------------------------------------------------------- frames

  // The kinds of the events added, in order.
  predicate Adds(s: RunState, t: RunState, ks: seq<Kind>) {
    && |t.events| == |s.events| + |ks| && t.events[..|s.events|] == s.events
    && forall i :: 0 <= i < |ks| ==> t.events[|s.events| + i] == Event(s.sequence + i + 1, ks[i])
  }

  // The non-empty paths, in order.
  predicate ArtifactsOf(paths: seq<string>, ks: seq<Kind>) {
    if paths == [] then ks == []
    else if paths[0] == "" then ArtifactsOf(paths[1..], ks)
    else ks != [] && ks[0] == Artifact(paths[0]) && ArtifactsOf(paths[1..], ks[1..])
  }

  lemma {:induction false} ArtifactsAre(paths: seq<string>)
    ensures ArtifactsOf(paths, Artifacts(paths))
  {
    if paths != [] {
      ArtifactsAre(paths[1..]);
      if paths[0] == "" {
        assert Artifacts(paths) == Artifacts(paths[1..]);
      } else {
        assert Artifacts(paths)[1..] == Artifacts(paths[1..]);
      }
    }
  }

  lemma {:induction false} EmitAllAdds(s: RunState, ks: seq<Kind>)
    ensures Adds(s, EmitAll(s, ks), ks)
    decreases |ks|
  {
    if ks != [] {
      EmitAllAdds(Emit(s, ks[0]), ks[1..]);
    }
  }

  /** What a session update of each kind adds. */
  lemma UpdateSays(cfg: Cfg, s: RunState, u: Update)
    ensures var d := HandleNotification(cfg, s, SessionUpdate(u));
      match u
      case Chunk(TextContent(text)) =>
        d.raised.None? && (if text == "" then d.state == s else Adds(s, d.state, [Delta(text)]))
      case Chunk(NotText) => d == Step(s, None)
      case Ignored => d == Step(s, None)
      case ToolCall(tool, over) =>
        d.raised.None?
        && Adds(s, d.state, if over then [ToolStarted(tool), ToolCompleted(tool)] else [ToolStarted(tool)])
      case ToolCallUpdate(tool, over, diffs, readable) =>
        && (d.raised.None? <==> readable)
        && exists ks :: ArtifactsOf(diffs, ks) && Adds(s, d.state, (if over then [ToolCompleted(tool)] else []) + ks)
      case ModeUpdate(mode) =>
        && (d.raised == Some(ModeAckFailed) <==>
              mode.Some? && s.awaitingMode.Some? && mode.value != s.awaitingMode.value)
        && (d.raised.None? ==> d.state == s.(currentMode := if mode.Some? then mode else s.currentMode))
      case ModelOption(value) =>
        d.state == s && (d.raised == Some(ProtocolError("model_changed")) <==> value != cfg.model)
        && (d.raised.None? <==> value == cfg.model)
      case ModeOption(value) => d == Step(s.(currentMode := Some(value)), None)
      case _ => d == Step(s, Some(Unhandled))
  {
    match u
    case ToolCall(tool, over) =>
      var ks := [ToolStarted(tool)] + if over then [ToolCompleted(tool)] else [];
      EmitAllAdds(s, ks);
      assert ks == if over then [ToolStarted(tool), ToolCompleted(tool)] else [ToolStarted(tool)];
    case ToolCallUpdate(tool, over, diffs, readable) =>
      ArtifactsAre(diffs);
      EmitAllAdds(s, (if over then [ToolCompleted(tool)] else []) + Artifacts(diffs));
    case _ =>
  }

  /** What a frame is taken as: a response to what is awaited, a request of the agent,
      a notification, a late response, or a breach of the protocol. */
  lemma FrameSays(cfg: Cfg, s: RunState, f: Frame)
    ensures var d, read := Dispatch(cfg, s, f), s.(consumed := s.consumed + [f]);
      var response := TakenAsResponse(s, f);
      && (response && f.hasError && f.errorIsDict ==> d == Step(read, Some(RpcError)))
      && (response && !(f.hasError && f.errorIsDict) ==>
            d == Step(read.(response := if f.hasResult then f.result else NoValue), None))
      && (!response && f.call.Some? && f.id.Absent? ==> d == HandleNotification(cfg, read, f.call.value))
      && (!response && f.call.Some? && !f.id.Absent? && !f.call.value.RequestPermission? ==> d == Step(read, None))
      && (!response && f.call.Some? && !f.id.Absent? && f.call.value.RequestPermission? && f.call.value.readable ==>
            && d.state.denied && Adds(s, d.state, [PermissionRequired])
            && (d.raised.None? <==> f.call.value.optionsReadable))
      && (!response && f.call.None? && !f.id.Absent? ==> d == Step(read, None))
      && (!response && f.call.None? && f.id.Absent? ==> d == Step(read, Some(ProtocolError("protocol_error"))))
  {
  }

  // ---------------------------------------------------------------- turn's end

  // What a run has emitted last.
  predicate Last(s: RunState, k: Kind) {
    s.events != [] && s.events[|s.events| - 1].kind == k
  }

  /** The answer to the prompt ends the turn: completed on end_turn, and as a success
      exactly when no permission was asked; partial on the documented other reasons,
      cancelled on cancelled, failed on an answer that is none of these. */
  lemma AnswerEndsTurn(cfg: Cfg, env: Env, s: RunState, inputs: seq<Input>)
    requires Rpc(cfg, s, Prompt(s.protocolOk, s.modelValue, s.currentMode), env.sentPrompt, inputs, false).raised.None?
    ensures var f := Rpc(cfg, s, Prompt(s.protocolOk, s.modelValue, s.currentMode), env.sentPrompt, inputs, false);
      var g, v := DoPrompt(cfg, env, s, inputs), f.state.response;
      && (g.Raised? <==> v.Dict? && v.stop.UnreadableStop?)
      && (g.Raised? ==> g.exn == Unhandled)
      && (g.Ended? <==> !g.Raised?)
      && (g.Ended? ==>
            && |g.state.events| == |f.state.events| + 1 && g.state.events[..|f.state.events|] == f.state.events
            && (Last(g.state, RunCompleted(true)) <==> v.Dict? && v.stop.EndTurn? && !f.state.denied)
            && (Last(g.state, RunCompleted(false)) <==>
                  v.Dict? && (v.stop.KnownPartial? || (v.stop.EndTurn? && f.state.denied)))
            && (Last(g.state, RunCancelled) <==> v.Dict? && v.stop.StopCancelled?)
            && (Last(g.state, RunFailed("protocol_error")) <==> !v.Dict? || v.stop.UndocumentedStop?))
  {
  }

  // ------------------------------------------------------ a cooperating agent

  function ChunkFrame(text: string): Frame {
    Frame(Absent, Some(SessionUpdate(Chunk(TextContent(text)))), false, false, false, NoValue)
  }

  function ChunkFrames(texts: seq<string>): seq<Input> {
    if texts == [] then [] else [Reads(ChunkFrame(texts[0]))] + ChunkFrames(texts[1..])
  }

  function TurnOver(): Value {
    Dict(Absent, false, UnreadableModes, NotShown, EndTurn)
  }

  /** An agent that answers at once: protocol 1, a session on the pinned model in the
      configured mode, then its text in any number of pieces, and the turn's end. */
  function Cooperating(cfg: Cfg, texts: seq<string>): Env {
    Env(None, true, true, true, true, true,
        [Reads(Response(1, Plain(UnreadableModes, NotShown))),
         Reads(Response(2, Plain(Modes(Some(cfg.mode), {cfg.mode}), Shown(cfg.model))))]
        + ChunkFrames(texts) + [Reads(Response(3, TurnOver()))], false, false, true)
  }

  function Deltas(texts: seq<string>): seq<Kind> {
    if texts == [] then [] else [Delta(texts[0])] + Deltas(texts[1..])
  }

  // While a request is awaited, a chunk is read on over.
  lemma ReadsChunk(cfg: Cfg, s: RunState, text: string, inputs: seq<Input>) returns (t: RunState)
    requires s.awaiting.Some? && s.response.NoValue? && text != ""
    requires inputs != [] && inputs[0] == Reads(ChunkFrame(text))
    ensures Pump(cfg, s, inputs, Answered, false) == Pump(cfg, t, inputs[1..], Answered, false)
    ensures t == Emit(s.(consumed := s.consumed + [ChunkFrame(text)]), Delta(text))
  {
    var f := ChunkFrame(text);
    t := Emit(s.(consumed := s.consumed + [f]), Delta(text));
    assert Dispatch(cfg, s, f) == Step(t, None);
  }

  // What reading the chunks leaves: their texts, and nothing else that matters.
  ghost predicate HasRead(s: RunState, t: RunState, texts: seq<string>) {
    && |Deltas(texts)| == |texts| && Adds(s, t, Deltas(texts)) && t.sequence == s.sequence + |texts|
    && t.awaiting == s.awaiting && t.response == s.response && t.denied == s.denied && t.calls == s.calls
    && t.rpcId == s.rpcId
  }

  lemma AddsMore(s: RunState, u: RunState, t: RunState, k: Kind, ks: seq<Kind>)
    requires u.events == s.events + [Event(s.sequence + 1, k)] && u.sequence == s.sequence + 1 && Adds(u, t, ks)
    ensures Adds(s, t, [k] + ks)
  {
    assert t.events[..|s.events|] == t.events[..|u.events|][..|s.events|];
    forall i | 0 <= i < |ks| + 1 ensures t.events[|s.events| + i] == Event(s.sequence + i + 1, ([k] + ks)[i]) {
      if i == 0 {
        assert t.events[|s.events|] == t.events[..|u.events|][|s.events|];
      } else {
        assert t.events[|u.events| + (i - 1)] == Event(u.sequence + (i - 1) + 1, ks[i - 1]);
      }
    }
  }

  lemma {:induction false} ReadsChunks(cfg: Cfg, s: RunState, texts: seq<string>, rest: seq<Input>)
    returns (t: RunState)
    requires s.awaiting.Some? && s.response.NoValue? && forall i :: 0 <= i < |texts| ==> texts[i] != ""
    ensures Pump(cfg, s, ChunkFrames(texts) + rest, Answered, false) == Pump(cfg, t, rest, Answered, false)
    ensures HasRead(s, t, texts)
    decreases |texts|
  {
    if texts == [] {
      t := s;
      assert ChunkFrames(texts) + rest == rest;
    } else {
      var inputs := ChunkFrames(texts) + rest;
      assert inputs[0] == Reads(ChunkFrame(texts[0])) && inputs[1..] == ChunkFrames(texts[1..]) + rest;
      var u := ReadsChunk(cfg, s, texts[0], inputs);
      t := ReadsChunks(cfg, u, texts[1..], rest);
      AddsMore(s, u, t, Delta(texts[0]), Deltas(texts[1..]));
    }
  }

  // The handshake of such an agent: two requests, two answers.
  lemma Opens(cfg: Cfg, texts: seq<string>) returns (s: RunState)
    requires cfg.mode == BYPASS_MODE ==> cfg.bypassAllowed
    ensures var env := Cooperating(cfg, texts);
      var g := DoInitialize(cfg, env, Emit(FRESH, Started));
      g.More? && g.rest == env.inputs[1..] && DoNewSession(cfg, env, g.state, g.rest) == More(s, env.inputs[2..])
    ensures s.rpcId == 2 && s.currentMode == Some(cfg.mode) && s.modelValue == Some(cfg.model) && s.protocolOk
    ensures s.calls == [Initialize, NewSession] && s.events == [Event(1, Started)] && s.sequence == 1 && !s.denied
  {
    var env := Cooperating(cfg, texts);
    var s0 := Emit(FRESH, Started);
    AnsweredAtOnce(cfg, s0, Initialize, env.inputs, Plain(UnreadableModes, NotShown));
    var g := DoInitialize(cfg, env, s0);
    assert env.inputs[1..][1..] == env.inputs[2..];
    AnsweredAtOnce(cfg, g.state, NewSession, env.inputs[1..],
                   Plain(Modes(Some(cfg.mode), {cfg.mode}), Shown(cfg.model)));
    s := DoNewSession(cfg, env, g.state, g.rest).state;
  }

  // The response that ends the wait for it.
  lemma ReadsAnswer(cfg: Cfg, s: RunState, n: nat, v: Value)
    requires s.awaiting == Some(n) && s.response.NoValue? && !v.NoValue?
    ensures Pump(cfg, s, [Reads(Response(n, v))], Answered, false)
         == Flow(s.(response := v, consumed := s.consumed + [Response(n, v)]), [], None)
  {
    var f := Response(n, v);
    var t := s.(response := v, consumed := s.consumed + [f]);
    assert Dispatch(cfg, s, f) == Step(t, None);
    assert [Reads(f)][1..] == [];
    assert Pump(cfg, t, [], Answered, false) == Flow(t, [], None);
  }

  // Its turn's text, then the response.
  lemma Answers(cfg: Cfg, texts: seq<string>, asked: RunState) returns (t: RunState)
    requires asked.awaiting == Some(3) && asked.response.NoValue? && forall i :: 0 <= i < |texts| ==> texts[i] != ""
    ensures Pump(cfg, asked, Cooperating(cfg, texts).inputs[2..], Answered, false) == Flow(t, [], None)
    ensures t.response == TurnOver() && t.calls == asked.calls && t.denied == asked.denied
    ensures |Deltas(texts)| == |texts| && Adds(asked, t, Deltas(texts)) && t.sequence == asked.sequence + |texts|
  {
    var rest := [Reads(Response(3, TurnOver()))];
    assert Cooperating(cfg, texts).inputs[2..] == ChunkFrames(texts) + rest;
    var u := ReadsChunks(cfg, asked, texts, rest);
    ReadsAnswer(cfg, u, 3, TurnOver());
    t := u.(response := TurnOver(), consumed := u.consumed + [Response(3, TurnOver())]);
  }

  // Its turn: the text, and the end.
  lemma Turns(cfg: Cfg, texts: seq<string>, s: RunState) returns (t: RunState)
    requires s.rpcId == 2 && !s.denied && forall i :: 0 <= i < |texts| ==> texts[i] != ""
    ensures var env := Cooperating(cfg, texts);
      DoPrompt(cfg, env, s, env.inputs[2..]) == Ended(Emit(t, RunCompleted(true)))
    ensures t.calls == s.calls + [Prompt(s.protocolOk, s.modelValue, s.currentMode)]
    ensures |Deltas(texts)| == |texts| && Adds(s, t, Deltas(texts)) && t.sequence == s.sequence + |texts|
  {
    var env := Cooperating(cfg, texts);
    var call := Prompt(s.protocolOk, s.modelValue, s.currentMode);
    var asked := s.(rpcId := 3, awaiting := Some(3), response := NoValue, calls := s.calls + [call]);
    var u := Answers(cfg, texts, asked);
    t := u.(awaiting := None);
    assert Rpc(cfg, s, call, true, env.inputs[2..], false) == Flow(t, [], None);
  }

  /** So for every configuration and every text in any pieces, the run completes as a
      success, with exactly that text, having made exactly the three requests. */
  lemma CooperatingRunSucceeds(cfg: Cfg, texts: seq<string>)
    requires cfg.mode == BYPASS_MODE ==> cfg.bypassAllowed
    requires forall i :: 0 <= i < |texts| ==> texts[i] != ""
    ensures var s := Execute(cfg, Cooperating(cfg, texts));
      && s.calls == [Initialize, NewSession, Prompt(true, Some(cfg.model), Some(cfg.mode))]
      && |s.events| == |texts| + 2 && s.events[0] == Event(1, Started)
      && (forall i :: 0 <= i < |texts| ==> s.events[i + 1] == Event(i + 2, Delta(texts[i])))
      && s.events[|texts| + 1] == Event(|texts| + 2, RunCompleted(true))
  {
    var s := Opens(cfg, texts);
    var t := Turns(cfg, texts, s);
    RunIsTurn(cfg, texts, s, t);
    forall i | 0 <= i < |texts| ensures t.events[i + 1] == Event(i + 2, Delta(texts[i])) {
      DeltaAt(texts, i);
      assert t.events[|s.events| + i] == Event(s.sequence + i + 1, Deltas(texts)[i]);
    }
    assert t.events[..1][0] == Event(1, Started);
  }

  lemma RunIsTurn(cfg: Cfg, texts: seq<string>, s: RunState, t: RunState)
    requires var env := Cooperating(cfg, texts);
      var g := DoInitialize(cfg, env, Emit(FRESH, Started));
      g.More? && DoNewSession(cfg, env, g.state, g.rest) == More(s, env.inputs[2..])
      && s.currentMode == Some(cfg.mode)
      && DoPrompt(cfg, env, s, env.inputs[2..]) == Ended(Emit(t, RunCompleted(true)))
    ensures Execute(cfg, Cooperating(cfg, texts)) == Emit(t, RunCompleted(true))
  {
    var env := Cooperating(cfg, texts);
    assert DoSetMode(cfg, env, s, env.inputs[2..]) == More(s, env.inputs[2..]);
  }

  lemma {:induction false} DeltaAt(texts: seq<string>, i: nat)
    requires i < |texts|
    ensures |Deltas(texts)| == |texts| && Deltas(texts)[i] == Delta(texts[i])
  {
    DeltasLength(texts);
    if i > 0 { DeltaAt(texts[1..], i - 1); }
  }

  lemma {:induction false} DeltasLength(texts: seq<string>)
    ensures |Deltas(texts)| == |texts|
  {
    if texts != [] { DeltasLength(texts[1..]); }
  }

  // --------------------------------------------------------------- the mode

  function ModeFrame(mode: string): Frame {
    Frame(Absent, Some(SessionUpdate(ModeUpdate(Some(mode)))), false, false, false, NoValue)
  }

  /** A session in another mode is switched: the request, its response, and the mode
      update that acknowledges it; only then does the run go on. */
  lemma ModeIsSwitched(cfg: Cfg, env: Env, s: RunState, v: Value, rest: seq<Input>)
    requires s.currentMode != Some(cfg.mode) && env.sentSetMode && !v.NoValue?
    ensures var g := DoSetMode(cfg, env, s, [Reads(Response(s.rpcId + 1, v)), Reads(ModeFrame(cfg.mode))] + rest);
      && g.More? && g.rest == rest && g.state.currentMode == Some(cfg.mode)
      && g.state.calls == s.calls + [SetMode(cfg.mode)] && g.state.events == s.events
  {
    var inputs := [Reads(Response(s.rpcId + 1, v)), Reads(ModeFrame(cfg.mode))] + rest;
    AnsweredAtOnce(cfg, s, SetMode(cfg.mode), inputs, v);
    var f := Rpc(cfg, s, SetMode(cfg.mode), true, inputs, true);
    var waiting := f.state.(awaitingMode := Some(cfg.mode));
    assert f.rest == inputs[1..] && f.rest[0] == Reads(ModeFrame(cfg.mode)) && f.rest[1..] == rest;
    var t := waiting.(currentMode := Some(cfg.mode), consumed := waiting.consumed + [ModeFrame(cfg.mode)]);
    assert Dispatch(cfg, waiting, ModeFrame(cfg.mode)) == Step(t, None);
    assert Pump(cfg, t, rest, ModeIs(cfg.mode), true) == Flow(t, rest, None);
  }

  /** How the wait for it can end otherwise. */
  lemma AckDecides(g: Flow)
    ensures var r := TakeAck(g);
      && (r.More? <==> g.raised.None?) && (r.More? ==> r.rest == g.rest)
      && (r.Ended? && Last(r.state, RunFailed("mode_ack_mismatch")) <==> g.raised == Some(ModeAckFailed))
      && (r.Ended? && Last(r.state, RunFailed("mode_ack_timeout")) <==> g.raised == Some(PhaseTimeout))
      && (r.Raised? ==> g.raised == Some(r.exn))
      && r.state.awaitingMode.None?
  {
  }

  // ------------------------------------------------------------------- refusals

  /** What session/new must show: a session id, the pinned model, the mode on offer,
      and for bypass a policy that allows it. */
  lemma SessionIsTakenIff(cfg: Cfg, s: RunState, rest: seq<Input>)
    ensures var g, v := TakeSession(cfg, s, rest), s.response;
      var shown := v.Dict? && v.hasSessionId && v.modes.Modes? && !v.model.UnreadableModel?;
      var pinned := shown && v.model == Shown(cfg.model);
      var offered := pinned && cfg.mode in v.modes.available;
      && (g.More? <==> offered && (cfg.mode == "bypass" ==> cfg.bypassAllowed))
      && (g.More? ==> g.rest == rest && g.state == s.(currentMode := v.modes.current, modelValue := Some(cfg.model)))
      && (g.Raised? <==> v.Dict? && v.hasSessionId && (v.modes.UnreadableModes? || v.model.UnreadableModel?))
      && (g.Ended? && Last(g.state, RunFailed("protocol_error")) <==> !v.Dict? || !v.hasSessionId)
      && (g.Ended? && Last(g.state, RunFailed("model_mismatch")) <==> shown && !pinned)
      && (g.Ended? && Last(g.state, RunFailed("unsupported_mode")) <==> pinned && !offered)
      && (g.Ended? && Last(g.state, RunFailed("mode_not_authorized")) <==>
            offered && cfg.mode == "bypass" && !cfg.bypassAllowed)
  {
  }

  /** What a wait meets, in the order the pump tests it. */
  lemma PumpMeets(cfg: Cfg, s: RunState, inputs: seq<Input>, u: Until, phased: bool)
    requires inputs != [] && !Done(s, u)
    ensures var i, f := inputs[0], Pump(cfg, s, inputs, u, phased);
      var free := !i.cancelled && !i.expired && !(phased && i.phaseOver);
      && (i.cancelled ==> f == Flow(s, inputs, Some(Cancelled)))
      && (!i.cancelled && i.expired ==> f == Flow(s, inputs, Some(DeadlineExceeded)))
      && (!i.cancelled && !i.expired && phased && i.phaseOver ==> f == Flow(s, inputs, Some(PhaseTimeout)))
      && (free && i.got.EndOfStream? ==> f == Flow(s, inputs[1..], Some(Eof)))
      && (free && i.got.InvalidFrame? ==> f == Flow(s, inputs[1..], Some(BadFrame)))
      && (free && i.got.ReadFails? ==> f == Flow(s, inputs[1..], Some(TransportError)))
      && (free && i.got.Nothing? ==> f == Pump(cfg, s, inputs[1..], u, phased))
      && (free && i.got.FrameIn? ==>
            var d := Dispatch(cfg, s, i.got.frame);
            f == if d.raised.Some? then Flow(d.state, inputs[1..], d.raised)
                 else Pump(cfg, d.state, inputs[1..], u, phased))
  {
  }

  /** The code a failure of the run's own is reported with. */
  lemma FailureSays(env: Env, s: RunState, x: Exn)
    requires !env.stopping && !env.expired && !x.Cancelled? && !x.DeadlineExceeded?
    ensures var t := ForcedStop(env, s, x);
      && (x.PhaseTimeout? ==> Last(t, RunFailed("handshake_timeout")))
      && (x.RpcError? ==> Last(t, RunFailed("rpc_error")))
      && (x.ProtocolError? ==> Last(t, RunFailed(x.code)))
      && (x.BadFrame? ==> Last(t, RunFailed("protocol_error")))
      && (x.Eof? ==> Last(t, RunFailed("missing_result")))
      && (x.TransportError? ==> Last(t, RunFailed("transport_error")))
  {
  }

  /** A run that is refused or whose CLI cannot be started says just that. */
  lemma NeverStarted(cfg: Cfg, env: Env)
    requires env.rejected.Some? || !env.spawned
    ensures var s := Execute(cfg, env);
      if env.rejected.Some? then |s.events| == 1 && Last(s, RunFailed(env.rejected.value))
      else |s.events| == 2 && s.events[0].kind == Started && Last(s, RunFailed("cli_not_startable"))
  {
  }

  /** The first answer must agree on protocol 1. */
  lemma ProtocolDecides(cfg: Cfg, env: Env, s: RunState)
    ensures var f, g := Rpc(cfg, s, Initialize, env.sentInitialize, env.inputs, true), DoInitialize(cfg, env, s);
      var agreed := f.raised.None? && f.state.response.Dict?
        && (f.state.response.protocolVersion == Number(1) || f.state.response.protocolVersion == Flag(true));
      && (g.Raised? <==> f.raised.Some?) && (g.Raised? ==> Some(g.exn) == f.raised)
      && (g.More? <==> agreed) && (g.More? ==> g.rest == f.rest)
      && (f.raised.None? && !agreed ==> g.Ended? && Last(g.state, RunFailed("protocol_error")))
  {
  }

  /** A request that cannot be written raises, and one that can waits for its own id. */
  lemma RequestIsMade(cfg: Cfg, s: RunState, call: Call, sent: bool, inputs: seq<Input>, phased: bool)
    ensures var f := Rpc(cfg, s, call, sent, inputs, phased);
      var asked := s.(rpcId := s.rpcId + 1, awaiting := Some(s.rpcId + 1), response := NoValue,
          calls := s.calls + [call]);
      && (!sent ==> f == Flow(asked, inputs, Some(TransportError)))
      && (sent ==>
            var g := Pump(cfg, asked, inputs, Answered, phased);
            f == if g.raised.Some? then g else g.(state := g.state.(awaiting := None)))
  {
  }
}
