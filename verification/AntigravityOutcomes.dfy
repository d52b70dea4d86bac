/**
 When an Antigravity run completes and what stops it, read off what the CLI sent
 and the flags of the schedule alone.
 */
module AntigravityOutcomes {
  import opened Common
  import opened Antigravity
  import opened AntigravityProofs

  // ---------------------------------------------------------------- handshake

  predicate Idle(i: Input) {
    !i.cancelled && !i.handshakeOver && i.got.Nothing?
  }

  /** The init frame the run was configured for. */
  predicate Expected(cfg: Cfg, i: Input) {
    && !i.cancelled && !i.handshakeOver && i.got.FrameIn? && i.got.frame.InitFrame?
    && i.got.frame.init.Some?
    && var b := i.got.frame.init.value;
       b.model == Some(cfg.model) && b.mode == Some(cfg.mode) && b.cwd == Some(cfg.workspace) && b.cwdReadable
  }

  // The first thing that happens in the handshake is at n.
  predicate HappensAt(inputs: seq<Input>, n: nat) {
    n <= |inputs| && (forall k :: 0 <= k < n ==> Idle(inputs[k])) && (n < |inputs| ==> !Idle(inputs[n]))
  }

  lemma {:induction false} SomethingHappens(inputs: seq<Input>) returns (n: nat)
    ensures HappensAt(inputs, n)
  {
    if inputs == [] || !Idle(inputs[0]) {
      n := 0;
    } else {
      n := SomethingHappens(inputs[1..]);
      n := n + 1;
    }
  }

  // Why a handshake does not go on, by what happened.
  predicate Refuses(cfg: Cfg, i: Input, why: Why) {
    var asked := i.cancelled || i.handshakeOver;
    var body := if i.got.FrameIn? && i.got.frame.InitFrame? then i.got.frame.init else None;
    && (why.Escape? <==> !asked && (i.got.ReadFails? || (body.Some? && ModelAndMode(cfg, body.value)
                                                         && body.value.cwd.Some? && !body.value.cwdReadable)))
    && (why == Stop("cancelled", true) <==> i.cancelled)
    && (why.Stop? && why.code == "missing_init" <==> !i.cancelled && (i.handshakeOver || i.got.EndOfStream?))
    && (why == Stop("missing_init", true) <==> !i.cancelled && i.handshakeOver && i.expired)
    && (why == Stop("protocol_error", false) <==> !asked && (i.got.InvalidFrame? || (i.got.FrameIn? && body.None?)))
    && (why == Stop("model_mismatch", false) <==> !asked && body.Some? && body.value.model != Some(cfg.model))
    && (why == Stop("permission_mode_mismatch", false) <==>
          !asked && body.Some? && body.value.model == Some(cfg.model) && body.value.mode != Some(cfg.mode))
  }

  predicate ModelAndMode(cfg: Cfg, b: InitBody) {
    b.model == Some(cfg.model) && b.mode == Some(cfg.mode)
  }

  /** The handshake goes on exactly past the expected init frame. */
  lemma {:induction false} HandshakeDecides(cfg: Cfg, inputs: seq<Input>, n: nat)
    requires HappensAt(inputs, n)
    ensures n == |inputs| ==> Handshake(cfg, inputs) == Halt(Stop("missing_init", true))
    ensures n < |inputs| && Expected(cfg, inputs[n]) ==> Handshake(cfg, inputs) == More(inputs[n + 1..])
    ensures n < |inputs| && !Expected(cfg, inputs[n]) ==>
      Handshake(cfg, inputs).Halt? && Refuses(cfg, inputs[n], Handshake(cfg, inputs).why)
  {
    if n > 0 {
      HandshakeDecides(cfg, inputs[1..], n - 1);
    }
  }

  // --------------------------------------------------------------------- turn

  /** What a turn reads on over. */
  predicate Passes(i: Input) {
    && !i.cancelled && !i.expired
    && (i.got.Nothing?
        || (i.got.FrameIn? && (i.got.frame.InitFrame? || (i.got.frame.StepFrame? && i.got.frame.step.Some?))))
  }

  predicate Succeeds(i: Input) {
    !i.cancelled && !i.expired && i.got == FrameIn(ResultFrame(Some("SUCCESS")))
  }

  // The first input the turn does not read on over is at n.
  predicate EndsAt(inputs: seq<Input>, n: nat) {
    n <= |inputs| && (forall k :: 0 <= k < n ==> Passes(inputs[k])) && (n < |inputs| ==> !Passes(inputs[n]))
  }

  lemma {:induction false} SomewhereEnds(inputs: seq<Input>) returns (n: nat)
    ensures EndsAt(inputs, n)
  {
    if inputs == [] || !Passes(inputs[0]) {
      n := 0;
    } else {
      n := SomewhereEnds(inputs[1..]);
      n := n + 1;
    }
  }

  // The frames among some inputs, in order.
  function Frames(inputs: seq<Input>): seq<Frame> {
    if inputs == [] then []
    else (if inputs[0].got.FrameIn? then [inputs[0].got.frame] else []) + Frames(inputs[1..])
  }

  // Why a turn stops, by what it met.
  predicate Stops(i: Input, why: Why) {
    var asked := i.cancelled || i.expired;
    && (why.Escape? <==> !asked && i.got.ReadFails?)
    && (why == Stop("cancelled", true) <==> i.cancelled)
    && (why == Stop("deadline", true) <==> !i.cancelled && i.expired)
    && (why == Stop("missing_result", false) <==> !asked && i.got.EndOfStream?)
    && (why == Stop("unknown_event", false) <==> !asked && i.got == FrameIn(UnknownFrame))
    && (why == Stop("protocol_error", false) <==>
          !asked && (i.got.InvalidFrame? || i.got == FrameIn(StepFrame(None)) || i.got == FrameIn(ResultFrame(None))))
    && (why == Stop("cli_reported_error", false) <==>
          !asked && i.got.FrameIn? && i.got.frame.ResultFrame? && i.got.frame.status.Some?
          && i.got.frame.status.value != "SUCCESS")
  }

  // What a turn of which n inputs are read on over comes to.
  ghost predicate TurnIs(s: RunState, inputs: seq<Input>, n: nat, t: Turn)
    requires n <= |inputs|
  {
    && (n == |inputs| ==> t.ended == Some(Stop("deadline", true)))
    && (n < |inputs| && Succeeds(inputs[n]) ==>
          t.ended.None? && t.state.consumed == s.consumed + Frames(inputs[..n + 1]))
    && (n < |inputs| && !Succeeds(inputs[n]) ==> t.ended.Some? && Stops(inputs[n], t.ended.value))
  }

  lemma TurnEnds(s: RunState, inputs: seq<Input>)
    requires EndsAt(inputs, 0)
    ensures TurnIs(s, inputs, 0, TakeTurn(s, inputs))
  {
    if inputs != [] {
      assert inputs[..1][0] == inputs[0] && inputs[..1][1..] == [];
      assert Frames(inputs[..1]) == (if inputs[0].got.FrameIn? then [inputs[0].got.frame] else []) + Frames([]);
    }
  }

  // Where a turn reads on over its first input, the rest decides.
  lemma TurnGoesOn(s: RunState, inputs: seq<Input>) returns (t: RunState)
    requires inputs != [] && Passes(inputs[0])
    ensures TakeTurn(s, inputs) == TakeTurn(t, inputs[1..])
    ensures t.consumed == s.consumed + if inputs[0].got.FrameIn? then [inputs[0].got.frame] else []
  {
    t := s;
    if inputs[0].got.FrameIn? {
      var f := inputs[0].got.frame;
      t := s.(consumed := s.consumed + [f]);
      if f.StepFrame? { t := TakeStep(t, f.step.value); }
    }
  }

  /** The turn completes exactly at a SUCCESS result that nothing before it stops. */
  lemma {:induction false} TurnDecides(s: RunState, inputs: seq<Input>, n: nat)
    requires EndsAt(inputs, n)
    ensures TurnIs(s, inputs, n, TakeTurn(s, inputs))
    decreases n
  {
    if n == 0 {
      TurnEnds(s, inputs);
    } else {
      var t := TurnGoesOn(s, inputs);
      TurnDecides(t, inputs[1..], n - 1);
      if n < |inputs| {
        assert inputs[..n + 1][0] == inputs[0] && inputs[..n + 1][1..] == inputs[1..][..n];
      }
    }
  }

  // The kinds of the events a step frame has added, in order.
  predicate Adds(s: RunState, t: RunState, ks: seq<Kind>) {
    && |t.events| == |s.events| + |ks| && t.events[..|s.events|] == s.events
    && forall i :: 0 <= i < |ks| ==> t.events[|s.events| + i] == Event(s.sequence + i, ks[i])
  }

  /** What one step frame adds: the answer text it carries, or the start of a tool not
      yet seen and, once it is done, its completion. */
  lemma StepSays(s: RunState, b: StepBody)
    ensures |s.events| <= |TakeStep(s, b).events|
    ensures var t := TakeStep(s, b);
      && (b.AgentResponse? && b.delta.Some? && b.delta.value != "" ==> Adds(s, t, [Delta(b.delta.value)]))
      && (!b.ToolStep? && !(b.AgentResponse? && b.delta.Some? && b.delta.value != "") ==> t.events == s.events)
    ensures b.ToolStep? ==>
      var t := TakeStep(s, b);
      var id := match b.index case IntIndex(n) => Numbered(n) case BoolIndex(x) => Named(x)
                case NoIndex => Numbered(s.sequence);
      && (b.state.OtherState? ==> t.events == s.events && t.toolsSeen == s.toolsSeen)
      && (b.state.Active? && id !in s.toolsSeen ==> Adds(s, t, [ToolStarted(id)]))
      && (b.state.Active? && id in s.toolsSeen ==> t.events == s.events)
      && (b.state.DoneState? && id !in s.toolsSeen ==>
            Adds(s, t, [ToolStarted(id), ToolCompleted(id, b.errored)]))
      && (b.state.DoneState? && id in s.toolsSeen ==> Adds(s, t, [ToolCompleted(id, b.errored)]))
  {
    assert s.events + [] == s.events;
  }

  // ---------------------------------------------------------------------- run

  /** The schedule of a run that completes: idle up to the expected init frame at i,
      the prompt sent, and a turn that reads on up to a SUCCESS result at j. */
  predicate CompletesAt(cfg: Cfg, env: Env, i: nat, j: nat) {
    && env.rejected.None? && env.spawned && env.prompt.Sent?
    && i < j < |env.inputs|
    && (forall k :: 0 <= k < i ==> Idle(env.inputs[k])) && Expected(cfg, env.inputs[i])
    && (forall k :: i < k < j ==> Passes(env.inputs[k])) && Succeeds(env.inputs[j])
  }

  predicate Completes(s: RunState) {
    exists i :: 0 <= i < |s.events| && s.events[i].kind.RunCompleted?
  }

  lemma ClosedIsComplete(s: RunState, open: RunState, k: Kind)
    requires ClosedBy(s, open, k)
    ensures Completes(s) <==> k.RunCompleted?
  {
    assert s.events[|open.events|].kind == k;
    assert forall i :: 0 <= i < |open.events| ==> s.events[i] == open.events[i];
  }

  lemma StopIsNotComplete(env: Env, s: RunState, why: Why)
    requires Open(s)
    ensures !Completes(ForcedStop(env, s, why))
  {
    var t := ForcedStop(env, s, why);
    if t == s {
      assert NoTerminalYet(s);
    } else {
      var k := t.events[|s.events|].kind;
      assert ClosedBy(t, s, k);
      ClosedIsComplete(t, s, k);
    }
  }

  lemma SessionIsOk(cfg: Cfg, env: Env)
    ensures TurnOk(Session(cfg, env, Append(FRESH, [Started])))
  {
    FreshIsOpen();
    match Handshake(cfg, env.inputs)
    case Halt(_) =>
    case More(rest) => TurnKeeps(Append(FRESH, [Started]), rest);
  }

  // A session that ended by itself has emitted its completion; a stopped one none.
  lemma StoppedIsNotComplete(cfg: Cfg, env: Env)
    requires env.rejected.None? && env.spawned
    ensures Completes(Execute(cfg, env)) <==> Session(cfg, env, Append(FRESH, [Started])).ended.None?
  {
    SessionIsOk(cfg, env);
    var t := Session(cfg, env, Append(FRESH, [Started]));
    if t.ended.None? {
      var open: RunState :| ClosedBy(t.state, open, RunCompleted(!open.sawDenial));
      ClosedIsComplete(t.state, open, RunCompleted(!open.sawDenial));
    } else {
      StopIsNotComplete(env, t.state, t.ended.value);
    }
  }

  lemma FirstIsUnique(inputs: seq<Input>, m: nat, n: nat)
    ensures HappensAt(inputs, m) && HappensAt(inputs, n) ==> m == n
  {
  }

  lemma EndIsUnique(inputs: seq<Input>, m: nat, n: nat)
    ensures EndsAt(inputs, m) && EndsAt(inputs, n) ==> m == n
  {
  }

  // The two points of a completing schedule are the ones where something happens.
  lemma CompletesWhere(cfg: Cfg, env: Env, i: nat, j: nat)
    requires CompletesAt(cfg, env, i, j)
    ensures HappensAt(env.inputs, i) && EndsAt(env.inputs[i + 1..], j - i - 1)
  {
  }

  /** A run completes if and only if its schedule is of that form; it has then read
      the frames of its turn, and so, by the results above, its answer, its tools and
      its success are those frames'. */
  lemma CompletesIff(cfg: Cfg, env: Env)
    ensures Completes(Execute(cfg, env)) <==> exists i: nat, j: nat :: CompletesAt(cfg, env, i, j)
  {
    if env.rejected.None? && env.spawned {
      StoppedIsNotComplete(cfg, env);
      var i := SomethingHappens(env.inputs);
      HandshakeDecides(cfg, env.inputs, i);
      if i < |env.inputs| && Expected(cfg, env.inputs[i]) && env.prompt.Sent? {
        CompletesIffTurnDoes(cfg, env, i);
      } else {
        NeverCompletes(cfg, env, i);
      }
    }
  }

  lemma NeverCompletes(cfg: Cfg, env: Env, n: nat)
    requires HappensAt(env.inputs, n)
    requires n == |env.inputs| || !Expected(cfg, env.inputs[n]) || !env.prompt.Sent?
    ensures forall i: nat, j: nat :: !CompletesAt(cfg, env, i, j)
  {
    forall i: nat, j: nat ensures !CompletesAt(cfg, env, i, j) {
      if CompletesAt(cfg, env, i, j) {
        CompletesExpected(cfg, env, n, i, j);
        assert false;
      }
    }
  }

  lemma CompletesExpected(cfg: Cfg, env: Env, n: nat, i: nat, j: nat)
    requires HappensAt(env.inputs, n) && CompletesAt(cfg, env, i, j)
    ensures n < |env.inputs| && Expected(cfg, env.inputs[n])
  {
    CompletesWhere(cfg, env, i, j);
    FirstIsUnique(env.inputs, n, i);
  }

  lemma CompletesIffTurnDoes(cfg: Cfg, env: Env, i: nat)
    requires env.rejected.None? && env.spawned && env.prompt.Sent?
    requires HappensAt(env.inputs, i) && i < |env.inputs| && Expected(cfg, env.inputs[i])
    ensures Session(cfg, env, Append(FRESH, [Started])).ended.None?
       <==> exists i: nat, j: nat :: CompletesAt(cfg, env, i, j)
  {
    HandshakeDecides(cfg, env.inputs, i);
    var rest := env.inputs[i + 1..];
    var n := SomewhereEnds(rest);
    TurnDecides(Append(FRESH, [Started]), rest, n);
    if n < |rest| && Succeeds(rest[n]) {
      assert forall k :: i < k < i + 1 + n ==> env.inputs[k] == rest[k - i - 1];
      assert CompletesAt(cfg, env, i, i + 1 + n);
    } else {
      forall a: nat, b: nat ensures !CompletesAt(cfg, env, a, b) {
        if CompletesAt(cfg, env, a, b) {
          CompletesThere(cfg, env, i, n, a, b);
          assert false;
        }
      }
    }
  }

  lemma CompletesThere(cfg: Cfg, env: Env, i: nat, n: nat, a: nat, b: nat)
    requires HappensAt(env.inputs, i) && i < |env.inputs| && EndsAt(env.inputs[i + 1..], n)
    requires CompletesAt(cfg, env, a, b)
    ensures n < |env.inputs| - i - 1 && Succeeds(env.inputs[i + 1..][n])
  {
    CompletesWhere(cfg, env, a, b);
    FirstIsUnique(env.inputs, i, a);
    EndIsUnique(env.inputs[i + 1..], n, b - i - 1);
  }

  /** What a completed run shows: the frames between its init and its result, in
      order, and success exactly if none of them is an errored tool step. */
  lemma CompletedRunShows(cfg: Cfg, env: Env, i: nat, j: nat)
    requires CompletesAt(cfg, env, i, j)
    ensures var s := Execute(cfg, env);
      && s.consumed == Frames(env.inputs[i + 1..j + 1])
      && s.events != [] && s.events[|s.events| - 1].kind.RunCompleted?
      && (s.events[|s.events| - 1].kind.succeeded <==>
            forall f :: f in Frames(env.inputs[i + 1..j + 1]) ==> !ToolErrored(f))
  {
    var s, rest, n := Append(FRESH, [Started]), env.inputs[i + 1..], j - i - 1;
    assert HappensAt(env.inputs, i);
    HandshakeDecides(cfg, env.inputs, i);
    assert EndsAt(rest, n) && Succeeds(rest[n]);
    TurnDecides(s, rest, n);
    assert rest[..n + 1] == env.inputs[i + 1..j + 1];
    assert Execute(cfg, env) == TakeTurn(s, rest).state;
    TurnIsClosed(s, rest);
    SucceededIffNoToolErrored(cfg, env);
  }

  lemma TurnIsClosed(s: RunState, inputs: seq<Input>)
    requires s == Append(FRESH, [Started]) && TakeTurn(s, inputs).ended.None?
    ensures var t := TakeTurn(s, inputs).state; t.events != [] && t.events[|t.events| - 1].kind.RunCompleted?
  {
    FreshIsOpen();
    TurnKeeps(s, inputs);
  }

  // ------------------------------------------------------------ runs cut short

  // What a run has emitted last.
  predicate Last(s: RunState, k: Kind) {
    s.events != [] && s.events[|s.events| - 1].kind == k
  }

  /** A run that is refused or whose CLI cannot be started says just that. */
  lemma NeverStarted(cfg: Cfg, env: Env)
    requires env.rejected.Some? || !env.spawned
    ensures var s := Execute(cfg, env);
      if env.rejected.Some? then |s.events| == 1 && Last(s, RunFailed(env.rejected.value))
      else |s.events| == 2 && s.events[0].kind == Started && Last(s, RunFailed("cli_not_startable"))
  {
  }

  /** A prompt that cannot be written ends the run before its turn. */
  lemma PromptDecides(cfg: Cfg, env: Env, s: RunState)
    requires Handshake(cfg, env.inputs).More?
    ensures var t := Session(cfg, env, s);
      && (env.prompt.Sent? ==> t == TakeTurn(s, Handshake(cfg, env.inputs).rest))
      && (!env.prompt.Sent? ==> t.state == s && t.ended.Some?)
      && (env.prompt.SendTimeout? ==> t.ended == Some(Stop("send_timeout", true)))
      && (env.prompt.BrokenPipe? ==> t.ended == Some(Stop("cli_broken_pipe", false)))
      && (env.prompt.SendFails? ==> t.ended == Some(Escape))
  {
  }

  /** What a stopped run reports: a stop that was asked for is confirmed or silent, any
      other is a failure with its code, and an escaped exception says nothing. */
  lemma StopSays(env: Env, s: RunState, why: Why)
    ensures var t := ForcedStop(env, s, why);
      var asked := why.Stop? && (why.asked || env.stopping || env.expired);
      && (t == s <==> why.Escape? || (asked && !env.stopped))
      && (asked && env.stopped ==> t == Append(s, [RunCancelled]))
      && (why.Stop? && !asked ==> t == Append(s, [RunFailed(why.code)]))
  {
    assert |Append(s, [RunCancelled]).events| == |s.events| + 1;
    assert why.Stop? ==> |Append(s, [RunFailed(why.code)]).events| == |s.events| + 1;
  }
}
