/** The Antigravity driver's run as an object, updated frame by frame. */
module AntigravityDriver {
  import opened Common
  import opened Antigravity

  class Run {
    const cfg: Cfg
    var sequence: nat
    var events: seq<Event>
    var toolsSeen: set<ToolId>
    var sawDenial: bool
    ghost var consumed: seq<Frame>

    ghost function View(): RunState
      reads this
    {
      RunState(sequence, events, toolsSeen, sawDenial, consumed)
    }

    constructor (cfg: Cfg)
      ensures View() == FRESH && this.cfg == cfg
    {
      this.cfg := cfg;
      sequence, events, toolsSeen, sawDenial, consumed := 1, [], {}, false, [];
    }

    method Yield(k: Kind)
      modifies this`sequence, this`events
      ensures View() == Append(old(View()), [k])
    {
      assert EventsFrom(sequence, [k]) == [Event(sequence, k)];
      events := events + [Event(sequence, k)];
      sequence := sequence + 1;
    }

    // Map one step payload; the tools seen so far decide whether it starts one.
    method StepEvents(b: StepBody) returns (kinds: seq<Kind>, denied: bool)
      modifies this`toolsSeen
      ensures kinds == StepKinds(old(toolsSeen), sequence, b) && denied == Errs(b)
      ensures toolsSeen == StepSeen(old(toolsSeen), sequence, b)
    {
      kinds, denied := [], false;
      match b
      case AgentResponse(delta) =>
        if delta.Some? && delta.value != "" { kinds := [Delta(delta.value)]; }
      case OtherStep =>
      case ToolStep(index, state, errored) =>
        var id := IdOf(index, sequence);
        if state.Active? && id !in toolsSeen {
          toolsSeen := toolsSeen + {id};
          kinds := [ToolStarted(id)];
        } else if state.DoneState? {
          if id !in toolsSeen {
            toolsSeen := toolsSeen + {id};
            kinds := [ToolStarted(id)];
          }
          kinds := kinds + [ToolCompleted(id, errored)];
          denied := errored;
        }
    }

    method YieldAll(kinds: seq<Kind>)
      modifies this`sequence, this`events
      ensures View() == Append(old(View()), kinds)
    {
      for i := 0 to |kinds|
        invariant View() == Append(old(View()), kinds[..i])
      {
        ghost var from := old(sequence);
        assert EventsFrom(from, kinds[..i + 1]) == EventsFrom(from, kinds[..i]) + EventsFrom(from + i, [kinds[i]]);
        Yield(kinds[i]);
      }
      assert kinds[..|kinds|] == kinds;
    }

    // The first frame must be a verified init.
    method AwaitInit(inputs: seq<Input>) returns (rest: seq<Input>, halted: Option<Why>)
      ensures Handshake(cfg, inputs) == if halted.Some? then Halt(halted.value) else More(rest)
    {
      rest := inputs;
      while true
        invariant Handshake(cfg, rest) == Handshake(cfg, inputs)
        decreases |rest|
      {
        if rest == [] { return rest, Some(Stop("missing_init", true)); }
        var i := rest[0];
        if i.cancelled { return rest, Some(Stop("cancelled", true)); }
        if i.handshakeOver { return rest, Some(Stop("missing_init", i.expired)); }
        rest := rest[1..];
        match i.got
        case Nothing =>
        case InvalidFrame => return rest, Some(Stop("protocol_error", false));
        case EndOfStream => return rest, Some(Stop("missing_init", false));
        case ReadFails => return rest, Some(Escape);
        case FrameIn(f) => return rest, CheckInit(cfg, f);
      }
    }

    // The turn's frames, up to its result or whatever stops it.
    method StreamTurn(inputs: seq<Input>) returns (ended: Option<Why>)
      modifies this
      ensures Turn(View(), ended) == TakeTurn(old(View()), inputs)
    {
      var rest := inputs;
      while true
        invariant TakeTurn(View(), rest) == TakeTurn(old(View()), inputs)
        decreases |rest|
      {
        if rest == [] { return Some(Stop("deadline", true)); }
        var i := rest[0];
        if i.cancelled { return Some(Stop("cancelled", true)); }
        if i.expired { return Some(Stop("deadline", true)); }
        rest := rest[1..];
        match i.got
        case Nothing =>
        case InvalidFrame => return Some(Stop("protocol_error", false));
        case EndOfStream => return Some(Stop("missing_result", false));
        case ReadFails => return Some(Escape);
        case FrameIn(f) =>
          consumed := consumed + [f];
          match f {
            case UnknownFrame => return Some(Stop("unknown_event", false));
            case InitFrame(_) =>
            case StepFrame(None) => return Some(Stop("protocol_error", false));
            case StepFrame(Some(b)) => ConsumeStep(b);
            case ResultFrame(None) => return Some(Stop("protocol_error", false));
            case ResultFrame(Some(status)) =>
              if status != "SUCCESS" { return Some(Stop("cli_reported_error", false)); }
              Yield(RunCompleted(!sawDenial));
              return None;
          }
      }
    }

    method ConsumeStep(b: StepBody)
      modifies this
      ensures View() == TakeStep(old(View()), b)
    {
      var kinds, denied := StepEvents(b);
      sawDenial := sawDenial || denied;
      YieldAll(kinds);
    }

    method ForceStop(env: Env, why: Why)
      modifies this
      ensures View() == ForcedStop(env, old(View()), why)
    {
      if why.Escape? { return; }
      if why.asked || env.stopping || env.expired {
        if env.stopped { Yield(RunCancelled); }
      } else {
        Yield(RunFailed(why.code));
      }
    }

    /** A whole run. */
    method Execute(env: Env)
      requires View() == FRESH
      modifies this
      ensures View() == Antigravity.Execute(cfg, env)
    {
      if env.rejected.Some? { Yield(RunFailed(env.rejected.value)); return; }
      Yield(Started);
      if !env.spawned { Yield(RunFailed("cli_not_startable")); return; }
      var rest, ended := AwaitInit(env.inputs);
      if ended.None? {
        ended := AfterPrompt(env.prompt);
        if ended.None? { ended := StreamTurn(rest); }
      }
      if ended.Some? { ForceStop(env, ended.value); }
    }
  }
}
