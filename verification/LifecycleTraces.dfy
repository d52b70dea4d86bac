/** Runs of the lifecycle that reach what its theorems leave open. */
module LifecycleTraces {
  import opened Common
  import opened Lifecycle
  import opened LifecycleProofs

  ghost predicate Reachable(s: Sys) {
    exists states: seq<Sys>, acts: seq<Action> :: IsTrace(states, acts) && states[|acts|] == s
  }

  lemma InitialIsReachable()
    ensures Reachable(INITIAL)
  {
    assert IsTrace([INITIAL], []);
  }

  lemma ReachableStep(s: Sys, a: Action)
    requires Reachable(s) && Enabled(s, a)
    ensures Reachable(Apply(s, a))
  {
    var states: seq<Sys>, acts: seq<Action> :| IsTrace(states, acts) && states[|acts|] == s;
    var t := Apply(s, a);
    assert StepOk(s, a, t);
    forall i | 0 <= i < |acts + [a]| ensures StepOk((states + [t])[i], (acts + [a])[i], (states + [t])[i + 1]) {
      if i < |acts| { assert StepOk(states[i], acts[i], states[i + 1]); }
    }
    assert IsTrace(states + [t], acts + [a]) && (states + [t])[|acts + [a]|] == t;
  }

  // ------------------------------------- a result over an unconfirmed stop

  const FIRST := Key(0, 1)
  const SECOND := Key(0, 2)

  function FirstRun(status: Status, outcome: Option<Outcome>, phase: Phase, rpc: Rpc, events: bool, live: bool): Run {
    Run(FIRST, 7, 0, 0, status, outcome, true, phase, false, rpc, events, live, live)
  }

  function Alone(x: Run): Sys {
    Sys([x], map[FIRST := 7], map[], 0)
  }

  // The driver reports a failure though its process has not been seen to stop.
  function Concluded(): Sys {
    Alone(FirstRun(Failed, Some(ProviderError), NoTask, REPLY, true, true))
  }

  lemma FirstIsSent()
    ensures Reachable(Alone(FirstRun(Starting, None, Streaming(false), AtRunner(false), false, false)))
  {
    InitialIsReachable();
    ReachableStep(INITIAL, ASubmit(FIRST, 7, 0, 0, true, false));
    var s1 := Alone(NewRun(FIRST, 7, 0, 0));
    assert Apply(INITIAL, ASubmit(FIRST, 7, 0, 0, true, false)) == s1;
    ReachableStep(s1, AWake(0, Acquired));
    var s2 := Alone(FirstRun(Starting, None, Marked, Unsent, false, false));
    assert Apply(s1, AWake(0, Acquired)) == s2;
    ReachableStep(s2, ASend(0));
    var s3 := Alone(FirstRun(Starting, None, Streaming(false), InFlight, false, false));
    assert Apply(s2, ASend(0)) == s3;
    ReachableStep(s3, ARunner(0, Accept));
    assert Apply(s3, ARunner(0, Accept))
        == Alone(FirstRun(Starting, None, Streaming(false), AtRunner(false), false, false));
  }

  const REPLY := Replied(Answer(Failed, ProviderError))

  lemma FirstIsAnswered()
    ensures Reachable(Alone(FirstRun(Starting, None, Streaming(false), REPLY, true, true)))
  {
    FirstIsSent();
    var s4 := Alone(FirstRun(Starting, None, Streaming(false), AtRunner(false), false, false));
    ReachableStep(s4, ARunner(0, StartDriver));
    var s5 := Alone(FirstRun(Starting, None, Streaming(false), Driving, false, true));
    assert Apply(s4, ARunner(0, StartDriver)) == s5;
    ReachableStep(s5, ARunner(0, EmitEvent));
    var s6 := Alone(FirstRun(Starting, None, Streaming(false), Driving, true, true));
    assert Apply(s5, ARunner(0, EmitEvent)) == s6;
    ReachableStep(s6, ARunner(0, Conclude(Failed, ProviderError, false)));
    assert Apply(s6, ARunner(0, Conclude(Failed, ProviderError, false)))
        == Alone(FirstRun(Starting, None, Streaming(false), REPLY, true, true));
  }

  lemma FirstIsConcluded()
    ensures Reachable(Concluded())
  {
    FirstIsAnswered();
    var s7 := Alone(FirstRun(Starting, None, Streaming(false), REPLY, true, true));
    ReachableStep(s7, AFirstEvent(0));
    var s8 := Alone(FirstRun(Running, None, Streaming(true), REPLY, true, true));
    assert Apply(s7, AFirstEvent(0)) == s8;
    ReachableStep(s8, AReply(0));
    var s9 := Alone(FirstRun(Failed, Some(ProviderError), Closing, REPLY, true, true));
    assert Apply(s8, AReply(0)) == s9;
    ReachableStep(s9, AClose(0, false));
    assert Apply(s9, AClose(0, false)) == Concluded();
  }

  /** A run RPC can be sent to an instance whose earlier driver is still at work:
      its failure was reported over a stop that nobody confirmed, so the instance
      was never quarantined. */
  lemma SentOverALiveDriver() returns (s: Sys)
    ensures Reachable(s) && |s.runs| == 2 && CanSend(s, 1)
    ensures s.runs[0].inst == s.runs[1].inst && s.runs[0].status.Failed? && s.runs[0].driverLive
  {
    FirstIsConcluded();
    var s0 := Concluded();
    var submit := ASubmit(SECOND, 8, 0, 0, true, false);
    ReachableStep(s0, submit);
    assert Latest(s0.runs, SECOND).None?;
    var s1 := Sys(s0.runs + [NewRun(SECOND, 8, 0, 0)], s0.tasks[SECOND := 8], map[], 0);
    assert Apply(s0, submit) == s1;
    ReachableStep(s1, AWake(1, Acquired));
    s := Apply(s1, AWake(1, Acquired));
  }
}
