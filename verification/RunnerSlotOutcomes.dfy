/** A run that the Runner admits can be executed, whatever state it was admitted in. */
module RunnerSlotOutcomes {
  import opened Common
  import opened RunnerSlot

  /** The state after a list of steps, if each is enabled when its turn comes. */
  function After(maxQueue: nat, s: State, steps: seq<Step>): Option<State> {
    if steps == [] then Some(s)
    else
      match After(maxQueue, s, steps[..|steps| - 1])
      case Some(t) =>
        if Enabled(t, steps[|steps| - 1]) then Some(Apply(maxQueue, t, steps[|steps| - 1])) else None
      case None => None
  }

  lemma OneMore(maxQueue: nat, s: State, steps: seq<Step>, t: State, step: Step)
    requires After(maxQueue, s, steps) == Some(t) && Enabled(t, step)
    ensures After(maxQueue, s, steps + [step]) == Some(Apply(maxQueue, t, step))
  {
    assert (steps + [step])[..|steps|] == steps;
  }

  function Serving(k: nat): seq<Step> {
    [Grant(k), Wake(k, true), Execute(k), Exit(k)]
  }

  // The record of run k, and the state, after n of these steps.
  function RunAt(r: ActiveRun, n: nat): ActiveRun {
    if n == 0 then r
    else if n == 1 then r.(phase := AtWait(true))
    else r.(acquired := true, queued := false, started := true, executed := n > 2,
            phase := if n == 4 then Gone else AtDrive)
  }

  function StateAt(s: State, k: nat, n: nat): State
    requires k < |s.runs| && s.free > 0
  {
    State(s.runs[k := RunAt(s.runs[k], n)], if n == 4 then s.active - {s.runs[k].id} else s.active,
          if n < 2 then s.waiting else s.waiting - 1, if n == 0 || n == 4 then s.free else s.free - 1)
  }

  // Waiting for the slot, and nobody has asked it to stop.
  predicate Waits(s: State, k: nat) {
    k < |s.runs| && s.runs[k].phase == AtWait(false) && !s.runs[k].cancelBeforeStart && !s.runs[k].executed
  }

  lemma IsServed(maxQueue: nat, s: State, k: nat, n: nat)
    requires Waits(s, k) && s.free > 0 && n < 4
    ensures var step := Serving(k)[n];
      Enabled(StateAt(s, k, n), step) && Apply(maxQueue, StateAt(s, k, n), step) == StateAt(s, k, n + 1)
  {
    assert s.runs[k := s.runs[k]] == s.runs;
  }

  lemma {:induction false} ServedUpTo(maxQueue: nat, s: State, k: nat, n: nat)
    requires Waits(s, k) && s.free > 0 && n <= 4
    ensures After(maxQueue, s, Serving(k)[..n]) == Some(StateAt(s, k, n))
  {
    if n == 0 {
      assert s.runs[k := s.runs[k]] == s.runs;
    } else {
      ServedUpTo(maxQueue, s, k, n - 1);
      IsServed(maxQueue, s, k, n - 1);
      OneMore(maxQueue, s, Serving(k)[..n - 1], StateAt(s, k, n - 1), Serving(k)[n - 1]);
      assert Serving(k)[..n] == Serving(k)[..n - 1] + [Serving(k)[n - 1]];
    }
  }

  /** In every reachable state with the slot free, any run that waits for it uncancelled
      can be granted it, executed and finished; it then gives the slot back, and no
      other run is touched. */
  lemma WaitingRunIsServed(maxQueue: nat, states: seq<State>, steps: seq<Step>, n: nat, k: nat)
    requires IsTrace(maxQueue, states, steps) && n < |states| && states[n].free > 0
    requires k < |states[n].runs| && states[n].runs[k].phase == AtWait(false) && !states[n].runs[k].cancelBeforeStart
    ensures var s := states[n];
      var r := s.runs[k].(phase := Gone, acquired := true, queued := false, started := true, executed := true);
      After(maxQueue, s, [Grant(k), Wake(k, true), Execute(k), Exit(k)])
        == Some(State(s.runs[k := r], s.active - {r.id}, s.waiting - 1, s.free))
  {
    Always(maxQueue, states, steps, n);
    assert RunOk(states[n].runs[k]);
    ServedUpTo(maxQueue, states[n], k, 4);
    assert Serving(k)[..4] == Serving(k);
  }

  /** Arrival: each verdict exactly when, over the request, the table and the queue. */
  lemma ArrivalDecides(maxQueue: nat, s: State, id: nat, binding: Binding, contended: bool)
    ensures var v := Admit(maxQueue, s, id, binding, contended);
      var known := binding.Unbound? || binding.Bound?;
      var crowded := (s.free == 0 || contended) && s.waiting >= maxQueue;
      && (v.InvalidParams? <==> binding.Malformed?)
      && (v.BindingDenied? <==> binding.Denied?)
      && (v.RunAlreadyActive? <==> known && id in s.active)
      && (v.QueueFull? <==> known && id !in s.active && crowded)
      && (v.Admitted? <==> known && id !in s.active && !crowded)
  {
  }
}
