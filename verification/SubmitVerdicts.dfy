/**
 What a caller of submit is told, read off the attempt rows, the tasks and the
 quarantine rows alone.
 */
module SubmitVerdicts {
  import opened Common
  import opened Lifecycle

  /** The newest attempt of a task, if there is any. */
  ghost predicate IsNewest(s: Sys, key: Key, newest: Option<nat>) {
    match newest
    case Some(r) => r < |s.runs| && s.runs[r].key == key && forall i :: r < i < |s.runs| ==> s.runs[i].key != key
    case None => forall i :: 0 <= i < |s.runs| ==> s.runs[i].key != key
  }

  // The task is known with other content.
  predicate OtherContent(s: Sys, key: Key, hash: nat) {
    key in s.tasks && s.tasks[key] != hash
  }

  predicate Unfinished(x: Run) {
    x.status.Reserved? || x.status.Queued? || x.status.Starting? || x.status.Running? || x.status.Cancelling?
  }

  // It ended before anything reached a Runner.
  predicate Harmless(x: Run) {
    || (x.status.Failed? && (x.outcome == Some(Rejected) || x.outcome == Some(QueueTimeout)))
    || (x.status.Cancelled? && !x.started)
  }

  // Nothing in the newest attempt stands against another one.
  predicate Passes(s: Sys, key: Key, hash: nat, newest: Option<nat>)
    requires newest.Some? ==> newest.value < |s.runs|
  {
    newest.None? || (!OtherContent(s, key, hash) && Harmless(s.runs[newest.value]))
  }

  // Nor does the deployment.
  predicate Open(s: Sys, inst: nat, available: bool, full: bool) {
    available && inst !in s.quarantine && !full
  }

  // Some attempt of the task still locks it, or may have had effects.
  ghost predicate SomeLocks(s: Sys, key: Key) {
    exists i :: 0 <= i < |s.runs| && s.runs[i].key == key && (Unfinished(s.runs[i]) || s.runs[i].status.Unknown?)
  }

  ghost predicate SomeHarmful(s: Sys, key: Key) {
    exists i :: 0 <= i < |s.runs| && s.runs[i].key == key && !Harmless(s.runs[i])
  }

  /** Refusals and replays that the newest attempt alone decides. */
  predicate NewestDecides(s: Sys, key: Key, hash: nat, preset: nat, newest: Option<nat>, v: Verdict)
    requires newest.Some? ==> newest.value < |s.runs|
  {
    var same := newest.Some? && !OtherContent(s, key, hash);
    && (v.UnknownAttempt? <==> same && s.runs[newest.value].status.Unknown?)
    && (v.ModelConflict? <==>
          same && s.runs[newest.value].status.Completed? && s.runs[newest.value].preset != preset)
    && (v.Cached? <==> same && s.runs[newest.value].status.Completed? && s.runs[newest.value].preset == preset)
    && (v.Cached? ==> Some(v.run) == newest)
  }

  /** Refusals for a lack of room; a run is created only where none applies. */
  predicate GatesDecide(s: Sys, key: Key, hash: nat, inst: nat, available: bool, full: bool, newest: Option<nat>,
                        v: Verdict)
    requires newest.Some? ==> newest.value < |s.runs|
  {
    var passes := Passes(s, key, hash, newest);
    && (v.Unavailable? <==> passes && !available)
    && (v.RunnerQuarantined? <==> passes && available && inst in s.quarantine)
    && (v.QueueFull? <==> passes && available && inst !in s.quarantine && full)
  }

  // The request got past the newest attempt and the gates, with the same content.
  predicate Through(s: Sys, key: Key, hash: nat, inst: nat, available: bool, full: bool, newest: Option<nat>)
    requires newest.Some? ==> newest.value < |s.runs|
  {
    Passes(s, key, hash, newest) && Open(s, inst, available, full) && !OtherContent(s, key, hash)
  }

  /** Refusals for other content, and for an attempt that holds the task. */
  ghost predicate LocksDecide(s: Sys, key: Key, hash: nat, inst: nat, available: bool, full: bool, newest: Option<nat>,
                              v: Verdict)
    requires newest.Some? ==> newest.value < |s.runs|
  {
    && (v.ContentConflict? <==> OtherContent(s, key, hash) && (newest.Some? || Open(s, inst, available, full)))
    && (v.RunActive? <==>
          || (newest.Some? && !OtherContent(s, key, hash) && Unfinished(s.runs[newest.value]))
          || (Through(s, key, hash, inst, available, full, newest) && SomeLocks(s, key)))
  }

  /** Refusals for an attempt that may have had effects, and the fresh attempt. */
  ghost predicate HarmDecides(s: Sys, key: Key, hash: nat, inst: nat, available: bool, full: bool, newest: Option<nat>,
                              v: Verdict)
    requires newest.Some? ==> newest.value < |s.runs|
  {
    var through := Through(s, key, hash, inst, available, full, newest);
    && (v.NotRetryable? <==>
          || (newest.Some? && !OtherContent(s, key, hash) && Ended(s.runs[newest.value])
              && !Harmless(s.runs[newest.value]))
          || (through && !SomeLocks(s, key) && SomeHarmful(s, key)))
    && (v.Fresh? <==> through && !SomeLocks(s, key) && !SomeHarmful(s, key))
    && (v.Fresh? ==> v.run == |s.runs|)
    && !v.Admitted?
  }

  predicate Ended(x: Run) {
    x.status.Failed? || x.status.Cancelled?
  }

  ghost predicate Answers(s: Sys, key: Key, hash: nat, preset: nat, inst: nat, available: bool, full: bool,
                          newest: Option<nat>, v: Verdict) {
    && IsNewest(s, key, newest)
    && NewestDecides(s, key, hash, preset, newest, v)
    && GatesDecide(s, key, hash, inst, available, full, newest, v)
    && LocksDecide(s, key, hash, inst, available, full, newest, v)
    && HarmDecides(s, key, hash, inst, available, full, newest, v)
  }

  lemma LocksAgree(s: Sys, key: Key)
    ensures SomeLocked(s.runs, key) <==> SomeLocks(s, key)
  {
  }

  lemma HarmAgrees(s: Sys, key: Key)
    ensures SomeBlocker(s.runs, key) <==> SomeHarmful(s, key)
  {
    forall i | 0 <= i < |s.runs|
      ensures Blocker(s.runs[i].status, s.runs[i].started, SqlCoalescedOutcomeIn(s.runs[i].outcome)) == True
         <==> !Harmless(s.runs[i])
    {
      BlockerMirrorsPython(s.runs[i].status, s.runs[i].outcome, s.runs[i].started);
    }
  }

  lemma NewestDecidesSubmit(s: Sys, key: Key, hash: nat, preset: nat, inst: nat, available: bool, full: bool)
    ensures var v := Submit(s, key, hash, preset, inst, available, full).1;
      NewestDecides(s, key, hash, preset, Latest(s.runs, key), v)
  {
  }

  lemma GatesDecideSubmit(s: Sys, key: Key, hash: nat, preset: nat, inst: nat, available: bool, full: bool)
    ensures var v := Submit(s, key, hash, preset, inst, available, full).1;
      GatesDecide(s, key, hash, inst, available, full, Latest(s.runs, key), v)
  {
  }

  // What the reservation's own check comes to.
  lemma ReserveDecides(s: Sys, key: Key, hash: nat)
    ensures var v := ReserveCheck(s, key, hash);
      && (v.ContentConflict? <==> OtherContent(s, key, hash))
      && (v.RunActive? <==> !OtherContent(s, key, hash) && SomeLocks(s, key))
      && (v.NotRetryable? <==> !OtherContent(s, key, hash) && !SomeLocks(s, key) && SomeHarmful(s, key))
      && (v.Admitted? <==> !OtherContent(s, key, hash) && !SomeLocks(s, key) && !SomeHarmful(s, key))
  {
    LocksAgree(s, key);
    HarmAgrees(s, key);
  }

  lemma LocksDecideSubmit(s: Sys, key: Key, hash: nat, preset: nat, inst: nat, available: bool, full: bool)
    ensures var v := Submit(s, key, hash, preset, inst, available, full).1;
      LocksDecide(s, key, hash, inst, available, full, Latest(s.runs, key), v)
  {
    ReserveDecides(s, key, hash);
  }

  // Past the newest attempt and the gates, the reservation's check decides.
  lemma ThroughDecides(s: Sys, key: Key, hash: nat, preset: nat, inst: nat, available: bool, full: bool)
    requires Passes(s, key, hash, Latest(s.runs, key)) && Open(s, inst, available, full)
    ensures var v := Submit(s, key, hash, preset, inst, available, full).1;
      v == var c := ReserveCheck(s, key, hash); if c.Admitted? then Fresh(|s.runs|) else c
  {
  }

  lemma HarmDecidesSubmit(s: Sys, key: Key, hash: nat, preset: nat, inst: nat, available: bool, full: bool)
    ensures var v := Submit(s, key, hash, preset, inst, available, full).1;
      HarmDecides(s, key, hash, inst, available, full, Latest(s.runs, key), v)
  {
    ReserveDecides(s, key, hash);
    if Passes(s, key, hash, Latest(s.runs, key)) && Open(s, inst, available, full) {
      ThroughDecides(s, key, hash, preset, inst, available, full);
    }
  }

  // The one attempt that a fresh verdict adds.
  ghost predicate Adds(s: Sys, t: Sys, key: Key, hash: nat, preset: nat, inst: nat) {
    && t.runs == s.runs + [Run(key, hash, preset, inst, Queued, None, false, Waiting(false), false, Unsent,
                               false, false, false)]
    && t.tasks == s.tasks[key := hash] && t.quarantine == s.quarantine && t.epoch == s.epoch
  }

  lemma SubmitAdds(s: Sys, key: Key, hash: nat, preset: nat, inst: nat, available: bool, full: bool)
    ensures var (t, v) := Submit(s, key, hash, preset, inst, available, full);
      if v.Fresh? then Adds(s, t, key, hash, preset, inst) else t == s
  {
    if key in s.tasks && s.tasks[key] == hash { assert s.tasks[key := hash] == s.tasks; }
  }

  /** In every state, for every request, each verdict is given exactly when the rows
      call for it, and only a fresh attempt changes them. */
  lemma SubmitAnswers(s: Sys, key: Key, hash: nat, preset: nat, inst: nat, available: bool, full: bool)
    ensures var (t, v) := Submit(s, key, hash, preset, inst, available, full);
      && Answers(s, key, hash, preset, inst, available, full, Latest(s.runs, key), v)
      && (if v.Fresh? then Adds(s, t, key, hash, preset, inst) else t == s)
  {
    NewestDecidesSubmit(s, key, hash, preset, inst, available, full);
    GatesDecideSubmit(s, key, hash, preset, inst, available, full);
    LocksDecideSubmit(s, key, hash, preset, inst, available, full);
    HarmDecidesSubmit(s, key, hash, preset, inst, available, full);
    SubmitAdds(s, key, hash, preset, inst, available, full);
  }

  /** Where older attempts are harmless, the newest one decides alone. */
  lemma NewestIsEnough(s: Sys, key: Key, hash: nat, newest: Option<nat>)
    requires IsNewest(s, key, newest) && newest.Some? && Passes(s, key, hash, newest)
    requires forall i, j :: 0 <= i < j < |s.runs| && s.runs[i].key == s.runs[j].key ==> Harmless(s.runs[i])
    ensures !SomeLocks(s, key) && !SomeHarmful(s, key)
  {
    forall i | 0 <= i < |s.runs| && s.runs[i].key == key ensures Harmless(s.runs[i]) {
      if i != newest.value { assert i < newest.value; }
    }
  }
}
