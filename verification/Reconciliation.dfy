// Resumable reconciliation: an ordered plan of hooks, one durable marker per hook, and
// a run that may be cut off at any commit. The advisory lock makes runs of a plan
// follow one another, so the state between runs is the markers alone.
module Reconciliation {
  import opened Common

  datatype Marker =
    | Started(attempt: nat)
    | Completed(attempt: nat, digest: Digest)
    | Failed(attempt: nat, error: string)

  type Markers = seq<Option<Marker>>

  function Attempt(m: Option<Marker>): nat { if m.None? then 0 else m.value.attempt }
  predicate IsComplete(m: Option<Marker>) { m.Some? && m.value.Completed? }
  predicate IsStarted(m: Option<Marker>) { m.Some? && m.value.Started? }

  predicate SafeIdentity(s: string) {
    1 <= |s| <= 128 && AlphaNum(s[0]) && forall c <- s :: AlphaNum(c) || c in "._-"
  }

  datatype HookReport = HookReport(hook: nat, attempt: nat, alreadyComplete: bool, digest: Digest)

  // How a marker statement and its commit end: durably; with an error before the
  // commit; or with an error at the commit, or the death of the process, where the
  // change may or may not have become durable.
  datatype Commit = Durable | StatementFails | CommitFails(applied: bool) | Dies(applied: bool)

  // The change becomes durable, reported or not; and the session outlives the call.
  predicate Lands(c: Commit) { c.Durable? || (c.CommitFails? && c.applied) || (c.Dies? && c.applied) }
  predicate SessionLives(c: Commit) { c.Durable? || c.StatementFails? }

  datatype Body = Succeeds(digest: Digest) | Raises(error: string) | Interrupted | BodyDies

  // Everything the surroundings decide during one run, hook by hook.
  datatype World = World(readable: nat -> bool, start: nat -> Commit, body: nat -> Body, complete: nat -> Commit,
                         fail: nat -> Commit, verifies: nat -> bool, unlocks: bool)

  datatype Outcome = Report(hooks: seq<HookReport>) | ReadFailed | StartFailed | HookFailed | FailureNotPersisted
                   | RunInterrupted | LockNotReleased | Died

  // ---- what the markers of a plan look like between runs ----

  // Completed hooks form a prefix of the plan: a hook has a marker only when every
  // hook before it is complete.
  predicate PrefixShape(markers: Markers) {
    forall j, k :: 0 <= j < k < |markers| && markers[k].Some? ==> IsComplete(markers[j])
  }

  // The attempt of a marker counts the committed starts of its hook, and the body ran
  // no more often than that.
  predicate Tallied(markers: Markers, starts: seq<nat>, bodies: seq<nat>) {
    && |markers| == |starts| == |bodies|
    && forall k :: 0 <= k < |markers| ==> starts[k] == Attempt(markers[k]) && bodies[k] <= starts[k]
  }

  predicate Legal(markers: Markers, starts: seq<nat>, bodies: seq<nat>) {
    PrefixShape(markers) && Tallied(markers, starts, bodies)
  }

  // What survives of one state in a later one: a completed marker is never changed and
  // its body never runs again, and attempts never go back.
  predicate Preserves(before: Markers, ran: seq<nat>, after: Markers, ran': seq<nat>) {
    && |before| == |after| == |ran| == |ran'|
    && forall k :: 0 <= k < |before| ==>
         && (IsComplete(before[k]) ==> after[k] == before[k] && ran'[k] == ran[k])
         && Attempt(before[k]) <= Attempt(after[k]) && ran[k] <= ran'[k]
         && (before[k].Some? ==> after[k].Some?)
  }

  // What a run that reports did with one hook: nothing if it was complete; otherwise one
  // more start and one more execution of its body, whose result is the marker's.
  predicate Ran(world: World, hook: nat, before: Option<Marker>, ran: nat, after: Option<Marker>, ran': nat) {
    if IsComplete(before) then after == before && ran' == ran
    else world.body(hook).Succeeds? && ran' == ran + 1
         && after == Some(Completed(Attempt(before) + 1, world.body(hook).digest))
  }

  predicate AllRan(world: World, n: nat, before: Markers, ran: seq<nat>, after: Markers, ran': seq<nat>)
    requires n <= |before| == |after| == |ran| == |ran'|
  {
    forall k :: 0 <= k < n ==> Ran(world, k, before[k], ran[k], after[k], ran'[k])
  }

  // The report of one hook: it is complete, with this attempt and result.
  predicate Reports(report: HookReport, hook: nat, before: Option<Marker>, after: Option<Marker>) {
    IsComplete(after) && report == HookReport(hook, after.value.attempt, IsComplete(before), after.value.digest)
  }

  predicate AllComplete(markers: Markers) { forall k :: 0 <= k < |markers| ==> IsComplete(markers[k]) }

  // The first `n` hooks are complete and reported as they are.
  predicate AllReported(reports: seq<HookReport>, n: nat, before: Markers, after: Markers)
    requires n <= |after| == |before|
  {
    |reports| == n && forall k :: 0 <= k < n ==> Reports(reports[k], k, before[k], after[k])
  }

  ghost predicate Calm(world: World) {
    && (forall i :: world.readable(i) && world.verifies(i) && world.start(i).Durable? && world.complete(i).Durable?)
    && (forall i :: world.body(i).Succeeds? && IsSha256(world.body(i).digest))
    && world.unlocks
  }

  // ---- how one hook ends ----

  // The completion of a body that succeeded was asked for; a result that is no digest fails
  // before that.
  predicate AsksCompletion(body: Body) { body.Succeeds? && IsSha256(body.digest) }

  // The hook completes: its body succeeds and its completion is durable.
  predicate Completes(world: World, hook: nat) {
    AsksCompletion(world.body(hook)) && world.complete(hook).Durable?
  }

  // The process dies in the body or at its completion.
  predicate DiesInBody(world: World, hook: nat) {
    world.body(hook).BodyDies? || (AsksCompletion(world.body(hook)) && world.complete(hook).Dies?)
  }

  // The error the hook fails with: its own, or that of the completion.
  function ErrorOf(body: Body): string {
    match body
    case Raises(error) => error
    case Interrupted => "Interrupted"
    case _ => "ReconciliationError"
  }

  // The failure is made durable: the session was not lost with the completion, and the
  // failed marker is committed.
  predicate FailureDurable(world: World, hook: nat) {
    && (AsksCompletion(world.body(hook)) ==> SessionLives(world.complete(hook)))
    && SafeIdentity(ErrorOf(world.body(hook))) && world.fail(hook).Durable?
  }

  // What a started hook that did not complete answers, and its marker: failed at the attempt
  // just started, with the error, exactly when that could be made durable.
  predicate FailedAs(world: World, hook: nat, attempt: nat, after: Option<Marker>, outcome: Outcome) {
    && !Completes(world, hook)
    && (outcome == Died <==> DiesInBody(world, hook))
    && (outcome == RunInterrupted <==> world.body(hook).Interrupted?)
    && (outcome == HookFailed
        <==> !DiesInBody(world, hook) && !world.body(hook).Interrupted? && FailureDurable(world, hook))
    && (outcome == FailureNotPersisted
        <==> !DiesInBody(world, hook) && !world.body(hook).Interrupted? && !FailureDurable(world, hook))
    && (!DiesInBody(world, hook) && FailureDurable(world, hook)
        ==> after == Some(Failed(attempt, ErrorOf(world.body(hook)))))
    && (after == Some(Started(attempt)) || (after.Some? && after.value == Failed(attempt, ErrorOf(world.body(hook))))
        || (AsksCompletion(world.body(hook)) && Lands(world.complete(hook))
            && after == Some(Completed(attempt, world.body(hook).digest))))
  }

  // Why a run stopped at this hook, and what its marker is then: it could not be read; its
  // start was not durable; or it was started and failed.
  predicate StoppedAt(world: World, hook: nat, before: Option<Marker>, after: Option<Marker>, outcome: Outcome) {
    if !world.readable(hook) then outcome == ReadFailed && after == before
    else
      && !IsComplete(before)
      && if !world.start(hook).Durable? then
           && outcome == (if world.start(hook).Dies? then Died else StartFailed)
           && after == (if Lands(world.start(hook)) then Some(Started(Attempt(before) + 1)) else before)
         else FailedAs(world, hook, Attempt(before) + 1, after, outcome)
  }

  // The hook lets the run go on: it can be read, and is complete or completes.
  predicate Passes(world: World, hook: nat, before: Option<Marker>) {
    world.readable(hook) && (IsComplete(before) || (world.start(hook).Durable? && Completes(world, hook)))
  }

  predicate AllPass(world: World, n: nat, before: Markers)
    requires n <= |before|
  {
    forall k :: 0 <= k < n ==> Passes(world, k, before[k])
  }

  // The run went through the hooks before this one, stopped here, and touched none after it.
  predicate StoppedHere(world: World, hook: nat, before: Markers, after: Markers, outcome: Outcome)
    requires hook < |before| == |after|
  {
    && AllPass(world, hook, before) && (forall k :: 0 <= k < hook ==> IsComplete(after[k]))
    && StoppedAt(world, hook, before[hook], after[hook], outcome)
    && (forall k :: hook < k < |after| ==> after[k] == before[k])
  }

  class ReconciliationRunner {
    var markers: Markers
    var active: bool
    ghost var starts: seq<nat> // committed starts per hook
    ghost var bodies: seq<nat> // body executions per hook

    constructor (hooks: nat)
      requires hooks > 0
      ensures |markers| == hooks && Legal(markers, starts, bodies)
      ensures forall k :: 0 <= k < hooks ==> markers[k].None?
    {
      markers, active := seq(hooks, _ => None), false;
      starts, bodies := seq(hooks, _ => 0), seq(hooks, _ => 0);
    }

    // Finishes a marker statement that would set `markers[i]` to `m`.
    method Persist(i: nat, m: Marker, commit: Commit) returns (done: bool)
      requires i < |markers|
      modifies this`markers, this`active
      ensures done == commit.Durable?
      ensures markers == if Lands(commit) then old(markers)[i := Some(m)] else old(markers)
      ensures active == (old(active) && SessionLives(commit))
    {
      if commit.Durable? || commit.StatementFails? {
        if commit.Durable? { markers := markers[i := Some(m)]; }
      } else {
        active := false; // the commit's outcome is unknown, so the session is discarded
        if commit.applied { markers := markers[i := Some(m)]; }
      }
      return commit.Durable?;
    }

    // Upserts a started marker with the next attempt, unless the hook is complete.
    method MarkStarted(i: nat, commit: Commit) returns (done: bool)
      requires i < |markers| == |starts|
      modifies this`markers, this`active, this`starts
      ensures var open := old(active) && !IsComplete(old(markers)[i]);
              && done == (open && commit.Durable?)
              && active == (old(active) && (open ==> SessionLives(commit)))
              && (open && Lands(commit) ==> markers == old(markers)[i := Some(Started(Attempt(old(markers)[i]) + 1))]
                                            && starts == old(starts)[i := old(starts)[i] + 1])
              && (!(open && Lands(commit)) ==> markers == old(markers) && starts == old(starts))
    {
      if !active || IsComplete(markers[i]) { return false; }
      done := Persist(i, Started(Attempt(markers[i]) + 1), commit);
      if Lands(commit) { starts := starts[i := starts[i] + 1]; }
    }

    // Completes a started marker; any other marker is left alone.
    method MarkCompleted(i: nat, digest: Digest, commit: Commit) returns (done: bool)
      requires i < |markers|
      modifies this`markers, this`active
      ensures var open := old(active) && IsSha256(digest) && IsStarted(old(markers)[i]);
              && done == (open && commit.Durable?)
              && active == (old(active) && (open ==> SessionLives(commit)))
              && markers == (if open && Lands(commit)
                             then old(markers)[i := Some(Completed(Attempt(old(markers)[i]), digest))]
                             else old(markers))
    {
      if !active || !IsSha256(digest) || !IsStarted(markers[i]) { return false; }
      done := Persist(i, Completed(Attempt(markers[i]), digest), commit);
    }

    // Fails a started marker; any other marker is left alone.
    method MarkFailed(i: nat, error: string, commit: Commit) returns (done: bool)
      requires i < |markers|
      modifies this`markers, this`active
      ensures var open := old(active) && SafeIdentity(error) && IsStarted(old(markers)[i]);
              && done == (open && commit.Durable?)
              && active == (old(active) && (open ==> SessionLives(commit)))
              && markers == (if open && Lands(commit)
                             then old(markers)[i := Some(Failed(Attempt(old(markers)[i]), error))]
                             else old(markers))
    {
      if !active || !SafeIdentity(error) || !IsStarted(markers[i]) { return false; }
      done := Persist(i, Failed(Attempt(markers[i]), error), commit);
    }

    // Runs one hook whose marker is not complete: commits its start, then its body.
    method RunHook(i: nat, world: World) returns (failed: Option<Outcome>)
      requires i < |markers| && active && !IsComplete(markers[i]) && Legal(markers, starts, bodies)
      requires forall k :: 0 <= k < i ==> IsComplete(markers[k])
      modifies this
      ensures Legal(markers, starts, bodies) && Preserves(old(markers), old(bodies), markers, bodies)
      ensures forall k :: 0 <= k < |markers| && k != i ==> markers[k] == old(markers)[k] && bodies[k] == old(bodies)[k]
      ensures failed.None? ==> active && Ran(world, i, old(markers)[i], old(bodies)[i], markers[i], bodies[i])
      ensures failed.None? <==> world.start(i).Durable? && Completes(world, i)
      ensures failed.Some? && world.readable(i) ==>
                StoppedAt(world, i, old(markers)[i], markers[i], failed.value)
      ensures bodies[i] == old(bodies)[i] + (if world.start(i).Durable? then 1 else 0)
    {
      var existing := markers[i];
      var started := MarkStarted(i, world.start(i));
      if !started { return Some(if world.start(i).Dies? then Died else StartFailed); }
      var expected := Attempt(existing) + 1;
      if markers[i].value.attempt != expected { assert false; } // a start always advances the attempt by one
      bodies := bodies[i := bodies[i] + 1];
      failed := RunBody(i, world);
    }

    // Runs the body of a started hook and commits what came of it.
    method RunBody(i: nat, world: World) returns (failed: Option<Outcome>)
      requires i < |markers| && active && IsStarted(markers[i]) && Legal(markers, starts, bodies)
      modifies this`markers, this`active
      ensures Legal(markers, starts, bodies) && |markers| == |old(markers)|
      ensures markers[i].Some? && forall k :: 0 <= k < |markers| && k != i ==> markers[k] == old(markers)[k]
      ensures failed.None? ==> active && world.body(i).Succeeds?
                               && markers[i] == Some(Completed(Attempt(old(markers)[i]), world.body(i).digest))
      ensures failed.None? <==> Completes(world, i)
      ensures failed.Some? ==> FailedAs(world, i, Attempt(old(markers)[i]), markers[i], failed.value)
    {
      match world.body(i)
      case BodyDies => return Some(Died);
      case Interrupted =>
        var _ := MarkFailed(i, "Interrupted", world.fail(i));
        return Some(RunInterrupted);
      case Raises(error) =>
        var marked := MarkFailed(i, error, world.fail(i));
        return Some(if marked then HookFailed else FailureNotPersisted);
      case Succeeds(digest) =>
        var completed := MarkCompleted(i, digest, world.complete(i));
        if completed { return None; }
        if IsSha256(digest) && world.complete(i).Dies? { return Some(Died); }
        var marked := MarkFailed(i, "ReconciliationError", world.fail(i));
        return Some(if marked then HookFailed else FailureNotPersisted);
    }

    // Reads the next hook's marker and runs the hook unless it is complete.
    method NextHook(i: nat, world: World) returns (failed: Option<Outcome>, report: HookReport)
      requires i < |markers| && active && Legal(markers, starts, bodies)
      requires forall k :: 0 <= k < i ==> IsComplete(markers[k])
      modifies this
      ensures Legal(markers, starts, bodies) && Preserves(old(markers), old(bodies), markers, bodies)
      ensures forall k :: 0 <= k < |markers| && k != i ==> markers[k] == old(markers)[k] && bodies[k] == old(bodies)[k]
      ensures failed.None? <==> Passes(world, i, old(markers)[i])
      ensures failed.None? ==> && active && Reports(report, i, old(markers)[i], markers[i])
                               && Ran(world, i, old(markers)[i], old(bodies)[i], markers[i], bodies[i])
      ensures failed.Some? ==> StoppedAt(world, i, old(markers)[i], markers[i], failed.value)
      ensures IsComplete(old(markers)[i]) ==> markers == old(markers) && bodies == old(bodies)
    {
      report := HookReport(i, 0, false, "");
      if !world.readable(i) { return Some(ReadFailed), report; }
      var already := IsComplete(markers[i]);
      failed := None;
      if !already { failed := RunHook(i, world); }
      if failed.None? { report := HookReport(i, markers[i].value.attempt, already, markers[i].value.digest); }
    }

    // Goes through the hooks in order; complete ones are only reported.
    method RunHooks(world: World) returns (failed: Option<Outcome>, reports: seq<HookReport>)
      requires active && Legal(markers, starts, bodies)
      modifies this
      ensures Legal(markers, starts, bodies) && Preserves(old(markers), old(bodies), markers, bodies)
      ensures failed.None? ==> && active && AllReported(reports, |markers|, old(markers), markers)
                               && AllRan(world, |markers|, old(markers), old(bodies), markers, bodies)
      ensures failed.None? <==> AllPass(world, |markers|, old(markers))
      ensures failed.Some? ==> && |reports| < |markers|
                               && StoppedHere(world, |reports|, old(markers), markers, failed.value)
      ensures AllComplete(old(markers)) ==> markers == old(markers) && bodies == old(bodies)
    {
      reports := [];
      for i := 0 to |markers|
        invariant active && Legal(markers, starts, bodies) && Preserves(old(markers), old(bodies), markers, bodies)
        invariant forall k :: i <= k < |markers| ==> markers[k] == old(markers)[k] && bodies[k] == old(bodies)[k]
        invariant AllRan(world, i, old(markers), old(bodies), markers, bodies)
        invariant AllReported(reports, i, old(markers), markers)
        invariant AllPass(world, i, old(markers))
        invariant AllComplete(old(markers)) ==> markers == old(markers) && bodies == old(bodies)
      {
        ghost var mid, midBodies := markers, bodies;
        var report;
        failed, report := NextHook(i, world);
        PreservesTransitive(old(markers), old(bodies), mid, midBodies, markers, bodies);
        if failed.Some? { return; }
        reports := reports + [report];
      }
      failed := None;
    }

    // Reads every marker back. Each is complete, so only a failing read can stop this, and
    // the error for a completion that is not durable cannot arise.
    method VerifyHooks(world: World) returns (ok: bool)
      requires AllComplete(markers)
      ensures ok <==> forall k :: 0 <= k < |markers| ==> world.verifies(k)
    {
      for k := 0 to |markers|
        invariant forall i :: 0 <= i < k ==> world.verifies(i)
      {
        if !world.verifies(k) { return false; }
        if !IsComplete(markers[k]) { assert false; }
      }
      return true;
    }

    // One run of the plan.
    method Run(world: World) returns (outcome: Outcome)
      requires Legal(markers, starts, bodies)
      modifies this
      ensures Legal(markers, starts, bodies) && Preserves(old(markers), old(bodies), markers, bodies)
      ensures outcome.Report? ==> && AllReported(outcome.hooks, |markers|, old(markers), markers)
                                  && AllRan(world, |markers|, old(markers), old(bodies), markers, bodies)
      ensures outcome.Report? <==> && AllPass(world, |markers|, old(markers)) && world.unlocks
                                   && forall k :: 0 <= k < |markers| ==> world.verifies(k)
      ensures Calm(world) ==> outcome.Report?
      ensures !AllPass(world, |markers|, old(markers)) ==>
                exists k :: 0 <= k < |markers| && StoppedHere(world, k, old(markers), markers, outcome)
      ensures AllPass(world, |markers|, old(markers)) ==>
                && AllComplete(markers)
                && if exists k :: 0 <= k < |markers| && !world.verifies(k) then outcome == ReadFailed
                   else if !world.unlocks then outcome == LockNotReleased else outcome.Report?
      ensures AllComplete(old(markers)) ==> markers == old(markers) && bodies == old(bodies)
      ensures !active
    {
      active := true;
      var failed, reports := RunHooks(world);
      if failed.Some? {
        active := false;
        return failed.value;
      }
      var ok := VerifyHooks(world);
      active := false;
      if !ok { return ReadFailed; }
      if !world.unlocks { return LockNotReleased; }
      return Report(reports);
    }
  }

  lemma PreservesTransitive(a: Markers, ra: seq<nat>, b: Markers, rb: seq<nat>, c: Markers, rc: seq<nat>)
    requires Preserves(a, ra, b, rb) && Preserves(b, rb, c, rc)
    ensures Preserves(a, ra, c, rc)
  {
  }

  // ---- any sequence of runs ----

  // The markers of a plan between two runs, with the starts and bodies so far.
  datatype Between = Between(markers: Markers, starts: seq<nat>, bodies: seq<nat>)

  predicate LegalAt(s: Between) { Legal(s.markers, s.starts, s.bodies) }
  predicate Kept(a: Between, b: Between) { Preserves(a.markers, a.bodies, b.markers, b.bodies) }

  // A sequence of runs, each of which did what `Run` promises, however it ended.
  ghost predicate RunsOf(states: seq<Between>) {
    && |states| > 0 && LegalAt(states[0])
    && forall i, j :: 0 <= i && j == i + 1 && j < |states| && LegalAt(states[i]) ==>
         LegalAt(states[j]) && Kept(states[i], states[j])
  }

  // After any number of runs the markers are legal, and whatever was complete at an
  // earlier moment is unchanged and its body has not run again.
  lemma {:induction false} RunsPreserve(states: seq<Between>, i: nat, j: nat)
    requires RunsOf(states) && i <= j < |states|
    ensures LegalAt(states[i]) && LegalAt(states[j]) && Kept(states[i], states[j])
    decreases j, i
  {
    if i < j {
      var k := j - 1;
      RunsPreserve(states, i, k);
      assert Kept(states[k], states[j]);
      PreservesTransitive(states[i].markers, states[i].bodies, states[k].markers, states[k].bodies,
                          states[j].markers, states[j].bodies);
    } else if i > 0 {
      var k := i - 1;
      RunsPreserve(states, k, k);
      assert LegalAt(states[k]) && LegalAt(states[i]);
    }
  }

  // The state of the runner as a value.
  ghost function StateOf(runner: ReconciliationRunner): Between
    reads runner
  {
    Between(runner.markers, runner.starts, runner.bodies)
  }

  // Any number of runs of the plan on the runner, each ending as its surroundings will:
  // `states` is what stands between them. Completed hooks are final and never run again,
  // the markers are always legal, and a report is returned only by a run after which every
  // hook is complete.
  method RunMany(runner: ReconciliationRunner, worlds: seq<World>)
    returns (outcomes: seq<Outcome>, ghost states: seq<Between>)
    requires Legal(runner.markers, runner.starts, runner.bodies)
    modifies runner
    ensures |outcomes| == |worlds| && |states| == |worlds| + 1
    ensures states[0] == old(StateOf(runner)) && states[|worlds|] == StateOf(runner)
    ensures forall i, j :: 0 <= i <= j < |states| ==> LegalAt(states[j]) && Kept(states[i], states[j])
    ensures forall i :: 0 <= i < |outcomes| && outcomes[i].Report? ==> AllComplete(states[i + 1].markers)
  {
    outcomes, states := [], [StateOf(runner)];
    for n := 0 to |worlds|
      invariant |outcomes| == n && |states| == n + 1
      invariant states[0] == old(StateOf(runner)) && states[n] == StateOf(runner) && LegalAt(states[n])
      invariant RunsOf(states)
      invariant forall i :: 0 <= i < n && outcomes[i].Report? ==> AllComplete(states[i + 1].markers)
    {
      var outcome := runner.Run(worlds[n]);
      outcomes, states := outcomes + [outcome], states + [StateOf(runner)];
      assert Kept(states[n], states[n + 1]);
    }
    forall i, j | 0 <= i <= j < |states| ensures LegalAt(states[j]) && Kept(states[i], states[j]) {
      RunsPreserve(states, i, j);
    }
  }

  // The shape of a plan in progress: completed hooks, at most one hook in between that
  // was started or failed, and nothing after it.
  lemma {:induction false} PrefixSplits(markers: Markers, from: nat) returns (next: nat)
    requires PrefixShape(markers) && from <= |markers| && forall k :: 0 <= k < from ==> IsComplete(markers[k])
    ensures from <= next <= |markers|
    ensures forall k :: 0 <= k < next ==> IsComplete(markers[k])
    ensures next < |markers| ==> !IsComplete(markers[next])
    ensures forall k :: next < k < |markers| ==> markers[k].None?
    decreases |markers| - from
  {
    if from < |markers| && IsComplete(markers[from]) {
      next := PrefixSplits(markers, from + 1);
    } else {
      next := from;
    }
  }
}
