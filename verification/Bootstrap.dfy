// The boot life cycle shared by all initializers of one identity. Each section under
// the condition variable is one atomic step; the migration and reconciliation attempt
// runs outside it.
module Bootstrap {
  import opened Common

  datatype Status = New | Running | Ready | FailedBoot

  // The revision a caller expects and the digest of its reconciliation plan.
  datatype Plan = Plan(revision: string, digest: Digest)

  // A completed initialization; `serial` tells reports of different attempts apart.
  datatype Report = Report(plan: Plan, serial: nat)

  datatype Shared = Shared(status: Status, plan: Option<Plan>, report: Option<Report>, failure: Option<string>)

  // ---- the guarded sections ----

  datatype Entry = MustWait | MayAttempt | HasReport(report: Option<Report>) | OtherPlan | PriorFailure

  function EntryOf(s: Shared, plan: Plan): Entry {
    match s.status
    case Running => if s.plan == Some(plan) then MustWait else OtherPlan
    case Ready => if s.plan == Some(plan) then HasReport(s.report) else OtherPlan
    case FailedBoot => PriorFailure
    case New => MayAttempt
  }
  function Entered(s: Shared, plan: Plan): Shared {
    if s.status == New then Shared(Running, Some(plan), s.report, None) else s
  }
  function Published(s: Shared, report: Report): Shared { s.(status := Ready, report := Some(report), failure := None) }
  function FailurePublished(s: Shared, error: string): Shared {
    s.(status := FailedBoot, failure := Some(error), report := None)
  }
  function Finalized(s: Shared): Shared {
    if s.status == Running then FailurePublished(s, "InterruptedInitialization") else s
  }
  function Reset(s: Shared): Shared { if s.status == FailedBoot then Shared(New, None, None, None) else s }

  class SharedBootState {
    var state: Shared

    constructor ()
      ensures state == Shared(New, None, None, None)
    {
      state := Shared(New, None, None, None);
    }

    // The entry section of `initialize`, up to the point where it waits or goes on.
    method Enter(plan: Plan) returns (entry: Entry)
      modifies this
      ensures entry == EntryOf(old(state), plan) && state == Entered(old(state), plan)
    {
      if state.status == Running {
        return if state.plan != Some(plan) then OtherPlan else MustWait;
      }
      if state.status == Ready {
        if state.plan != Some(plan) { return OtherPlan; }
        return HasReport(state.report);
      }
      if state.status == FailedBoot { return PriorFailure; }
      state := state.(status := Running, plan := Some(plan), failure := None);
      return MayAttempt;
    }

    method PublishReport(report: Report)
      modifies this
      ensures state == Published(old(state), report)
    {
      state := state.(status := Ready, report := Some(report), failure := None);
    }

    method PublishFailure(error: string)
      modifies this
      ensures state == FailurePublished(old(state), error)
    {
      state := state.(status := FailedBoot, failure := Some(error), report := None);
    }

    // The clean-up section that runs whenever an attempt did not complete.
    method Finally()
      modifies this
      ensures state == Finalized(old(state))
    {
      if state.status == Running { PublishFailure("InterruptedInitialization"); }
    }

    // `None` is the error raised while an initializer is running.
    method ResetFailed() returns (reset: Option<bool>)
      modifies this
      ensures reset == if old(state).status == Running then None else Some(old(state).status == FailedBoot)
      ensures state == Reset(old(state))
    {
      if state.status == Running { return None; }
      if state.status != FailedBoot { return Some(false); }
      state := Shared(New, None, None, None);
      return Some(true);
    }
  }

  // ---- threads ----

  datatype Pc =
    | Outside                           // before a call, or after one that raised
    | Entering(plan: Plan)              // at the entry section, possibly waiting
    | Attempting(plan: Plan)            // migration and reconciliation in progress
    | Unwinding(published: bool)        // attempt failed; clean-up section still to come
    | Returned(plan: Plan, report: Option<Report>)

  type Tid = nat
  datatype Sys = Sys(shared: Shared, pcs: map<Tid, Pc>)

  datatype Action = Call(plan: Plan) | Enter | Succeed(serial: nat) | Fail(error: string) | Interrupt | CleanUp
                  | CallReset
  datatype Event = Event(t: Tid, action: Action)

  function DoStep(s: Sys, t: Tid, action: Action): Sys
    requires t in s.pcs
  {
    var pc := s.pcs[t];
    match action
    case Call(plan) => if pc.Outside? || pc.Returned? then s.(pcs := s.pcs[t := Entering(plan)]) else s
    case Enter =>
      if !pc.Entering? then s
      else
        var entry := EntryOf(s.shared, pc.plan);
        var pc' := match entry
                   case MustWait => pc
                   case MayAttempt => Attempting(pc.plan)
                   case HasReport(report) => Returned(pc.plan, report)
                   case _ => Outside;
        Sys(Entered(s.shared, pc.plan), s.pcs[t := pc'])
    case Succeed(serial) =>
      if pc.Attempting? then
        var report := Report(pc.plan, serial);
        Sys(Published(s.shared, report), s.pcs[t := Returned(pc.plan, Some(report))])
      else s
    case Fail(error) =>
      if pc.Attempting? then Sys(FailurePublished(s.shared, error), s.pcs[t := Unwinding(true)]) else s
    case Interrupt => if pc.Attempting? then s.(pcs := s.pcs[t := Unwinding(false)]) else s
    case CleanUp => if pc.Unwinding? then Sys(Finalized(s.shared), s.pcs[t := Outside]) else s
    case CallReset => if pc.Outside? || pc.Returned? then s.(shared := Reset(s.shared)) else s
  }

  function Step(s: Sys, e: Event): Sys { if e.t in s.pcs then DoStep(s, e.t, e.action) else s }

  function Init(threads: set<Tid>): Sys { Sys(Shared(New, None, None, None), map t | t in threads :: Outside) }

  function At(threads: set<Tid>, events: seq<Event>, n: nat): Sys
    requires n <= |events|
  {
    if n == 0 then Init(threads) else Step(At(threads, events, n - 1), events[n - 1])
  }

  // An attempt that the shared state has not been told the end of.
  predicate InFlight(pc: Pc) { pc.Attempting? || pc == Unwinding(false) }
  predicate SingleFlight(s: Sys) {
    forall t, u :: t in s.pcs && u in s.pcs && InFlight(s.pcs[t]) && InFlight(s.pcs[u]) ==> t == u
  }

  // Nobody is between publishing a failure and the clean-up section that follows it.
  predicate Settled(s: Sys) { forall t <- s.pcs :: s.pcs[t] != Unwinding(true) }

  // The event is a reset that takes effect: its caller is in no other call and finds a
  // failed state.
  predicate TakesEffect(s: Sys, e: Event) {
    && e.action.CallReset? && s.shared.status == FailedBoot
    && e.t in s.pcs && (s.pcs[e.t].Outside? || s.pcs[e.t].Returned?)
  }

  // It takes effect while somebody is unwinding.
  predicate RacesCleanUp(s: Sys, e: Event) { TakesEffect(s, e) && !Settled(s) }

  // The discipline under which the life cycle keeps its promises: a reset that takes
  // effect does so only when the failed attempt has left its clean-up section.
  predicate ResetsSettled(threads: set<Tid>, events: seq<Event>) {
    forall i :: 0 <= i < |events| ==> !RacesCleanUp(At(threads, events, i), events[i])
  }

  // The shared status tells the truth about the one attempt in flight.
  predicate Announced(s: Sys) {
    && SingleFlight(s)
    && (forall t <- s.pcs :: InFlight(s.pcs[t]) ==> s.shared.status == Running)
    && (s.shared.status == Running ==> s.shared.plan.Some? && exists t :: t in s.pcs && InFlight(s.pcs[t]))
    && (forall t <- s.pcs :: s.pcs[t].Attempting? ==> s.shared.plan == Some(s.pcs[t].plan))
    && (!Settled(s) ==> s.shared.status == FailedBoot)
  }

  // A published report is for the published plan, and everyone who returned has it.
  predicate ReportsAgree(s: Sys) {
    && (s.shared.status == Ready ==> s.shared.report.Some? && s.shared.plan == Some(s.shared.report.value.plan))
    && (forall t <- s.pcs :: s.pcs[t].Returned? ==>
          s.shared.status == Ready && s.pcs[t].report == s.shared.report && s.shared.plan == Some(s.pcs[t].plan))
  }

  predicate Inv(s: Sys) { Announced(s) && ReportsAgree(s) }

  lemma StepKeepsAnnounced(s: Sys, e: Event)
    requires Inv(s) && !RacesCleanUp(s, e)
    ensures Announced(Step(s, e))
  {
    var s' := Step(s, e);
    if s' != s {
      var pc, pc' := s.pcs[e.t], s'.pcs[e.t];
      assert s'.pcs == s.pcs[e.t := pc'];
      if s'.shared.status == Running {
        if InFlight(pc') {
          assert s'.pcs[e.t] == pc';
        } else {
          var u :| u in s.pcs && InFlight(s.pcs[u]);
          assert s'.pcs[u] == s.pcs[u];
        }
      }
    }
  }

  lemma StepKeepsReports(s: Sys, e: Event)
    requires Inv(s) && !RacesCleanUp(s, e)
    ensures ReportsAgree(Step(s, e))
  {
  }

  lemma {:induction false} ReachableInv(threads: set<Tid>, events: seq<Event>, n: nat)
    requires n <= |events| && ResetsSettled(threads, events)
    ensures Inv(At(threads, events, n))
  {
    if n > 0 {
      ReachableInv(threads, events, n - 1);
      StepKeepsAnnounced(At(threads, events, n - 1), events[n - 1]);
      StepKeepsReports(At(threads, events, n - 1), events[n - 1]);
    }
  }

  // With settled resets: at most one attempt is in progress, it is the one the shared
  // state announces, and every caller that got a report got the one shared report, made
  // for its own revision and plan.
  lemma DisciplinedBoot(threads: set<Tid>, events: seq<Event>, n: nat)
    requires n <= |events| && ResetsSettled(threads, events)
    ensures var s := At(threads, events, n);
            && SingleFlight(s)
            && (s.shared.status == Running <==> exists t :: t in s.pcs && InFlight(s.pcs[t]))
            && (forall t <- s.pcs :: s.pcs[t].Returned? ==>
                  s.pcs[t].report.Some? && s.pcs[t].report == s.shared.report
                  && s.pcs[t].report.value.plan == s.pcs[t].plan)
  {
    ReachableInv(threads, events, n);
  }

  lemma ReadyStaysReady(s: Sys, e: Event)
    requires Inv(s) && s.shared.status == Ready
    ensures Step(s, e).shared == s.shared
  {
  }

  lemma ReadyNext(threads: set<Tid>, events: seq<Event>, n: nat)
    requires n < |events| && ResetsSettled(threads, events) && At(threads, events, n).shared.status == Ready
    ensures At(threads, events, n + 1).shared == At(threads, events, n).shared
  {
    ReachableInv(threads, events, n);
    ReadyStaysReady(At(threads, events, n), events[n]);
  }

  // READY is final, and so is the report that was published with it.
  lemma {:induction false} ReadyIsFinal(threads: set<Tid>, events: seq<Event>, i: nat, j: nat)
    requires i <= j <= |events| && ResetsSettled(threads, events) && At(threads, events, i).shared.status == Ready
    ensures At(threads, events, j).shared == At(threads, events, i).shared
    decreases j
  {
    if i < j {
      ReadyIsFinal(threads, events, i, j - 1);
      ReadyNext(threads, events, j - 1);
    }
  }

  // Every successful return, at whatever moments, is the same report.
  lemma SameReportForAll(threads: set<Tid>, events: seq<Event>, i: nat, j: nat, t: Tid, u: Tid)
    requires i <= j <= |events| && ResetsSettled(threads, events)
    requires var s := At(threads, events, i); t in s.pcs && s.pcs[t].Returned?
    requires var s := At(threads, events, j); u in s.pcs && s.pcs[u].Returned?
    ensures At(threads, events, i).pcs[t].report == At(threads, events, j).pcs[u].report
  {
    ReachableInv(threads, events, i);
    ReachableInv(threads, events, j);
    ReadyIsFinal(threads, events, i, j);
  }

  // ---- why the shared state and a call stand where they stand ----

  // A call comes to stand anywhere only for the reason that position names.
  lemma PositionHasCause(s: Sys, e: Event)
    requires e.t in s.pcs && Step(s, e).pcs[e.t] != s.pcs[e.t]
    ensures var pc := s.pcs[e.t];
            match Step(s, e).pcs[e.t]
            case Entering(plan) => e.action == Call(plan) && (pc.Outside? || pc.Returned?)
            case Attempting(plan) => e.action.Enter? && pc == Entering(plan) && s.shared.status == New
            case Unwinding(published) => pc.Attempting? && (if published then e.action.Fail? else e.action.Interrupt?)
            case Returned(plan, report) =>
              || (&& e.action.Enter? && pc == Entering(plan) && s.shared.status == Ready
                  && s.shared.plan == Some(plan) && report == s.shared.report)
              || (e.action.Succeed? && pc == Attempting(plan) && report == Some(Report(plan, e.action.serial)))
            case Outside =>
              || (&& e.action.Enter? && pc.Entering?
                  && (s.shared.status == FailedBoot
                      || (s.shared.status in {Running, Ready} && s.shared.plan != Some(pc.plan))))
              || (e.action.CleanUp? && pc.Unwinding?)
  {
  }

  // A call moves exactly when what it waits for happens, and no other call moves with it.
  lemma OnlyAwaitedActionsMove(s: Sys, e: Event, t: Tid)
    requires t in s.pcs
    ensures var after, pc := Step(s, e), s.pcs[t];
            && after.pcs.Keys == s.pcs.Keys
            && (after.pcs[t] != pc <==>
                  && e.t == t
                  && match e.action
                     case Call(_) => pc.Outside? || pc.Returned?
                     case Enter => pc.Entering? && !(s.shared.status == Running && s.shared.plan == Some(pc.plan))
                     case CleanUp => pc.Unwinding?
                     case CallReset => false
                     case _ => pc.Attempting?)
  {
  }

  // The event that makes the shared state what it is: the entry of an attempt, its success,
  // its failure or its clean-up, or an effective reset.
  predicate Makes(s: Sys, e: Event, after: Shared) {
    e.t in s.pcs &&
    var pc := s.pcs[e.t];
    match after.status
    case Running => && e.action.Enter? && pc.Entering? && s.shared.status == New
                    && after.plan == Some(pc.plan) && after.failure == None
    case Ready => && e.action.Succeed? && pc.Attempting? && after.failure == None
                  && after.report == Some(Report(pc.plan, e.action.serial))
    case FailedBoot => && after.report == None && after.plan == s.shared.plan
                       && if e.action.Fail? then pc.Attempting? && after.failure == Some(e.action.error)
                          else && e.action.CleanUp? && pc.Unwinding? && s.shared.status == Running
                               && after.failure == Some("InterruptedInitialization")
    case New => TakesEffect(s, e) && after == Shared(New, None, None, None)
  }

  lemma ChangeHasCause(s: Sys, e: Event)
    requires Step(s, e).shared != s.shared
    ensures Makes(s, e, Step(s, e).shared)
  {
  }

  // In every run, with any resets, a shared state that is not the initial one was made by
  // one event, and has not changed since: READY by the attempt whose report it shows, FAILED
  // by the failure it names or by an interrupted attempt's clean-up.
  lemma {:induction false} StateHasCause(threads: set<Tid>, events: seq<Event>, n: nat) returns (i: nat)
    requires n <= |events| && At(threads, events, n).shared != Shared(New, None, None, None)
    ensures i < n && Makes(At(threads, events, i), events[i], At(threads, events, n).shared)
    ensures forall k :: i < k <= n ==> At(threads, events, k).shared == At(threads, events, n).shared
  {
    if At(threads, events, n - 1).shared == At(threads, events, n).shared {
      i := StateHasCause(threads, events, n - 1);
    } else {
      i := n - 1;
      ChangeHasCause(At(threads, events, i), events[i]);
    }
  }

  // An attempt's end always reaches the shared state, and an effective reset clears it.
  lemma EndsAreAnnounced(s: Sys, e: Event)
    requires e.t in s.pcs && Step(s, e).shared == s.shared
    ensures s.pcs[e.t].Attempting? && e.action.Fail? ==>
              s.shared.status == FailedBoot && s.shared.failure == Some(e.action.error) && s.shared.report == None
    ensures s.pcs[e.t].Attempting? && e.action.Succeed? ==>
              && s.shared.status == Ready && s.shared.failure == None
              && s.shared.report == Some(Report(s.pcs[e.t].plan, e.action.serial))
    ensures s.pcs[e.t].Unwinding? && e.action.CleanUp? ==> s.shared.status != Running
    ensures !TakesEffect(s, e)
  {
  }

  // Whenever the state says RUNNING, somebody is at work.
  ghost predicate RunningIsManned(s: Sys) {
    s.shared.status == Running ==> exists t :: t in s.pcs && InFlight(s.pcs[t])
  }

  lemma StepKeepsManned(s: Sys, e: Event)
    requires RunningIsManned(s)
    ensures RunningIsManned(Step(s, e))
  {
    var s' := Step(s, e);
    if s' != s && s'.shared.status == Running {
      if InFlight(s'.pcs[e.t]) {
        assert e.t in s'.pcs;
      } else {
        var u :| u in s.pcs && InFlight(s.pcs[u]);
        assert u in s'.pcs && s'.pcs[u] == s.pcs[u];
      }
    }
  }

  lemma {:induction false} ReachableManned(threads: set<Tid>, events: seq<Event>, n: nat)
    requires n <= |events|
    ensures RunningIsManned(At(threads, events, n))
  {
    if n > 0 {
      ReachableManned(threads, events, n - 1);
      StepKeepsManned(At(threads, events, n - 1), events[n - 1]);
    }
  }

  // RUNNING is always left, in every run and with any resets: it has a thread behind it,
  // and however that thread's attempt ends, at the latest its clean-up section ends RUNNING.
  lemma RunningIsLeft(threads: set<Tid>, events: seq<Event>, n: nat, serial: nat, error: string) returns (t: Tid)
    requires n <= |events| && At(threads, events, n).shared.status == Running
    ensures var s := At(threads, events, n);
            && t in s.pcs && InFlight(s.pcs[t])
            && (s.pcs[t].Attempting? ==>
                  && Step(s, Event(t, Succeed(serial))).shared.status == Ready
                  && Step(s, Event(t, Fail(error))).shared.status == FailedBoot
                  && Step(Step(s, Event(t, Interrupt)), Event(t, CleanUp)).shared.status == FailedBoot)
            && (s.pcs[t].Unwinding? ==> Step(s, Event(t, CleanUp)).shared.status == FailedBoot)
  {
    ReachableManned(threads, events, n);
    var s := At(threads, events, n);
    t :| t in s.pcs && InFlight(s.pcs[t]);
  }

  // A caller that waits for an attempt at its own plan gets that attempt's report when it
  // succeeds and an error when it fails; while it runs, a caller with another plan errs.
  lemma WaiterSharesTheOutcome(s: Sys, t: Tid, u: Tid, plan: Plan, other: Plan, serial: nat, error: string)
    requires Inv(s) && t in s.pcs && s.pcs[t] == Entering(plan) && u in s.pcs && s.pcs[u] == Attempting(plan)
             && other != plan
    ensures Step(s, Event(t, Enter)) == s
    ensures Step(Step(s, Event(u, Succeed(serial))), Event(t, Enter)).pcs[t]
            == Returned(plan, Some(Report(plan, serial)))
    ensures Step(Step(s, Event(u, Fail(error))), Event(t, Enter)).pcs[t] == Outside
    ensures forall v <- s.pcs :: s.pcs[v] == Entering(other) ==> Step(s, Event(v, Enter)).pcs[v] == Outside
  {
    assert s.pcs[t := s.pcs[t]] == s.pcs;
  }

  // A stretch of a run.
  predicate Path(states: seq<Sys>, events: seq<Event>) {
    |states| == |events| + 1 && forall i :: 0 <= i < |events| ==> Step(states[i], events[i]) == states[i + 1]
  }

  // The discipline cannot be weakened. Whenever a reset takes effect while a failed
  // attempt `a` still has its clean-up section to run, two attempts can be made at once,
  // by `a` and by the caller of the reset: the late clean-up of `a` declares the attempt
  // of the caller failed while it is still at work, and a second reset then lets `a` in.
  lemma UnsettledResetBreaksSingleFlight(s: Sys, e: Event, plan: Plan)
    returns (a: Tid, states: seq<Sys>, events: seq<Event>)
    requires RacesCleanUp(s, e)
    ensures Path(states, events) && states[0] == s && |events| == 7 && events[0] == e && a != e.t
    ensures e.t in states[7].pcs && states[7].pcs[e.t] == Attempting(plan)
    ensures a in states[7].pcs && states[7].pcs[a] == Attempting(plan)
    ensures !SingleFlight(states[7])
  {
    a :| a in s.pcs && s.pcs[a] == Unwinding(true);
    var c := e.t;
    var cleared := Shared(New, None, None, None);
    var running := Shared(Running, Some(plan), None, None);
    var declared := FailurePublished(running, "InterruptedInitialization");
    events := [e, Event(c, Call(plan)), Event(c, Enter), Event(a, CleanUp),
               Event(a, CallReset), Event(a, Call(plan)), Event(a, Enter)];
    var calling := s.pcs[c := Entering(plan)];
    var working := calling[c := Attempting(plan)];
    var cleaned := working[a := Outside];
    var second := cleaned[a := Entering(plan)];
    states := [s, Sys(cleared, s.pcs), Sys(cleared, calling), Sys(running, working), Sys(declared, cleaned),
               Sys(cleared, cleaned), Sys(cleared, second), Sys(running, second[a := Attempting(plan)])];
  }

  lemma PathGoesOn(states: seq<Sys>, events: seq<Event>, e: Event)
    requires Path(states, events)
    ensures Path(states + [Step(states[|events|], e)], events + [e])
  {
  }

  // Nor is READY final without it: from the two simultaneous attempts one succeeds, and
  // the other, failing afterwards, takes READY and its report back.
  lemma UnsettledResetRevokesReady(s: Sys, e: Event, plan: Plan) returns (states: seq<Sys>, events: seq<Event>)
    requires RacesCleanUp(s, e)
    ensures Path(states, events) && states[0] == s && |events| == 9 && events[0] == e
    ensures states[8].shared.status == Ready && states[8].shared.report == Some(Report(plan, 1))
    ensures states[9].shared.status == FailedBoot && states[9].shared.report == None
  {
    var a;
    a, states, events := UnsettledResetBreaksSingleFlight(s, e, plan);
    var first, second := Event(e.t, Succeed(1)), Event(a, Fail("boom"));
    PathGoesOn(states, events, first);
    states, events := states + [Step(states[7], first)], events + [first];
    PathGoesOn(states, events, second);
    states, events := states + [Step(states[8], second)], events + [second];
  }

  // And the returns differ: when both attempts succeed, their two callers return two
  // reports, and the later one replaces the earlier.
  lemma UnsettledResetSplitsReports(s: Sys, e: Event, plan: Plan)
    returns (a: Tid, states: seq<Sys>, events: seq<Event>)
    requires RacesCleanUp(s, e)
    ensures Path(states, events) && states[0] == s && |events| == 9 && events[0] == e && a != e.t
    ensures e.t in states[9].pcs && states[9].pcs[e.t] == Returned(plan, Some(Report(plan, 1)))
    ensures a in states[9].pcs && states[9].pcs[a] == Returned(plan, Some(Report(plan, 2)))
    ensures states[8].shared.status == Ready && states[8].shared.report != states[9].shared.report
  {
    a, states, events := UnsettledResetBreaksSingleFlight(s, e, plan);
    var first, second := Event(e.t, Succeed(1)), Event(a, Succeed(2));
    PathGoesOn(states, events, first);
    states, events := states + [Step(states[7], first)], events + [first];
    PathGoesOn(states, events, second);
    states, events := states + [Step(states[8], second)], events + [second];
  }

  // Such a moment does come: two threads and one failed attempt are enough.
  lemma UnsettledMomentExists(a: Tid, c: Tid, plan: Plan) returns (states: seq<Sys>, events: seq<Event>)
    requires a != c
    ensures Path(states, events) && states[0] == Init({a, c}) && |events| == 3
    ensures RacesCleanUp(states[3], Event(c, CallReset))
  {
    var s := Init({a, c});
    var running := Shared(Running, Some(plan), None, None);
    events := [Event(a, Call(plan)), Event(a, Enter), Event(a, Fail("boom"))];
    states := [s, Sys(s.shared, s.pcs[a := Entering(plan)]), Sys(running, s.pcs[a := Attempting(plan)]),
               Sys(FailurePublished(running, "boom"), s.pcs[a := Unwinding(true)])];
    assert states[3].pcs[a] == Unwinding(true);
  }

  // ---- the transition system runs on the shared state ----

  // Executes one event, every guarded section through the shared state's own methods.
  method Drive(shared: SharedBootState, pcs: map<Tid, Pc>, e: Event) returns (after: map<Tid, Pc>)
    modifies shared
    ensures Sys(shared.state, after) == Step(Sys(old(shared.state), pcs), e)
  {
    after := pcs;
    if e.t !in pcs { return; }
    var pc := pcs[e.t];
    match e.action
    case Call(plan) => if pc.Outside? || pc.Returned? { after := pcs[e.t := Entering(plan)]; }
    case Enter =>
      if pc.Entering? {
        var entry := shared.Enter(pc.plan);
        match entry
        case MustWait => after := pcs[e.t := pc];
        case MayAttempt => after := pcs[e.t := Attempting(pc.plan)];
        case HasReport(report) => after := pcs[e.t := Returned(pc.plan, report)];
        case _ => after := pcs[e.t := Outside];
      }
    case Succeed(serial) =>
      if pc.Attempting? {
        shared.PublishReport(Report(pc.plan, serial));
        after := pcs[e.t := Returned(pc.plan, Some(Report(pc.plan, serial)))];
      }
    case Fail(error) =>
      if pc.Attempting? {
        shared.PublishFailure(error);
        after := pcs[e.t := Unwinding(true)];
      }
    case Interrupt => if pc.Attempting? { after := pcs[e.t := Unwinding(false)]; }
    case CleanUp =>
      if pc.Unwinding? {
        shared.Finally();
        after := pcs[e.t := Outside];
      }
    case CallReset => if pc.Outside? || pc.Returned? { var _ := shared.ResetFailed(); }
  }

  // Any interleaving of callers of one fresh identity reaches exactly the states above.
  method DriveAll(threads: set<Tid>, events: seq<Event>) returns (shared: SharedBootState, pcs: map<Tid, Pc>)
    ensures fresh(shared) && Sys(shared.state, pcs) == At(threads, events, |events|)
  {
    shared := new SharedBootState();
    pcs := map t | t in threads :: Outside;
    for n := 0 to |events|
      invariant fresh(shared) && Sys(shared.state, pcs) == At(threads, events, n)
    {
      pcs := Drive(shared, pcs, events[n]);
    }
  }
}
