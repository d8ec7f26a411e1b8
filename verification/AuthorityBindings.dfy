// Durable authority bindings: what a binding value must satisfy, the fenced
// statements that change one, and the lifecycle these force on every run.
module AuthorityBindings {
  import opened Common
  import opened Fences

  datatype Population = ServerDynamic | ByoUser

  datatype State = Provisioning | Active | Quiescent | Closing | Closed | Revoking | Revoked | Reconciling | Expired

  predicate Terminal(s: State) { s in {Closed, Revoked, Expired} }

  // The four identities issued by the remote authority.
  datatype Remote = Remote(warden: string, lease: string, lineage: string, subject: string)

  datatype Binding = Binding(
    bindingId: string, ownerId: string, agentId: string, runtimeId: string, runtimeGeneration: int,
    population: Population, tenantId: string, envelopeId: string, remote: Remote,
    policyDigest: string, machineDigest: string, configEpoch: int, capabilities: seq<string>,
    leaseSequence: int, leaseExpires: int, state: State, createdAt: Instant, updatedAt: Instant, version: nat)

  const PendingPrefix := "pending:"

  // The deterministic placeholder identities of a binding; `digest` is the truncated
  // domain-separated hash of the binding id.
  function PendingRemote(digest: string -> string, bindingId: string): Remote {
    var d := digest(bindingId);
    Remote(PendingPrefix + "warden:" + d, PendingPrefix + "lease:" + d,
           PendingPrefix + "lineage:" + d, PendingPrefix + "subject:" + d)
  }

  predicate IsPending(s: string) { PendingPrefix <= s }
  predicate AnyPending(r: Remote) {
    IsPending(r.warden) || IsPending(r.lease) || IsPending(r.lineage) || IsPending(r.subject)
  }

  predicate IsLetsDigest(s: string) { "sha256:" <= s && IsSha256(s[7..]) }

  // What constructing a binding value checks.
  predicate WellFormed(digest: string -> string, b: Binding) {
    && IsIdentifier(b.bindingId) && IsIdentifier(b.ownerId) && IsIdentifier(b.agentId) && IsIdentifier(b.runtimeId)
    && IsIdentifier(b.tenantId) && IsIdentifier(b.envelopeId) && IsIdentifier(b.remote.warden)
    && IsIdentifier(b.remote.lease) && IsIdentifier(b.remote.lineage) && IsIdentifier(b.remote.subject)
    && b.runtimeGeneration > 0 && b.configEpoch > 0 && b.leaseSequence >= 0 && b.leaseExpires >= 0
    && IsLetsDigest(b.policyDigest) && IsLetsDigest(b.machineDigest)
    && b.capabilities != [] && StrictlySorted(b.capabilities) && (forall c <- b.capabilities :: IsIdentifier(c))
    && PendingRuleOk(digest, b)
    && b.createdAt <= b.updatedAt
  }

  predicate PendingRuleOk(digest: string -> string, b: Binding) {
    if b.state in {Provisioning, Closed} && AnyPending(b.remote) then
      b.remote == PendingRemote(digest, b.bindingId) && b.leaseSequence == 0 && b.leaseExpires == 0
    else
      b.state != Provisioning && !AnyPending(b.remote) && b.leaseExpires != 0
  }

  type Table = map<string, Binding>

  datatype Event =
    | Create(binding: Binding, read: string) // `read`: the row the conflict query returns first
    | Transition(replacement: Binding, expectedState: State, expectedVersion: int)
    | Activate(replacement: Binding, expectedVersion: int)
    | Abandon(replacement: Binding, expectedVersion: int)

  datatype Failure = ValidationError | IdempotencyConflict | CompareAndSetConflict | DataError

  datatype Reply = Done(binding: Binding) | Refused(failure: Failure)

  // The columns the two update statements may set; all others are fenced.
  function WithLifecycle(row: Binding, b: Binding): Binding {
    row.(leaseSequence := b.leaseSequence, leaseExpires := b.leaseExpires, state := b.state,
         updatedAt := b.updatedAt, version := b.version)
  }

  predicate SameRuntime(a: Binding, b: Binding) {
    a.ownerId == b.ownerId && a.agentId == b.agentId && a.runtimeId == b.runtimeId
    && a.runtimeGeneration == b.runtimeGeneration
  }
  predicate SameSlot(a: Binding, b: Binding) {
    a.ownerId == b.ownerId && a.agentId == b.agentId && a.population == b.population
    && !Terminal(a.state) && !Terminal(b.state)
  }

  // The unique keys of the table.
  predicate Clashes(a: Binding, b: Binding) {
    a.bindingId == b.bindingId || SameRuntime(a, b) || SameSlot(a, b)
  }

  predicate FoundByConflictRead(row: Binding, b: Binding) {
    row.ownerId == b.ownerId
    && (|| row.bindingId == b.bindingId
        || (row.agentId == b.agentId && row.population == b.population && !Terminal(row.state))
        || SameRuntime(row, b))
  }

  function TransitionStep(t: Table, b: Binding, expectedState: State, expectedVersion: int): (Table, Reply) {
    if expectedVersion < 0 || b.version != expectedVersion + 1 then (t, Refused(ValidationError))
    else if Terminal(expectedState) then (t, Refused(CompareAndSetConflict))
    else if b.bindingId !in t || WithLifecycle(t[b.bindingId].(createdAt := b.createdAt), b) != b
            || t[b.bindingId].state != expectedState || t[b.bindingId].version != expectedVersion
    then (t, Refused(CompareAndSetConflict))
    else if t[b.bindingId].createdAt != b.createdAt then (t, Refused(DataError))
    else (t[b.bindingId := b], Done(b))
  }

  // The binding a call is given.
  function Given(e: Event): Binding { if e.Create? then e.binding else e.replacement }

  // One repository call in a transaction of its own; a refusal rolls it back.
  function Step(digest: string -> string, t: Table, e: Event): (Table, Reply) {
    if !WellFormed(digest, Given(e)) then (t, Refused(ValidationError)) else Perform(digest, t, e)
  }

  function Perform(digest: string -> string, t: Table, e: Event): (Table, Reply) {
    match e
    case Create(b, read) =>
      if exists id <- t :: Clashes(t[id], b) then
        (t, if read in t && FoundByConflictRead(t[read], b) && t[read] == b then Done(b)
         else Refused(IdempotencyConflict))
      else (t[b.bindingId := b], Done(b))
    case Transition(b, expectedState, expectedVersion) => TransitionStep(t, b, expectedState, expectedVersion)
    case Activate(b, expectedVersion) =>
      if expectedVersion < 0 || b.version != expectedVersion + 1 || b.state != Active then (t, Refused(ValidationError))
      else if b.bindingId !in t || WithLifecycle(t[b.bindingId].(remote := b.remote), b) != b
              || t[b.bindingId].remote != PendingRemote(digest, b.bindingId)
              || t[b.bindingId].leaseSequence != 0 || t[b.bindingId].leaseExpires != 0
              || t[b.bindingId].state != Provisioning || t[b.bindingId].version != expectedVersion
      then (t, Refused(CompareAndSetConflict))
      else (t[b.bindingId := b], Done(b))
    case Abandon(b, expectedVersion) =>
      if b.state != Closed || b.remote != PendingRemote(digest, b.bindingId) || b.leaseSequence != 0
         || b.leaseExpires != 0
      then (t, Refused(ValidationError))
      else TransitionStep(t, b, Provisioning, expectedVersion)
  }

  predicate RowsOk(digest: string -> string, t: Table) {
    forall id <- t :: t[id].bindingId == id && WellFormed(digest, t[id])
  }

  predicate NoClash(t: Table) {
    forall a, b :: a in t && b in t && a != b ==> !Clashes(t[a], t[b])
  }

  predicate Inv(digest: string -> string, t: Table) { RowsOk(digest, t) && NoClash(t) }

  // What a call can do to one binding: nothing, or one legal lifecycle move.
  predicate LifecycleMove(digest: string -> string, before: Binding, after: Binding) {
    && !Terminal(before.state)
    && after.version == before.version + 1
    && after == WithLifecycle(before.(remote := after.remote), after)
    && (before.state == Provisioning ==> after.state in {Provisioning, Active, Closed})
    && (before.state != Provisioning ==> after.state != Provisioning)
    && (before.state == Provisioning && after.state == Active ==> Issued(digest, before, after))
    && (!(before.state == Provisioning && after.state == Active) ==> after.remote == before.remote)
  }

  // Activation replaces all four pending identities by issued ones.
  predicate Issued(digest: string -> string, before: Binding, after: Binding) {
    && before.remote == PendingRemote(digest, before.bindingId) && !AnyPending(after.remote)
    && before.remote.warden != after.remote.warden && before.remote.lease != after.remote.lease
    && before.remote.lineage != after.remote.lineage && before.remote.subject != after.remote.subject
  }

  lemma PendingIsPending(digest: string -> string, bindingId: string)
    ensures var r := PendingRemote(digest, bindingId);
            IsPending(r.warden) && IsPending(r.lease) && IsPending(r.lineage) && IsPending(r.subject)
  {
  }

  lemma TransitionIsMove(digest: string -> string, t: Table, b: Binding, expectedState: State, expectedVersion: int)
    requires PendingRuleOk(digest, b) && b.bindingId in t
    requires PendingRuleOk(digest, t[b.bindingId]) && t[b.bindingId].bindingId == b.bindingId
    requires TransitionStep(t, b, expectedState, expectedVersion).1.Done?
    ensures LifecycleMove(digest, t[b.bindingId], b)
  {
    PendingIsPending(digest, b.bindingId);
  }

  lemma ActivationIsMove(digest: string -> string, row: Binding, b: Binding)
    requires PendingRuleOk(digest, b) && row.bindingId == b.bindingId && b.version == row.version + 1
    requires WithLifecycle(row.(remote := b.remote), b) == b && row.remote == PendingRemote(digest, b.bindingId)
    requires row.state == Provisioning && b.state == Active
    ensures LifecycleMove(digest, row, b)
  {
    PendingIsPending(digest, b.bindingId);
  }

  lemma PerformIsLifecycleMove(digest: string -> string, t: Table, e: Event, id: string)
    requires id in t && t[id].bindingId == id && PendingRuleOk(digest, t[id]) && PendingRuleOk(digest, Given(e))
    ensures var after := Perform(digest, t, e).0;
            id in after && (after[id] == t[id] || LifecycleMove(digest, t[id], after[id]))
  {
    var (after, reply) := Perform(digest, t, e);
    if after[id] != t[id] {
      match e
      case Create(_, _) => assert false;
      case Transition(b, state, version) => TransitionIsMove(digest, t, b, state, version);
      case Activate(b, _) => ActivationIsMove(digest, t[id], b);
      case Abandon(b, version) => TransitionIsMove(digest, t, b, Provisioning, version);
    }
  }

  lemma StepIsLifecycleMove(digest: string -> string, t: Table, e: Event, id: string)
    requires id in t && t[id].bindingId == id && PendingRuleOk(digest, t[id])
    ensures var after := Step(digest, t, e).0;
            id in after && (after[id] == t[id] || LifecycleMove(digest, t[id], after[id]))
  {
    if WellFormed(digest, Given(e)) { PerformIsLifecycleMove(digest, t, e, id); }
  }

  // A binding leaves provisioning for the active state only by an activation call.
  lemma OnlyActivationActivates(digest: string -> string, t: Table, e: Event, id: string)
    requires id in t && t[id].bindingId == id && PendingRuleOk(digest, t[id]) && t[id].state == Provisioning
    requires id in Step(digest, t, e).0 && Step(digest, t, e).0[id].state == Active
    ensures e.Activate? && Issued(digest, t[id], Step(digest, t, e).0[id])
  {
    StepIsLifecycleMove(digest, t, e, id);
    PendingIsPending(digest, id);
  }

  // ---- when each call goes through ----

  // Some stored binding has this identity, this runtime generation, or, both being alive,
  // this owner, agent and population.
  predicate Taken(t: Table, b: Binding) {
    exists id <- t ::
      || t[id].bindingId == b.bindingId
      || (t[id].ownerId, t[id].agentId, t[id].runtimeId, t[id].runtimeGeneration)
         == (b.ownerId, b.agentId, b.runtimeId, b.runtimeGeneration)
      || (&& (t[id].ownerId, t[id].agentId, t[id].population) == (b.ownerId, b.agentId, b.population)
          && t[id].state !in {Closed, Revoked, Expired} && b.state !in {Closed, Revoked, Expired})
  }

  // A binding is inserted exactly when none of its unique keys is taken; otherwise nothing
  // changes, and only the very same stored row is returned.
  lemma CreateAnswers(digest: string -> string, t: Table, b: Binding, read: string)
    ensures var (after, reply) := Step(digest, t, Create(b, read));
            && (after == if WellFormed(digest, b) && !Taken(t, b) then t[b.bindingId := b] else t)
            && (reply == Done(b) <==> WellFormed(digest, b) && (Taken(t, b) ==> read in t && t[read] == b))
            && (reply == Refused(ValidationError) <==> !WellFormed(digest, b))
            && (reply in {Done(b), Refused(ValidationError), Refused(IdempotencyConflict)})
  {
    assert Taken(t, b) <==> exists id <- t :: Clashes(t[id], b);
  }

  // The row before a replacement: found under its id, alive, in the expected state and
  // version, which the replacement continues.
  predicate Continues(t: Table, b: Binding, expectedState: State, expectedVersion: int) {
    && b.bindingId in t && t[b.bindingId].state == expectedState
    && t[b.bindingId].version == expectedVersion && b.version == expectedVersion + 1
  }

  // Placeholder identities come all together, before a lease exists, on a binding that is
  // provisioning or was closed from there; any other binding has a lease that expires.
  lemma PlaceholdersAllOrNone(digest: string -> string, b: Binding)
    ensures PendingRuleOk(digest, b) <==>
              if AnyPending(b.remote)
              then && b.state in {Provisioning, Closed} && b.remote == PendingRemote(digest, b.bindingId)
                   && b.leaseSequence == 0 && b.leaseExpires == 0
              else b.state != Provisioning && b.leaseExpires != 0
  {
  }

  // A transition goes through exactly on a row that is alive, in the expected state and
  // version, and that agrees with the replacement in every column but the lease sequence and
  // expiry, the state, the update time and the version.
  lemma TransitionAnswers(digest: string -> string, t: Table, e: Event)
    requires e.Transition?
    ensures var (after, reply) := Step(digest, t, e);
            var b := e.replacement;
            && (reply == Done(b)
                <==> && WellFormed(digest, b) && Continues(t, b, e.expectedState, e.expectedVersion)
                     && e.expectedState !in {Closed, Revoked, Expired}
                     && b == t[b.bindingId].(leaseSequence := b.leaseSequence, leaseExpires := b.leaseExpires,
                                             state := b.state, updatedAt := b.updatedAt, version := b.version))
            && (reply.Done? ==> reply.binding == b)
            && (reply == Refused(ValidationError)
                <==> !WellFormed(digest, b) || e.expectedVersion < 0 || b.version != e.expectedVersion + 1)
            && (reply == Refused(DataError)
                ==> b.bindingId in t && t[b.bindingId].createdAt != b.createdAt)
            && reply != Refused(IdempotencyConflict)
            && after == (if reply.Done? then t[b.bindingId := b] else t)
  {
  }

  lemma ProvisioningIsPending(digest: string -> string, t: Table, id: string)
    requires RowsOk(digest, t) && id in t && t[id].state == Provisioning
    ensures t[id].remote == PendingRemote(digest, id) && t[id].leaseSequence == 0 && t[id].leaseExpires == 0
  {
    assert WellFormed(digest, t[id]);
  }

  // A row in provisioning has its placeholders.
  predicate Placed(digest: string -> string, t: Table, id: string) {
    id in t && t[id].state == Provisioning ==>
      t[id].remote == PendingRemote(digest, id) && t[id].leaseSequence == 0 && t[id].leaseExpires == 0
  }

  lemma ActivationPerforms(digest: string -> string, t: Table, e: Event)
    requires e.Activate? && Placed(digest, t, e.replacement.bindingId)
    ensures var (after, reply) := Perform(digest, t, e);
            var b := e.replacement;
            && (reply == Done(b)
                <==> && Continues(t, b, Provisioning, e.expectedVersion) && b.state == Active
                     && b == t[b.bindingId].(remote := b.remote, leaseSequence := b.leaseSequence,
                                             leaseExpires := b.leaseExpires, state := Active,
                                             updatedAt := b.updatedAt, version := b.version))
            && (reply.Done? ==> reply.binding == b)
            && (reply == Refused(ValidationError)
                <==> e.expectedVersion < 0 || b.version != e.expectedVersion + 1 || b.state != Active)
            && (reply.Refused? ==> reply.failure in {ValidationError, CompareAndSetConflict})
            && after == (if reply.Done? then t[b.bindingId := b] else t)
  {
  }

  lemma AbandonmentPerforms(digest: string -> string, t: Table, e: Event)
    requires e.Abandon? && Placed(digest, t, e.replacement.bindingId)
    ensures var (after, reply) := Perform(digest, t, e);
            var b := e.replacement;
            && (reply == Done(b)
                <==> && Continues(t, b, Provisioning, e.expectedVersion)
                     && b == t[b.bindingId].(state := Closed, updatedAt := b.updatedAt, version := b.version))
            && (reply.Done? ==> reply.binding == b)
            && (reply == Refused(ValidationError)
                <==> || b.state != Closed || b.remote != PendingRemote(digest, b.bindingId)
                     || b.leaseSequence != 0 || b.leaseExpires != 0
                     || e.expectedVersion < 0 || b.version != e.expectedVersion + 1)
            && after == (if reply.Done? then t[b.bindingId := b] else t)
  {
  }

  // An activation goes through exactly on a provisioning row of the expected version, and
  // sets the issued identities besides. The row's placeholders need no check: a stored
  // provisioning row always has them.
  lemma ActivationAnswers(digest: string -> string, t: Table, e: Event)
    requires RowsOk(digest, t) && e.Activate?
    ensures var (after, reply) := Step(digest, t, e);
            var b := e.replacement;
            && (reply == Done(b)
                <==> && WellFormed(digest, b) && Continues(t, b, Provisioning, e.expectedVersion) && b.state == Active
                     && b == t[b.bindingId].(remote := b.remote, leaseSequence := b.leaseSequence,
                                             leaseExpires := b.leaseExpires, state := Active,
                                             updatedAt := b.updatedAt, version := b.version))
            && (reply.Done? ==> reply.binding == b)
            && (reply == Refused(ValidationError)
                <==> || !WellFormed(digest, b) || b.state != Active
                     || e.expectedVersion < 0 || b.version != e.expectedVersion + 1)
            && (reply.Refused? ==> reply.failure in {ValidationError, CompareAndSetConflict})
            && after == (if reply.Done? then t[b.bindingId := b] else t)
  {
    var id := e.replacement.bindingId;
    if id in t && t[id].state == Provisioning { ProvisioningIsPending(digest, t, id); }
    ActivationPerforms(digest, t, e);
  }

  // A provisioning row of the expected version is abandoned by closing it with its
  // placeholders, and in no other way.
  lemma AbandonmentAnswers(digest: string -> string, t: Table, e: Event)
    requires RowsOk(digest, t) && e.Abandon?
    ensures var (after, reply) := Step(digest, t, e);
            var b := e.replacement;
            && (reply == Done(b)
                <==> && WellFormed(digest, b) && Continues(t, b, Provisioning, e.expectedVersion)
                     && b == t[b.bindingId].(state := Closed, updatedAt := b.updatedAt, version := b.version))
            && (reply.Done? ==> reply.binding == b)
            && (reply == Refused(ValidationError)
                <==> || !WellFormed(digest, b)
                     || b.state != Closed || b.remote != PendingRemote(digest, b.bindingId)
                     || b.leaseSequence != 0 || b.leaseExpires != 0
                     || e.expectedVersion < 0 || b.version != e.expectedVersion + 1)
            && after == (if reply.Done? then t[b.bindingId := b] else t)
  {
    var id := e.replacement.bindingId;
    if id in t && t[id].state == Provisioning { ProvisioningIsPending(digest, t, id); }
    AbandonmentPerforms(digest, t, e);
  }

  // ---- whole runs ----

  datatype History = History(states: seq<Table>, events: seq<Event>)

  predicate Linked(digest: string -> string, h: History, i: nat)
    requires |h.states| == |h.events| + 1 && i < |h.events|
  {
    Step(digest, h.states[i], h.events[i]).0 == h.states[i + 1]
  }

  ghost predicate Run(digest: string -> string, h: History) {
    && |h.states| == |h.events| + 1 && Inv(digest, h.states[0])
    && forall i | 0 <= i < |h.events| :: Linked(digest, h, i)
  }

  lemma ClashIsSymmetric(a: Binding, b: Binding)
    ensures Clashes(a, b) == Clashes(b, a)
  {
  }

  // A move never leaves a terminal state, so it takes no slot that was free.
  lemma MoveCreatesNoClash(digest: string -> string, other: Binding, row: Binding, b: Binding)
    requires LifecycleMove(digest, row, b) && Clashes(other, b)
    ensures Clashes(other, row)
  {
  }

  lemma PutKeepsNoClash(t: Table, b: Binding)
    requires NoClash(t) && forall id <- t :: id != b.bindingId ==> !Clashes(t[id], b)
    ensures NoClash(t[b.bindingId := b])
  {
    forall id | id in t && id != b.bindingId ensures !Clashes(b, t[id]) { ClashIsSymmetric(b, t[id]); }
  }

  // A call changes nothing, or stores the value it was given.
  lemma StepStoresGiven(digest: string -> string, t: Table, e: Event)
    ensures var after, b := Step(digest, t, e).0, Given(e);
            after == t || (&& after == t[b.bindingId := b] && WellFormed(digest, b)
                           && (if e.Create? then forall id <- t :: !Clashes(t[id], b) else b.bindingId in t))
  {
  }

  lemma StepKeepsInv(digest: string -> string, t: Table, e: Event)
    requires Inv(digest, t)
    ensures Inv(digest, Step(digest, t, e).0)
  {
    var after, b := Step(digest, t, e).0, Given(e);
    StepStoresGiven(digest, t, e);
    if after != t {
      if !e.Create? {
        assert WellFormed(digest, t[b.bindingId]);
        StepIsLifecycleMove(digest, t, e, b.bindingId);
        forall id | id in t && id != b.bindingId ensures !Clashes(t[id], b) {
          if Clashes(t[id], b) { MoveCreatesNoClash(digest, t[id], t[b.bindingId], b); }
        }
      }
      PutKeepsNoClash(t, b);
      assert RowsOk(digest, t[b.bindingId := b]);
    }
  }

  lemma NextKeepsInv(digest: string -> string, h: History, n: nat)
    requires Run(digest, h) && n < |h.events| && Inv(digest, h.states[n])
    ensures Inv(digest, h.states[n + 1])
  {
    assert Linked(digest, h, n);
    StepKeepsInv(digest, h.states[n], h.events[n]);
  }

  lemma {:induction false} ReachableInv(digest: string -> string, h: History, n: nat)
    requires Run(digest, h) && n < |h.states|
    ensures Inv(digest, h.states[n])
  {
    if n > 0 {
      ReachableInv(digest, h, n - 1);
      NextKeepsInv(digest, h, n - 1);
    }
  }

  lemma MoveAt(digest: string -> string, h: History, n: nat, id: string)
    requires Run(digest, h) && n < |h.events| && id in h.states[n]
    ensures id in h.states[n + 1]
    ensures h.states[n + 1][id] == h.states[n][id] || LifecycleMove(digest, h.states[n][id], h.states[n + 1][id])
  {
    ReachableInv(digest, h, n);
    assert WellFormed(digest, h.states[n][id]);
    assert Linked(digest, h, n);
    StepIsLifecycleMove(digest, h.states[n], h.events[n], id);
  }

  function Version(b: Binding): nat { b.version }

  lemma RunCounts(digest: string -> string, h: History)
    requires Run(digest, h)
    ensures Counts(h.states, Version)
  {
    forall i, j | 0 <= i && j == i + 1 && j < |h.states| ensures StepCounts(h.states[i], h.states[j], Version) {
      forall id | id in h.states[i]
        ensures id in h.states[j] && (h.states[j][id] == h.states[i][id]
                                      || h.states[j][id].version == h.states[i][id].version + 1)
      {
        MoveAt(digest, h, i, id);
      }
    }
  }

  // The version of a binding is its first version plus the number of its transitions.
  lemma VersionCountsTransitions(digest: string -> string, h: History, id: string, i: nat, j: nat)
    requires Run(digest, h) && i <= j < |h.states| && id in h.states[i]
    ensures forall n :: i <= n <= j ==> id in h.states[n]
    ensures h.states[j][id].version == h.states[i][id].version + Changes(h.states, id, i, j)
  {
    RunCounts(digest, h);
    RowStays(h.states, Version, id, i, j);
    VersionCountsChanges(h.states, Version, id, i, j);
  }

  // What a binding keeps between any two moments of a run: its local identity; a
  // terminal state for ever; provisioning is never entered again once left; and once
  // the remote identities are issued they never change.
  predicate LifecycleKept(before: Binding, after: Binding) {
    && after == WithLifecycle(before.(remote := after.remote), after)
    && (Terminal(before.state) ==> after == before)
    && (before.state != Provisioning ==> after.state != Provisioning && after.remote == before.remote)
    && (after.state == Provisioning ==> after.remote == before.remote)
  }

  lemma {:induction false} LifecycleOverRun(digest: string -> string, h: History, id: string, i: nat, j: nat)
    requires Run(digest, h) && i <= j < |h.states| && id in h.states[i]
    ensures id in h.states[j] && LifecycleKept(h.states[i][id], h.states[j][id])
    decreases j
  {
    if i < j {
      LifecycleOverRun(digest, h, id, i, j - 1);
      MoveAt(digest, h, j - 1, id);
    }
  }

  // The remote identities change at most once in a run, and when they do it is the
  // activation of a provisioning binding that replaces all four pending values.
  lemma RemoteChangesOnce(digest: string -> string, h: History, id: string, i: nat, j: nat)
    requires Run(digest, h) && i <= j < |h.events| && id in h.states[i]
    requires id in h.states[i + 1] && h.states[i][id].remote != h.states[i + 1][id].remote
    requires id in h.states[j] && id in h.states[j + 1] && h.states[j][id].remote != h.states[j + 1][id].remote
    ensures i == j
    ensures h.states[i][id].state == Provisioning && h.states[i + 1][id].state == Active
    ensures Issued(digest, h.states[i][id], h.states[i + 1][id])
  {
    MoveAt(digest, h, i, id);
    MoveAt(digest, h, j, id);
    if i < j { LifecycleOverRun(digest, h, id, i + 1, j); }
  }

  lemma DoneReplaces(digest: string -> string, t: Table, e: Event)
    requires !e.Create? && Step(digest, t, e).1.Done?
    ensures var b := e.replacement;
            && b.bindingId in t && t[b.bindingId].version == e.expectedVersion && b.version == e.expectedVersion + 1
            && Step(digest, t, e).0 == t[b.bindingId := b]
  {
  }

  lemma ReplacementLeaves(digest: string -> string, h: History, n: nat)
    requires Run(digest, h) && n < |h.events| && !h.events[n].Create?
    requires Step(digest, h.states[n], h.events[n]).1.Done?
    ensures h.events[n].expectedVersion >= 0
    ensures Leaves(h.states, Version, n, h.events[n].replacement.bindingId, h.events[n].expectedVersion)
  {
    assert Linked(digest, h, n);
    DoneReplaces(digest, h.states[n], h.events[n]);
  }

  // Of all calls that replace the same version of a binding, at most one goes through.
  lemma OneReplacementPerVersion(digest: string -> string, h: History, i: nat, j: nat)
    requires Run(digest, h) && i < |h.events| && j < |h.events| && !h.events[i].Create? && !h.events[j].Create?
    requires Step(digest, h.states[i], h.events[i]).1.Done? && Step(digest, h.states[j], h.events[j]).1.Done?
    requires h.events[i].replacement.bindingId == h.events[j].replacement.bindingId
    requires h.events[i].expectedVersion == h.events[j].expectedVersion
    ensures i == j
  {
    var id := h.events[i].replacement.bindingId;
    ReplacementLeaves(digest, h, i);
    ReplacementLeaves(digest, h, j);
    RunCounts(digest, h);
    CountsAdvances(h.states, Version);
    LeftOnce(h.states, Version, i, j, id, h.events[i].expectedVersion);
  }

  // In every reachable table an owner's agent has at most one binding per population
  // that is not yet terminal.
  lemma OneLiveBindingPerAgent(digest: string -> string, h: History, n: nat, a: string, b: string)
    requires Run(digest, h) && n < |h.states| && a in h.states[n] && b in h.states[n]
    requires SameSlot(h.states[n][a], h.states[n][b])
    ensures a == b
  {
    ReachableInv(digest, h, n);
  }

  // Creating a stored binding again finds it again, as long as it is not terminal.
  lemma CreateReplays(digest: string -> string, t: Table, b: Binding, read: string)
    requires Inv(digest, t) && b.bindingId in t && t[b.bindingId] == b && !Terminal(b.state)
    requires read in t && FoundByConflictRead(t[read], b)
    ensures Step(digest, t, Create(b, read)) == (t, Done(b))
  {
    assert WellFormed(digest, b);
    assert read == b.bindingId;
    assert Clashes(t[b.bindingId], b);
  }
}
