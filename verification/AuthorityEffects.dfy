// Protected effects: evidence that must fit the status, the transition table, and
// what racing writers can do to one effect over a run.
module AuthorityEffects {
  import opened Common
  import opened Fences

  datatype Status = Created | AstralAuthorized | LetsPending | ReceiptReceived | ReceiptClaimed | Executing
                  | Succeeded | Denied | FailedClosed | EffectFailed | OutcomeUncertain

  datatype Scope = Read | Write | Search | System | FilesScope | Execute

  // The immutable intent of an effect.
  datatype Intent = Intent(
    operationId: string, ownerId: string, agentId: string, bindingId: string, toolId: string, scope: Scope,
    capability: string, transition: string, audience: string, nonce: string, effectDigest: string,
    expectedSequence: int, correlationId: string)

  datatype Effect = Effect(
    intent: Intent, status: Status, receiptId: Option<string>, receiptDigest: Option<string>,
    resultDigest: Option<string>, errorCode: Option<string>, createdAt: Instant, updatedAt: Instant, version: nat)

  const ReceiptRequired := {ReceiptReceived, ReceiptClaimed, Executing, Succeeded, EffectFailed, OutcomeUncertain}
  const ReceiptForbidden := {Created, AstralAuthorized, LetsPending}
  const ErrorRequired := {Denied, FailedClosed, EffectFailed, OutcomeUncertain}
  const OutcomeRequired := {Succeeded, EffectFailed}

  function Allowed(s: Status): set<Status> {
    match s
    case Created => {AstralAuthorized, Denied, FailedClosed}
    case AstralAuthorized => {LetsPending, Denied, FailedClosed}
    case LetsPending => {ReceiptReceived, Denied, FailedClosed}
    case ReceiptReceived => {ReceiptClaimed, Denied, FailedClosed}
    case ReceiptClaimed => {Executing, Denied, FailedClosed}
    case Executing => {Succeeded, EffectFailed, OutcomeUncertain}
    case OutcomeUncertain => {Succeeded, EffectFailed}
    case _ => {}
  }

  // How far along a status is; every allowed transition raises it.
  function Rank(s: Status): nat {
    match s
    case Created => 0
    case AstralAuthorized => 1
    case LetsPending => 2
    case ReceiptReceived => 3
    case ReceiptClaimed => 4
    case Executing => 5
    case OutcomeUncertain => 6
    case _ => 7
  }

  // Printable white space, which a nonce may not have at either end.
  predicate IsSpace(c: char) {
    || c in " \U{0085}\U{00A0}\U{1680}\U{2028}\U{2029}\U{202F}\U{205F}\U{3000}"
    || 0x2000 <= c as int <= 0x200A
  }

  predicate IsNonce(s: string) {
    && 16 <= |s| <= 256 && !IsSpace(s[0]) && !IsSpace(s[|s| - 1])
    && forall c <- s :: c >= ' ' && c as int != 0x7f
  }

  predicate IntentOk(i: Intent) {
    && IsIdentifier(i.operationId) && IsIdentifier(i.ownerId) && IsIdentifier(i.agentId) && IsIdentifier(i.bindingId)
    && IsIdentifier(i.toolId) && IsIdentifier(i.capability) && IsIdentifier(i.transition)
    && IsIdentifier(i.audience) && IsIdentifier(i.correlationId)
    && IsNonce(i.nonce) && IsSha256(i.effectDigest) && i.expectedSequence >= 0
  }

  predicate EvidenceFits(e: Effect) {
    && (e.receiptId.Some? <==> e.receiptDigest.Some?)
    && (e.status in ReceiptRequired ==> e.receiptId.Some?)
    && (e.status in ReceiptForbidden ==> e.receiptId.None?)
    && (e.errorCode.Some? <==> e.status in ErrorRequired)
    && (e.resultDigest.Some? <==> e.status in OutcomeRequired)
  }

  // What constructing an effect value checks.
  predicate WellFormed(e: Effect) {
    && IntentOk(e.intent) && EvidenceFits(e)
    && (e.receiptId.Some? ==> IsIdentifier(e.receiptId.value))
    && (e.receiptDigest.Some? ==> IsSha256(e.receiptDigest.value))
    && (e.resultDigest.Some? ==> IsSha256(e.resultDigest.value))
    && (e.errorCode.Some? ==> IsIdentifier(e.errorCode.value))
    && e.createdAt <= e.updatedAt
  }

  type Table = map<string, Effect>

  datatype Event =
    | Create(effect: Effect, read: string) // `read`: the row the conflict query returns first
    | Transition(replacement: Effect, expectedStatus: Status, expectedVersion: int)

  datatype Failure = ValidationError | IdempotencyConflict | CompareAndSetConflict | DataError | UniqueViolation

  datatype Reply = Done(effect: Effect) | Refused(failure: Failure)

  // Everything a transition statement cannot set: the intent, and the creation time.
  predicate SameIntent(a: Effect, b: Effect) { a.intent == b.intent && a.createdAt == b.createdAt }

  predicate ReceiptTakenByOther(t: Table, e: Effect) {
    e.receiptId.Some? && exists id <- t :: id != e.intent.operationId && t[id].receiptId == e.receiptId
  }

  predicate NonceTakenByOther(t: Table, i: Intent) {
    exists id <- t :: id != i.operationId && t[id].intent.ownerId == i.ownerId
                      && t[id].intent.bindingId == i.bindingId && t[id].intent.audience == i.audience
                      && t[id].intent.nonce == i.nonce
  }

  function TransitionStep(t: Table, e: Effect, expectedStatus: Status, expectedVersion: int): (Table, Reply) {
    var id := e.intent.operationId;
    if expectedVersion < 0 || e.version != expectedVersion + 1 then (t, Refused(ValidationError))
    else if e.status !in Allowed(expectedStatus) then (t, Refused(CompareAndSetConflict))
    else if id !in t || t[id].intent != e.intent || t[id].status != expectedStatus || t[id].version != expectedVersion
    then (t, Refused(CompareAndSetConflict))
    else if ReceiptTakenByOther(t, e) then (t, Refused(UniqueViolation))
    else if t[id].createdAt != e.createdAt then (t, Refused(DataError))
    else (t[id := e], Done(e))
  }

  predicate FoundByConflictRead(row: Effect, i: Intent) {
    row.intent.ownerId == i.ownerId
    && (row.intent.operationId == i.operationId
        || (row.intent.bindingId == i.bindingId && row.intent.audience == i.audience && row.intent.nonce == i.nonce))
  }

  function Step(t: Table, e: Event): (Table, Reply) {
    match e
    case Create(effect, read) =>
      var id := effect.intent.operationId;
      if !WellFormed(effect) then (t, Refused(ValidationError))
      else if id in t || NonceTakenByOther(t, effect.intent) || ReceiptTakenByOther(t, effect) then
        (t, if read in t && FoundByConflictRead(t[read], effect.intent) && SameIntent(t[read], effect)
            then Done(t[read]) else Refused(IdempotencyConflict))
      else (t[id := effect], Done(effect))
    case Transition(effect, expectedStatus, expectedVersion) =>
      if !WellFormed(effect) then (t, Refused(ValidationError))
      else TransitionStep(t, effect, expectedStatus, expectedVersion)
  }

  predicate RowsOk(t: Table) { forall id <- t :: t[id].intent.operationId == id && WellFormed(t[id]) }

  predicate ReceiptsUnique(t: Table) {
    forall a, b :: a in t && b in t && a != b && t[a].receiptId.Some? ==> t[a].receiptId != t[b].receiptId
  }

  predicate NoncesUnique(t: Table) {
    forall a, b :: a in t && b in t && a != b ==>
      (t[a].intent.ownerId, t[a].intent.bindingId, t[a].intent.audience, t[a].intent.nonce)
      != (t[b].intent.ownerId, t[b].intent.bindingId, t[b].intent.audience, t[b].intent.nonce)
  }

  predicate Inv(t: Table) { RowsOk(t) && ReceiptsUnique(t) && NoncesUnique(t) }

  // One edge of the transition table, on one effect.
  predicate TableMove(before: Effect, after: Effect) {
    && after.status in Allowed(before.status)
    && SameIntent(before, after) && after.version == before.version + 1
  }

  lemma MoveRaisesRank(before: Effect, after: Effect)
    requires TableMove(before, after)
    ensures Rank(before.status) < Rank(after.status) <= 7
  {
  }

  // The table by rank: up to a claimed receipt an effect may go one step on or be refused;
  // an executing one ends or becomes uncertain; an uncertain one ends.
  lemma TableByRank(s: Status, next: Status)
    ensures next in Allowed(s) <==>
              || (Rank(s) <= 4 && (Rank(next) == Rank(s) + 1 || next == Denied || next == FailedClosed))
              || (s == Executing && next in {OutcomeUncertain, Succeeded, EffectFailed})
              || (s == OutcomeUncertain && next in {Succeeded, EffectFailed})
  {
  }

  lemma StepIsTableMove(t: Table, e: Event, id: string)
    requires id in t
    ensures var after := Step(t, e).0; id in after && (after[id] == t[id] || TableMove(t[id], after[id]))
  {
  }

  lemma StepStoresGiven(t: Table, e: Event)
    ensures var after, given := Step(t, e).0, if e.Create? then e.effect else e.replacement;
            after == t || (&& after == t[given.intent.operationId := given] && WellFormed(given)
                           && !ReceiptTakenByOther(t, given)
                           && (var id := given.intent.operationId;
                               if id in t then t[id].intent == given.intent else !NonceTakenByOther(t, given.intent)))
  {
  }

  lemma PutKeepsUnique(t: Table, e: Effect)
    requires ReceiptsUnique(t) && !ReceiptTakenByOther(t, e)
    ensures ReceiptsUnique(t[e.intent.operationId := e])
  {
  }

  lemma PutKeepsNonces(t: Table, e: Effect)
    requires NoncesUnique(t)
    requires var id := e.intent.operationId;
             if id in t then t[id].intent == e.intent else !NonceTakenByOther(t, e.intent)
    ensures NoncesUnique(t[e.intent.operationId := e])
  {
  }

  lemma StepKeepsInv(t: Table, e: Event)
    requires Inv(t)
    ensures Inv(Step(t, e).0)
  {
    StepStoresGiven(t, e);
    if Step(t, e).0 != t {
      var given := if e.Create? then e.effect else e.replacement;
      PutKeepsUnique(t, given);
      PutKeepsNonces(t, given);
      assert RowsOk(t[given.intent.operationId := given]);
    }
  }

  // ---- when each call goes through ----

  // A transition goes through exactly on the row of the same intent and creation time, in the
  // expected status and version, along an edge of the table, when its receipt stands on no
  // other effect; it stores the replacement and changes nothing else.
  lemma TransitionAnswers(t: Table, e: Event)
    requires e.Transition?
    ensures var (after, reply) := Step(t, e);
            var x := e.replacement;
            var id := x.intent.operationId;
            var shared := exists other <- t :: other != id && x.receiptId.Some? && t[other].receiptId == x.receiptId;
            && (reply == Done(x)
                <==> && WellFormed(x) && id in t && t[id].intent == x.intent && t[id].createdAt == x.createdAt
                     && t[id].status == e.expectedStatus && x.status in Allowed(e.expectedStatus)
                     && t[id].version == e.expectedVersion && x.version == e.expectedVersion + 1 && !shared)
            && (reply.Done? ==> reply.effect == x)
            && (reply == Refused(ValidationError)
                <==> !WellFormed(x) || e.expectedVersion < 0 || x.version != e.expectedVersion + 1)
            && (reply == Refused(UniqueViolation) ==> shared)
            && (reply == Refused(DataError) ==> id in t && t[id].createdAt != x.createdAt)
            && (reply == Refused(CompareAndSetConflict)
                ==> || id !in t || t[id].intent != x.intent || t[id].status != e.expectedStatus
                    || x.status !in Allowed(e.expectedStatus) || t[id].version != e.expectedVersion)
            && reply != Refused(IdempotencyConflict)
            && after == (if reply.Done? then t[id := x] else t)
  {
  }

  // An effect is inserted exactly when its operation, its nonce for this owner, binding and
  // audience, and its receipt are all new; otherwise nothing changes, and only a stored
  // effect of the same intent is returned.
  lemma CreateAnswers(t: Table, x: Effect, read: string)
    requires forall id <- t :: t[id].intent.operationId == id
    ensures var (after, reply) := Step(t, Create(x, read));
            var taken := x.intent.operationId in t || exists id <- t ::
              || (x.receiptId.Some? && t[id].receiptId == x.receiptId)
              || (t[id].intent.ownerId, t[id].intent.bindingId, t[id].intent.audience, t[id].intent.nonce)
                 == (x.intent.ownerId, x.intent.bindingId, x.intent.audience, x.intent.nonce);
            && after == (if WellFormed(x) && !taken then t[x.intent.operationId := x] else t)
            && (reply == Refused(ValidationError) <==> !WellFormed(x))
            && (WellFormed(x) && !taken ==> reply == Done(x))
            && (WellFormed(x) && taken ==>
                  reply == if read in t && t[read].intent == x.intent && t[read].createdAt == x.createdAt
                           then Done(t[read]) else Refused(IdempotencyConflict))
  {
    assert NonceTakenByOther(t, x.intent) ==> exists id <- t ::
      (t[id].intent.ownerId, t[id].intent.bindingId, t[id].intent.audience, t[id].intent.nonce)
      == (x.intent.ownerId, x.intent.bindingId, x.intent.audience, x.intent.nonce);
  }

  // ---- whole runs ----

  datatype History = History(states: seq<Table>, events: seq<Event>)

  predicate Linked(h: History, i: nat)
    requires |h.states| == |h.events| + 1 && i < |h.events|
  {
    Step(h.states[i], h.events[i]).0 == h.states[i + 1]
  }

  ghost predicate Run(h: History) {
    && |h.states| == |h.events| + 1 && Inv(h.states[0])
    && forall i | 0 <= i < |h.events| :: Linked(h, i)
  }

  // In every reachable table receipt, error and result evidence fit the status, no receipt
  // stands on two effects, and no nonce is used twice for one owner, binding and audience.
  lemma {:induction false} ReachableInv(h: History, n: nat)
    requires Run(h) && n < |h.states|
    ensures Inv(h.states[n])
  {
    if n > 0 {
      ReachableInv(h, n - 1);
      assert Linked(h, n - 1);
      StepKeepsInv(h.states[n - 1], h.events[n - 1]);
    }
  }

  // What every stored effect shows, by its status: no receipt before one is received, and
  // one with its digest from then on; a result exactly with an outcome; an error exactly when
  // it was refused, failed or is uncertain.
  lemma EvidenceByStatus(h: History, n: nat, id: string)
    requires Run(h) && n < |h.states| && id in h.states[n]
    ensures var e := h.states[n][id];
            && (e.receiptId.Some? <==> e.receiptDigest.Some?)
            && (e.status in {Created, AstralAuthorized, LetsPending} ==> e.receiptId == None)
            && (e.status in {ReceiptReceived, ReceiptClaimed, Executing, OutcomeUncertain, Succeeded, EffectFailed}
                ==> e.receiptId.Some?)
            && (e.resultDigest.Some? <==> e.status in {Succeeded, EffectFailed})
            && (e.errorCode.Some? <==> e.status in {Denied, FailedClosed, EffectFailed, OutcomeUncertain})
  {
    ReachableInv(h, n);
    assert WellFormed(h.states[n][id]);
  }

  lemma MoveAt(h: History, n: nat, id: string)
    requires Run(h) && n < |h.events| && id in h.states[n]
    ensures id in h.states[n + 1]
    ensures h.states[n + 1][id] == h.states[n][id] || TableMove(h.states[n][id], h.states[n + 1][id])
  {
    assert Linked(h, n);
    StepIsTableMove(h.states[n], h.events[n], id);
  }

  function Version(e: Effect): nat { e.version }

  lemma RunCounts(h: History)
    requires Run(h)
    ensures Counts(h.states, Version)
  {
    forall i, j | 0 <= i && j == i + 1 && j < |h.states| ensures StepCounts(h.states[i], h.states[j], Version) {
      forall id | id in h.states[i]
        ensures id in h.states[j] && (h.states[j][id] == h.states[i][id]
                                      || h.states[j][id].version == h.states[i][id].version + 1)
      {
        MoveAt(h, i, id);
      }
    }
  }

  lemma {:induction false} HistoryIsPath(h: History, id: string, i: nat, j: nat)
    requires Run(h) && i <= j < |h.states| && forall n :: i <= n <= j ==> id in h.states[n]
    ensures var a, b, changes := h.states[i][id], h.states[j][id], Changes(h.states, id, i, j);
            && SameIntent(a, b) && Rank(a.status) + changes <= Rank(b.status)
            && (a.status == b.status ==> a == b)
    decreases j
  {
    if i < j {
      HistoryIsPath(h, id, i, j - 1);
      MoveAt(h, j - 1, id);
      if h.states[j][id] != h.states[j - 1][id] {
        MoveRaisesRank(h.states[j - 1][id], h.states[j][id]);
      }
    }
  }

  // The history of an effect is a path of the transition table: its intent and
  // creation time stay, its version counts the transitions, its rank rises by at least
  // one with each of them, and so there are at most seven.
  lemma EffectHistory(h: History, id: string, i: nat, j: nat)
    requires Run(h) && i <= j < |h.states| && id in h.states[i]
    ensures forall n :: i <= n <= j ==> id in h.states[n]
    ensures var a, b, changes := h.states[i][id], h.states[j][id], Changes(h.states, id, i, j);
            && SameIntent(a, b)
            && b.version == a.version + changes
            && Rank(a.status) + changes <= Rank(b.status)
            && changes <= 7
            && (a.status == b.status ==> a == b)
  {
    RunCounts(h);
    RowStays(h.states, Version, id, i, j);
    VersionCountsChanges(h.states, Version, id, i, j);
    HistoryIsPath(h, id, i, j);
  }

  // Once an effect executes it is past refusal: it is never denied or failed closed later.
  lemma {:induction false} ExecutionIsPastRefusal(h: History, id: string, i: nat, j: nat)
    requires Run(h) && i <= j < |h.states| && id in h.states[i] && Executed(h.states[i][id].status)
    ensures id in h.states[j] && Executed(h.states[j][id].status)
    decreases j
  {
    if i < j {
      ExecutionIsPastRefusal(h, id, i, j - 1);
      MoveAt(h, j - 1, id);
    }
  }

  predicate Executed(s: Status) { s in {Executing, OutcomeUncertain, Succeeded, EffectFailed} }

  // Of all writers that expect the same version of an effect, at most one wins.
  lemma OneWinnerPerVersion(h: History, i: nat, j: nat)
    requires Run(h) && i < |h.events| && j < |h.events|
    requires h.events[i].Transition? && Step(h.states[i], h.events[i]).1.Done?
    requires h.events[j].Transition? && Step(h.states[j], h.events[j]).1.Done?
    requires h.events[i].replacement.intent.operationId == h.events[j].replacement.intent.operationId
    requires h.events[i].expectedVersion == h.events[j].expectedVersion
    ensures i == j
  {
    var id := h.events[i].replacement.intent.operationId;
    assert Linked(h, i) && Linked(h, j);
    RunCounts(h);
    CountsAdvances(h.states, Version);
    LeftOnce(h.states, Version, i, j, id, h.events[i].expectedVersion);
  }

  // The table is as tight as it can be: seven transitions do occur.
  lemma SevenTransitionsExist()
    ensures var path := [Created, AstralAuthorized, LetsPending, ReceiptReceived, ReceiptClaimed, Executing,
                         OutcomeUncertain, Succeeded];
            forall k :: 0 <= k < 7 ==> path[k + 1] in Allowed(path[k])
  {
  }
}
