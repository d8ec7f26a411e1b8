// Claiming a receipt: four tables changed under one savepoint, the strict sequence
// watermark, and what these guarantee over every run of the authority repository.
module ReceiptClaims {
  import opened Common
  import B = AuthorityBindings
  import E = AuthorityEffects
  import O = Outbox

  const MaxSigned64 := 0x7fff_ffff_ffff_ffff
  const ZeroSha256 := "0000000000000000000000000000000000000000000000000000000000000000"

  datatype Anchor = Anchor(
    audience: string, tenantId: string, envelopeId: string, configEpoch: int, executorPolicy: string,
    trustRegistry: string, schemaVersion: int, databaseInstance: string, claimSequence: int,
    claimDigest: string, clockFloor: Option<int>, confirmedAt: Instant)

  datatype Claim = Claim(
    receiptId: string, operationId: string, ownerId: string, bindingId: string, tenantId: string,
    envelopeId: string, remote: B.Remote, policyDigest: string, machineDigest: string, configEpoch: int,
    audience: string, transition: string, nonce: string, resultingSequence: int,
    evidenceDigest: Option<string>, issuedAt: int, expiresAt: int, claimedAt: Instant,
    canonicalDigest: string, anchor: Anchor)

  datatype Watermark = Watermark(warden: string, lease: string, audience: string, lastSequence: int,
                                 updatedAt: Instant, expiresAt: int, version: nat)

  type SequenceKey = (string, string, string)
  function KeyOf(c: Claim): SequenceKey { (c.remote.warden, c.remote.lease, c.audience) }
  function WatermarkKey(w: Watermark): SequenceKey { (w.warden, w.lease, w.audience) }

  predicate Bounded(n: int, minimum: int) { minimum <= n <= MaxSigned64 }

  predicate AnchorOk(a: Anchor) {
    && IsIdentifier(a.audience) && IsIdentifier(a.tenantId) && IsIdentifier(a.envelopeId)
    && Bounded(a.configEpoch, 1) && Bounded(a.schemaVersion, 1) && Bounded(a.claimSequence, 0)
    && IsSha256(a.executorPolicy) && IsSha256(a.trustRegistry) && IsSha256(a.databaseInstance)
    && IsSha256(a.claimDigest)
    && (a.claimSequence == 0 ==> a.claimDigest == ZeroSha256)
    && (a.clockFloor.Some? ==> Bounded(a.clockFloor.value, 0))
  }

  // What constructing a claim checks.
  predicate ClaimOk(c: Claim) {
    && IsIdentifier(c.receiptId) && IsIdentifier(c.operationId) && IsIdentifier(c.ownerId) && IsIdentifier(c.bindingId)
    && IsIdentifier(c.tenantId) && IsIdentifier(c.envelopeId) && IsIdentifier(c.remote.warden)
    && IsIdentifier(c.remote.lease) && IsIdentifier(c.remote.lineage) && IsIdentifier(c.remote.subject)
    && IsIdentifier(c.audience) && IsIdentifier(c.transition) && IsIdentifier(c.nonce)
    && B.IsLetsDigest(c.policyDigest) && B.IsLetsDigest(c.machineDigest)
    && (c.evidenceDigest.Some? ==> B.IsLetsDigest(c.evidenceDigest.value))
    && Bounded(c.configEpoch, 1) && Bounded(c.resultingSequence, 1) && Bounded(c.issuedAt, 0) && Bounded(c.expiresAt, 1)
    && c.issuedAt < c.expiresAt && IsSha256(c.canonicalDigest)
    && AnchorOk(c.anchor) && c.anchor.audience == c.audience && c.anchor.tenantId == c.tenantId
    && c.anchor.envelopeId == c.envelopeId && c.anchor.configEpoch == c.configEpoch
    && c.anchor.claimSequence >= 1 && c.anchor.clockFloor.Some? && c.anchor.confirmedAt >= c.claimedAt
  }

  predicate WatermarkOk(w: Watermark) {
    && IsIdentifier(w.warden) && IsIdentifier(w.lease) && IsIdentifier(w.audience)
    && Bounded(w.lastSequence, 1) && Bounded(w.expiresAt, 1) && Bounded(w.version, 0)
  }

  datatype Db = Db(bindings: B.Table, effects: E.Table, claims: map<string, Claim>,
                   watermarks: map<SequenceKey, Watermark>, outbox: O.Table)

  // The hash functions the repository is built with.
  datatype Hashes = Hashes(pending: string -> string, sha256: Bytes -> Digest)

  // One call: the claim and the three values that must go with it.
  datatype Request = Request(claim: Claim, watermark: Watermark, effect: E.Effect, entry: O.Entry)

  // Constructed values are always well formed; the repository requires no more.
  predicate RequestOk(q: Request) { ClaimOk(q.claim) && WatermarkOk(q.watermark) && E.WellFormed(q.effect) }

  datatype Failure = ClaimConflict | WatermarkConflict | ValidationError | EffectRefused(E.Failure)
                   | OutboxRefused(O.Failure)

  datatype Outcome = Accepted | Existing | Raised(failure: Failure)

  // The receipt must agree with its active binding and its effect.
  predicate RelationshipsOk(c: Claim, b: B.Binding, e: E.Effect) {
    && (b.ownerId, b.bindingId, b.tenantId, b.envelopeId) == (c.ownerId, c.bindingId, c.tenantId, c.envelopeId)
    && b.remote == c.remote
    && (b.policyDigest, b.machineDigest, b.configEpoch) == (c.policyDigest, c.machineDigest, c.configEpoch)
    && b.state == B.Active
    && e.intent.agentId == b.agentId && e.intent.capability in b.capabilities
    && e.intent.expectedSequence == b.leaseSequence && c.resultingSequence == e.intent.expectedSequence + 1
    && c.expiresAt <= b.leaseExpires
    && (e.intent.ownerId, e.intent.operationId, e.intent.bindingId) == (c.ownerId, c.operationId, c.bindingId)
    && (e.intent.audience, e.intent.transition, e.intent.nonce) == (c.audience, c.transition, c.nonce)
    && (c.evidenceDigest.Some? ==> WithoutPrefix(c.evidenceDigest.value) == e.intent.effectDigest)
  }

  function WithoutPrefix(s: string): string { if "sha256:" <= s then s[7..] else s }

  // The five unique keys of the claim table.
  predicate Clashes(a: Claim, b: Claim) {
    || a.receiptId == b.receiptId || a.operationId == b.operationId || a.canonicalDigest == b.canonicalDigest
    || (a.tenantId, a.envelopeId, a.audience, a.nonce) == (b.tenantId, b.envelopeId, b.audience, b.nonce)
    || (KeyOf(a) == KeyOf(b) && a.resultingSequence == b.resultingSequence)
  }

  predicate Rejected(db: Db, c: Claim) { exists id <- db.claims :: Clashes(db.claims[id], c) }

  predicate EvidenceMatches(e: E.Effect, c: Claim) {
    e.receiptId == Some(c.receiptId) && e.receiptDigest == Some(c.canonicalDigest)
  }

  predicate NewTransitionOk(current: E.Effect, next: E.Effect, c: Claim) {
    && E.SameIntent(current, next)
    && current.status == E.ReceiptReceived && next.status == E.ReceiptClaimed
    && next.version == current.version + 1 && EvidenceMatches(next, c)
  }

  const ClaimedStatuses := {E.ReceiptClaimed, E.Executing, E.Succeeded, E.EffectFailed, E.OutcomeUncertain}

  predicate WatermarkRepresents(w: Watermark, c: Claim) {
    WatermarkKey(w) == KeyOf(c) && w.lastSequence == c.resultingSequence && w.expiresAt == c.expiresAt
  }

  // The guard of the watermark upsert.
  predicate WatermarkAdvances(db: Db, w: Watermark) {
    WatermarkKey(w) in db.watermarks ==>
      var stored := db.watermarks[WatermarkKey(w)];
      stored.lastSequence < w.lastSequence && stored.version + 1 == w.version && stored.updatedAt <= w.updatedAt
  }

  predicate Located(db: Db, c: Claim) {
    && c.bindingId in db.bindings && db.bindings[c.bindingId].ownerId == c.ownerId
    && c.operationId in db.effects && db.effects[c.operationId].intent.ownerId == c.ownerId
    && RelationshipsOk(c, db.bindings[c.bindingId], db.effects[c.operationId])
  }

  // Everything that must hold for a new claim to go through.
  predicate Acceptable(hs: Hashes, db: Db, q: Request) {
    && Located(db, q.claim) && !Rejected(db, q.claim)
    && NewTransitionOk(db.effects[q.claim.operationId], q.effect, q.claim)
    && WatermarkRepresents(q.watermark, q.claim) && WatermarkAdvances(db, q.watermark)
    && !E.ReceiptTakenByOther(db.effects, q.effect)
    && O.Step(hs.sha256, db.outbox, O.Enqueue(q.entry)).1 in {O.Inserted, O.Replayed}
  }

  // The error names what is wrong: each later one is raised only when everything checked
  // before it was in order.
  predicate ReasonOk(hs: Hashes, db: Db, q: Request, failure: Failure) {
    var clear := Located(db, q.claim) && !Rejected(db, q.claim);
    var moves := clear && NewTransitionOk(db.effects[q.claim.operationId], q.effect, q.claim);
    match failure
    case ClaimConflict => !moves
    case ValidationError => moves && !WatermarkRepresents(q.watermark, q.claim)
    case WatermarkConflict =>
      moves && WatermarkRepresents(q.watermark, q.claim) && !WatermarkAdvances(db, q.watermark)
    case EffectRefused(f) =>
      && moves && WatermarkRepresents(q.watermark, q.claim) && WatermarkAdvances(db, q.watermark)
      && E.ReceiptTakenByOther(db.effects, q.effect) && f == E.UniqueViolation
    case OutboxRefused(f) =>
      && moves && WatermarkRepresents(q.watermark, q.claim) && WatermarkAdvances(db, q.watermark)
      && !E.ReceiptTakenByOther(db.effects, q.effect)
      && O.Step(hs.sha256, db.outbox, O.Enqueue(q.entry)).1 == O.Refused(f)
  }

  // The repeat of a stored claim that is answered with the stored claim.
  predicate Repeats(db: Db, c: Claim) {
    && Located(db, c) && c.receiptId in db.claims && db.claims[c.receiptId] == c
    && db.effects[c.operationId].status in ClaimedStatuses && EvidenceMatches(db.effects[c.operationId], c)
  }

  // The four tables after an accepted claim.
  function AfterAccept(hs: Hashes, db: Db, q: Request): Db {
    db.(claims := db.claims[q.claim.receiptId := q.claim],
        watermarks := db.watermarks[WatermarkKey(q.watermark) := q.watermark],
        effects := db.effects[q.claim.operationId := q.effect],
        outbox := O.Step(hs.sha256, db.outbox, O.Enqueue(q.entry)).0)
  }

  // ---- the repository ----

  class AuthorityRepository {
    const hashes: Hashes
    var bindings: B.Table
    var effects: E.Table
    var claims: map<string, Claim>
    var watermarks: map<SequenceKey, Watermark>
    const outbox: O.PostgresOutboxStore

    function State(): Db
      reads this, outbox
    {
      Db(bindings, effects, claims, watermarks, outbox.rows)
    }

    constructor (hs: Hashes, store: O.PostgresOutboxStore)
      requires hs.sha256 == store.sha256
      ensures hashes == hs && outbox == store && State() == Db(map[], map[], map[], map[], store.rows)
    {
      hashes, outbox := hs, store;
      bindings, effects, claims, watermarks := map[], map[], map[], map[];
    }

    method ClaimReceipt(q: Request) returns (outcome: Outcome)
      requires hashes.sha256 == outbox.sha256
      requires ClaimsUnique(claims) && O.Keyed(outbox.rows) && O.KeysUnique(outbox.rows)
      modifies this, outbox
      ensures outcome.Accepted? <==> Acceptable(hashes, old(State()), q)
      ensures outcome.Existing? <==> Repeats(old(State()), q.claim)
      ensures State() == if outcome.Accepted? then AfterAccept(hashes, old(State()), q) else old(State())
      ensures outcome.Raised? ==> ReasonOk(hashes, old(State()), q, outcome.failure)
    {
      var claim := q.claim;
      if claim.bindingId !in bindings || bindings[claim.bindingId].ownerId != claim.ownerId
         || claim.operationId !in effects || effects[claim.operationId].intent.ownerId != claim.ownerId {
        return Raised(ClaimConflict);
      }
      var current := effects[claim.operationId];
      if !RelationshipsOk(claim, bindings[claim.bindingId], current) { return Raised(ClaimConflict); }
      assert Located(State(), claim);
      if exists id <- claims :: Clashes(claims[id], claim) {
        outcome := AnswerRepeat(claim, current);
      } else {
        outcome := InsertClaim(q, current);
      }
    }

    // The savepoint of a new claim: the claim row goes in first, and every later
    // failure rolls all tables back to the state at entry.
    method InsertClaim(q: Request, current: E.Effect) returns (outcome: Outcome)
      requires hashes.sha256 == outbox.sha256 && O.Keyed(outbox.rows) && O.KeysUnique(outbox.rows)
      requires q.claim.operationId in effects && effects[q.claim.operationId] == current
      requires Located(State(), q.claim) && !Rejected(State(), q.claim)
      modifies this, outbox
      ensures !outcome.Existing? && (outcome.Accepted? <==> Acceptable(hashes, old(State()), q))
      ensures State() == if outcome.Accepted? then AfterAccept(hashes, old(State()), q) else old(State())
      ensures outcome.Raised? ==> ReasonOk(hashes, old(State()), q, outcome.failure)
    {
      var savedClaims, savedWatermarks, savedEffects := claims, watermarks, effects;
      var refused := ChangeAuthorityTables(q, current);
      if refused.Some? {
        claims, watermarks, effects := savedClaims, savedWatermarks, savedEffects;
        return Raised(refused.value);
      }
      var queued := outbox.Enqueue(q.entry);
      if queued.Refused? {
        claims, watermarks, effects := savedClaims, savedWatermarks, savedEffects;
        return Raised(OutboxRefused(queued.failure));
      }
      return Accepted;
    }

    // The three changes of the authority tables, in order, up to the first refusal.
    method ChangeAuthorityTables(q: Request, current: E.Effect) returns (refused: Option<Failure>)
      requires q.claim.operationId in effects && effects[q.claim.operationId] == current
      requires current.intent.operationId == q.claim.operationId
      modifies this`claims, this`watermarks, this`effects
      ensures refused.None? <==> && NewTransitionOk(current, q.effect, q.claim)
                                 && WatermarkRepresents(q.watermark, q.claim)
                                 && WatermarkAdvances(old(State()), q.watermark)
                                 && !E.ReceiptTakenByOther(old(effects), q.effect)
      ensures refused.Some? ==>
                refused.value == if !NewTransitionOk(current, q.effect, q.claim) then ClaimConflict
                                 else if !WatermarkRepresents(q.watermark, q.claim) then ValidationError
                                 else if !WatermarkAdvances(old(State()), q.watermark) then WatermarkConflict
                                 else EffectRefused(E.UniqueViolation)
      ensures refused.None? ==> && claims == old(claims)[q.claim.receiptId := q.claim]
                                && watermarks == old(watermarks)[WatermarkKey(q.watermark) := q.watermark]
                                && effects == old(effects)[q.claim.operationId := q.effect]
    {
      claims := claims[q.claim.receiptId := q.claim];
      if !NewTransitionOk(current, q.effect, q.claim) { return Some(ClaimConflict); }
      refused := AdvanceWatermark(q.watermark, q.claim);
      if refused.Some? { return; }
      var moved := TransitionEffect(q.effect, current.status, current.version);
      return if moved.Refused? then Some(EffectRefused(moved.failure)) else None;
    }

    // Reads back whichever stored claim of this owner clashes and compares it.
    method AnswerRepeat(claim: Claim, current: E.Effect) returns (outcome: Outcome)
      requires ClaimsUnique(claims) && exists id <- claims :: Clashes(claims[id], claim)
      ensures outcome == if claim.receiptId in claims && claims[claim.receiptId] == claim
                            && current.status in ClaimedStatuses && EvidenceMatches(current, claim)
                         then Existing else Raised(ClaimConflict)
    {
      if id :| id in claims && claims[id].ownerId == claim.ownerId && Clashes(claims[id], claim) {
        if claims[id] == claim && current.status in ClaimedStatuses && EvidenceMatches(current, claim) {
          return Existing;
        }
      }
      return Raised(ClaimConflict);
    }

    method AdvanceWatermark(w: Watermark, claim: Claim) returns (refused: Option<Failure>)
      modifies this`watermarks
      ensures refused.None? <==> WatermarkRepresents(w, claim) && WatermarkAdvances(old(State()), w)
      ensures refused.Some? ==>
                refused.value == if WatermarkRepresents(w, claim) then WatermarkConflict else ValidationError
      ensures watermarks == if refused.None? then old(watermarks)[WatermarkKey(w) := w] else old(watermarks)
    {
      if !WatermarkRepresents(w, claim) { return Some(ValidationError); }
      if WatermarkKey(w) in watermarks {
        var stored := watermarks[WatermarkKey(w)];
        if stored.lastSequence >= w.lastSequence || stored.version + 1 != w.version || stored.updatedAt > w.updatedAt {
          return Some(WatermarkConflict);
        }
      }
      watermarks := watermarks[WatermarkKey(w) := w];
      return None;
    }

    method CreateBinding(b: B.Binding, read: string) returns (reply: B.Reply)
      modifies this`bindings
      ensures (bindings, reply) == B.Step(hashes.pending, old(bindings), B.Create(b, read))
    {
      if !B.WellFormed(hashes.pending, b) { return B.Refused(B.ValidationError); }
      if exists id <- bindings :: B.Clashes(bindings[id], b) {
        if read in bindings && B.FoundByConflictRead(bindings[read], b) && bindings[read] == b { return B.Done(b); }
        return B.Refused(B.IdempotencyConflict);
      }
      bindings := bindings[b.bindingId := b];
      return B.Done(b);
    }

    // The fenced update sets the lifecycle columns of the row; a row that then differs
    // from the replacement is rolled back.
    method TransitionBinding(b: B.Binding, expectedState: B.State, expectedVersion: int) returns (reply: B.Reply)
      requires B.WellFormed(hashes.pending, b)
      modifies this`bindings
      ensures (bindings, reply) == B.Step(hashes.pending, old(bindings),
                                          B.Transition(b, expectedState, expectedVersion))
    {
      if expectedVersion < 0 || b.version != expectedVersion + 1 { return B.Refused(B.ValidationError); }
      if B.Terminal(expectedState) { return B.Refused(B.CompareAndSetConflict); }
      var id := b.bindingId;
      if id !in bindings || B.WithLifecycle(bindings[id].(createdAt := b.createdAt), b) != b
         || bindings[id].state != expectedState || bindings[id].version != expectedVersion {
        return B.Refused(B.CompareAndSetConflict);
      }
      var saved := bindings;
      bindings := bindings[id := B.WithLifecycle(bindings[id], b)];
      if bindings[id] != b {
        bindings := saved;
        return B.Refused(B.DataError);
      }
      return B.Done(b);
    }

    method ActivateBinding(b: B.Binding, expectedVersion: int) returns (reply: B.Reply)
      requires B.WellFormed(hashes.pending, b)
      modifies this`bindings
      ensures (bindings, reply) == B.Step(hashes.pending, old(bindings), B.Activate(b, expectedVersion))
    {
      if expectedVersion < 0 || b.version != expectedVersion + 1 { return B.Refused(B.ValidationError); }
      if b.state != B.Active { return B.Refused(B.ValidationError); }
      var id := b.bindingId;
      if id !in bindings || B.WithLifecycle(bindings[id].(remote := b.remote), b) != b
         || bindings[id].remote != B.PendingRemote(hashes.pending, id) || bindings[id].leaseSequence != 0
         || bindings[id].leaseExpires != 0 || bindings[id].state != B.Provisioning
         || bindings[id].version != expectedVersion {
        return B.Refused(B.CompareAndSetConflict);
      }
      bindings := bindings[id := B.WithLifecycle(bindings[id].(remote := b.remote), b)];
      return B.Done(b);
    }

    method AbandonProvisioningBinding(b: B.Binding, expectedVersion: int) returns (reply: B.Reply)
      requires B.WellFormed(hashes.pending, b)
      modifies this`bindings
      ensures (bindings, reply) == B.Step(hashes.pending, old(bindings), B.Abandon(b, expectedVersion))
    {
      if b.state != B.Closed { return B.Refused(B.ValidationError); }
      if b.remote != B.PendingRemote(hashes.pending, b.bindingId) || b.leaseSequence != 0 || b.leaseExpires != 0 {
        return B.Refused(B.ValidationError);
      }
      reply := TransitionBinding(b, B.Provisioning, expectedVersion);
    }

    method CreateProtectedEffect(e: E.Effect, read: string) returns (reply: E.Reply)
      modifies this`effects
      ensures (effects, reply) == E.Step(old(effects), E.Create(e, read))
    {
      var id := e.intent.operationId;
      if !E.WellFormed(e) { return E.Refused(E.ValidationError); }
      if id in effects || E.NonceTakenByOther(effects, e.intent) || E.ReceiptTakenByOther(effects, e) {
        if read in effects && E.FoundByConflictRead(effects[read], e.intent) && E.SameIntent(effects[read], e) {
          return E.Done(effects[read]);
        }
        return E.Refused(E.IdempotencyConflict);
      }
      effects := effects[id := e];
      return E.Done(e);
    }

    method TransitionEffect(next: E.Effect, expectedStatus: E.Status, expectedVersion: int) returns (reply: E.Reply)
      modifies this`effects
      ensures (effects, reply) == E.TransitionStep(old(effects), next, expectedStatus, expectedVersion)
    {
      var id := next.intent.operationId;
      if expectedVersion < 0 || next.version != expectedVersion + 1 { return E.Refused(E.ValidationError); }
      if next.status !in E.Allowed(expectedStatus) { return E.Refused(E.CompareAndSetConflict); }
      if id !in effects || effects[id].intent != next.intent || effects[id].status != expectedStatus
         || effects[id].version != expectedVersion {
        return E.Refused(E.CompareAndSetConflict);
      }
      if E.ReceiptTakenByOther(effects, next) { return E.Refused(E.UniqueViolation); }
      var saved := effects;
      effects := effects[id := next.(createdAt := effects[id].createdAt)];
      if effects[id] != next {
        effects := saved;
        return E.Refused(E.DataError);
      }
      return E.Done(next);
    }
  }

  predicate ClaimsUnique(claims: map<string, Claim>) {
    && (forall id <- claims :: claims[id].receiptId == id)
    && (forall a, b :: a in claims && b in claims && a != b ==> !Clashes(claims[a], claims[b]))
  }
}
