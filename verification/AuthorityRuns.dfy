// Whole runs of the authority repository: binding, effect, claim and outbox calls of
// any callers in any order.
module AuthorityRuns {
  import opened Common
  import opened Fences
  import opened ReceiptClaims
  import B = AuthorityBindings
  import E = AuthorityEffects
  import O = Outbox

  datatype Event =
    | BindingCall(binding: B.Event)
    | EffectCall(effect: E.Event)
    | ClaimCall(request: Request)
    | OutboxCall(outbox: O.Event)

  // An effect row must refer to a stored binding of its owner.
  predicate Refers(db: Db, e: E.Event) {
    e.Create? ==> e.effect.intent.bindingId in db.bindings
                  && db.bindings[e.effect.intent.bindingId].ownerId == e.effect.intent.ownerId
  }

  function Step(hs: Hashes, db: Db, e: Event): Db {
    match e
    case BindingCall(b) => db.(bindings := B.Step(hs.pending, db.bindings, b).0)
    case EffectCall(x) => if Refers(db, x) then db.(effects := E.Step(db.effects, x).0) else db
    case ClaimCall(q) => if Accepts(hs, db, e) then AfterAccept(hs, db, q) else db
    case OutboxCall(o) => db.(outbox := O.Step(hs.sha256, db.outbox, o).0)
  }

  // The event is a claim that goes through.
  predicate Accepts(hs: Hashes, db: Db, e: Event) {
    e.ClaimCall? && RequestOk(e.request) && Acceptable(hs, db, e.request)
  }

  // The answer to a claim call, in the three ways it can end.
  function Answer(hs: Hashes, db: Db, q: Request): Option<Outcome> {
    if Acceptable(hs, db, q) then Some(Accepted)
    else if Repeats(db, q.claim) then Some(Existing)
    else None // raised, with nothing changed
  }

  // What one call does to claims, watermarks and effects, without the rest.
  predicate Moves(db: Db, e: Event, accepted: bool, after: Db) {
    if accepted then
      && e.ClaimCall? && Located(db, e.request.claim) && !Rejected(db, e.request.claim)
      && NewTransitionOk(db.effects[e.request.claim.operationId], e.request.effect, e.request.claim)
      && WatermarkRepresents(e.request.watermark, e.request.claim) && WatermarkAdvances(db, e.request.watermark)
      && after.claims == db.claims[e.request.claim.receiptId := e.request.claim]
      && after.watermarks == db.watermarks[KeyOf(e.request.claim) := e.request.watermark]
      && after.effects == db.effects[e.request.claim.operationId := e.request.effect]
    else
      after.claims == db.claims && after.watermarks == db.watermarks && EffectsMove(db.effects, after.effects)
  }

  predicate EffectsMove(before: E.Table, after: E.Table) {
    forall id <- before :: id in after && (after[id] == before[id] || E.TableMove(before[id], after[id]))
  }

  lemma EffectCallMoves(t: E.Table, e: E.Event)
    ensures EffectsMove(t, E.Step(t, e).0)
  {
    forall id | id in t
      ensures id in E.Step(t, e).0 && (E.Step(t, e).0[id] == t[id] || E.TableMove(t[id], E.Step(t, e).0[id]))
    {
      E.StepIsTableMove(t, e, id);
    }
  }

  lemma StepMoves(hs: Hashes, db: Db, e: Event)
    ensures Moves(db, e, Accepts(hs, db, e), Step(hs, db, e))
  {
    if e.EffectCall? { EffectCallMoves(db.effects, e.effect); }
  }

  // ---- the watermark is the largest claimed sequence ----

  predicate Covered(claims: map<string, Claim>, marks: map<SequenceKey, Watermark>) {
    forall id <- claims :: KeyOf(claims[id]) in marks
                           && claims[id].resultingSequence <= marks[KeyOf(claims[id])].lastSequence
  }

  ghost predicate Attained(claims: map<string, Claim>, marks: map<SequenceKey, Watermark>) {
    forall k <- marks :: WatermarkKey(marks[k]) == k
      && exists id <- claims :: KeyOf(claims[id]) == k && claims[id].resultingSequence == marks[k].lastSequence
  }

  ghost predicate Inv(db: Db) {
    ClaimsUnique(db.claims) && Covered(db.claims, db.watermarks) && Attained(db.claims, db.watermarks)
  }

  lemma ClashIsSymmetric(a: Claim, b: Claim)
    ensures Clashes(a, b) == Clashes(b, a)
  {
  }

  lemma AcceptKeepsUnique(db: Db, c: Claim)
    requires ClaimsUnique(db.claims) && !Rejected(db, c)
    ensures ClaimsUnique(db.claims[c.receiptId := c]) && c.receiptId !in db.claims
  {
    forall id | id in db.claims ensures !Clashes(db.claims[id], c) && !Clashes(c, db.claims[id]) {
      ClashIsSymmetric(db.claims[id], c);
    }
    assert c.receiptId in db.claims ==> Clashes(db.claims[c.receiptId], c);
  }

  lemma AcceptKeepsMarks(claims: map<string, Claim>, marks: map<SequenceKey, Watermark>, c: Claim, w: Watermark)
    requires Covered(claims, marks) && Attained(claims, marks) && c.receiptId !in claims
    requires WatermarkRepresents(w, c) && (KeyOf(c) in marks ==> marks[KeyOf(c)].lastSequence < w.lastSequence)
    ensures Covered(claims[c.receiptId := c], marks[WatermarkKey(w) := w])
    ensures Attained(claims[c.receiptId := c], marks[WatermarkKey(w) := w])
  {
    var claims', marks' := claims[c.receiptId := c], marks[WatermarkKey(w) := w];
    forall k | k in marks'
      ensures exists id <- claims' :: KeyOf(claims'[id]) == k && claims'[id].resultingSequence == marks'[k].lastSequence
    {
      if k == KeyOf(c) {
        assert claims'[c.receiptId] == c;
      } else {
        var id :| id in claims && KeyOf(claims[id]) == k && claims[id].resultingSequence == marks[k].lastSequence;
        assert claims'[id] == claims[id];
      }
    }
  }

  lemma MovesKeepInv(db: Db, e: Event, accepted: bool, after: Db)
    requires Inv(db) && Moves(db, e, accepted, after)
    ensures Inv(after)
  {
    if accepted {
      AcceptKeepsUnique(db, e.request.claim);
      AcceptKeepsMarks(db.claims, db.watermarks, e.request.claim, e.request.watermark);
    }
  }

  // ---- runs ----

  // `accepted[i]` records whether event `i` was a claim that went through.
  datatype History = History(states: seq<Db>, events: seq<Event>, accepted: seq<bool>)

  predicate Linked(hs: Hashes, h: History, i: nat)
    requires |h.states| == |h.events| + 1 == |h.accepted| + 1 && i < |h.events|
  {
    Step(hs, h.states[i], h.events[i]) == h.states[i + 1] && h.accepted[i] == Accepts(hs, h.states[i], h.events[i])
  }

  ghost predicate Run(hs: Hashes, h: History) {
    && |h.states| == |h.events| + 1 == |h.accepted| + 1 && Inv(h.states[0])
    && forall i | 0 <= i < |h.events| :: Linked(hs, h, i)
  }

  lemma MovesAt(hs: Hashes, h: History, n: nat)
    requires Run(hs, h) && n < |h.events|
    ensures Moves(h.states[n], h.events[n], h.accepted[n], h.states[n + 1])
  {
    assert Linked(hs, h, n);
    StepMoves(hs, h.states[n], h.events[n]);
  }

  lemma {:induction false} ReachableInv(hs: Hashes, h: History, n: nat)
    requires Run(hs, h) && n < |h.states|
    ensures Inv(h.states[n])
  {
    if n > 0 {
      ReachableInv(hs, h, n - 1);
      MovesAt(hs, h, n - 1);
      MovesKeepInv(h.states[n - 1], h.events[n - 1], h.accepted[n - 1], h.states[n]);
    }
  }

  // In every reachable state the stored watermark of a key with claims is the largest
  // sequence among them.
  lemma WatermarkIsLargestClaim(hs: Hashes, h: History, n: nat, k: SequenceKey)
    requires Run(hs, h) && n < |h.states|
    ensures var db := h.states[n];
            && (k in db.watermarks <==> exists id <- db.claims :: KeyOf(db.claims[id]) == k)
            && (k in db.watermarks ==>
                  && (exists id <- db.claims :: KeyOf(db.claims[id]) == k
                                                && db.claims[id].resultingSequence == db.watermarks[k].lastSequence)
                  && (forall id <- db.claims :: KeyOf(db.claims[id]) == k
                                                ==> db.claims[id].resultingSequence <= db.watermarks[k].lastSequence))
  {
    ReachableInv(hs, h, n);
  }

  function MarksOf(h: History): seq<map<SequenceKey, Watermark>> {
    seq(|h.states|, i requires 0 <= i < |h.states| => h.states[i].watermarks)
  }
  function MarkVersion(w: Watermark): nat { w.version }

  lemma MarksCount(hs: Hashes, h: History)
    requires Run(hs, h)
    ensures Counts(MarksOf(h), MarkVersion)
  {
    forall i, j | 0 <= i && j == i + 1 && j < |MarksOf(h)|
      ensures StepCounts(MarksOf(h)[i], MarksOf(h)[j], MarkVersion)
    {
      MovesAt(hs, h, i);
    }
  }

  lemma MarkAt(hs: Hashes, h: History, n: nat, k: SequenceKey)
    requires Run(hs, h) && n < |h.events| && k in h.states[n].watermarks
    ensures k in h.states[n + 1].watermarks
    ensures h.states[n].watermarks[k].lastSequence <= h.states[n + 1].watermarks[k].lastSequence
  {
    MovesAt(hs, h, n);
  }

  // Between two moments of a run a watermark never falls.
  lemma {:induction false} WatermarkRises(hs: Hashes, h: History, i: nat, j: nat, k: SequenceKey)
    requires Run(hs, h) && i <= j < |h.states| && k in h.states[i].watermarks
    ensures k in h.states[j].watermarks
    ensures h.states[i].watermarks[k].lastSequence <= h.states[j].watermarks[k].lastSequence
    decreases j
  {
    if i < j {
      WatermarkRises(hs, h, i, j - 1, k);
      MarkAt(hs, h, j - 1, k);
    }
  }

  // The version of a watermark is its first version plus the number of its advances.
  lemma MarkVersionCountsAdvances(hs: Hashes, h: History, i: nat, j: nat, k: SequenceKey)
    requires Run(hs, h) && i <= j < |h.states| && k in h.states[i].watermarks
    ensures k in h.states[j].watermarks && forall n :: i <= n <= j ==> k in MarksOf(h)[n]
    ensures h.states[j].watermarks[k].version == h.states[i].watermarks[k].version + Changes(MarksOf(h), k, i, j)
  {
    MarksCount(hs, h);
    RowStays(MarksOf(h), MarkVersion, k, i, j);
    VersionCountsChanges(MarksOf(h), MarkVersion, k, i, j);
  }

  lemma AcceptanceMarks(hs: Hashes, h: History, n: nat)
    requires Run(hs, h) && n < |h.events| && h.accepted[n]
    ensures h.events[n].ClaimCall?
    ensures var c := h.events[n].request.claim;
            && KeyOf(c) in h.states[n + 1].watermarks
            && h.states[n + 1].watermarks[KeyOf(c)].lastSequence == c.resultingSequence
            && (KeyOf(c) in h.states[n].watermarks
                ==> h.states[n].watermarks[KeyOf(c)].lastSequence < c.resultingSequence)
  {
    MovesAt(hs, h, n);
  }

  // Later claims of the same warden, lease and audience carry larger sequences.
  lemma SequencesRise(hs: Hashes, h: History, i: nat, j: nat)
    requires Run(hs, h) && i < j < |h.events| && h.accepted[i] && h.accepted[j]
    requires h.events[i].ClaimCall? && h.events[j].ClaimCall?
    requires KeyOf(h.events[i].request.claim) == KeyOf(h.events[j].request.claim)
    ensures h.events[i].request.claim.resultingSequence < h.events[j].request.claim.resultingSequence
  {
    AcceptanceMarks(hs, h, i);
    WatermarkRises(hs, h, i + 1, j, KeyOf(h.events[i].request.claim));
    AcceptanceMarks(hs, h, j);
  }

  // The lease sequence the claim's binding has when event `n` is handled.
  function LeaseSequenceAt(h: History, n: nat): Option<int>
    requires n < |h.events| && n < |h.states| && h.events[n].ClaimCall?
  {
    var id := h.events[n].request.claim.bindingId;
    if id in h.states[n].bindings then Some(h.states[n].bindings[id].leaseSequence) else None
  }

  // For one warden, lease and audience at most one claim is ever accepted per value
  // the binding's lease sequence has at acceptance.
  lemma OneClaimPerLeaseSequence(hs: Hashes, h: History, i: nat, j: nat)
    requires Run(hs, h) && i < |h.events| && j < |h.events| && h.accepted[i] && h.accepted[j]
    requires h.events[i].ClaimCall? && h.events[j].ClaimCall?
    requires KeyOf(h.events[i].request.claim) == KeyOf(h.events[j].request.claim)
    requires LeaseSequenceAt(h, i) == LeaseSequenceAt(h, j)
    ensures i == j
  {
    AcceptanceHolds(hs, h, i, i + 1);
    AcceptanceHolds(hs, h, j, j + 1);
    if i < j { SequencesRise(hs, h, i, j); }
    if j < i { SequencesRise(hs, h, j, i); }
  }

  // ---- bindings in a run of the repository ----

  lemma BindingsAt(hs: Hashes, h: History, n: nat)
    requires Run(hs, h) && n < |h.events|
    ensures if h.events[n].BindingCall?
            then h.states[n + 1].bindings == B.Step(hs.pending, h.states[n].bindings, h.events[n].binding).0
            else h.states[n + 1].bindings == h.states[n].bindings
  {
    assert Linked(hs, h, n);
  }

  lemma {:induction false} BindingsStayLegal(hs: Hashes, h: History, n: nat)
    requires Run(hs, h) && B.Inv(hs.pending, h.states[0].bindings) && n < |h.states|
    ensures B.Inv(hs.pending, h.states[n].bindings)
  {
    if n > 0 {
      BindingsStayLegal(hs, h, n - 1);
      BindingsAt(hs, h, n - 1);
      if h.events[n - 1].BindingCall? { B.StepKeepsInv(hs.pending, h.states[n - 1].bindings, h.events[n - 1].binding); }
    }
  }

  lemma BindingMoveAt(hs: Hashes, h: History, id: string, n: nat)
    requires Run(hs, h) && B.Inv(hs.pending, h.states[0].bindings) && n < |h.events| && id in h.states[n].bindings
    ensures id in h.states[n + 1].bindings
    ensures var a, b := h.states[n].bindings[id], h.states[n + 1].bindings[id];
            a == b || B.LifecycleMove(hs.pending, a, b)
  {
    BindingsStayLegal(hs, h, n);
    BindingsAt(hs, h, n);
    assert B.WellFormed(hs.pending, h.states[n].bindings[id]);
    if h.events[n].BindingCall? { B.StepIsLifecycleMove(hs.pending, h.states[n].bindings, h.events[n].binding, id); }
  }

  // A binding keeps through any run of the repository what its life cycle keeps, in
  // particular its remote identities once they are issued.
  lemma {:induction false} BindingKept(hs: Hashes, h: History, id: string, i: nat, j: nat)
    requires Run(hs, h) && B.Inv(hs.pending, h.states[0].bindings) && i <= j < |h.states| && id in h.states[i].bindings
    ensures id in h.states[j].bindings && B.LifecycleKept(h.states[i].bindings[id], h.states[j].bindings[id])
    decreases j
  {
    if i < j {
      BindingKept(hs, h, id, i, j - 1);
      BindingMoveAt(hs, h, id, j - 1);
    }
  }

  lemma SameBindingSameKey(hs: Hashes, h: History, i: nat, j: nat)
    requires Run(hs, h) && B.Inv(hs.pending, h.states[0].bindings) && i <= j < |h.events| && h.accepted[i]
             && h.accepted[j]
    requires h.events[i].ClaimCall? && h.events[j].ClaimCall?
    requires h.events[i].request.claim.bindingId == h.events[j].request.claim.bindingId
    ensures h.events[i].request.claim.remote == h.events[j].request.claim.remote
  {
    AcceptanceHolds(hs, h, i, i + 1);
    AcceptanceHolds(hs, h, j, j + 1);
    BindingKept(hs, h, h.events[i].request.claim.bindingId, i, j);
  }

  // For one binding and audience at most one claim is ever accepted per value of the
  // binding's lease sequence, even if that sequence is set back.
  lemma OneClaimPerBindingSequence(hs: Hashes, h: History, i: nat, j: nat)
    requires Run(hs, h) && B.Inv(hs.pending, h.states[0].bindings)
    requires i < |h.events| && j < |h.events| && h.accepted[i] && h.accepted[j]
    requires h.events[i].ClaimCall? && h.events[j].ClaimCall?
    requires h.events[i].request.claim.bindingId == h.events[j].request.claim.bindingId
    requires h.events[i].request.claim.audience == h.events[j].request.claim.audience
    requires LeaseSequenceAt(h, i) == LeaseSequenceAt(h, j)
    ensures i == j
  {
    if i <= j { SameBindingSameKey(hs, h, i, j); } else { SameBindingSameKey(hs, h, j, i); }
    OneClaimPerLeaseSequence(hs, h, i, j);
  }

  // The audience is part of the fence: a claim for another audience of the same
  // binding and lease sequence is not held back by the first.
  lemma AudiencesAreFencedApart(hs: Hashes, db: Db, q: Request, r: Request)
    requires Acceptable(hs, db, q) && Acceptable(hs, db, r) && q.claim.bindingId == r.claim.bindingId
    requires !Clashes(q.claim, r.claim) && q.claim.audience != r.claim.audience
    requires O.Step(hs.sha256, O.Step(hs.sha256, db.outbox, O.Enqueue(q.entry)).0, O.Enqueue(r.entry)).1
               in {O.Inserted, O.Replayed}
    ensures Acceptable(hs, AfterAccept(hs, db, q), r)
    ensures q.claim.resultingSequence == r.claim.resultingSequence
  {
    var after := AfterAccept(hs, db, q);
    assert !Rejected(after, r.claim);
    assert q.effect.receiptId == Some(q.claim.receiptId) && r.effect.receiptId == Some(r.claim.receiptId);
    assert !E.ReceiptTakenByOther(after.effects, r.effect);
  }

  // ---- what an accepted claim proves ----

  // The binding is active and is the claim's own in every identity and digest; it grants the
  // effect's agent and capability, and its lease outlasts the claim.
  predicate Grants(b: B.Binding, e: E.Effect, c: Claim) {
    && b.state == B.Active
    && (b.bindingId, b.ownerId, b.tenantId, b.envelopeId) == (c.bindingId, c.ownerId, c.tenantId, c.envelopeId)
    && (b.remote.warden, b.remote.lease) == (c.remote.warden, c.remote.lease)
    && (b.remote.lineage, b.remote.subject) == (c.remote.lineage, c.remote.subject)
    && (b.policyDigest, b.machineDigest, b.configEpoch) == (c.policyDigest, c.machineDigest, c.configEpoch)
    && e.intent.agentId == b.agentId && e.intent.capability in b.capabilities
    && c.expiresAt <= b.leaseExpires && c.resultingSequence == b.leaseSequence + 1
  }

  // The effect is the one the claim is for, expects the next sequence, and its digest is the
  // claim's evidence if the claim carries any.
  predicate Concerns(e: E.Effect, c: Claim) {
    && (e.intent.operationId, e.intent.ownerId, e.intent.bindingId) == (c.operationId, c.ownerId, c.bindingId)
    && (e.intent.audience, e.intent.transition, e.intent.nonce) == (c.audience, c.transition, c.nonce)
    && c.resultingSequence == e.intent.expectedSequence + 1
    && c.evidenceDigest in {None, Some("sha256:" + e.intent.effectDigest)}
  }

  // Nothing stored stands in the claim's way: no claim of this receipt, operation or digest,
  // none that used this nonce for this tenant, envelope and audience, none of this sequence.
  predicate Unclaimed(claims: map<string, Claim>, c: Claim) {
    forall id <- claims :: var d := claims[id];
      && d.receiptId != c.receiptId && d.operationId != c.operationId && d.canonicalDigest != c.canonicalDigest
      && (d.tenantId, d.envelopeId, d.audience, d.nonce) != (c.tenantId, c.envelopeId, c.audience, c.nonce)
      && (d.remote.warden, d.remote.lease, d.audience, d.resultingSequence)
         != (c.remote.warden, c.remote.lease, c.audience, c.resultingSequence)
  }

  // The effect moves from receipt received to receipt claimed with the claim's receipt.
  predicate ClaimsEffect(before: E.Effect, after: E.Effect, c: Claim) {
    && before.status == E.ReceiptReceived && after.status == E.ReceiptClaimed
    && after.intent == before.intent && after.createdAt == before.createdAt && after.version == before.version + 1
    && after.receiptId == Some(c.receiptId) && after.receiptDigest == Some(c.canonicalDigest)
  }

  // The watermark is the claim's, and it continues the stored one.
  predicate MarksClaim(marks: map<SequenceKey, Watermark>, w: Watermark, c: Claim) {
    && (w.warden, w.lease, w.audience) == (c.remote.warden, c.remote.lease, c.audience)
    && w.lastSequence == c.resultingSequence && w.expiresAt == c.expiresAt
    && (KeyOf(c) in marks ==> && marks[KeyOf(c)].lastSequence < w.lastSequence
                              && marks[KeyOf(c)].version + 1 == w.version && marks[KeyOf(c)].updatedAt <= w.updatedAt)
  }

  lemma EvidenceIsDigest(c: Claim, digest: string)
    requires c.evidenceDigest.Some? ==> B.IsLetsDigest(c.evidenceDigest.value)
    ensures (c.evidenceDigest.Some? ==> WithoutPrefix(c.evidenceDigest.value) == digest)
       <==> c.evidenceDigest in {None, Some("sha256:" + digest)}
  {
    if c.evidenceDigest.Some? {
      var s := c.evidenceDigest.value;
      assert s == s[..7] + s[7..] && s[..7] == "sha256:";
      assert ("sha256:" + digest)[7..] == digest;
    }
  }

  lemma RelationshipsAgree(c: Claim, b: B.Binding, e: E.Effect)
    requires ClaimOk(c)
    ensures RelationshipsOk(c, b, e) <==> Grants(b, e, c) && Concerns(e, c)
  {
    EvidenceIsDigest(c, e.intent.effectDigest);
  }

  lemma UnclaimedExactly(db: Db, c: Claim)
    ensures Unclaimed(db.claims, c) <==> !Rejected(db, c)
  {
  }

  lemma TransitionAgrees(before: E.Effect, after: E.Effect, c: Claim)
    ensures NewTransitionOk(before, after, c) <==> ClaimsEffect(before, after, c)
  {
  }

  lemma MarkAgrees(db: Db, w: Watermark, c: Claim)
    ensures WatermarkRepresents(w, c) && WatermarkAdvances(db, w) <==> MarksClaim(db.watermarks, w, c)
  {
  }

  lemma LocatedAgrees(db: Db, c: Claim)
    requires ClaimOk(c)
    ensures Located(db, c) <==> && c.bindingId in db.bindings && c.operationId in db.effects
                                && Grants(db.bindings[c.bindingId], db.effects[c.operationId], c)
                                && Concerns(db.effects[c.operationId], c)
  {
    if c.bindingId in db.bindings && c.operationId in db.effects {
      RelationshipsAgree(c, db.bindings[c.bindingId], db.effects[c.operationId]);
    }
  }

  // A claim is accepted exactly when its stored binding grants it and its stored effect is
  // the one concerned, nothing stored stands in its way, the effect and the watermark it
  // brings continue the stored ones, and the outbox takes its entry.
  lemma AcceptedExactly(hs: Hashes, db: Db, q: Request)
    requires forall id <- db.effects :: db.effects[id].intent.operationId == id
    requires RequestOk(q)
    ensures var c := q.claim;
            Accepts(hs, db, ClaimCall(q)) <==>
              && c.bindingId in db.bindings && c.operationId in db.effects
              && Grants(db.bindings[c.bindingId], db.effects[c.operationId], c)
              && Concerns(db.effects[c.operationId], c) && Unclaimed(db.claims, c)
              && ClaimsEffect(db.effects[c.operationId], q.effect, c)
              && (forall id <- db.effects :: id != c.operationId ==> db.effects[id].receiptId != Some(c.receiptId))
              && MarksClaim(db.watermarks, q.watermark, c)
              && !O.Step(hs.sha256, db.outbox, O.Enqueue(q.entry)).1.Refused?
  {
    var c := q.claim;
    O.EnqueueAnswers(hs.sha256, db.outbox, q.entry);
    UnclaimedExactly(db, c);
    LocatedAgrees(db, c);
    MarkAgrees(db, q.watermark, c);
    if c.operationId in db.effects { TransitionAgrees(db.effects[c.operationId], q.effect, c); }
  }

  // At every accepted claim of a run the stored binding is active and grants it, the stored
  // effect is the one concerned, and nothing stored stood in its way.
  lemma AcceptedClaimIsAuthorized(hs: Hashes, h: History, n: nat)
    requires Run(hs, h) && n < |h.events| && h.accepted[n]
    ensures h.events[n].ClaimCall?
    ensures var c, db := h.events[n].request.claim, h.states[n];
            && c.bindingId in db.bindings && c.operationId in db.effects
            && Grants(db.bindings[c.bindingId], db.effects[c.operationId], c)
            && Concerns(db.effects[c.operationId], c) && Unclaimed(db.claims, c)
  {
    assert Linked(hs, h, n);
    var c, db := h.events[n].request.claim, h.states[n];
    UnclaimedExactly(db, c);
    RelationshipsAgree(c, db.bindings[c.bindingId], db.effects[c.operationId]);
  }

  lemma AcceptedClaimIsQueued(hs: Hashes, h: History, n: nat)
    requires Run(hs, h) && n < |h.events| && h.accepted[n]
    ensures h.events[n].ClaimCall? && h.states[n + 1].bindings == h.states[n].bindings
    ensures var entry, before, after := h.events[n].request.entry, h.states[n].outbox, h.states[n + 1].outbox;
            && entry.entryId in after && after[entry.entryId].entry == O.Normalized(entry)
            && (forall id <- before :: id in after && after[id] == before[id])
  {
    assert Linked(hs, h, n);
    O.EnqueueAnswers(hs.sha256, h.states[n].outbox, h.events[n].request.entry);
  }

  // It changes four tables, each in one row: the claim is stored, its effect is claimed, its
  // watermark is the claim's, and its entry is in the outbox. No binding changes.
  lemma AcceptedClaimChanges(hs: Hashes, h: History, n: nat)
    requires Run(hs, h) && n < |h.events| && h.accepted[n]
    ensures h.events[n].ClaimCall?
    ensures var q, db, after := h.events[n].request, h.states[n], h.states[n + 1];
            var c := q.claim;
            && after.bindings == db.bindings
            && c.receiptId !in db.claims && after.claims == db.claims[c.receiptId := c]
            && c.operationId in db.effects && after.effects == db.effects[c.operationId := q.effect]
            && ClaimsEffect(db.effects[c.operationId], q.effect, c)
            && after.watermarks == db.watermarks[KeyOf(c) := q.watermark] && MarksClaim(db.watermarks, q.watermark, c)
            && q.entry.entryId in after.outbox && after.outbox[q.entry.entryId].entry == O.Normalized(q.entry)
            && (forall id <- db.outbox :: id in after.outbox && after.outbox[id] == db.outbox[id])
  {
    AcceptedClaimIsQueued(hs, h, n);
    ReachableInv(hs, h, n);
    MovesAt(hs, h, n);
    AcceptKeepsUnique(h.states[n], h.events[n].request.claim);
  }

  // The anchor an accepted claim carries is about the same audience, tenant, envelope and
  // configuration, and was confirmed no earlier than the claim was made.
  lemma AcceptedClaimIsAnchored(hs: Hashes, h: History, n: nat)
    requires Run(hs, h) && n < |h.events| && h.accepted[n]
    ensures h.events[n].ClaimCall?
    ensures var c := h.events[n].request.claim;
            && (c.anchor.audience, c.anchor.tenantId, c.anchor.envelopeId) == (c.audience, c.tenantId, c.envelopeId)
            && c.anchor.configEpoch == c.configEpoch && c.anchor.claimSequence >= 1
            && c.claimedAt <= c.anchor.confirmedAt && c.issuedAt < c.expiresAt
  {
    assert Linked(hs, h, n);
  }

  // Every effect refers to a stored binding of its owner.
  predicate AllRefer(bindings: B.Table, effects: E.Table) {
    forall id <- effects :: && effects[id].intent.bindingId in bindings
                            && bindings[effects[id].intent.bindingId].ownerId == effects[id].intent.ownerId
  }

  lemma EffectsKeepReferring(bindings: B.Table, before: E.Table, after: E.Table)
    requires AllRefer(bindings, before)
    requires forall id <- after :: if id in before then after[id].intent == before[id].intent
                                   else && after[id].intent.bindingId in bindings
                                        && bindings[after[id].intent.bindingId].ownerId == after[id].intent.ownerId
    ensures AllRefer(bindings, after)
  {
  }

  // A call adds an effect only if it refers, and changes no intent.
  lemma EffectsAt(hs: Hashes, h: History, n: nat, id: string)
    requires Run(hs, h) && n < |h.events| && id in h.states[n + 1].effects
    ensures var before, after := h.states[n].effects, h.states[n + 1].effects;
            if id in before then after[id].intent == before[id].intent
            else && after[id].intent.bindingId in h.states[n].bindings
                 && h.states[n].bindings[after[id].intent.bindingId].ownerId == after[id].intent.ownerId
  {
    assert Linked(hs, h, n);
    if h.events[n].EffectCall? && id in h.states[n].effects {
      E.StepIsTableMove(h.states[n].effects, h.events[n].effect, id);
    } else if h.events[n].ClaimCall? {
      MovesAt(hs, h, n);
    }
  }

  // In every run that starts with referring effects, an empty table for instance, every
  // effect refers to a stored binding of its owner.
  lemma {:induction false} EffectsRefer(hs: Hashes, h: History, n: nat)
    requires Run(hs, h) && B.Inv(hs.pending, h.states[0].bindings) && n < |h.states|
    requires AllRefer(h.states[0].bindings, h.states[0].effects)
    ensures AllRefer(h.states[n].bindings, h.states[n].effects)
  {
    if n > 0 {
      var i := n - 1;
      EffectsRefer(hs, h, i);
      forall id | id in h.states[n].effects
        ensures var before, after := h.states[i].effects, h.states[n].effects;
                if id in before then after[id].intent == before[id].intent
                else && after[id].intent.bindingId in h.states[i].bindings
                     && h.states[i].bindings[after[id].intent.bindingId].ownerId == after[id].intent.ownerId
      {
        EffectsAt(hs, h, i, id);
      }
      EffectsKeepReferring(h.states[i].bindings, h.states[i].effects, h.states[n].effects);
      forall id | id in h.states[i].bindings
        ensures id in h.states[n].bindings && h.states[n].bindings[id].ownerId == h.states[i].bindings[id].ownerId
      {
        BindingMoveAt(hs, h, id, i);
      }
    }
  }

  // So a binding that has been closed, revoked or has expired claims nothing any more.
  lemma TerminalBindingClaimsNothing(hs: Hashes, h: History, id: string, i: nat, n: nat)
    requires Run(hs, h) && B.Inv(hs.pending, h.states[0].bindings) && i <= n < |h.events|
    requires id in h.states[i].bindings && h.states[i].bindings[id].state in {B.Closed, B.Revoked, B.Expired}
    requires h.events[n].ClaimCall? && h.events[n].request.claim.bindingId == id
    ensures !h.accepted[n]
  {
    BindingKept(hs, h, id, i, n);
    if h.accepted[n] { AcceptedClaimIsAuthorized(hs, h, n); }
  }

  // ---- repeating an accepted claim ----

  predicate ClaimedOrDropped(s: E.Status) { s in ClaimedStatuses || s == E.Denied || s == E.FailedClosed }

  // The claim is stored, and the effect it is for has this intent and is at or past it.
  predicate Holds(db: Db, c: Claim, intent: E.Intent) {
    && c.receiptId in db.claims && db.claims[c.receiptId] == c
    && c.operationId in db.effects && intent.operationId == c.operationId
    && db.effects[c.operationId].intent == intent && ClaimedOrDropped(db.effects[c.operationId].status)
  }

  lemma StatusStaysClaimed(before: E.Effect, after: E.Effect)
    requires E.TableMove(before, after) && ClaimedOrDropped(before.status)
    ensures ClaimedOrDropped(after.status)
  {
  }

  lemma AcceptedMoveHolds(db: Db, e: Event, after: Db, c: Claim, intent: E.Intent)
    requires ClaimsUnique(db.claims) && Moves(db, e, true, after) && Holds(db, c, intent)
    ensures Holds(after, c, intent)
  {
    AcceptKeepsUnique(db, e.request.claim);
    assert e.request.claim.operationId != c.operationId;
  }

  lemma MovesHold(db: Db, e: Event, accepted: bool, after: Db, c: Claim, intent: E.Intent)
    requires ClaimsUnique(db.claims) && Moves(db, e, accepted, after) && Holds(db, c, intent)
    ensures Holds(after, c, intent)
  {
    if accepted {
      AcceptedMoveHolds(db, e, after, c, intent);
    } else if after.effects[c.operationId] != db.effects[c.operationId] {
      StatusStaysClaimed(db.effects[c.operationId], after.effects[c.operationId]);
    }
  }

  lemma HoldsAt(hs: Hashes, h: History, n: nat, c: Claim, intent: E.Intent)
    requires Run(hs, h) && n < |h.events| && Holds(h.states[n], c, intent)
    ensures Holds(h.states[n + 1], c, intent)
  {
    ReachableInv(hs, h, n);
    MovesAt(hs, h, n);
    MovesHold(h.states[n], h.events[n], h.accepted[n], h.states[n + 1], c, intent);
  }

  // A stored claim stays stored, and the effect it claimed keeps its intent and never
  // falls back behind the claim.
  lemma {:induction false} ClaimStays(hs: Hashes, h: History, i: nat, j: nat, c: Claim, intent: E.Intent)
    requires Run(hs, h) && i <= j < |h.states| && Holds(h.states[i], c, intent)
    ensures Holds(h.states[j], c, intent)
    decreases j
  {
    if i < j {
      ClaimStays(hs, h, i, j - 1, c, intent);
      HoldsAt(hs, h, j - 1, c, intent);
    }
  }

  lemma AcceptanceHolds(hs: Hashes, h: History, i: nat, j: nat)
    requires Run(hs, h) && i < j < |h.states| && h.accepted[i] && h.events[i].ClaimCall?
    ensures Holds(h.states[j], h.events[i].request.claim, h.events[i].request.effect.intent)
    ensures Located(h.states[i], h.events[i].request.claim)
    ensures h.states[i].effects[h.events[i].request.claim.operationId].intent == h.events[i].request.effect.intent
  {
    MovesAt(hs, h, i);
    ClaimStays(hs, h, i + 1, j, h.events[i].request.claim, h.events[i].request.effect.intent);
  }

  // A stored claim is backed by its effect: same owner, binding, audience, transition and
  // nonce, the very next sequence, and a status at or past the claim.
  predicate Backed(db: Db, c: Claim) {
    c.operationId in db.effects &&
    var e := db.effects[c.operationId];
    && e.intent.operationId == c.operationId && ClaimedOrDropped(e.status)
    && (e.intent.ownerId, e.intent.bindingId) == (c.ownerId, c.bindingId)
    && (e.intent.audience, e.intent.transition, e.intent.nonce) == (c.audience, c.transition, c.nonce)
    && c.resultingSequence == e.intent.expectedSequence + 1
  }

  predicate AllBacked(db: Db) { forall id <- db.claims :: Backed(db, db.claims[id]) }

  lemma MovesKeepBacked(db: Db, e: Event, accepted: bool, after: Db)
    requires ClaimsUnique(db.claims) && Moves(db, e, accepted, after) && AllBacked(db)
    ensures AllBacked(after)
  {
    forall id | id in after.claims ensures Backed(after, after.claims[id]) {
      var c := after.claims[id];
      if accepted && c == e.request.claim {
        assert after.effects[c.operationId] == e.request.effect;
      } else {
        assert Holds(db, c, db.effects[c.operationId].intent);
        MovesHold(db, e, accepted, after, c, db.effects[c.operationId].intent);
      }
    }
  }

  // In every run that starts with backed claims, an empty claim table for instance, every
  // stored claim is backed by its effect.
  lemma {:induction false} ClaimsStayBacked(hs: Hashes, h: History, n: nat)
    requires Run(hs, h) && AllBacked(h.states[0]) && n < |h.states|
    ensures AllBacked(h.states[n])
  {
    if n > 0 {
      ClaimsStayBacked(hs, h, n - 1);
      ReachableInv(hs, h, n - 1);
      MovesAt(hs, h, n - 1);
      MovesKeepBacked(h.states[n - 1], h.events[n - 1], h.accepted[n - 1], h.states[n]);
    }
  }

  // Repeating an accepted call at any later moment never accepts again and changes
  // nothing. It returns the stored claim exactly when the binding still agrees with it,
  // the effect still carries its receipt, and the effect was not denied or failed closed.
  lemma RepeatAnswers(hs: Hashes, h: History, i: nat, j: nat)
    requires Run(hs, h) && i < j < |h.states| && h.accepted[i] && h.events[i].ClaimCall?
    ensures var q, db := h.events[i].request, h.states[j];
            var c := q.claim;
            && c.operationId in db.effects
            && Step(hs, db, ClaimCall(q)) == db
            && Answer(hs, db, q) == (if Located(db, c) && EvidenceMatches(db.effects[c.operationId], c)
                                        && db.effects[c.operationId].status !in {E.Denied, E.FailedClosed}
                                     then Some(Existing) else None)
  {
    var q, db := h.events[i].request, h.states[j];
    AcceptanceHolds(hs, h, i, j);
    assert Clashes(db.claims[q.claim.receiptId], q.claim);
    assert Rejected(db, q.claim);
  }

  // With the binding row and the receipt evidence as they were right after the claim,
  // the repeat returns the stored claim unless the effect was denied or failed closed.
  lemma UnchangedRepeatReturnsClaim(hs: Hashes, h: History, i: nat, j: nat)
    requires Run(hs, h) && i < j < |h.states| && h.accepted[i] && h.events[i].ClaimCall?
    requires var c := h.events[i].request.claim;
             && c.bindingId in h.states[i].bindings && c.bindingId in h.states[j].bindings
             && h.states[j].bindings[c.bindingId] == h.states[i].bindings[c.bindingId]
             && c.operationId in h.states[j].effects && EvidenceMatches(h.states[j].effects[c.operationId], c)
    ensures var q, db := h.events[i].request, h.states[j];
            Answer(hs, db, q) == (if db.effects[q.claim.operationId].status in {E.Denied, E.FailedClosed}
                                  then None else Some(Existing))
  {
    AcceptanceHolds(hs, h, i, j);
    RepeatAnswers(hs, h, i, j);
  }

  // ---- the runs are those of the repository ----

  predicate StepsTo(hs: Hashes, db: Db, e: Event, accepted: bool, after: Db) {
    Step(hs, db, e) == after && accepted == Accepts(hs, db, e)
  }

  function Longer(h: History, e: Event, accepted: bool, after: Db): History {
    History(h.states + [after], h.events + [e], h.accepted + [accepted])
  }

  lemma RunGoesOn(hs: Hashes, h: History, e: Event, accepted: bool, after: Db)
    requires Run(hs, h) && StepsTo(hs, h.states[|h.events|], e, accepted, after)
    ensures Run(hs, Longer(h, e, accepted, after))
  {
    var longer := Longer(h, e, accepted, after);
    forall i | 0 <= i < |longer.events| ensures Linked(hs, longer, i) {
      if i < |h.events| { assert Linked(hs, h, i); }
    }
  }

  method DriveBinding(repo: AuthorityRepository, e: B.Event)
    modifies repo`bindings
    ensures repo.bindings == B.Step(repo.hashes.pending, old(repo.bindings), e).0
  {
    if !B.WellFormed(repo.hashes.pending, B.Given(e)) { return; }
    match e
    case Create(b, read) => var _ := repo.CreateBinding(b, read);
    case Transition(b, state, version) => var _ := repo.TransitionBinding(b, state, version);
    case Activate(b, version) => var _ := repo.ActivateBinding(b, version);
    case Abandon(b, version) => var _ := repo.AbandonProvisioningBinding(b, version);
  }

  method DriveEffect(repo: AuthorityRepository, e: E.Event)
    modifies repo`effects
    ensures repo.effects == E.Step(old(repo.effects), e).0
  {
    match e
    case Create(x, read) => var _ := repo.CreateProtectedEffect(x, read);
    case Transition(x, status, version) =>
      if E.WellFormed(x) { var _ := repo.TransitionEffect(x, status, version); }
  }

  method DriveOutbox(store: O.PostgresOutboxStore, e: O.Event)
    requires O.Keyed(store.rows) && O.KeysUnique(store.rows)
    modifies store
    ensures store.rows == O.Step(store.sha256, old(store.rows), e).0
  {
    match e
    case Enqueue(entry) => var _ := store.Enqueue(entry);
    case Claim(worker, topics, now, lease, limit, pick) =>
      if O.Claimable(store.rows, topics, now, limit, pick) {
        var _ := store.Claim(worker, topics, now, lease, limit, pick);
      }
    case Ack(id, worker, version, now) => var _ := store.Ack(id, worker, version, now);
    case RetryAt(id, worker, version, at, error, now) => var _ := store.RetryAt(id, worker, version, at, error, now);
    case Bury(id, worker, version, error, now) => var _ := store.Bury(id, worker, version, error, now);
    case Reclaim(now, limit, pick) =>
      if O.Reclaimable(store.rows, now, limit, pick) { var _ := store.ReclaimExpired(now, limit, pick); }
  }

  ghost predicate Legal(hs: Hashes, db: Db) { Inv(db) && O.Inv(hs.sha256, db.outbox) }

  lemma LegalIsKeyed(hs: Hashes, db: Db)
    requires Legal(hs, db)
    ensures ClaimsUnique(db.claims) && O.Keyed(db.outbox) && O.KeysUnique(db.outbox)
  {
    forall id | id in db.outbox ensures db.outbox[id].entry.entryId == id {
      assert O.RowOk(hs.sha256, id, db.outbox[id]);
    }
  }

  // Executes one call of any caller through the repository.
  method Drive(repo: AuthorityRepository, e: Event) returns (accepted: bool)
    requires repo.hashes.sha256 == repo.outbox.sha256 && Legal(repo.hashes, repo.State())
    modifies repo, repo.outbox
    ensures StepsTo(repo.hashes, old(repo.State()), e, accepted, repo.State())
  {
    LegalIsKeyed(repo.hashes, repo.State());
    accepted := false;
    match e
    case BindingCall(b) => DriveBinding(repo, b);
    case EffectCall(x) => if Refers(repo.State(), x) { DriveEffect(repo, x); }
    case ClaimCall(q) =>
      if RequestOk(q) {
        var outcome := repo.ClaimReceipt(q);
        accepted := outcome.Accepted?;
      }
    case OutboxCall(o) => DriveOutbox(repo.outbox, o);
  }

  lemma OutboxStaysLegal(hs: Hashes, db: Db, e: Event)
    requires O.Inv(hs.sha256, db.outbox)
    ensures O.Inv(hs.sha256, Step(hs, db, e).outbox)
  {
    if e.OutboxCall? { O.StepKeepsInv(hs.sha256, db.outbox, e.outbox); }
    if e.ClaimCall? { O.StepKeepsInv(hs.sha256, db.outbox, O.Enqueue(e.request.entry)); }
  }

  lemma StepKeepsLegal(hs: Hashes, db: Db, e: Event, accepted: bool, after: Db)
    requires Legal(hs, db) && StepsTo(hs, db, e, accepted, after)
    ensures Legal(hs, after)
  {
    StepMoves(hs, db, e);
    MovesKeepInv(db, e, accepted, after);
    OutboxStaysLegal(hs, db, e);
  }

  method DriveLegally(repo: AuthorityRepository, e: Event) returns (accepted: bool)
    requires repo.hashes.sha256 == repo.outbox.sha256 && Legal(repo.hashes, repo.State())
    modifies repo, repo.outbox
    ensures StepsTo(repo.hashes, old(repo.State()), e, accepted, repo.State()) && Legal(repo.hashes, repo.State())
  {
    accepted := Drive(repo, e);
    StepKeepsLegal(repo.hashes, old(repo.State()), e, accepted, repo.State());
  }

  // The run of `h` that has led to the repository's state goes on with one more call.
  method DriveNext(repo: AuthorityRepository, ghost h: History, e: Event) returns (ghost longer: History)
    requires repo.hashes.sha256 == repo.outbox.sha256 && Legal(repo.hashes, repo.State())
    requires Run(repo.hashes, h) && h.states[|h.events|] == repo.State()
    modifies repo, repo.outbox
    ensures Legal(repo.hashes, repo.State()) && Run(repo.hashes, longer)
    ensures longer.events == h.events + [e] && longer.states[0] == h.states[0]
    ensures longer.states[|longer.events|] == repo.State()
  {
    var accepted := DriveLegally(repo, e);
    RunGoesOn(repo.hashes, h, e, accepted, repo.State());
    longer := Longer(h, e, accepted, repo.State());
  }

  // Any calls of any callers on the repository are a run, so all of the above holds of them.
  method DriveAll(repo: AuthorityRepository, events: seq<Event>) returns (ghost h: History)
    requires repo.hashes.sha256 == repo.outbox.sha256 && Legal(repo.hashes, repo.State())
    modifies repo, repo.outbox
    ensures Run(repo.hashes, h) && h.events == events
    ensures h.states[0] == old(repo.State()) && h.states[|events|] == repo.State()
    ensures Legal(repo.hashes, repo.State())
  {
    h := History([repo.State()], [], []);
    for n := 0 to |events|
      invariant Legal(repo.hashes, repo.State()) && Run(repo.hashes, h) && h.events == events[..n]
      invariant h.states[0] == old(repo.State()) && h.states[n] == repo.State()
    {
      h := DriveNext(repo, h, events[n]);
      assert events[..n + 1] == events[..n] + [events[n]];
    }
    assert events[..|events|] == events;
  }
}
