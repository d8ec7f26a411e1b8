// Pruning a hash chain while keeping it anchored. One chain of linked audit records
// and its authenticated retention anchors; every call is one transaction under the
// chain's advisory lock.
module AuditRetention {
  import opened Common

  datatype AuditEvent = AuditEvent(eventId: string, chainId: string, keyId: string, body: string)

  datatype Record = Record(sequence: nat, event: AuditEvent, previous: Digest, entry: Digest)

  // The fields an anchor's authentication covers, and the anchor itself.
  datatype Unsigned = Unsigned(anchorId: string, chainId: string, first: nat, previous: Digest,
                               policy: Digest, createdAt: Instant, keyId: string)
  datatype Anchor = Anchor(unsigned: Unsigned, authentication: Bytes)

  // Uninterpreted cryptography: the keyed digest of an event behind a previous digest,
  // and the anchor authenticator. `None` is an exception (an unknown or short key).
  datatype Crypto = Crypto(genesis: Digest,
                           authenticate: (string, Digest, AuditEvent, nat) -> Option<Digest>,
                           sign: Unsigned -> Option<Bytes>,
                           verify: (Unsigned, Bytes) -> bool)

  // What is signed verifies; digests and authentications are never empty.
  ghost predicate Lawful(c: Crypto) {
    forall u :: c.sign(u).Some? ==> c.sign(u).value != [] && c.verify(u, c.sign(u).value)
  }

  predicate VerifyAnchor(c: Crypto, a: Anchor) { c.verify(a.unsigned, a.authentication) }

  // The chain's rows, the chain's anchors by first retained sequence, and the anchor
  // ids used by other chains.
  datatype Chain = Chain(id: string, records: map<nat, Record>, anchors: map<nat, Anchor>, foreignIds: set<string>)

  predicate BoundedText(s: string) { |s| <= 512 && exists c <- s :: c != ' ' }

  datatype PruneRequest = PruneRequest(first: int, anchorId: string, policy: Digest, createdAt: Instant, keyId: string)

  datatype Event = Append(event: AuditEvent) | Prune(request: PruneRequest)

  datatype Failure = InvalidInput | IdempotencyConflict | SignatureFailed | BoundaryMissing | AnchorMissing
                   | BoundaryTampered | AnchorConflict | UniqueViolation

  datatype Reply = Appended(record: Record) | Pruned(anchor: Anchor, deleted: nat) | Refused(failure: Failure)

  // ---- the two calls ----

  type Records = map<nat, Record>

  predicate IsLast(records: Records, n: nat) { n in records && forall k <- records :: k <= n }
  predicate Names(records: Records, n: nat, eventId: string) { n in records && records[n].event.eventId == eventId }

  // The last sequence stored, and the sequence at which an event is stored.
  ghost function Last(records: Records): Option<nat> {
    if exists n: nat :: IsLast(records, n) then
      var n: nat :| IsLast(records, n);
      Some(n)
    else None
  }
  ghost function Holder(records: Records, eventId: string): Option<nat> {
    if exists n: nat :: Names(records, n, eventId) then
      var n: nat :| Names(records, n, eventId);
      Some(n)
    else None
  }

  ghost function Next(c: Crypto, records: Records): (nat, Digest) {
    var last := Last(records);
    if last.Some? then (last.value + 1, records[last.value].entry) else (1, c.genesis)
  }

  ghost function AppendStep(c: Crypto, st: Chain, event: AuditEvent): (Chain, Reply) {
    var holder := Holder(st.records, event.eventId);
    if event.chainId != st.id then (st, Refused(InvalidInput))
    else if holder.Some? then
      var record := st.records[holder.value];
      var expected := c.authenticate(record.event.keyId, record.previous, event, holder.value);
      (st, if expected.None? then Refused(SignatureFailed)
           else if record.event == event && expected.value == record.entry then Appended(record)
           else Refused(IdempotencyConflict))
    else
      var (n, previous) := Next(c, st.records);
      var entry := c.authenticate(event.keyId, previous, event, n);
      if entry.None? then (st, Refused(SignatureFailed))
      else
        var record := Record(n, event, previous, entry.value);
        (st.(records := st.records[n := record]), Appended(record))
  }

  function Below(records: Records, first: int): set<nat> { set k | k in records && k < first }
  function Retained(records: Records, first: int): Records { map k | k in records && k >= first :: records[k] }

  predicate AnchorIdTaken(st: Chain, anchorId: string) {
    anchorId in st.foreignIds || exists s <- st.anchors :: st.anchors[s].unsigned.anchorId == anchorId
  }

  function UnsignedFor(st: Chain, q: PruneRequest): Unsigned
    requires q.first > 0 && q.first in st.records
  {
    Unsigned(q.anchorId, st.id, q.first, st.records[q.first].previous, q.policy, q.createdAt, q.keyId)
  }

  function PruneStep(c: Crypto, st: Chain, q: PruneRequest): (Chain, Reply) {
    if q.first <= 1 then (st, Refused(InvalidInput))
    else if q.first !in st.records then (st, Refused(BoundaryMissing))
    else if q.first - 1 !in st.records then
      (st, if q.first in st.anchors && st.anchors[q.first].unsigned.previous == st.records[q.first].previous
              && st.anchors[q.first].unsigned.policy == q.policy && VerifyAnchor(c, st.anchors[q.first])
           then Pruned(st.anchors[q.first], 0) else Refused(AnchorMissing))
    else if st.records[q.first].previous != st.records[q.first - 1].entry then (st, Refused(BoundaryTampered))
    else if !BoundedText(q.anchorId) || !BoundedText(q.keyId) then (st, Refused(InvalidInput))
    else
      var signature := c.sign(UnsignedFor(st, q));
      if signature.None? then (st, Refused(SignatureFailed))
      else
        var candidate := Anchor(UnsignedFor(st, q), signature.value);
        if q.first !in st.anchors && AnchorIdTaken(st, q.anchorId) then (st, Refused(UniqueViolation))
        else if (q.first in st.anchors && st.anchors[q.first] != candidate) || !VerifyAnchor(c, candidate)
        then (st, Refused(AnchorConflict))
        else (st.(records := Retained(st.records, q.first), anchors := st.anchors[q.first := candidate]),
              Pruned(candidate, |Below(st.records, q.first)|))
  }

  ghost function Step(c: Crypto, st: Chain, e: Event): (Chain, Reply) {
    match e
    case Append(event) => AppendStep(c, st, event)
    case Prune(q) => PruneStep(c, st, q)
  }

  // ---- the invariant ----

  predicate RecordOk(c: Crypto, chainId: string, n: nat, r: Record) {
    r.sequence == n && r.event.chainId == chainId
    && c.authenticate(r.event.keyId, r.previous, r.event, n) == Some(r.entry)
  }

  // Retained records run from `lo` to `hi` without a gap, each linked to the one before.
  ghost predicate Contiguous(c: Crypto, chainId: string, records: Records, lo: nat, hi: nat) {
    && 1 <= lo <= hi
    && (forall k :: k in records <==> lo <= k <= hi)
    && (forall k <- records :: RecordOk(c, chainId, k, records[k]))
    && (forall k <- records :: k > lo ==> k - 1 in records && records[k].previous == records[k - 1].entry)
  }

  // The first record is the genesis record or is anchored; no anchor lies beyond it.
  predicate Rooted(c: Crypto, st: Chain, lo: nat) {
    && lo in st.records
    && (lo == 1 ==> st.records[lo].previous == c.genesis)
    && (lo > 1 ==> lo in st.anchors && st.anchors[lo].unsigned.previous == st.records[lo].previous)
    && (forall s <- st.anchors :: 1 < s <= lo && AnchorOk(c, st.id, s, st.anchors[s]))
  }

  ghost predicate Spans(c: Crypto, st: Chain, lo: nat, hi: nat) {
    Contiguous(c, st.id, st.records, lo, hi) && Rooted(c, st, lo) && EventIdsUnique(st.records)
  }

  predicate AnchorOk(c: Crypto, chainId: string, s: nat, a: Anchor) {
    a.unsigned.chainId == chainId && a.unsigned.first == s && VerifyAnchor(c, a)
  }

  predicate EventIdsUnique(records: Records) {
    forall j, k :: j in records && k in records && records[j].event.eventId == records[k].event.eventId ==> j == k
  }

  ghost predicate Inv(c: Crypto, st: Chain) {
    (st.records == map[] && st.anchors == map[]) || exists lo, hi :: Spans(c, st, lo, hi)
  }

  lemma NextIsAfterLast(c: Crypto, chainId: string, records: Records, lo: nat, hi: nat)
    requires Contiguous(c, chainId, records, lo, hi)
    ensures Next(c, records) == (hi + 1, records[hi].entry)
  {
    assert IsLast(records, hi);
  }

  lemma Extends(c: Crypto, chainId: string, records: Records, lo: nat, hi: nat, r: Record)
    requires Contiguous(c, chainId, records, lo, hi) && RecordOk(c, chainId, hi + 1, r)
             && r.previous == records[hi].entry
    ensures Contiguous(c, chainId, records[hi + 1 := r], lo, hi + 1)
  {
  }

  lemma ExtendsUnique(records: Records, n: nat, r: Record)
    requires EventIdsUnique(records) && n !in records && forall k :: !Names(records, k, r.event.eventId)
    ensures EventIdsUnique(records[n := r])
  {
    forall k | k in records
      ensures records[k].event.eventId != r.event.eventId
    {
      assert !Names(records, k, r.event.eventId);
    }
  }

  // An append changes nothing, or adds the authenticated next record.
  lemma AppendAddsNext(c: Crypto, st: Chain, event: AuditEvent)
    ensures var (after, reply) := AppendStep(c, st, event);
            var (n, previous) := Next(c, st.records);
            after == st || (&& reply.Appended? && after == st.(records := st.records[n := reply.record])
                            && RecordOk(c, st.id, n, reply.record) && reply.record.previous == previous
                            && forall k :: !Names(st.records, k, reply.record.event.eventId))
  {
  }

  lemma ExtendSpans(c: Crypto, st: Chain, lo: nat, hi: nat, r: Record)
    requires Spans(c, st, lo, hi) && RecordOk(c, st.id, hi + 1, r) && r.previous == st.records[hi].entry
    requires forall k :: !Names(st.records, k, r.event.eventId)
    ensures Spans(c, st.(records := st.records[hi + 1 := r]), lo, hi + 1)
  {
    Extends(c, st.id, st.records, lo, hi, r);
    ExtendsUnique(st.records, hi + 1, r);
  }

  lemma AppendKeeps(c: Crypto, st: Chain, event: AuditEvent, lo: nat, hi: nat)
    requires Spans(c, st, lo, hi)
    ensures AppendStep(c, st, event).0 == st || Spans(c, AppendStep(c, st, event).0, lo, hi + 1)
  {
    AppendAddsNext(c, st, event);
    NextIsAfterLast(c, st.id, st.records, lo, hi);
    if AppendStep(c, st, event).0 != st { ExtendSpans(c, st, lo, hi, AppendStep(c, st, event).1.record); }
  }

  lemma FirstAppendKeeps(c: Crypto, st: Chain, event: AuditEvent)
    requires st.records == map[] && st.anchors == map[]
    ensures var after := AppendStep(c, st, event).0; after == st || Spans(c, after, 1, 1)
  {
    assert Next(c, st.records) == (1, c.genesis);
  }

  lemma CutsContiguous(c: Crypto, chainId: string, records: Records, lo: nat, hi: nat, first: nat)
    requires Contiguous(c, chainId, records, lo, hi) && lo <= first <= hi
    ensures Contiguous(c, chainId, Retained(records, first), first, hi)
  {
  }

  // What is below an accepted boundary joins it, and no anchor is stored there yet.
  lemma BoundaryIsSound(c: Crypto, st: Chain, first: nat, lo: nat, hi: nat)
    requires Spans(c, st, lo, hi) && first > 0 && first in st.records && first - 1 in st.records
    ensures lo < first <= hi && first !in st.anchors && st.records[first].previous == st.records[first - 1].entry
  {
  }

  lemma CutSpans(c: Crypto, st: Chain, lo: nat, hi: nat, first: nat, anchor: Anchor)
    requires Spans(c, st, lo, hi) && 1 <= lo < first <= hi
    requires AnchorOk(c, st.id, first, anchor) && anchor.unsigned.previous == st.records[first].previous
    ensures Spans(c, st.(records := Retained(st.records, first), anchors := st.anchors[first := anchor]), first, hi)
  {
    CutsContiguous(c, st.id, st.records, lo, hi, first);
  }

  // A prune answers with the anchor stored at its boundary, and either changes nothing
  // or stores that anchor and drops what lies below.
  lemma PruneCuts(c: Crypto, st: Chain, q: PruneRequest)
    requires Lawful(c)
    ensures var (after, reply) := PruneStep(c, st, q);
            && (reply.Pruned? ==> && q.first > 1 && q.first in st.records
                                  && reply.anchor.unsigned.previous == st.records[q.first].previous
                                  && q.first in after.anchors && after.anchors[q.first] == reply.anchor)
            && (after != st ==> && reply.Pruned? && q.first - 1 in st.records
                                && AnchorOk(c, st.id, q.first, reply.anchor)
                                && after == st.(records := Retained(st.records, q.first),
                                                anchors := st.anchors[q.first := reply.anchor]))
            && (reply == Refused(AnchorConflict) ==> && q.first > 1 && q.first - 1 in st.records
                                                     && q.first in st.records && q.first in st.anchors)
            && (reply == Refused(BoundaryTampered) ==> && q.first > 1 && q.first - 1 in st.records
                                                       && q.first in st.records
                                                       && st.records[q.first].previous != st.records[q.first - 1].entry)
  {
  }

  // A prune that changes anything leaves the chain starting at the requested record; the
  // conflict with an anchor already stored there cannot arise.
  lemma PruneKeeps(c: Crypto, st: Chain, q: PruneRequest, lo: nat, hi: nat)
    requires Lawful(c) && Spans(c, st, lo, hi)
    ensures var (after, reply) := PruneStep(c, st, q);
            && (after == st || (lo < q.first <= hi && Spans(c, after, q.first, hi)))
            && reply !in {Refused(AnchorConflict), Refused(BoundaryTampered)}
  {
    PruneCuts(c, st, q);
    if q.first > 1 && q.first in st.records && q.first - 1 in st.records {
      BoundaryIsSound(c, st, q.first, lo, hi);
      if PruneStep(c, st, q).0 != st { CutSpans(c, st, lo, hi, q.first, PruneStep(c, st, q).1.anchor); }
    }
  }

  lemma StepKeepsSpan(c: Crypto, st: Chain, e: Event, lo: nat, hi: nat) returns (lo': nat, hi': nat)
    requires Lawful(c) && Spans(c, st, lo, hi)
    ensures Spans(c, Step(c, st, e).0, lo', hi')
    ensures Step(c, st, e).1 !in {Refused(AnchorConflict), Refused(BoundaryTampered)}
  {
    lo', hi' := lo, hi;
    if e.Append? {
      AppendKeeps(c, st, e.event, lo, hi);
      if Step(c, st, e).0 != st { hi' := hi + 1; }
    } else {
      PruneKeeps(c, st, e.request, lo, hi);
      if Step(c, st, e).0 != st { lo' := e.request.first; }
    }
  }

  lemma StepKeepsInv(c: Crypto, st: Chain, e: Event)
    requires Lawful(c) && Inv(c, st)
    ensures Inv(c, Step(c, st, e).0)
    ensures Step(c, st, e).1 !in {Refused(AnchorConflict), Refused(BoundaryTampered)}
    ensures st.records != map[] ==> Step(c, st, e).0.records != map[]
  {
    if st.records == map[] {
      if e.Append? { FirstAppendKeeps(c, st, e.event); }
    } else {
      var lo, hi :| Spans(c, st, lo, hi);
      var lo', hi' := StepKeepsSpan(c, st, e, lo, hi);
      assert hi' in Step(c, st, e).0.records;
    }
  }

  // ---- what each call answers ----

  // A new event is appended behind the last record, or behind the genesis digest, exactly when
  // its key can be used.
  lemma NewEventAnswers(c: Crypto, st: Chain, event: AuditEvent, n: nat, previous: Digest)
    requires event.chainId == st.id && (forall k <- st.records :: st.records[k].event.eventId != event.eventId)
    requires Next(c, st.records) == (n, previous)
    ensures var entry := c.authenticate(event.keyId, previous, event, n);
            AppendStep(c, st, event) ==
              if entry.None? then (st, Refused(SignatureFailed))
              else (st.(records := st.records[n := Record(n, event, previous, entry.value)]),
                    Appended(Record(n, event, previous, entry.value)))
  {
    assert forall k :: !Names(st.records, k, event.eventId);
  }

  // In a chain from `lo` to `hi`, a new event becomes record `hi + 1`, linked to record `hi`;
  // an event already stored is answered with its record and changes nothing, and another
  // event of the same identifier is refused.
  lemma AppendAnswers(c: Crypto, st: Chain, event: AuditEvent, lo: nat, hi: nat)
    requires Spans(c, st, lo, hi) && event.chainId == st.id
    ensures var (after, reply) := AppendStep(c, st, event);
            var entry := c.authenticate(event.keyId, st.records[hi].entry, event, hi + 1);
            && (forall k <- st.records :: st.records[k].event.eventId == event.eventId ==>
                  after == st && (reply == Appended(st.records[k]) <==> st.records[k].event == event)
                  && (reply.Appended? || reply in {Refused(SignatureFailed), Refused(IdempotencyConflict)})
                  && (reply.Appended? ==> reply.record == st.records[k]))
            && ((forall k <- st.records :: st.records[k].event.eventId != event.eventId) ==>
                  if entry.None? then after == st && reply == Refused(SignatureFailed)
                  else && reply == Appended(Record(hi + 1, event, st.records[hi].entry, entry.value))
                       && after == st.(records := st.records[hi + 1 := reply.record]))
  {
    if k :| k in st.records && st.records[k].event.eventId == event.eventId {
      assert Names(st.records, k, event.eventId) && RecordOk(c, st.id, k, st.records[k]);
    } else {
      NextIsAfterLast(c, st.id, st.records, lo, hi);
      NewEventAnswers(c, st, event, hi + 1, st.records[hi].entry);
    }
  }

  // The first event of a chain becomes record 1 behind the genesis digest.
  lemma FirstAppendAnswers(c: Crypto, st: Chain, event: AuditEvent)
    requires st.records == map[] && event.chainId == st.id
    ensures var (after, reply) := AppendStep(c, st, event);
            var entry := c.authenticate(event.keyId, c.genesis, event, 1);
            if entry.None? then after == st && reply == Refused(SignatureFailed)
            else && reply == Appended(Record(1, event, c.genesis, entry.value))
                 && after == st.(records := map[1 := reply.record])
  {
    NewEventAnswers(c, st, event, 1, c.genesis);
  }

  lemma {:induction false} BelowCounts(records: Records, lo: nat, first: nat)
    requires lo <= first && forall k | k in records :: lo <= k
    requires forall k | lo <= k < first :: k in records
    ensures |Below(records, first)| == first - lo
    decreases first
  {
    if lo < first {
      BelowCounts(records, lo, first - 1);
      assert Below(records, first) == Below(records, first - 1) + {first - 1};
    } else {
      assert Below(records, first) == {};
    }
  }

  // The anchor a prune of this chain asks for.
  predicate Attests(a: Anchor, st: Chain, q: PruneRequest)
    requires q.first > 0 && q.first in st.records
  {
    && (a.unsigned.anchorId, a.unsigned.chainId, a.unsigned.first) == (q.anchorId, st.id, q.first)
    && a.unsigned.previous == st.records[q.first].previous
    && (a.unsigned.policy, a.unsigned.createdAt, a.unsigned.keyId) == (q.policy, q.createdAt, q.keyId)
  }

  // The boundary lies inside the chain, and the anchor can be named, signed and stored.
  predicate CanCut(c: Crypto, st: Chain, q: PruneRequest)
    requires q.first > 0 && q.first in st.records
  {
    BoundedText(q.anchorId) && BoundedText(q.keyId) && CanSign(c, st, q) && IdIsFree(st, q.anchorId)
  }

  predicate CanSign(c: Crypto, st: Chain, q: PruneRequest)
    requires q.first > 0 && q.first in st.records
  {
    c.sign(Unsigned(q.anchorId, st.id, q.first, st.records[q.first].previous, q.policy, q.createdAt, q.keyId)).Some?
  }

  // No anchor of this or another chain has the identifier.
  predicate IdIsFree(st: Chain, anchorId: string) {
    anchorId !in st.foreignIds && forall s <- st.anchors :: st.anchors[s].unsigned.anchorId != anchorId
  }

  // A chain from `lo` to `hi` is cut exactly at a boundary inside it whose anchor can be
  // stored: the anchor attests the boundary's link, everything before the boundary goes, the
  // reported number is how much that is, and nothing else changes.
  lemma CutAnswers(c: Crypto, st: Chain, q: PruneRequest, lo: nat, hi: nat)
    requires Lawful(c) && Spans(c, st, lo, hi) && lo < q.first <= hi
    ensures var (after, reply) := PruneStep(c, st, q);
            if !CanCut(c, st, q)
            then after == st && reply == Refused(if !BoundedText(q.anchorId) || !BoundedText(q.keyId) then InvalidInput
                                                 else if !CanSign(c, st, q) then SignatureFailed else UniqueViolation)
            else && reply.Pruned? && Attests(reply.anchor, st, q) && reply.deleted == q.first - lo
                 && after.anchors == st.anchors[q.first := reply.anchor]
                 && (forall k :: k in after.records <==> q.first <= k <= hi)
                 && (forall k <- after.records :: after.records[k] == st.records[k])
                 && after.id == st.id && after.foreignIds == st.foreignIds
  {
    BoundaryIsSound(c, st, q.first, lo, hi);
    BelowCounts(st.records, lo, q.first);
  }

  // Any other boundary changes nothing: the chain's own first record answers with the stored
  // anchor exactly when the policy is the same, and one outside the chain is missing.
  lemma NoCutAnswers(c: Crypto, st: Chain, q: PruneRequest, lo: nat, hi: nat)
    requires Spans(c, st, lo, hi) && !(lo < q.first <= hi)
    ensures var (after, reply) := PruneStep(c, st, q);
            && after == st
            && reply == (if q.first <= 1 then Refused(InvalidInput)
                         else if q.first != lo then Refused(BoundaryMissing)
                         else if st.anchors[lo].unsigned.policy == q.policy then Pruned(st.anchors[lo], 0)
                         else Refused(AnchorMissing))
  {
    if q.first > 1 && q.first == lo { assert AnchorOk(c, st.id, lo, st.anchors[lo]); }
  }

  // Repeating a prune that cut returns the same anchor, with nothing left to delete.
  lemma PruneRepeats(c: Crypto, st: Chain, q: PruneRequest, lo: nat, hi: nat)
    requires Lawful(c) && Spans(c, st, lo, hi) && PruneStep(c, st, q).0 != st
    ensures var (after, reply) := PruneStep(c, st, q);
            reply.Pruned? && PruneStep(c, after, q) == (after, Pruned(reply.anchor, 0))
  {
    PruneKeeps(c, st, q, lo, hi);
    CutAnswers(c, st, q, lo, hi);
    NoCutAnswers(c, PruneStep(c, st, q).0, q, q.first, hi);
  }

  // ---- whole runs ----

  ghost function At(c: Crypto, st: Chain, events: seq<Event>, n: nat): Chain
    requires n <= |events|
  {
    if n == 0 then st else Step(c, At(c, st, events, n - 1), events[n - 1]).0
  }

  // From an empty chain, or any legal one, however appends and prunes follow one another,
  // the retained records stay contiguous, linked and anchored, and no prune ever meets an
  // anchor conflict or a broken link.
  lemma {:induction false} ReachableInv(c: Crypto, st: Chain, events: seq<Event>, n: nat)
    requires Lawful(c) && Inv(c, st) && n <= |events|
    ensures Inv(c, At(c, st, events, n))
    ensures n < |events| ==>
              Step(c, At(c, st, events, n), events[n]).1 !in {Refused(AnchorConflict), Refused(BoundaryTampered)}
  {
    if n > 0 { ReachableInv(c, st, events, n - 1); StepKeepsInv(c, At(c, st, events, n - 1), events[n - 1]); }
    if n < |events| { StepKeepsInv(c, At(c, st, events, n), events[n]); }
  }

  lemma NextIsNotEmpty(c: Crypto, st: Chain, events: seq<Event>, n: nat)
    requires Lawful(c) && Inv(c, st) && n < |events| && At(c, st, events, n).records != map[]
    ensures At(c, st, events, n + 1).records != map[]
  {
    ReachableInv(c, st, events, n);
    StepKeepsInv(c, At(c, st, events, n), events[n]);
  }

  // Once a record was appended the chain is never empty again.
  lemma {:induction false} NeverEmptyAgain(c: Crypto, st: Chain, events: seq<Event>, i: nat, j: nat)
    requires Lawful(c) && Inv(c, st) && i <= j <= |events| && At(c, st, events, i).records != map[]
    ensures At(c, st, events, j).records != map[]
    decreases j - i
  {
    if i < j {
      NextIsNotEmpty(c, st, events, i);
      NeverEmptyAgain(c, st, events, i + 1, j);
    }
  }

  // So from the first append on, at every later moment of the run, the chain runs without
  // a gap from a rooted first record to a last one.
  lemma AlwaysSpans(c: Crypto, st: Chain, events: seq<Event>, i: nat, j: nat) returns (lo: nat, hi: nat)
    requires Lawful(c) && Inv(c, st) && i <= j <= |events| && At(c, st, events, i).records != map[]
    ensures Spans(c, At(c, st, events, j), lo, hi)
  {
    NeverEmptyAgain(c, st, events, i, j);
    ReachableInv(c, st, events, j);
    lo, hi :| Spans(c, At(c, st, events, j), lo, hi);
  }

  // ---- verification ----

  datatype Fault = WrongChain | NonContiguous | PreviousMismatch | EntryMismatch | KeyUnavailable
                 | MissingAnchor | InvalidAnchor | AnchorMismatch

  datatype Verdict = Valid(lastSequence: int, lastDigest: Digest)
                   | Invalid(eventId: string, fault: Fault, lastSequence: int, lastDigest: Digest)
                   | Raised // an event's key could not be used, and the exception goes to the caller

  function FaultOf(c: Crypto, chainId: string, r: Record, sequence: int, previous: Digest): Option<Fault> {
    if r.event.chainId != chainId then Some(WrongChain)
    else if r.sequence != sequence then Some(NonContiguous)
    else if r.previous != previous then Some(PreviousMismatch)
    else
      var expected := c.authenticate(r.event.keyId, previous, r.event, r.sequence);
      if expected.None? then Some(KeyUnavailable) else if expected.value != r.entry then Some(EntryMismatch) else None
  }

  // The digest record `i` must be linked to.
  function LinkBefore(listed: seq<Record>, i: nat, previous: Digest): Digest
    requires i <= |listed|
  {
    if i == 0 then previous else listed[i - 1].entry
  }

  function FaultAt(c: Crypto, chainId: string, listed: seq<Record>, i: nat, start: int, previous: Digest): Option<Fault>
    requires i < |listed|
  {
    FaultOf(c, chainId, listed[i], start + i, LinkBefore(listed, i, previous))
  }

  predicate FirstFault(c: Crypto, chainId: string, listed: seq<Record>, i: nat, start: int, previous: Digest,
                       fault: Fault)
    requires i < |listed|
  {
    && FaultAt(c, chainId, listed, i, start, previous) == Some(fault)
    && forall j :: 0 <= j < i ==> FaultAt(c, chainId, listed, j, start, previous).None?
  }

  // A walk that does not end valid stops at the first fault there is, and says where.
  ghost predicate StopsAtFault(c: Crypto, chainId: string, listed: seq<Record>, start: int, previous: Digest,
                               v: Verdict)
    requires !v.Valid?
  {
    exists i | 0 <= i < |listed| ::
      if v.Raised? then FirstFault(c, chainId, listed, i, start, previous, KeyUnavailable)
      else && v.fault != KeyUnavailable && FirstFault(c, chainId, listed, i, start, previous, v.fault)
           && v == Invalid(listed[i].event.eventId, v.fault, start + i - 1, LinkBefore(listed, i, previous))
  }

  // What a retained chain must show: no fault behind the genesis digest, or behind the
  // digest of a verifying anchor for its first record.
  predicate Verifies(c: Crypto, st: Chain, listed: seq<Record>)
    requires listed != []
  {
    var head := listed[0];
    if head.sequence == 1 then
      forall i :: 0 <= i < |listed| ==> FaultAt(c, st.id, listed, i, 1, c.genesis).None?
    else
      && head.sequence in st.anchors && AnchorOk(c, st.id, head.sequence, st.anchors[head.sequence])
      && st.anchors[head.sequence].unsigned.previous == head.previous
      && forall i :: 0 <= i < |listed| ==> FaultAt(c, st.id, listed, i, head.sequence, head.previous).None?
  }

  // The digest the first record must be linked to, once it is known to be rooted.
  function RootLink(c: Crypto, listed: seq<Record>): Digest
    requires listed != []
  {
    if listed[0].sequence == 1 then c.genesis else listed[0].previous
  }

  // What is wrong with the root of a chain that starts with this record, if anything: the
  // anchor is missing, does not verify, or is not about this record.
  predicate RightRoot(c: Crypto, st: Chain, head: Record, fault: Option<Fault>) {
    var s := head.sequence;
    && (fault == Some(MissingAnchor) <==> s != 1 && s !in st.anchors)
    && (fault == Some(InvalidAnchor) <==> s != 1 && s in st.anchors && !VerifyAnchor(c, st.anchors[s]))
    && (fault == Some(AnchorMismatch)
        <==> && s != 1 && s in st.anchors && VerifyAnchor(c, st.anchors[s])
             && !(AnchorOk(c, st.id, s, st.anchors[s]) && st.anchors[s].unsigned.previous == head.previous))
    && (fault.Some? ==> fault.value in {MissingAnchor, InvalidAnchor, AnchorMismatch})
  }

  // What a query ordered by sequence returns.
  predicate Lists(records: Records, listed: seq<Record>) {
    && (forall i, j :: 0 <= i < j < |listed| ==> listed[i].sequence < listed[j].sequence)
    && (forall r <- listed :: r.sequence in records && records[r.sequence] == r)
    && (forall k <- records :: records[k] in listed)
  }

  // A contiguous chain is listed without gaps from its first record to its last.
  lemma {:induction false} ListedInOrder(c: Crypto, chainId: string, records: Records, listed: seq<Record>, lo: nat,
                                         hi: nat, i: nat)
    requires Contiguous(c, chainId, records, lo, hi) && Lists(records, listed) && i < |listed|
    ensures listed[i].sequence == lo + i
    decreases i
  {
    if i > 0 { ListedInOrder(c, chainId, records, listed, lo, hi, i - 1); }
    assert listed[i] in listed;
    if listed[i].sequence > lo + i {
      assert records[lo + i] in listed;
      var j :| 0 <= j < |listed| && listed[j] == records[lo + i];
      assert RecordOk(c, chainId, lo + i, records[lo + i]);
      if j < i { ListedInOrder(c, chainId, records, listed, lo, hi, j); }
    }
  }

  lemma ListedWhole(c: Crypto, chainId: string, records: Records, listed: seq<Record>, lo: nat, hi: nat)
    requires Contiguous(c, chainId, records, lo, hi) && Lists(records, listed)
    ensures |listed| == hi - lo + 1 && forall i :: 0 <= i < |listed| ==> listed[i] == records[lo + i]
  {
    assert records[hi] in listed;
    var j :| 0 <= j < |listed| && listed[j] == records[hi];
    assert RecordOk(c, chainId, hi, records[hi]);
    ListedInOrder(c, chainId, records, listed, lo, hi, j);
    assert lo + j == hi;
    forall i | 0 <= i < |listed| ensures lo + i <= hi && listed[i] == records[lo + i] {
      ListedInOrder(c, chainId, records, listed, lo, hi, i);
      assert listed[i] in listed;
    }
    ListedInOrder(c, chainId, records, listed, lo, hi, |listed| - 1);
    assert listed[|listed| - 1] in listed;
  }

  // No record of a contiguous chain is at fault behind the digest of its first.
  lemma NoFaultAt(c: Crypto, chainId: string, records: Records, listed: seq<Record>, lo: nat, hi: nat, i: nat)
    requires Contiguous(c, chainId, records, lo, hi) && i < |listed| == hi - lo + 1
    requires forall j :: 0 <= j < |listed| ==> listed[j] == records[lo + j]
    ensures FaultAt(c, chainId, listed, i, lo, listed[0].previous).None?
  {
    assert RecordOk(c, chainId, lo + i, records[lo + i]);
    if i > 0 { assert listed[i - 1] == records[lo + i - 1]; }
  }

  // What a listing of a reachable, non-empty chain shows to a verifier.
  lemma ListingIsSound(c: Crypto, st: Chain, listed: seq<Record>)
    requires Inv(c, st) && st.records != map[] && Lists(st.records, listed)
    ensures listed != []
    ensures var head := listed[0];
            && (head.sequence == 1 ==> head.previous == c.genesis)
            && (head.sequence != 1 ==> && head.sequence in st.anchors
                                       && AnchorOk(c, st.id, head.sequence, st.anchors[head.sequence])
                                       && st.anchors[head.sequence].unsigned.previous == head.previous)
            && (forall i :: 0 <= i < |listed| ==> FaultAt(c, st.id, listed, i, head.sequence, head.previous).None?)
            && IsLast(st.records, head.sequence + |listed| - 1)
            && st.records[head.sequence + |listed| - 1] == listed[|listed| - 1]
  {
    var lo: nat, hi: nat :| Spans(c, st, lo, hi);
    ListedWhole(c, st.id, st.records, listed, lo, hi);
    assert RecordOk(c, st.id, lo, st.records[lo]);
    forall i | 0 <= i < |listed| ensures FaultAt(c, st.id, listed, i, lo, listed[0].previous).None? {
      NoFaultAt(c, st.id, st.records, listed, lo, hi, i);
    }
  }

  // A record is without fault exactly when it is the expected one of this chain, linked to
  // the expected digest and authenticated; the fault named is the first of these that fails.
  lemma FaultNames(c: Crypto, chainId: string, r: Record, sequence: int, previous: Digest)
    ensures var fault := FaultOf(c, chainId, r, sequence, previous);
            var placed := r.event.chainId == chainId && r.sequence == sequence;
            var expected := c.authenticate(r.event.keyId, previous, r.event, r.sequence);
            && (fault == None <==> placed && r.previous == previous && expected == Some(r.entry))
            && (fault == Some(WrongChain) <==> r.event.chainId != chainId)
            && (fault == Some(NonContiguous) <==> r.event.chainId == chainId && r.sequence != sequence)
            && (fault == Some(PreviousMismatch) <==> placed && r.previous != previous)
            && (fault == Some(KeyUnavailable) <==> placed && r.previous == previous && expected == None)
            && (fault == Some(EntryMismatch)
                <==> placed && r.previous == previous && expected.Some? && expected.value != r.entry)
  {
  }

  lemma FaultlessIsPlaced(c: Crypto, chainId: string, listed: seq<Record>, start: nat, previous: Digest, i: nat)
    requires i < |listed| && FaultAt(c, chainId, listed, i, start, previous).None?
    ensures RecordOk(c, chainId, start + i, listed[i])
    ensures listed[i].previous == (if i == 0 then previous else listed[i - 1].entry)
  {
    FaultNames(c, chainId, listed[i], start + i, LinkBefore(listed, i, previous));
  }

  // The listed records are the chain's, in order from `lo` on, linked and authenticated.
  ghost predicate Chained(c: Crypto, chainId: string, listed: seq<Record>, lo: nat) {
    && (forall i :: 0 <= i < |listed| ==> RecordOk(c, chainId, lo + i, listed[i]))
    && (forall i, j :: 0 <= i && j == i + 1 && j < |listed| ==> listed[j].previous == listed[i].entry)
  }

  lemma FaultlessIsChained(c: Crypto, chainId: string, listed: seq<Record>, start: nat, previous: Digest)
    requires forall i :: 0 <= i < |listed| ==> FaultAt(c, chainId, listed, i, start, previous).None?
    ensures Chained(c, chainId, listed, start)
  {
    forall i | 0 <= i < |listed|
      ensures RecordOk(c, chainId, start + i, listed[i]) && (i > 0 ==> listed[i].previous == listed[i - 1].entry)
    {
      FaultlessIsPlaced(c, chainId, listed, start, previous, i);
    }
  }

  // Rows are stored under their own sequence.
  predicate Keyed(records: Records) { forall k <- records :: records[k].sequence == k }

  lemma ChainedIsWhole(c: Crypto, chainId: string, records: Records, listed: seq<Record>, lo: nat)
    requires Keyed(records) && Lists(records, listed) && Chained(c, chainId, listed, lo)
    ensures forall k :: k in records <==> lo <= k < lo + |listed|
    ensures forall i :: 0 <= i < |listed| ==> records[lo + i] == listed[i]
  {
    forall i | 0 <= i < |listed| ensures lo + i in records && records[lo + i] == listed[i] {
      assert RecordOk(c, chainId, lo + i, listed[i]) && listed[i] in listed;
    }
    forall k | k in records ensures lo <= k < lo + |listed| {
      var i :| 0 <= i < |listed| && listed[i] == records[k];
      assert RecordOk(c, chainId, lo + i, listed[i]);
    }
    forall k | lo <= k < lo + |listed| ensures k in records {
      var i := k - lo;
      assert RecordOk(c, chainId, lo + i, listed[i]) && listed[i] in listed;
    }
  }

  // Verification is sound: what verifies is the whole retained chain, without a gap, each
  // record authenticated and linked to the one before, behind the genesis digest or behind a
  // verifying anchor for its first record.
  lemma VerifiedIsSound(c: Crypto, st: Chain, listed: seq<Record>)
    requires Keyed(st.records) && listed != [] && Lists(st.records, listed) && Verifies(c, st, listed)
    ensures var lo := listed[0].sequence;
            && Chained(c, st.id, listed, lo)
            && (forall k :: k in st.records <==> lo <= k < lo + |listed|)
            && (forall i :: 0 <= i < |listed| ==> st.records[lo + i] == listed[i])
            && (if lo == 1 then listed[0].previous == c.genesis
                else && lo in st.anchors && AnchorOk(c, st.id, lo, st.anchors[lo])
                     && st.anchors[lo].unsigned.previous == listed[0].previous)
  {
    var lo := listed[0].sequence;
    FaultlessIsChained(c, st.id, listed, lo, RootLink(c, listed));
    FaultlessIsPlaced(c, st.id, listed, lo, RootLink(c, listed), 0);
    ChainedIsWhole(c, st.id, st.records, listed, lo);
  }

  // ---- the repository ----

  class AuditRetentionRepository {
    const crypto: Crypto
    const chainId: string
    var records: Records
    var anchors: map<nat, Anchor>
    var foreignIds: set<string>

    function State(): Chain
      reads this
    {
      Chain(chainId, records, anchors, foreignIds)
    }

    constructor (c: Crypto, id: string, usedElsewhere: set<string>)
      ensures crypto == c && State() == Chain(id, map[], map[], usedElsewhere) && Inv(crypto, State())
    {
      crypto, chainId, records, anchors, foreignIds := c, id, map[], map[], usedElsewhere;
    }

    method FindEvent(eventId: string) returns (n: Option<nat>)
      requires EventIdsUnique(records)
      ensures n == Holder(records, eventId)
    {
      if k :| k in records && Names(records, k, eventId) {
        assert Names(records, k, eventId);
        return Some(k);
      }
      return None;
    }

    method FindLast() returns (n: Option<nat>)
      ensures n == Last(records)
    {
      if k :| k in records && IsLast(records, k) {
        assert IsLast(records, k);
        return Some(k);
      }
      return None;
    }

    method AppendRecord(event: AuditEvent) returns (reply: Reply)
      requires event.chainId == chainId && EventIdsUnique(records)
      modifies this`records
      ensures (State(), reply) == AppendStep(crypto, old(State()), event)
    {
      var holder := FindEvent(event.eventId);
      if holder.Some? {
        var record := records[holder.value];
        var expected := crypto.authenticate(record.event.keyId, record.previous, event, holder.value);
        if expected.None? { return Refused(SignatureFailed); }
        if record.event != event || expected.value != record.entry { return Refused(IdempotencyConflict); }
        return Appended(record);
      }
      var last := FindLast();
      var sequence, previous := 1, crypto.genesis;
      if last.Some? { sequence, previous := last.value + 1, records[last.value].entry; }
      var entry := crypto.authenticate(event.keyId, previous, event, sequence);
      if entry.None? { return Refused(SignatureFailed); }
      var record := Record(sequence, event, previous, entry.value);
      records := records[sequence := record];
      return Appended(record);
    }

    method PrunePrefix(q: PruneRequest) returns (reply: Reply)
      modifies this`records, this`anchors
      ensures (State(), reply) == PruneStep(crypto, old(State()), q)
    {
      var first := q.first;
      if first <= 1 { return Refused(InvalidInput); }
      if first !in records { return Refused(BoundaryMissing); }
      var boundary := records[first];
      if first - 1 !in records {
        if first !in anchors || anchors[first].unsigned.previous != boundary.previous
           || anchors[first].unsigned.policy != q.policy || !VerifyAnchor(crypto, anchors[first]) {
          return Refused(AnchorMissing);
        }
        return Pruned(anchors[first], 0);
      }
      var previous := records[first - 1].entry;
      if boundary.previous != previous { return Refused(BoundaryTampered); }
      if !BoundedText(q.anchorId) || !BoundedText(q.keyId) { return Refused(InvalidInput); }
      var unsigned := Unsigned(q.anchorId, chainId, first, previous, q.policy, q.createdAt, q.keyId);
      var signature := crypto.sign(unsigned);
      if signature.None? { return Refused(SignatureFailed); }
      var candidate := Anchor(unsigned, signature.value);
      if first !in anchors && AnchorIdTaken(State(), q.anchorId) { return Refused(UniqueViolation); }
      var durable := if first in anchors then anchors[first] else candidate;
      if durable != candidate || !VerifyAnchor(crypto, durable) { return Refused(AnchorConflict); }
      anchors := anchors[first := candidate];
      var doomed := Below(records, first);
      records := Retained(records, first);
      return Pruned(candidate, |doomed|);
    }

    // Walks the records and stops at the first fault.
    method VerifyRecords(listed: seq<Record>, start: int, previous: Digest) returns (v: Verdict)
      ensures v.Valid? <==> forall i :: 0 <= i < |listed| ==> FaultAt(crypto, chainId, listed, i, start, previous).None?
      ensures v.Valid? ==> v == Valid(start + |listed| - 1, LinkBefore(listed, |listed|, previous))
      ensures !v.Valid? ==> StopsAtFault(crypto, chainId, listed, start, previous, v)
    {
      var sequence, digest := start, previous;
      for i := 0 to |listed|
        invariant sequence == start + i && digest == LinkBefore(listed, i, previous)
        invariant forall j :: 0 <= j < i ==> FaultAt(crypto, chainId, listed, j, start, previous).None?
      {
        var fault := FaultOf(crypto, chainId, listed[i], sequence, digest);
        if fault.Some? {
          assert FirstFault(crypto, chainId, listed, i, start, previous, fault.value);
          if fault.value == KeyUnavailable { return Raised; }
          return Invalid(listed[i].event.eventId, fault.value, sequence - 1, digest);
        }
        sequence, digest := sequence + 1, listed[i].entry;
      }
      return Valid(sequence - 1, digest);
    }

    // Looks for the anchor of a first record that is not the genesis record.
    method CheckRoot(head: Record) returns (fault: Option<Fault>)
      ensures RightRoot(crypto, State(), head, fault)
    {
      if head.sequence == 1 { return None; }
      if head.sequence !in anchors { return Some(MissingAnchor); }
      var anchor := anchors[head.sequence];
      if !VerifyAnchor(crypto, anchor) { return Some(InvalidAnchor); }
      if anchor.unsigned.chainId != chainId || anchor.unsigned.previous != head.previous
         || anchor.unsigned.first != head.sequence {
        return Some(AnchorMismatch);
      }
      return None;
    }

    // Verifies what is retained, behind the genesis digest or behind the anchor of the
    // first record. In every reachable state the verdict is valid, with the true head.
    method VerifyRetainedChain(listed: seq<Record>) returns (v: Verdict)
      requires Lists(records, listed)
      ensures Inv(crypto, State()) ==> v.Valid?
      ensures Inv(crypto, State()) && records != map[] ==>
                v.lastSequence in records && IsLast(records, v.lastSequence)
                && v.lastDigest == records[v.lastSequence].entry
      ensures v.Valid? <==> listed == [] || Verifies(crypto, State(), listed)
      ensures !v.Valid? ==> listed != [] && exists root ::
                && RightRoot(crypto, State(), listed[0], root)
                && if root.Some? then
                     v == Invalid(listed[0].event.eventId, root.value, listed[0].sequence - 1, crypto.genesis)
                   else StopsAtFault(crypto, chainId, listed, listed[0].sequence, RootLink(crypto, listed), v)
      ensures v.Valid? ==> v == if listed == [] then Valid(0, crypto.genesis)
                                else Valid(listed[0].sequence + |listed| - 1, listed[|listed| - 1].entry)
    {
      if Inv(crypto, State()) && records != map[] { ListingIsSound(crypto, State(), listed); }
      if listed == [] { return Valid(0, crypto.genesis); }
      var root := CheckRoot(listed[0]);
      if root.Some? {
        return Invalid(listed[0].event.eventId, root.value, listed[0].sequence - 1, crypto.genesis);
      }
      v := VerifyRecords(listed, listed[0].sequence, RootLink(crypto, listed));
    }
  }
}
