// The leased transactional outbox. Each SQL statement is one atomic guarded update
// of the table; rows skipped by SKIP LOCKED are a free choice of the database.
module Outbox {
  import opened Common
  import opened Fences

  datatype Status = Pending | Retry | Claimed | Succeeded | DeadLetter

  datatype Entry = Entry(entryId: string, topic: string, payload: Bytes, payloadSha256: Digest,
                         idempotencyKey: string, availableAt: Instant)

  datatype Row = Row(entry: Entry, status: Status, attempts: nat, leaseOwner: Option<string>,
                     leaseExpires: Option<Instant>, version: nat, lastError: Option<string>)

  type Table = map<string, Row>

  // A claim handed to a worker, and a claim taken back from one.
  datatype Grant = Grant(entry: Entry, worker: string, expires: Instant, version: nat, attempt: nat)
  datatype Reclaimed = Reclaimed(entryId: string, previousWorker: string, version: nat, availableAt: Instant)

  datatype Event =
    | Enqueue(entry: Entry)
    | Claim(worker: string, topics: seq<string>, now: Instant, lease: int, limit: int, pick: set<string>)
    | Ack(id: string, worker: string, version: int, now: Instant)
    | RetryAt(id: string, worker: string, version: int, availableAt: Instant, error: string, now: Instant)
    | Bury(id: string, worker: string, version: int, error: string, now: Instant)
    | Reclaim(now: Instant, limit: int, pick: set<string>)

  datatype Failure = ContractError | IdempotencyConflict | UniqueViolation | FenceConflict
                   | LeaseInvalid | RecordInvalid

  datatype Reply =
    | Inserted | Replayed
    | Granted(grants: set<Grant>)
    | Settled
    | TakenBack(items: set<Reclaimed>)
    | Refused(failure: Failure)

  const MaxPayloadBytes := 1_048_576
  const MaxLease := 24 * 3600 * 1_000_000 // microseconds

  predicate SafeText(s: string, punctuation: string, maximum: nat) {
    1 <= |s| <= maximum && AlphaNum(s[0]) && forall c <- s :: AlphaNum(c) || c in punctuation
  }
  predicate SafeId(s: string) { SafeText(s, "._:@/-", 255) }
  predicate SafeTopic(s: string) { SafeText(s, "._:-", 128) }
  predicate SafeErrorCode(s: string) {
    1 <= |s| <= 64 && 'a' <= s[0] <= 'z' && forall c <- s :: 'a' <= c <= 'z' || '0' <= c <= '9' || c in "_.-"
  }

  function LowerChar(c: char): char { if 'A' <= c <= 'Z' then c - 'A' + 'a' else c }
  function Normalized(e: Entry): Entry {
    e.(payloadSha256 := seq(|e.payloadSha256|, i requires 0 <= i < |e.payloadSha256| => LowerChar(e.payloadSha256[i])))
  }

  predicate ValidEntry(sha256: Bytes -> Digest, e: Entry) {
    && SafeId(e.entryId) && SafeTopic(e.topic) && SafeId(e.idempotencyKey)
    && 1 <= |e.payload| <= MaxPayloadBytes
    && IsSha256(Normalized(e).payloadSha256)
    && sha256(e.payload) == Normalized(e).payloadSha256
  }

  predicate KeyTaken(t: Table, key: string) { exists id <- t :: t[id].entry.idempotencyKey == key }

  predicate ClaimRequestOk(worker: string, topics: seq<string>, now: Instant, lease: int, limit: int) {
    && SafeId(worker) && topics != []
    && (forall topic <- topics :: SafeTopic(topic))
    && (forall i, j :: 0 <= i < j < |topics| ==> topics[i] != topics[j])
    && 0 < lease <= MaxLease && now + lease <= MaxInstant
    && 1 <= limit <= 1000
  }

  // The rows a claim statement may lock and return, and those a reclaim may.
  predicate Claimable(t: Table, topics: seq<string>, now: Instant, limit: int, pick: set<string>) {
    |pick| <= limit && forall id <- pick ::
      id in t && t[id].status in {Pending, Retry} && t[id].entry.topic in topics && t[id].entry.availableAt <= now
  }
  predicate Reclaimable(t: Table, now: Instant, limit: int, pick: set<string>) {
    |pick| <= limit && forall id <- pick ::
      id in t && t[id].status.Claimed? && t[id].leaseExpires.Some? && t[id].leaseExpires.value <= now
  }

  predicate Malformed(t: Table) {
    exists id <- t :: t[id].status.Claimed? && (t[id].leaseOwner.None? || t[id].leaseExpires.None?)
  }

  // The fence of every settlement statement.
  predicate Fenced(t: Table, id: string, worker: string, version: int, now: Instant) {
    && id in t && t[id].status.Claimed? && t[id].leaseOwner == Some(worker) && t[id].version == version
    && t[id].leaseExpires.Some? && t[id].leaseExpires.value > now
  }

  function ClaimedRow(row: Row, worker: string, expires: Instant): Row {
    row.(status := Claimed, leaseOwner := Some(worker), leaseExpires := Some(expires),
         attempts := row.attempts + 1, version := row.version + 1, lastError := None)
  }
  function GrantOf(row: Row, worker: string, expires: Instant): Grant {
    Grant(row.entry, worker, expires, row.version, row.attempts)
  }
  function SettledRow(row: Row, status: Status, availableAt: Instant, error: Option<string>): Row {
    row.(status := status, entry := row.entry.(availableAt := availableAt), leaseOwner := None,
         leaseExpires := None, version := row.version + 1, lastError := error)
  }

  // The picked rows leased to a worker, and the claims that are handed out for them.
  function Leased(t: Table, pick: set<string>, worker: string, expires: Instant): Table {
    map id | id in t :: if id in pick then ClaimedRow(t[id], worker, expires) else t[id]
  }
  function Grants(t: Table, pick: set<string>, worker: string, expires: Instant): set<Grant>
    requires pick <= t.Keys
  {
    set id | id in pick :: GrantOf(ClaimedRow(t[id], worker, expires), worker, expires)
  }

  // The picked rows with their expired leases taken back, and the report of it.
  function Released(t: Table, pick: set<string>, now: Instant): Table {
    map id | id in t :: if id in pick then SettledRow(t[id], Retry, now, Some("lease_expired")) else t[id]
  }
  function ReclaimedItems(t: Table, pick: set<string>, now: Instant): set<Reclaimed>
    requires pick <= t.Keys && forall id <- pick :: t[id].leaseOwner.Some?
  {
    set id | id in pick :: Reclaimed(id, t[id].leaseOwner.value, t[id].version + 1, now)
  }

  function Settle(t: Table, id: string, worker: string, version: int, now: Instant, status: Status,
                  availableAt: Option<Instant>, error: Option<string>): (Table, Reply)
  {
    if !SafeId(id) || !SafeId(worker) || version < 1 || (error.Some? && !SafeErrorCode(error.value))
    then (t, Refused(ContractError))
    else if !Fenced(t, id, worker, version, now) then (t, Refused(FenceConflict))
    else
      var at := if availableAt.Some? then availableAt.value else t[id].entry.availableAt;
      (t[id := SettledRow(t[id], status, at, error)], Settled)
  }

  // One statement of any worker. A statement that is refused, or whose returned rows
  // do not decode, leaves the table as it was.
  function Step(sha256: Bytes -> Digest, t: Table, e: Event): (Table, Reply) {
    match e
    case Enqueue(entry) =>
      var exact := Normalized(entry);
      if !ValidEntry(sha256, entry) then (t, Refused(ContractError))
      else if KeyTaken(t, exact.idempotencyKey) then
        if exact.entryId in t && t[exact.entryId].entry == exact then (t, Replayed)
        else (t, Refused(IdempotencyConflict))
      else if exact.entryId in t then (t, Refused(UniqueViolation))
      else (t[exact.entryId := Row(exact, Pending, 0, None, None, 0, None)], Inserted)
    case Claim(worker, topics, now, lease, limit, pick) =>
      if !ClaimRequestOk(worker, topics, now, lease, limit) then (t, Refused(ContractError))
      else if !Claimable(t, topics, now, limit, pick) then (t, Granted({}))
      else if exists id <- pick :: !ValidEntry(sha256, t[id].entry) then (t, Refused(ContractError))
      else
        (Leased(t, pick, worker, now + lease), Granted(Grants(t, pick, worker, now + lease)))
    case Ack(id, worker, version, now) => Settle(t, id, worker, version, now, Succeeded, None, None)
    case RetryAt(id, worker, version, availableAt, error, now) =>
      Settle(t, id, worker, version, now, Retry, Some(availableAt), Some(error))
    case Bury(id, worker, version, error, now) =>
      Settle(t, id, worker, version, now, DeadLetter, None, Some(error))
    case Reclaim(now, limit, pick) =>
      if Malformed(t) then (t, Refused(LeaseInvalid))
      else if !(1 <= limit <= 1000) then (t, Refused(ContractError))
      else if !Reclaimable(t, now, limit, pick) then (t, TakenBack({}))
      else if exists id <- pick :: !SafeId(id) || !SafeId(t[id].leaseOwner.value) then (t, Refused(RecordInvalid))
      else
        (Released(t, pick, now), TakenBack(ReclaimedItems(t, pick, now)))
  }

  // ---- the invariant of every reachable table ----

  predicate RowOk(sha256: Bytes -> Digest, id: string, row: Row) {
    && row.entry.entryId == id && ValidEntry(sha256, row.entry) && Normalized(row.entry) == row.entry
    && (row.status.Claimed? ==> row.leaseOwner.Some? && SafeId(row.leaseOwner.value) && row.leaseExpires.Some?)
    && (!row.status.Claimed? ==> row.leaseOwner.None? && row.leaseExpires.None?)
    && (row.lastError.Some? <==> row.status in {Retry, DeadLetter})
    && (row.attempts == 0 <==> row.status.Pending?)
    && row.version == (if row.status.Claimed? then 2 * row.attempts - 1 else 2 * row.attempts)
  }

  predicate KeysUnique(t: Table) {
    forall a, b :: a in t && b in t && t[a].entry.idempotencyKey == t[b].entry.idempotencyKey ==> a == b
  }

  predicate Inv(sha256: Bytes -> Digest, t: Table) {
    (forall id <- t :: RowOk(sha256, id, t[id])) && KeysUnique(t)
  }

  lemma NormalizedTwice(e: Entry)
    ensures Normalized(Normalized(e)) == Normalized(e)
  {
    var once := Normalized(e).payloadSha256;
    assert Normalized(Normalized(e)).payloadSha256 == once;
  }

  // What one statement can do to one existing row: nothing, a claim, or a settlement
  // of a live claim; only its schedule, never its work, can change.
  predicate RowMove(before: Row, after: Row) {
    || after == before
    || (&& before.status in {Pending, Retry} && after.status.Claimed?
        && after.version == before.version + 1 && after.attempts == before.attempts + 1
        && after.entry == before.entry)
    || (&& before.status.Claimed? && after.status in {Retry, Succeeded, DeadLetter}
        && after.version == before.version + 1 && after.attempts == before.attempts
        && after.entry == before.entry.(availableAt := after.entry.availableAt))
  }

  lemma RowMoves(sha256: Bytes -> Digest, t: Table, e: Event, id: string)
    requires id in t
    ensures var after := Step(sha256, t, e).0; id in after && RowMove(t[id], after[id])
  {
  }

  lemma RescheduledOk(sha256: Bytes -> Digest, id: string, row: Row, status: Status, at: Instant, error: Option<string>)
    requires RowOk(sha256, id, row) && row.status.Claimed?
    requires status in {Retry, Succeeded, DeadLetter} && (error.Some? <==> !status.Succeeded?)
    ensures RowOk(sha256, id, SettledRow(row, status, at, error))
  {
    assert Normalized(row.entry.(availableAt := at)).payloadSha256 == Normalized(row.entry).payloadSha256;
    assert Normalized(row.entry.(availableAt := at)) == row.entry.(availableAt := at);
  }

  lemma RowStaysOk(sha256: Bytes -> Digest, t: Table, e: Event, id: string)
    requires id in t && RowOk(sha256, id, t[id])
    ensures var after := Step(sha256, t, e).0; id in after && RowOk(sha256, id, after[id])
  {
    var after := Step(sha256, t, e).0;
    if after[id] != t[id] && t[id].status.Claimed? {
      RescheduledOk(sha256, id, t[id], after[id].status, after[id].entry.availableAt, after[id].lastError);
    }
  }

  lemma OnlyEnqueueAdds(sha256: Bytes -> Digest, t: Table, e: Event)
    ensures var (after, reply) := Step(sha256, t, e);
            after.Keys == if reply.Inserted? then t.Keys + {Normalized(e.entry).entryId} else t.Keys
  {
  }

  lemma InsertKeepsInv(sha256: Bytes -> Digest, t: Table, entry: Entry)
    requires Inv(sha256, t) && ValidEntry(sha256, entry)
    requires !KeyTaken(t, entry.idempotencyKey) && entry.entryId !in t
    ensures Inv(sha256, t[entry.entryId := Row(Normalized(entry), Pending, 0, None, None, 0, None)])
  {
    NormalizedTwice(entry);
    assert RowOk(sha256, entry.entryId, Row(Normalized(entry), Pending, 0, None, None, 0, None));
  }

  lemma RowMovesKeepInv(sha256: Bytes -> Digest, t: Table, after: Table)
    requires Inv(sha256, t) && after.Keys == t.Keys
    requires forall id <- t :: RowMove(t[id], after[id])
    requires forall id <- t :: RowOk(sha256, id, after[id])
    ensures Inv(sha256, after)
  {
    forall id | id in t ensures after[id].entry.idempotencyKey == t[id].entry.idempotencyKey {
      assert RowMove(t[id], after[id]);
    }
  }

  lemma AllRowsMove(sha256: Bytes -> Digest, t: Table, e: Event)
    ensures forall id <- t :: id in Step(sha256, t, e).0 && RowMove(t[id], Step(sha256, t, e).0[id])
  {
    forall id | id in t ensures id in Step(sha256, t, e).0 && RowMove(t[id], Step(sha256, t, e).0[id]) {
      RowMoves(sha256, t, e, id);
    }
  }

  lemma AllRowsStayOk(sha256: Bytes -> Digest, t: Table, e: Event)
    requires forall id <- t :: RowOk(sha256, id, t[id])
    ensures forall id <- t :: id in Step(sha256, t, e).0 && RowOk(sha256, id, Step(sha256, t, e).0[id])
  {
    forall id | id in t ensures id in Step(sha256, t, e).0 && RowOk(sha256, id, Step(sha256, t, e).0[id]) {
      RowStaysOk(sha256, t, e, id);
    }
  }

  lemma UpdateKeepsInv(sha256: Bytes -> Digest, t: Table, e: Event)
    requires Inv(sha256, t) && !Step(sha256, t, e).1.Inserted?
    ensures Inv(sha256, Step(sha256, t, e).0)
  {
    OnlyEnqueueAdds(sha256, t, e);
    AllRowsMove(sha256, t, e);
    AllRowsStayOk(sha256, t, e);
    RowMovesKeepInv(sha256, t, Step(sha256, t, e).0);
  }

  lemma StepKeepsInv(sha256: Bytes -> Digest, t: Table, e: Event)
    requires Inv(sha256, t)
    ensures Inv(sha256, Step(sha256, t, e).0)
  {
    if Step(sha256, t, e).1.Inserted? {
      InsertKeepsInv(sha256, t, e.entry);
    } else {
      UpdateKeepsInv(sha256, t, e);
    }
  }

  // ---- whole runs: any workers, any clocks, in any order ----

  datatype History = History(states: seq<Table>, events: seq<Event>, replies: seq<Reply>)

  predicate Linked(sha256: Bytes -> Digest, h: History, i: nat)
    requires |h.states| == |h.events| + 1 == |h.replies| + 1 && i < |h.events|
  {
    Step(sha256, h.states[i], h.events[i]) == (h.states[i + 1], h.replies[i])
  }

  // A run from any table that satisfies the invariant, the empty one included.
  ghost predicate Run(sha256: Bytes -> Digest, h: History) {
    && |h.states| == |h.events| + 1 == |h.replies| + 1
    && Inv(sha256, h.states[0])
    && forall i | 0 <= i < |h.events| :: Linked(sha256, h, i)
  }

  function Version(row: Row): nat { row.version }

  // Every reachable table satisfies the invariant, in particular
  // version = 2 * attempts, less one while claimed.
  lemma {:induction false} ReachableInv(sha256: Bytes -> Digest, h: History, n: nat)
    requires Run(sha256, h) && n < |h.states|
    ensures Inv(sha256, h.states[n])
  {
    if n > 0 {
      ReachableInv(sha256, h, n - 1);
      assert Linked(sha256, h, n - 1);
      StepKeepsInv(sha256, h.states[n - 1], h.events[n - 1]);
    }
  }

  // In every reachable table the stored work is intact: its digest is that of its payload,
  // which is neither empty nor larger than one mebibyte.
  lemma StoredWorkIsIntact(sha256: Bytes -> Digest, h: History, n: nat, id: string)
    requires Run(sha256, h) && n < |h.states| && id in h.states[n]
    ensures var entry := h.states[n][id].entry;
            && entry.entryId == id && sha256(entry.payload) == entry.payloadSha256 && IsSha256(entry.payloadSha256)
            && 1 <= |entry.payload| <= 1_048_576
  {
    ReachableInv(sha256, h, n);
    assert RowOk(sha256, id, h.states[n][id]);
  }

  lemma StepAdvancesRows(sha256: Bytes -> Digest, t: Table, e: Event)
    ensures StepAdvances(t, Step(sha256, t, e).0, Version)
  {
    AllRowsMove(sha256, t, e);
  }

  lemma RunAdvances(sha256: Bytes -> Digest, h: History)
    requires Run(sha256, h)
    ensures Advances(h.states, Version)
  {
    forall i, j | 0 <= i && j == i + 1 && j < |h.states| ensures StepAdvances(h.states[i], h.states[j], Version) {
      assert Linked(sha256, h, i);
      StepAdvancesRows(sha256, h.states[i], h.events[i]);
    }
  }

  // The reply hands out version `v` of entry `id`.
  predicate Issues(reply: Reply, id: string, v: nat) {
    reply.Granted? && exists g <- reply.grants :: g.entry.entryId == id && g.version == v
  }

  // The event ends the claim on version `v` of entry `id`: a settlement by its
  // holder, or a reclaim.
  predicate Closes(e: Event, reply: Reply, id: string, v: nat) {
    || (reply.Settled? && (e.Ack? || e.RetryAt? || e.Bury?) && e.id == id && e.version == v)
    || (reply.TakenBack? && exists item <- reply.items :: item.entryId == id && item.version == v + 1)
  }

  // Rows are stored under their own identifier.
  predicate Keyed(t: Table) { forall id <- t :: t[id].entry.entryId == id }

  lemma IssueLeaves(sha256: Bytes -> Digest, t: Table, e: Event, id: string, v: nat)
    requires Keyed(t) && Issues(Step(sha256, t, e).1, id, v)
    ensures var after := Step(sha256, t, e).0;
            id in t && id in after && t[id].version + 1 == v == after[id].version && after[id].status.Claimed?
  {
    var g :| g in Step(sha256, t, e).1.grants && g.entry.entryId == id && g.version == v;
  }

  lemma CloseLeaves(sha256: Bytes -> Digest, t: Table, e: Event, id: string, v: nat)
    requires Closes(e, Step(sha256, t, e).1, id, v)
    ensures var after := Step(sha256, t, e).0;
            id in t && id in after && t[id].version == v && after[id].version == v + 1 && t[id].status.Claimed?
  {
  }

  lemma IssueAt(sha256: Bytes -> Digest, h: History, n: nat, id: string, v: nat)
    requires Run(sha256, h) && n < |h.events| && Issues(h.replies[n], id, v)
    ensures v > 0 && Leaves(h.states, Version, n, id, v - 1)
  {
    ReachableInv(sha256, h, n);
    assert Keyed(h.states[n]);
    assert Linked(sha256, h, n);
    IssueLeaves(sha256, h.states[n], h.events[n], id, v);
  }

  lemma CloseAt(sha256: Bytes -> Digest, h: History, n: nat, id: string, v: nat)
    requires Run(sha256, h) && n < |h.events| && Closes(h.events[n], h.replies[n], id, v)
    ensures Leaves(h.states, Version, n, id, v)
  {
    assert Linked(sha256, h, n);
    CloseLeaves(sha256, h.states[n], h.events[n], id, v);
  }

  // A claim's (entry, version) is handed out once in a run.
  lemma IssuedOnce(sha256: Bytes -> Digest, h: History, i: nat, j: nat, id: string, v: nat)
    requires Run(sha256, h) && i < |h.events| && j < |h.events|
    requires Issues(h.replies[i], id, v) && Issues(h.replies[j], id, v)
    ensures i == j
  {
    IssueAt(sha256, h, i, id, v);
    IssueAt(sha256, h, j, id, v);
    RunAdvances(sha256, h);
    LeftOnce(h.states, Version, i, j, id, v - 1);
  }

  // A claim ends once: two settlements, or a settlement after a reclaim, never both
  // succeed, whatever the clocks say.
  lemma ClosedOnce(sha256: Bytes -> Digest, h: History, i: nat, j: nat, id: string, v: nat)
    requires Run(sha256, h) && i < |h.events| && j < |h.events|
    requires Closes(h.events[i], h.replies[i], id, v) && Closes(h.events[j], h.replies[j], id, v)
    ensures i == j
  {
    CloseAt(sha256, h, i, id, v);
    CloseAt(sha256, h, j, id, v);
    RunAdvances(sha256, h);
    LeftOnce(h.states, Version, i, j, id, v);
  }

  // A claimed row that was not claimed before was handed out by this very statement.
  lemma ClaimedByIssue(sha256: Bytes -> Digest, t: Table, e: Event, id: string)
    requires Keyed(t)
    requires var after := Step(sha256, t, e).0;
             id in after && after[id].status.Claimed? && (id in t ==> t[id] != after[id])
    ensures Issues(Step(sha256, t, e).1, id, Step(sha256, t, e).0[id].version)
  {
    var (after, reply) := Step(sha256, t, e);
    assert e.Claim? && id in e.pick;
    var g := GrantOf(after[id], e.worker, e.now + e.lease);
    assert g in Grants(t, e.pick, e.worker, e.now + e.lease) && g.entry.entryId == id;
  }

  // Nothing can be settled that was not handed out: a row found claimed in a run that
  // started with it unclaimed was issued, with this version, by an earlier event.
  lemma {:induction false} ClaimedWasIssued(sha256: Bytes -> Digest, h: History, j: nat, id: string) returns (i: nat)
    requires Run(sha256, h) && j < |h.states| && (id in h.states[0] ==> !h.states[0][id].status.Claimed?)
    requires id in h.states[j] && h.states[j][id].status.Claimed?
    ensures i < j && Issues(h.replies[i], id, h.states[j][id].version)
    decreases j
  {
    if id in h.states[j - 1] && h.states[j - 1][id] == h.states[j][id] {
      i := ClaimedWasIssued(sha256, h, j - 1, id);
    } else {
      i := j - 1;
      ReachableInv(sha256, h, i);
      assert Linked(sha256, h, i);
      assert Keyed(h.states[i]);
      ClaimedByIssue(sha256, h.states[i], h.events[i], id);
    }
  }

  // What a row keeps between any two moments of a run: its work, and all of it once
  // it has succeeded or been buried.
  predicate Keeps(before: Row, after: Row) {
    && after.entry == before.entry.(availableAt := after.entry.availableAt)
    && (before.status in {Succeeded, DeadLetter} ==> before == after)
  }

  lemma {:induction false} RowsKeep(sha256: Bytes -> Digest, h: History, i: nat, j: nat, id: string)
    requires Run(sha256, h) && i <= j < |h.states| && id in h.states[i]
    ensures id in h.states[j] && Keeps(h.states[i][id], h.states[j][id])
    decreases j
  {
    if i < j {
      RowsKeep(sha256, h, i, j - 1, id);
      assert Linked(sha256, h, j - 1);
      RowMoves(sha256, h.states[j - 1], h.events[j - 1], id);
    }
  }

  lemma EnqueueStores(sha256: Bytes -> Digest, t: Table, entry: Entry)
    requires Inv(sha256, t) && Step(sha256, t, Enqueue(entry)).1 in {Inserted, Replayed}
    ensures var after, id := Step(sha256, t, Enqueue(entry)).0, entry.entryId;
            ValidEntry(sha256, entry) && id in after && after[id].entry == Normalized(entry)
  {
  }

  lemma EnqueueAgain(sha256: Bytes -> Digest, t: Table, entry: Entry)
    requires ValidEntry(sha256, entry) && entry.entryId in t
    requires t[entry.entryId].entry == Normalized(entry).(availableAt := t[entry.entryId].entry.availableAt)
    ensures Step(sha256, t, Enqueue(entry)) ==
              (t, if t[entry.entryId].entry.availableAt == entry.availableAt then Replayed
               else Refused(IdempotencyConflict))
  {
    assert KeyTaken(t, Normalized(entry).idempotencyKey);
  }

  // Enqueueing the same work again is a replay exactly while the row's schedule is
  // still the one it was enqueued with; otherwise it is refused as a conflict.
  lemma ReplayDependsOnSchedule(sha256: Bytes -> Digest, h: History, i: nat, j: nat, entry: Entry)
    requires Run(sha256, h) && i < j < |h.states|
    requires h.events[i] == Enqueue(entry) && h.replies[i] in {Inserted, Replayed}
    ensures var id, t := entry.entryId, h.states[j];
            && id in t
            && Step(sha256, t, Enqueue(entry)) ==
                 (t, if t[id].entry.availableAt == entry.availableAt then Replayed else Refused(IdempotencyConflict))
  {
    ReachableInv(sha256, h, i);
    assert Linked(sha256, h, i);
    EnqueueStores(sha256, h.states[i], entry);
    RowsKeep(sha256, h, i + 1, j, entry.entryId);
    EnqueueAgain(sha256, h.states[j], entry);
  }

  // Such a refusal does happen: once a retry has put the entry off, its own enqueue conflicts.
  lemma ReplayCanBeRefused(sha256: Bytes -> Digest, t: Table, entry: Entry, worker: string, now: Instant,
                           later: Instant)
    requires Inv(sha256, t) && ValidEntry(sha256, entry) && entry.entryId in t
             && t[entry.entryId].entry == Normalized(entry)
    requires Fenced(t, entry.entryId, worker, t[entry.entryId].version, now) && later != entry.availableAt
    ensures var (after, reply) := Step(sha256, t,
                                       RetryAt(entry.entryId, worker, t[entry.entryId].version, later, "busy", now));
            reply == Settled && Step(sha256, after, Enqueue(entry)) == (after, Refused(IdempotencyConflict))
  {
    var id := entry.entryId;
    assert SafeErrorCode("busy");
    assert RowOk(sha256, id, t[id]);
    var after := Step(sha256, t, RetryAt(id, worker, t[id].version, later, "busy", now)).0;
    assert after[id].entry == Normalized(entry).(availableAt := later);
    EnqueueAgain(sha256, after, entry);
  }

  // Delivered or buried once: of all successful acknowledgements and burials of one
  // entry in a run, under whatever versions, there is at most one.
  lemma FinishedOnce(sha256: Bytes -> Digest, h: History, i: nat, j: nat)
    requires Run(sha256, h) && i <= j < |h.events|
    requires h.replies[i].Settled? && (h.events[i].Ack? || h.events[i].Bury?)
    requires h.replies[j].Settled? && (h.events[j].Ack? || h.events[j].Bury?)
    requires h.events[i].id == h.events[j].id
    ensures i == j
  {
    var id := h.events[i].id;
    assert Linked(sha256, h, i) && Linked(sha256, h, j);
    assert h.states[i + 1][id].status in {Succeeded, DeadLetter};
    assert h.states[j][id].status.Claimed?;
    if i < j { RowsKeep(sha256, h, i + 1, j, id); }
  }

  // Every claim handed out is for waiting work of a requested topic that was due, carries
  // the work as stored, is the entry's next attempt, and expires one lease after `now`.
  lemma GrantsAreDue(sha256: Bytes -> Digest, t: Table, e: Event, g: Grant)
    requires Keyed(t) && e.Claim? && Step(sha256, t, e).1.Granted? && g in Step(sha256, t, e).1.grants
    ensures var id := g.entry.entryId;
            && id in t && t[id].status in {Pending, Retry} && g.entry == t[id].entry
            && g.entry.topic in e.topics && g.entry.availableAt <= e.now
            && g.worker == e.worker && g.expires == e.now + e.lease && 0 < e.lease <= MaxLease
            && g.attempt == t[id].attempts + 1 && g.version == t[id].version + 1
  {
    var id :| id in e.pick && g == GrantOf(ClaimedRow(t[id], e.worker, e.now + e.lease), e.worker, e.now + e.lease);
    assert g.entry.entryId == id;
  }

  lemma {:induction false} GrantsNoMore(t: Table, pick: set<string>, worker: string, expires: Instant)
    requires pick <= t.Keys
    ensures |Grants(t, pick, worker, expires)| <= |pick|
    decreases pick
  {
    if pick != {} {
      var id :| id in pick;
      GrantsNoMore(t, pick - {id}, worker, expires);
      assert Grants(t, pick, worker, expires)
          == Grants(t, pick - {id}, worker, expires) + {GrantOf(ClaimedRow(t[id], worker, expires), worker, expires)};
    }
  }

  // A claim hands out no more entries than it was limited to, and never more than 1000.
  lemma GrantsStayWithinLimit(sha256: Bytes -> Digest, t: Table, e: Event)
    requires e.Claim? && Step(sha256, t, e).1.Granted?
    ensures |Step(sha256, t, e).1.grants| <= e.limit <= 1000
  {
    if Claimable(t, e.topics, e.now, e.limit, e.pick) { GrantsNoMore(t, e.pick, e.worker, e.now + e.lease); }
  }

  // At any one reading of the clock a live claim can be settled by its holder or be taken
  // back, exactly one of the two: settled before its lease expires, reclaimed from then on.
  lemma LeaseDecides(sha256: Bytes -> Digest, t: Table, id: string, now: Instant)
    requires Inv(sha256, t) && id in t && t[id].status.Claimed?
    ensures var row := t[id];
            && (Step(sha256, t, Ack(id, row.leaseOwner.value, row.version, now)).1.Settled?
                <==> now < row.leaseExpires.value)
            && (Step(sha256, t, Reclaim(now, 1, {id})).0 != t <==> row.leaseExpires.value <= now)
  {
    assert RowOk(sha256, id, t[id]);
    NeverDamaged(sha256, t, Reclaim(now, 1, {id}));
    if t[id].leaseExpires.value <= now { assert Released(t, {id}, now)[id].status == Retry; }
  }

  // The branches that report a damaged table are dead in every reachable one.
  lemma NeverDamaged(sha256: Bytes -> Digest, t: Table, e: Event)
    requires Inv(sha256, t)
    ensures Step(sha256, t, e).1 !in {Refused(LeaseInvalid), Refused(RecordInvalid)}
    ensures e.Claim? && ClaimRequestOk(e.worker, e.topics, e.now, e.lease, e.limit) ==> Step(sha256, t, e).1.Granted?
  {
    assert forall id <- t :: RowOk(sha256, id, t[id]);
  }

  // ---- what each statement answers and leaves ----

  // The row is left waiting or finished: no lease, one version on, the same attempts and work.
  predicate Ended(before: Row, after: Row) {
    && after.leaseOwner == None && after.leaseExpires == None
    && after.version == before.version + 1 && after.attempts == before.attempts
    && after.entry.(availableAt := before.entry.availableAt) == before.entry
  }

  // Work is inserted exactly when it is valid and neither its identifier nor its key is
  // known, as a row never tried; it is replayed exactly when it is stored as it is.
  lemma EnqueueAnswers(sha256: Bytes -> Digest, t: Table, entry: Entry)
    ensures var (after, reply) := Step(sha256, t, Enqueue(entry));
            var id := entry.entryId;
            var known := exists other <- t :: t[other].entry.idempotencyKey == entry.idempotencyKey;
            && (reply == Refused(ContractError) <==> !ValidEntry(sha256, entry))
            && (reply == Inserted <==> ValidEntry(sha256, entry) && id !in t && !known)
            && (reply == Refused(UniqueViolation) <==> ValidEntry(sha256, entry) && id in t && !known)
            && (reply == Replayed <==> ValidEntry(sha256, entry) && id in t && t[id].entry == Normalized(entry))
            && (reply in {Inserted, Replayed} || reply.Refused?)
            && (reply != Inserted ==> after == t)
            && (reply == Inserted ==>
                  && after == t[id := after[id]] && after[id].entry == Normalized(entry)
                  && after[id].status == Pending && after[id].attempts == after[id].version == 0
                  && after[id].leaseOwner == None && after[id].leaseExpires == None && after[id].lastError == None)
  {
    if entry.entryId in t && t[entry.entryId].entry == Normalized(entry) {
      assert KeyTaken(t, entry.idempotencyKey);
    }
  }

  lemma ClaimGoesThrough(sha256: Bytes -> Digest, t: Table, e: Event)
    requires Inv(sha256, t) && e.Claim? && Claimable(t, e.topics, e.now, e.limit, e.pick)
    requires ClaimRequestOk(e.worker, e.topics, e.now, e.lease, e.limit)
    ensures e.pick <= t.Keys
    ensures Step(sha256, t, e) == (Leased(t, e.pick, e.worker, e.now + e.lease),
                                   Granted(Grants(t, e.pick, e.worker, e.now + e.lease)))
  {
    assert forall id <- t :: RowOk(sha256, id, t[id]);
  }

  lemma LeasedRow(t: Table, e: Event, id: string)
    requires e.Claim? && e.pick <= t.Keys && id in t
    ensures var expires := e.now + e.lease;
            var after, grants := Leased(t, e.pick, e.worker, expires), Grants(t, e.pick, e.worker, expires);
            && after.Keys == t.Keys
            && if id in e.pick then LeasedTo(t[id], after[id], e.worker, expires) && GrantedFrom(t[id], e, grants)
               else after[id] == t[id]
  {
    if id in e.pick {
      assert GrantOf(ClaimedRow(t[id], e.worker, e.now + e.lease), e.worker, e.now + e.lease)
          in Grants(t, e.pick, e.worker, e.now + e.lease);
    }
  }

  // A well-formed claim leases every row it picked, and no other, to its worker until one
  // lease after `now`, as the row's next attempt, and hands each of them out.
  lemma ClaimAnswers(sha256: Bytes -> Digest, t: Table, e: Event, id: string)
    requires Inv(sha256, t) && e.Claim? && Claimable(t, e.topics, e.now, e.limit, e.pick) && id in t
    ensures var (after, reply) := Step(sha256, t, e);
            if !ClaimRequestOk(e.worker, e.topics, e.now, e.lease, e.limit)
            then reply == Refused(ContractError) && after == t
            else && reply.Granted? && after.Keys == t.Keys
                 && (if id in e.pick then LeasedTo(t[id], after[id], e.worker, e.now + e.lease)
                                          && GrantedFrom(t[id], e, reply.grants)
                     else after[id] == t[id])
  {
    if ClaimRequestOk(e.worker, e.topics, e.now, e.lease, e.limit) {
      ClaimGoesThrough(sha256, t, e);
      LeasedRow(t, e, id);
    }
  }

  predicate LeasedTo(before: Row, after: Row, worker: string, expires: Instant) {
    && after.status == Claimed && after.leaseOwner == Some(worker) && after.leaseExpires == Some(expires)
    && after.attempts == before.attempts + 1 && after.version == before.version + 1
    && after.entry == before.entry && after.lastError == None
  }

  predicate GrantedFrom(before: Row, e: Event, grants: set<Grant>)
    requires e.Claim?
  {
    Grant(before.entry, e.worker, e.now + e.lease, before.version + 1, before.attempts + 1) in grants
  }

  // Any waiting row of a requested topic is claimed as soon as it is due, if it is picked.
  lemma DueRowIsClaimed(sha256: Bytes -> Digest, t: Table, id: string, worker: string, topics: seq<string>,
                        now: Instant, lease: int, limit: int)
    requires Inv(sha256, t) && ClaimRequestOk(worker, topics, now, lease, limit)
    requires id in t && t[id].status in {Pending, Retry} && t[id].entry.topic in topics
    requires t[id].entry.availableAt <= now
    ensures var (after, reply) := Step(sha256, t, Claim(worker, topics, now, lease, limit, {id}));
            reply.Granted? && id in after && LeasedTo(t[id], after[id], worker, now + lease)
  {
    ClaimAnswers(sha256, t, Claim(worker, topics, now, lease, limit, {id}), id);
  }

  predicate IsSettlement(e: Event) { e.Ack? || e.RetryAt? || e.Bury? }

  // A settlement goes through exactly for the holder of the claim, at its version and before
  // its lease expires, and changes this row alone: an acknowledged row has succeeded, a
  // buried one is dead-lettered with the caller's error, both at their old schedule, and a
  // retried one waits for the caller's time with the caller's error.
  lemma SettlementAnswers(sha256: Bytes -> Digest, t: Table, e: Event)
    requires Inv(sha256, t) && IsSettlement(e)
    ensures var (after, reply) := Step(sha256, t, e);
            && (reply == Settled <==> && e.id in t && t[e.id].status == Claimed && t[e.id].leaseOwner == Some(e.worker)
                                      && t[e.id].version == e.version && e.now < t[e.id].leaseExpires.value
                                      && (!e.Ack? ==> SafeErrorCode(e.error)))
            && (reply == Refused(ContractError) <==> || !SafeId(e.id) || !SafeId(e.worker) || e.version < 1
                                                     || (!e.Ack? && !SafeErrorCode(e.error)))
            && (reply != Settled ==> after == t && reply in {Refused(ContractError), Refused(FenceConflict)})
            && (reply == Settled ==>
                  && after == t[e.id := after[e.id]] && Ended(t[e.id], after[e.id])
                  && after[e.id].status == (if e.Ack? then Succeeded else if e.Bury? then DeadLetter else Retry)
                  && after[e.id].lastError == (if e.Ack? then None else Some(e.error))
                  && after[e.id].entry.availableAt
                     == (if e.RetryAt? then e.availableAt else t[e.id].entry.availableAt))
  {
    if e.id in t { assert RowOk(sha256, e.id, t[e.id]); }
  }

  lemma ReclaimGoesThrough(sha256: Bytes -> Digest, t: Table, e: Event)
    requires Inv(sha256, t) && e.Reclaim? && Reclaimable(t, e.now, e.limit, e.pick) && 1 <= e.limit <= 1000
    ensures e.pick <= t.Keys && forall id <- e.pick :: t[id].leaseOwner.Some?
    ensures Step(sha256, t, e) == (Released(t, e.pick, e.now), TakenBack(ReclaimedItems(t, e.pick, e.now)))
  {
    NeverDamaged(sha256, t, e);
    forall id | id in e.pick ensures t[id].leaseOwner.Some? { assert RowOk(sha256, id, t[id]); }
  }

  // A reclaim takes back every expired lease it picked, and no other: each such row waits
  // for retry from `now` on with the error `lease_expired`, and is reported.
  lemma ReclaimAnswers(sha256: Bytes -> Digest, t: Table, e: Event, id: string)
    requires Inv(sha256, t) && e.Reclaim? && Reclaimable(t, e.now, e.limit, e.pick) && id in t
    ensures var (after, reply) := Step(sha256, t, e);
            if !(1 <= e.limit <= 1000) then reply == Refused(ContractError) && after == t
            else && reply.TakenBack? && after.Keys == t.Keys
                 && (if id in e.pick then ExpiredTo(t[id], after[id], e.now)
                                          && ReportedFrom(id, t[id], e.now, reply.items)
                     else after[id] == t[id])
  {
    NeverDamaged(sha256, t, e);
    if 1 <= e.limit <= 1000 {
      ReclaimGoesThrough(sha256, t, e);
      if id in e.pick {
        assert Reclaimed(id, t[id].leaseOwner.value, t[id].version + 1, e.now) in ReclaimedItems(t, e.pick, e.now);
      }
    }
  }

  predicate ExpiredTo(before: Row, after: Row, now: Instant) {
    && Ended(before, after) && after.status == Retry && after.lastError == Some("lease_expired")
    && after.entry.availableAt == now
  }

  predicate ReportedFrom(id: string, before: Row, now: Instant, items: set<Reclaimed>) {
    before.leaseOwner.Some? && Reclaimed(id, before.leaseOwner.value, before.version + 1, now) in items
  }

  // ---- every row has the cause its status names ----

  // The event and its reply that bring a row to be as it is.
  predicate Brings(e: Event, reply: Reply, id: string, row: Row) {
    match row.status
    case Pending => e.Enqueue? && reply == Inserted && row.entry == Normalized(e.entry)
    case Claimed => && e.Claim? && id in e.pick && row.leaseOwner == Some(e.worker)
                    && row.leaseExpires == Some(e.now + e.lease) && Issues(reply, id, row.version)
    case Succeeded => e.Ack? && reply == Settled && e.id == id && e.version + 1 == row.version
    case DeadLetter => && e.Bury? && reply == Settled && e.id == id && e.version + 1 == row.version
                       && row.lastError == Some(e.error)
    case Retry => || (&& e.RetryAt? && reply == Settled && e.id == id && e.version + 1 == row.version
                      && row.lastError == Some(e.error) && row.entry.availableAt == e.availableAt)
                  || (&& e.Reclaim? && id in e.pick
                      && row.version > 0 && Closes(e, reply, id, row.version - 1)
                      && row.lastError == Some("lease_expired") && row.entry.availableAt == e.now)
  }

  lemma SettlementBrings(sha256: Bytes -> Digest, t: Table, e: Event, id: string)
    requires Inv(sha256, t) && id in t && !e.Claim?
    requires Step(sha256, t, e).0[id] != t[id]
    ensures Brings(e, Step(sha256, t, e).1, id, Step(sha256, t, e).0[id])
  {
    if e.Reclaim? {
      assert RowOk(sha256, id, t[id]);
      ReclaimAnswers(sha256, t, e, id);
      var item := Reclaimed(id, t[id].leaseOwner.value, t[id].version + 1, e.now);
      assert item in Step(sha256, t, e).1.items;
    } else if IsSettlement(e) {
      SettlementAnswers(sha256, t, e);
    }
  }

  lemma ChangeHasCause(sha256: Bytes -> Digest, t: Table, e: Event, id: string)
    requires Inv(sha256, t) && id in Step(sha256, t, e).0
    requires id in t ==> t[id] != Step(sha256, t, e).0[id]
    ensures Brings(e, Step(sha256, t, e).1, id, Step(sha256, t, e).0[id])
  {
    if id !in t {
      OnlyEnqueueAdds(sha256, t, e);
      EnqueueAnswers(sha256, t, e.entry);
    } else if e.Claim? {
      ClaimedByIssue(sha256, t, e, id);
    } else {
      SettlementBrings(sha256, t, e, id);
    }
  }

  // In any run, a row that is not as it was at the start was brought to what it is by one
  // event, and has not changed since: a succeeded row by an acknowledgement, a dead-lettered
  // one by a burial with its error, a waiting one by a retry to its time or by a reclaim.
  lemma {:induction false} RowHasCause(sha256: Bytes -> Digest, h: History, j: nat, id: string) returns (i: nat)
    requires Run(sha256, h) && j < |h.states| && id in h.states[j]
    requires id in h.states[0] ==> h.states[0][id] != h.states[j][id]
    ensures i < j && Brings(h.events[i], h.replies[i], id, h.states[j][id])
    ensures forall n :: i < n <= j ==> id in h.states[n] && h.states[n][id] == h.states[j][id]
    decreases j
  {
    if id in h.states[j - 1] && h.states[j - 1][id] == h.states[j][id] {
      i := RowHasCause(sha256, h, j - 1, id);
    } else {
      i := j - 1;
      ReachableInv(sha256, h, i);
      assert Linked(sha256, h, i);
      ChangeHasCause(sha256, h.states[i], h.events[i], id);
    }
  }

  // ---- the store ----

  class PostgresOutboxStore {
    const sha256: Bytes -> Digest
    var rows: Table

    constructor (hash: Bytes -> Digest)
      ensures rows == map[] && sha256 == hash && Inv(sha256, rows)
    {
      sha256, rows := hash, map[];
    }

    method Enqueue(entry: Entry) returns (reply: Reply)
      requires Keyed(rows) && KeysUnique(rows)
      modifies this
      ensures (rows, reply) == Step(sha256, old(rows), Event.Enqueue(entry))
    {
      if !ValidEntry(sha256, entry) { return Refused(ContractError); }
      var exact := Normalized(entry);
      if KeyTaken(rows, exact.idempotencyKey) {
        var holder :| holder in rows && rows[holder].entry.idempotencyKey == exact.idempotencyKey;
        if rows[holder].entry == exact { return Replayed; }
        return Refused(IdempotencyConflict);
      }
      if exact.entryId in rows { return Refused(UniqueViolation); }
      rows := rows[exact.entryId := Row(exact, Pending, 0, None, None, 0, None)];
      return Inserted;
    }

    method Claim(worker: string, topics: seq<string>, now: Instant, lease: int, limit: int, pick: set<string>)
      returns (reply: Reply)
      requires Claimable(rows, topics, now, limit, pick)
      modifies this
      ensures (rows, reply) == Step(sha256, old(rows), Event.Claim(worker, topics, now, lease, limit, pick))
    {
      if !ClaimRequestOk(worker, topics, now, lease, limit) { return Refused(ContractError); }
      var grants := Lease(pick, worker, now + lease);
      return if grants.Some? then Granted(grants.value) else Refused(ContractError);
    }

    // Leases the picked rows one after the other and decodes what will be returned; a
    // row that does not decode rolls the whole statement back.
    method Lease(pick: set<string>, worker: string, expires: Instant) returns (grants: Option<set<Grant>>)
      requires pick <= rows.Keys
      modifies this
      ensures grants.Some? <==> forall id <- pick :: ValidEntry(sha256, old(rows)[id].entry)
      ensures grants.Some? ==> rows == Leased(old(rows), pick, worker, expires)
                               && grants.value == Grants(old(rows), pick, worker, expires)
      ensures grants.None? ==> rows == old(rows)
    {
      var given: set<Grant> := {};
      var todo, before := pick, rows;
      while todo != {}
        invariant todo <= pick && rows == Leased(before, pick - todo, worker, expires)
        invariant given == Grants(before, pick - todo, worker, expires)
        invariant forall id <- pick - todo :: ValidEntry(sha256, before[id].entry)
      {
        var id :| id in todo;
        if !ValidEntry(sha256, rows[id].entry) {
          rows := before;
          return None;
        }
        rows := rows[id := ClaimedRow(rows[id], worker, expires)];
        given := given + {GrantOf(rows[id], worker, expires)};
        assert pick - (todo - {id}) == (pick - todo) + {id};
        todo := todo - {id};
      }
      assert pick - todo == pick;
      return Some(given);
    }

    method Ack(id: string, worker: string, version: int, now: Instant) returns (reply: Reply)
      modifies this
      ensures (rows, reply) == Step(sha256, old(rows), Event.Ack(id, worker, version, now))
    {
      if !SafeId(id) || !SafeId(worker) || version < 1 { return Refused(ContractError); }
      if !Fenced(rows, id, worker, version, now) { return Refused(FenceConflict); }
      rows := rows[id := rows[id].(status := Succeeded, leaseOwner := None, leaseExpires := None,
                                   version := rows[id].version + 1, lastError := None)];
      return Settled;
    }

    method RetryAt(id: string, worker: string, version: int, availableAt: Instant, error: string, now: Instant)
      returns (reply: Reply)
      modifies this
      ensures (rows, reply) == Step(sha256, old(rows), Event.RetryAt(id, worker, version, availableAt, error, now))
    {
      if !SafeId(id) || !SafeId(worker) || version < 1 || !SafeErrorCode(error) { return Refused(ContractError); }
      if !Fenced(rows, id, worker, version, now) { return Refused(FenceConflict); }
      var row := rows[id];
      rows := rows[id := row.(status := Retry, entry := row.entry.(availableAt := availableAt), leaseOwner := None,
                              leaseExpires := None, version := row.version + 1, lastError := Some(error))];
      return Settled;
    }

    method Bury(id: string, worker: string, version: int, error: string, now: Instant) returns (reply: Reply)
      modifies this
      ensures (rows, reply) == Step(sha256, old(rows), Event.Bury(id, worker, version, error, now))
    {
      if !SafeId(id) || !SafeId(worker) || version < 1 || !SafeErrorCode(error) { return Refused(ContractError); }
      if !Fenced(rows, id, worker, version, now) { return Refused(FenceConflict); }
      rows := rows[id := rows[id].(status := DeadLetter, leaseOwner := None, leaseExpires := None,
                                   version := rows[id].version + 1, lastError := Some(error))];
      return Settled;
    }

    method ReclaimExpired(now: Instant, limit: int, pick: set<string>) returns (reply: Reply)
      requires Reclaimable(rows, now, limit, pick)
      modifies this
      ensures (rows, reply) == Step(sha256, old(rows), Event.Reclaim(now, limit, pick))
    {
      if Malformed(rows) { return Refused(LeaseInvalid); }
      if !(1 <= limit <= 1000) { return Refused(ContractError); }
      var items := TakeBack(pick, now);
      return if items.Some? then TakenBack(items.value) else Refused(RecordInvalid);
    }

    // Takes expired leases back one after the other and lists them; an unreadable
    // record rolls the whole statement back.
    method TakeBack(pick: set<string>, now: Instant) returns (items: Option<set<Reclaimed>>)
      requires pick <= rows.Keys && forall id <- pick :: rows[id].leaseOwner.Some?
      modifies this
      ensures items.Some? <==> forall id <- pick :: SafeId(id) && SafeId(old(rows)[id].leaseOwner.value)
      ensures items.Some? ==> && rows == Released(old(rows), pick, now)
                              && items.value == ReclaimedItems(old(rows), pick, now)
      ensures items.None? ==> rows == old(rows)
    {
      var list: set<Reclaimed> := {};
      var todo, before := pick, rows;
      while todo != {}
        invariant todo <= pick && rows == Released(before, pick - todo, now)
        invariant list == ReclaimedItems(before, pick - todo, now)
        invariant forall id <- pick - todo :: SafeId(id) && SafeId(before[id].leaseOwner.value)
      {
        var id :| id in todo;
        var row := rows[id];
        if !SafeId(id) || !SafeId(row.leaseOwner.value) {
          rows := before;
          return None;
        }
        rows := rows[id := SettledRow(row, Retry, now, Some("lease_expired"))];
        list := list + {Reclaimed(id, row.leaseOwner.value, row.version + 1, now)};
        assert pick - (todo - {id}) == (pick - todo) + {id};
        todo := todo - {id};
      }
      assert pick - todo == pick;
      return Some(list);
    }
  }
}
