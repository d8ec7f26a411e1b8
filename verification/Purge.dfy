// Durable purging of one typed tombstone by concurrent executors. The physical
// deletion happens outside any transaction; only the settlement is fenced.
module Purge {
  import opened Common

  datatype Status = Pending | Purged | Failed | ManualReview

  datatype Tombstone = Tombstone(owner: string, id: string, locator: Digest, status: Status, attempts: nat,
                                 version: nat, availableAt: Instant, verifiedAbsentAt: Option<Instant>,
                                 lastError: Option<string>)

  const DeleteFailedCode := "blob_delete_failed"

  // ---- the fenced statements ----

  predicate Open(row: Tombstone, version: int) { row.version == version && row.status in {Pending, Failed} }

  function MarkedPurged(row: Tombstone, at: Instant): Tombstone {
    row.(status := Purged, attempts := row.attempts + 1, version := row.version + 1,
         verifiedAbsentAt := Some(at), availableAt := at, lastError := None)
  }
  function MarkedFailed(row: Tombstone, retryAt: Instant, error: string): Tombstone {
    row.(status := Failed, attempts := row.attempts + 1, version := row.version + 1,
         availableAt := retryAt, verifiedAbsentAt := None, lastError := Some(error))
  }

  class PurgeStore {
    var row: Tombstone

    constructor (t: Tombstone)
      ensures row == t
    {
      row := t;
    }

    method MarkPurged(owner: string, id: string, locator: Digest, expectedVersion: int, at: Instant)
      returns (applied: bool)
      modifies this
      ensures applied == (old(row).owner == owner && old(row).id == id && old(row).locator == locator
                          && Open(old(row), expectedVersion))
      ensures row == if applied then MarkedPurged(old(row), at) else old(row)
    {
      if row.owner != owner || row.id != id || row.locator != locator || row.version != expectedVersion
         || row.status !in {Pending, Failed} {
        return false;
      }
      row := row.(status := Purged, attempts := row.attempts + 1, version := row.version + 1,
                  verifiedAbsentAt := Some(at), availableAt := at, lastError := None);
      return true;
    }

    method MarkFailed(owner: string, id: string, expectedVersion: int, retryAt: Instant, error: string)
      returns (applied: bool)
      modifies this
      ensures applied == (old(row).owner == owner && old(row).id == id && Open(old(row), expectedVersion))
      ensures row == if applied then MarkedFailed(old(row), retryAt, error) else old(row)
    {
      if row.owner != owner || row.id != id || row.version != expectedVersion || row.status !in {Pending, Failed} {
        return false;
      }
      row := row.(status := Failed, attempts := row.attempts + 1, version := row.version + 1,
                  availableAt := retryAt, verifiedAbsentAt := None, lastError := Some(error));
      return true;
    }
  }

  // ---- executors ----

  datatype Result =
    | ReturnedPurged(attempt: nat)
    | ReturnedAlreadyPurged(attempt: nat)
    | ReturnedFailed(attempt: nat, error: Option<string>)
    | RaisedManualReview | RaisedIntegrity | RaisedNotReady | RaisedConflict | RaisedBlobError

  // Where one `execute` call stands. `seen` is the row it loaded.
  datatype Pc =
    | Started(now: Instant, retryAt: Instant)
    | SeenPurged(seen: Tombstone)                   // found purged, absence to be checked
    | Deleting(seen: Tombstone, now: Instant, retryAt: Instant)
    | Checking(seen: Tombstone, now: Instant, retryAt: Instant) // deletion reported success
    | Verified(seen: Tombstone, now: Instant)       // and the absence check agreed
    | Broken(seen: Tombstone, retryAt: Instant)     // deletion or its check failed
    | Conflicted                                    // the settlement was fenced off
    | Rechecking(seen: Tombstone)                   // reloaded as purged, absence to be checked
    | Done(result: Result)

  type Tid = nat
  datatype Sys = Sys(row: Tombstone, present: bool, pcs: map<Tid, Pc>)

  // A deletion may report success or fail, with the bytes gone or not in either case; a
  // check may fail too; `Reappear` is bytes written by somebody else.
  datatype Action = Begin(now: Instant, retryAt: Instant) | Load | Delete(ok: bool, gone: bool) | CheckAbsent
                  | CheckFails | Settle | Reload
  datatype Event = Do(t: Tid, action: Action) | Reappear

  function Loaded(row: Tombstone, now: Instant, retryAt: Instant): Pc {
    if row.status == ManualReview then Done(RaisedManualReview)
    else if row.status == Purged then SeenPurged(row)
    else if now < row.availableAt then Done(RaisedNotReady)
    else Deleting(row, now, retryAt)
  }

  // What an executor that lost the fence makes of the row it loads again.
  function Reloaded(row: Tombstone): Pc {
    match row.status
    case Purged => Rechecking(row)
    case Pending => Done(RaisedConflict)
    case _ => Done(ReturnedFailed(row.attempts, row.lastError))
  }

  function DoStep(s: Sys, t: Tid, action: Action): Sys
    requires t in s.pcs
  {
    var pc := s.pcs[t];
    match action
    case Begin(now, retryAt) => if pc.Done? && now < retryAt then s.(pcs := s.pcs[t := Started(now, retryAt)]) else s
    case Load => if pc.Started? then s.(pcs := s.pcs[t := Loaded(s.row, pc.now, pc.retryAt)]) else s
    case Delete(ok, gone) =>
      if !pc.Deleting? then s
      else s.(present := s.present && !gone,
              pcs := s.pcs[t := if ok then Checking(pc.seen, pc.now, pc.retryAt) else Broken(pc.seen, pc.retryAt)])
    case CheckAbsent =>
      if pc.Checking? then
        s.(pcs := s.pcs[t := if s.present then Broken(pc.seen, pc.retryAt) else Verified(pc.seen, pc.now)])
      else if pc.SeenPurged? then
        s.(pcs := s.pcs[t := Done(if s.present then RaisedIntegrity else ReturnedAlreadyPurged(pc.seen.attempts))])
      else if pc.Rechecking? then
        s.(pcs := s.pcs[t := Done(if s.present then RaisedConflict else ReturnedAlreadyPurged(pc.seen.attempts))])
      else s
    case CheckFails =>
      if pc.Checking? then s.(pcs := s.pcs[t := Broken(pc.seen, pc.retryAt)])
      else if pc.SeenPurged? || pc.Rechecking? then s.(pcs := s.pcs[t := Done(RaisedBlobError)])
      else s
    case Settle =>
      if pc.Verified? then
        if Open(s.row, pc.seen.version) && s.row.locator == pc.seen.locator
        then s.(row := MarkedPurged(s.row, pc.now), pcs := s.pcs[t := Done(ReturnedPurged(pc.seen.attempts + 1))])
        else s.(pcs := s.pcs[t := Conflicted])
      else if pc.Broken? then
        if Open(s.row, pc.seen.version)
        then s.(row := MarkedFailed(s.row, pc.retryAt, DeleteFailedCode),
                pcs := s.pcs[t := Done(ReturnedFailed(pc.seen.attempts + 1, Some(DeleteFailedCode)))])
        else s.(pcs := s.pcs[t := Conflicted])
      else s
    case Reload => if pc.Conflicted? then s.(pcs := s.pcs[t := Reloaded(s.row)]) else s
  }

  function Step(s: Sys, e: Event): Sys {
    match e
    case Do(t, action) => if t in s.pcs then DoStep(s, t, action) else s
    case Reappear => s.(present := true)
  }

  predicate RowOk(row: Tombstone) {
    && row.version == row.attempts
    && row.status != ManualReview
    && (row.verifiedAbsentAt.Some? <==> row.status == Purged)
    && (row.lastError.Some? <==> row.status == Failed)
  }

  // What one step can do to the row.
  predicate RowMove(before: Tombstone, after: Tombstone) {
    || after == before
    || (before.status in {Pending, Failed} && after.status in {Purged, Failed}
        && after.version == before.version + 1 && after.attempts == before.attempts + 1
        && (after.owner, after.id, after.locator) == (before.owner, before.id, before.locator))
  }

  lemma RowStep(s: Sys, e: Event)
    ensures RowMove(s.row, Step(s, e).row)
    ensures RowOk(s.row) ==> RowOk(Step(s, e).row)
  {
  }

  // ---- why a call stands where it stands ----

  // The settlement of `t` is fenced off: the row has moved on since `t` loaded it.
  predicate FencedOff(s: Sys, t: Tid)
    requires t in s.pcs
  {
    || (&& (s.pcs[t].Verified? || s.pcs[t].Broken?)
        && (s.row.version != s.pcs[t].seen.version || s.row.status !in {Pending, Failed}))
    || (s.pcs[t].Verified? && s.row.locator != s.pcs[t].seen.locator)
  }

  // Executor `t` has its deletion report success.
  predicate IsDelete(e: Event, t: Tid) { e.Do? && e.t == t && e.action.Delete? && e.action.ok }

  // What has just happened when a call of `t` ends with this result.
  predicate Explains(s: Sys, e: Event, t: Tid, result: Result, after: Sys)
    requires t in s.pcs
  {
    var pc := s.pcs[t];
    match result
    case ReturnedPurged(attempt) =>
      && e == Do(t, Settle) && pc.Verified? && !FencedOff(s, t) && attempt == pc.seen.attempts + 1
      && after.row == s.row.(status := Purged, attempts := s.row.attempts + 1, version := s.row.version + 1,
                             verifiedAbsentAt := Some(pc.now), availableAt := pc.now, lastError := None)
    case ReturnedAlreadyPurged(attempt) =>
      && e == Do(t, CheckAbsent) && !s.present && (pc.SeenPurged? || pc.Rechecking?) && attempt == pc.seen.attempts
    case ReturnedFailed(attempt, error) =>
      || (&& e == Do(t, Settle) && pc.Broken? && !FencedOff(s, t)
          && attempt == pc.seen.attempts + 1 && error == Some("blob_delete_failed")
          && after.row == s.row.(status := Failed, attempts := s.row.attempts + 1, version := s.row.version + 1,
                                 verifiedAbsentAt := None, availableAt := pc.retryAt, lastError := error))
      || (&& e == Do(t, Reload) && pc.Conflicted? && s.row.status in {Failed, ManualReview}
          && attempt == s.row.attempts && error == s.row.lastError)
    case RaisedManualReview => e == Do(t, Load) && pc.Started? && s.row.status == ManualReview
    case RaisedIntegrity => e == Do(t, CheckAbsent) && s.present && pc.SeenPurged?
    case RaisedNotReady =>
      e == Do(t, Load) && pc.Started? && s.row.status in {Pending, Failed} && pc.now < s.row.availableAt
    case RaisedConflict =>
      || (e == Do(t, Reload) && pc.Conflicted? && s.row.status == Pending)
      || (e == Do(t, CheckAbsent) && s.present && pc.Rechecking?)
    case RaisedBlobError => e == Do(t, CheckFails) && (pc.SeenPurged? || pc.Rechecking?)
  }

  // A call comes to stand anywhere only for the reason that position names.
  lemma PositionHasCause(s: Sys, e: Event, t: Tid)
    requires t in s.pcs && Step(s, e).pcs[t] != s.pcs[t]
    ensures var pc := s.pcs[t];
            match Step(s, e).pcs[t]
            case Started(now, retryAt) => e == Do(t, Begin(now, retryAt)) && pc.Done? && now < retryAt
            case SeenPurged(seen) => e == Do(t, Load) && pc.Started? && seen == s.row && seen.status == Purged
            case Deleting(seen, now, retryAt) =>
              && e == Do(t, Load) && pc == Started(now, retryAt) && seen == s.row
              && seen.status in {Pending, Failed} && seen.availableAt <= now
            case Checking(seen, now, retryAt) => IsDelete(e, t) && pc == Deleting(seen, now, retryAt)
            case Verified(seen, now) =>
              e == Do(t, CheckAbsent) && !s.present && pc.Checking? && pc.seen == seen && pc.now == now
            case Broken(seen, retryAt) =>
              && e.Do? && e.t == t && (pc.Deleting? || pc.Checking?) && pc.seen == seen && pc.retryAt == retryAt
              && (if pc.Deleting? then e.action.Delete? && !e.action.ok
                  else e.action.CheckFails? || (e.action.CheckAbsent? && s.present))
            case Conflicted => e == Do(t, Settle) && FencedOff(s, t)
            case Rechecking(seen) => e == Do(t, Reload) && pc.Conflicted? && seen == s.row && seen.status == Purged
            case Done(result) => Explains(s, e, t, result, Step(s, e))
  {
  }

  // The action is one that a call standing here waits for.
  predicate Awaited(pc: Pc, action: Action) {
    match action
    case Begin(now, retryAt) => pc.Done? && now < retryAt
    case Load => pc.Started?
    case Delete(_, _) => pc.Deleting?
    case CheckAbsent => pc.Checking? || pc.SeenPurged? || pc.Rechecking?
    case CheckFails => pc.Checking? || pc.SeenPurged? || pc.Rechecking?
    case Settle => pc.Verified? || pc.Broken?
    case Reload => pc.Conflicted?
  }

  // A call moves exactly when what it waits for happens; no other call moves with it, the
  // row changes only as the call's result says, and the bytes only by a deletion or by
  // somebody writing them.
  lemma OnlyAwaitedActionsMove(s: Sys, e: Event, t: Tid)
    requires t in s.pcs
    ensures var after := Step(s, e);
            && after.pcs.Keys == s.pcs.Keys
            && (after.pcs[t] != s.pcs[t] <==> e.Do? && e.t == t && Awaited(s.pcs[t], e.action))
            && (after.row != s.row ==> && e.Do? && e.t in s.pcs && e.action.Settle? && after.pcs[e.t].Done?
                                       && Explains(s, e, e.t, after.pcs[e.t].result, after))
            && (after.present <==> || e.Reappear?
                                   || (s.present && !(&& e.Do? && e.t in s.pcs && s.pcs[e.t].Deleting?
                                                      && e.action.Delete? && e.action.gone)))
  {
  }

  // ---- whole runs ----

  datatype History = History(states: seq<Sys>, events: seq<Event>)

  predicate Linked(h: History, i: nat)
    requires |h.states| == |h.events| + 1 && i < |h.events|
  {
    Step(h.states[i], h.events[i]) == h.states[i + 1]
  }

  // A run from a freshly enqueued tombstone, or any row in a legal state, with no call
  // under way yet.
  ghost predicate Run(h: History) {
    && |h.states| == |h.events| + 1 && RowOk(h.states[0].row)
    && (forall t <- h.states[0].pcs :: h.states[0].pcs[t] == Done(RaisedConflict))
    && forall i | 0 <= i < |h.events| :: Linked(h, i)
  }

  lemma MoveAt(h: History, n: nat)
    requires Run(h) && n < |h.events|
    ensures RowMove(h.states[n].row, h.states[n + 1].row) && (RowOk(h.states[n].row) ==> RowOk(h.states[n + 1].row))
  {
    assert Linked(h, n);
    RowStep(h.states[n], h.events[n]);
  }

  // What a row keeps between two moments: the version counts attempts, it never falls,
  // and a purged row is never changed again, so no late failure can reopen it.
  predicate Keeps(before: Tombstone, after: Tombstone) {
    && before.version <= after.version && (before.version == after.version ==> before == after)
    && (before.status == Purged ==> after == before)
  }

  lemma {:induction false} RowsKeep(h: History, i: nat, j: nat)
    requires Run(h) && i <= j < |h.states|
    ensures RowOk(h.states[i].row) && RowOk(h.states[j].row) && Keeps(h.states[i].row, h.states[j].row)
    decreases j, i
  {
    if i < j {
      RowsKeep(h, i, j - 1);
      MoveAt(h, j - 1);
    } else if i > 0 {
      RowsKeep(h, i - 1, j - 1);
      MoveAt(h, i - 1);
    }
  }

  // Event `n` makes executor `t` return that it purged.
  predicate Purges(h: History, n: nat, t: Tid)
    requires n + 1 < |h.states|
  {
    && t in h.states[n].pcs && t in h.states[n + 1].pcs
    && !h.states[n].pcs[t].Done?
    && h.states[n + 1].pcs[t].Done? && h.states[n + 1].pcs[t].result.ReturnedPurged?
  }

  lemma PurgeSettles(s: Sys, e: Event, t: Tid)
    requires t in s.pcs && !s.pcs[t].Done?
    requires Step(s, e).pcs[t].Done? && Step(s, e).pcs[t].result.ReturnedPurged?
    ensures e == Do(t, Settle) && s.pcs[t].Verified?
    ensures s.row.status in {Pending, Failed} && Step(s, e).row.status == Purged
    ensures s.pcs[t].seen.version == s.row.version
  {
  }

  // At most one call of any executor ever returns PURGED.
  lemma PurgedOnce(h: History, i: nat, j: nat, t: Tid, u: Tid)
    requires Run(h) && i < |h.events| && j < |h.events| && Purges(h, i, t) && Purges(h, j, u)
    ensures i == j && t == u
  {
    assert Linked(h, i) && Linked(h, j);
    PurgeSettles(h.states[i], h.events[i], t);
    PurgeSettles(h.states[j], h.events[j], u);
    if i < j { RowsKeep(h, i + 1, j); }
    if j < i { RowsKeep(h, j + 1, i); }
  }

  // The steps by which an executor comes to be about to report.
  lemma PcStep(s: Sys, e: Event, t: Tid)
    requires t in s.pcs
    ensures var pc, pc' := s.pcs[t], Step(s, e).pcs[t];
            && (pc'.Verified? && pc != pc' ==> && e == Do(t, CheckAbsent) && !s.present
                                               && pc.Checking? && pc.seen == pc'.seen)
            && (pc'.Checking? && pc != pc' ==> IsDelete(e, t) && pc.Deleting? && pc.seen == pc'.seen)
            && (pc'.Deleting? && pc != pc' ==> && e == Do(t, Load) && pc'.seen == s.row
                                               && s.row.status in {Pending, Failed})
  {
  }

  lemma PcAt(h: History, n: nat, t: Tid)
    requires Run(h) && n < |h.events|
    ensures t in h.states[n].pcs <==> t in h.states[n + 1].pcs
    ensures t in h.states[n].pcs ==>
              var pc, pc', e := h.states[n].pcs[t], h.states[n + 1].pcs[t], h.events[n];
              && (pc'.Verified? && pc != pc' ==> && e == Do(t, CheckAbsent) && !h.states[n].present
                                                 && pc.Checking? && pc.seen == pc'.seen)
              && (pc'.Checking? && pc != pc' ==> IsDelete(e, t) && pc.Deleting? && pc.seen == pc'.seen)
  {
    assert Linked(h, n);
    if t in h.states[n].pcs { PcStep(h.states[n], h.events[n], t); }
  }

  // From moment `i` on, up to `n`, executor `t` is past its deletion and before its
  // settlement, all in one call on the row `seen`.
  predicate InOneCall(h: History, i: nat, n: nat, t: Tid, seen: Tombstone)
    requires n < |h.states|
  {
    forall k :: i < k <= n ==>
      && t in h.states[k].pcs && (h.states[k].pcs[t].Checking? || h.states[k].pcs[t].Verified?)
      && h.states[k].pcs[t].seen == seen
  }

  // Event `i` is the deletion of this call, and it reported success.
  predicate Deletes(h: History, i: nat, t: Tid, seen: Tombstone)
    requires i < |h.events| && i + 1 < |h.states|
  {
    && IsDelete(h.events[i], t) && t in h.states[i].pcs
    && h.states[i].pcs[t].Deleting? && h.states[i].pcs[t].seen == seen
    && (h.events[i].action.gone ==> !h.states[i + 1].present)
  }

  // Event `j` is the absence check of this call, and it found the bytes gone.
  predicate FindsAbsent(h: History, j: nat, t: Tid, seen: Tombstone)
    requires j < |h.events| && j + 1 < |h.states|
  {
    && h.events[j] == Do(t, CheckAbsent) && !h.states[j].present
    && t in h.states[j].pcs && h.states[j].pcs[t].Checking? && h.states[j].pcs[t].seen == seen
    && t in h.states[j + 1].pcs && h.states[j + 1].pcs[t].Verified?
  }

  // An executor that has seen its deletion succeed did delete, in this very call.
  lemma {:induction false} CheckingDeleted(h: History, n: nat, t: Tid) returns (i: nat)
    requires Run(h) && n < |h.states| && t in h.states[n].pcs && h.states[n].pcs[t].Checking?
    ensures i < n && Deletes(h, i, t, h.states[n].pcs[t].seen) && InOneCall(h, i, n, t, h.states[n].pcs[t].seen)
    decreases n
  {
    assert n > 0;
    PcAt(h, n - 1, t);
    if h.states[n - 1].pcs[t] == h.states[n].pcs[t] {
      i := CheckingDeleted(h, n - 1, t);
    } else {
      i := n - 1;
      assert Linked(h, i);
    }
  }

  lemma {:induction false} VerifiedChecked(h: History, n: nat, t: Tid) returns (i: nat, j: nat)
    requires Run(h) && n < |h.states| && t in h.states[n].pcs && h.states[n].pcs[t].Verified?
    ensures i < j < n && InOneCall(h, i, n, t, h.states[n].pcs[t].seen)
    ensures Deletes(h, i, t, h.states[n].pcs[t].seen) && FindsAbsent(h, j, t, h.states[n].pcs[t].seen)
    decreases n
  {
    assert n > 0;
    PcAt(h, n - 1, t);
    if h.states[n - 1].pcs[t] == h.states[n].pcs[t] {
      i, j := VerifiedChecked(h, n - 1, t);
    } else {
      j := n - 1;
      i := CheckingDeleted(h, j, t);
    }
  }

  // PURGED is returned only by a call whose own deletion reported success and whose separate
  // check then found the bytes absent, without that call ending in between, and it settles
  // the very version that call had loaded.
  lemma PurgedOnlyAfterVerification(h: History, n: nat, t: Tid) returns (i: nat, j: nat)
    requires Run(h) && n < |h.events| && Purges(h, n, t)
    ensures h.states[n].pcs[t].Verified? && h.states[n].pcs[t].seen.version == h.states[n].row.version
    ensures i < j < n && InOneCall(h, i, n, t, h.states[n].pcs[t].seen)
    ensures Deletes(h, i, t, h.states[n].pcs[t].seen) && FindsAbsent(h, j, t, h.states[n].pcs[t].seen)
  {
    assert Linked(h, n);
    PurgeSettles(h.states[n], h.events[n], t);
    i, j := VerifiedChecked(h, n, t);
  }

  // An executor that loses the fence is never told it purged: it learns what the row
  // became, and that it already was purged exactly when its check finds the bytes gone.
  lemma LoserLearnsTheRow(s: Sys, t: Tid)
    requires t in s.pcs && s.pcs[t].Conflicted? && RowOk(s.row)
    ensures var s1 := Step(s, Do(t, Reload));
            && s1.row == s.row
            && (s.row.status == Failed ==> s1.pcs[t] == Done(ReturnedFailed(s.row.attempts, s.row.lastError)))
            && (s.row.status == Pending ==> s1.pcs[t] == Done(RaisedConflict))
            && (s.row.status == Purged ==>
                  Step(s1, Do(t, CheckAbsent)).pcs[t] ==
                    Done(if s.present then RaisedConflict else ReturnedAlreadyPurged(s.row.attempts)))
  {
  }

  // A call that found the row purged still sees the stored row: it can no longer change.
  predicate SeesStored(row: Tombstone, pc: Pc) {
    pc.SeenPurged? || pc.Rechecking? ==> pc.seen == row && row.status == Purged
  }

  lemma {:induction false} SeenPurgedIsStored(h: History, n: nat, t: Tid)
    requires Run(h) && n < |h.states| && t in h.states[n].pcs
    ensures SeesStored(h.states[n].row, h.states[n].pcs[t])
  {
    if n > 0 {
      PcAt(h, n - 1, t);
      SeenPurgedIsStored(h, n - 1, t);
      assert Linked(h, n - 1);
      MoveAt(h, n - 1);
      if h.states[n].pcs[t] != h.states[n - 1].pcs[t] { PositionHasCause(h.states[n - 1], h.events[n - 1], t); }
    }
  }

  // ALREADY PURGED is returned only by a call whose own check finds the bytes absent at that
  // very moment, with the stored row purged and its attempt reported.
  lemma AlreadyPurgedMeansAbsent(h: History, n: nat, t: Tid, attempt: nat)
    requires Run(h) && n < |h.events| && t in h.states[n].pcs && t in h.states[n + 1].pcs
    requires !h.states[n].pcs[t].Done? && h.states[n + 1].pcs[t] == Done(ReturnedAlreadyPurged(attempt))
    ensures h.events[n] == Do(t, CheckAbsent) && !h.states[n].present
    ensures var pc, row := h.states[n].pcs[t], h.states[n].row;
            (pc.SeenPurged? || pc.Rechecking?) && pc.seen == row && row.status == Purged && attempt == row.attempts
    ensures h.states[n + 1].row == h.states[n].row
  {
    assert Linked(h, n);
    PositionHasCause(h.states[n], h.events[n], t);
    SeenPurgedIsStored(h, n, t);
    OnlyAwaitedActionsMove(h.states[n], h.events[n], t);
  }

  // A call that found the row purged is told so exactly when its check finds the bytes
  // absent; bytes that are back are an integrity failure, or a conflict after a lost fence.
  lemma PurgedRowIsChecked(h: History, n: nat, t: Tid)
    requires Run(h) && n < |h.events| && t in h.states[n].pcs && h.events[n] == Do(t, CheckAbsent)
    requires h.states[n].pcs[t].SeenPurged? || h.states[n].pcs[t].Rechecking?
    ensures t in h.states[n + 1].pcs
    ensures h.states[n + 1].pcs[t] ==
              Done(if !h.states[n].present then ReturnedAlreadyPurged(h.states[n].row.attempts)
                   else if h.states[n].pcs[t].SeenPurged? then RaisedIntegrity else RaisedConflict)
  {
    assert Linked(h, n);
    OnlyAwaitedActionsMove(h.states[n], h.events[n], t);
    PositionHasCause(h.states[n], h.events[n], t);
    SeenPurgedIsStored(h, n, t);
  }

  // What a call at work knows of the row it loaded: it was legal, open and due.
  predicate PcOk(pc: Pc) {
    && (pc.Deleting? || pc.Checking? || pc.Verified? || pc.Broken?
        ==> RowOk(pc.seen) && pc.seen.status in {Pending, Failed})
    && (pc.Deleting? || pc.Checking? || pc.Verified? ==> pc.seen.availableAt <= pc.now)
  }

  lemma StepKeepsPcs(s: Sys, e: Event)
    requires RowOk(s.row) && forall t <- s.pcs :: PcOk(s.pcs[t])
    ensures forall t <- Step(s, e).pcs :: PcOk(Step(s, e).pcs[t])
  {
  }

  // Nothing is deleted before its time: every call at work loaded an open tombstone that
  // was due by the call's own clock.
  lemma {:induction false} OnlyDueTombstonesAreDeleted(h: History, n: nat)
    requires Run(h) && n < |h.states|
    ensures forall t <- h.states[n].pcs :: PcOk(h.states[n].pcs[t])
  {
    if n > 0 {
      OnlyDueTombstonesAreDeleted(h, n - 1);
      RowsKeep(h, n - 1, n - 1);
      assert Linked(h, n - 1);
      StepKeepsPcs(h.states[n - 1], h.events[n - 1]);
    }
  }

  // A settlement that goes through is reported with the attempt it made, and the row then
  // says the same.
  lemma SettlementReportsItsAttempt(h: History, n: nat, t: Tid)
    requires Run(h) && n < |h.events| && h.events[n] == Do(t, Settle) && t in h.states[n].pcs
    requires h.states[n].row != h.states[n + 1].row
    ensures t in h.states[n + 1].pcs
    ensures var row := h.states[n + 1].row;
            h.states[n + 1].pcs[t] == Done(if row.status == Purged then ReturnedPurged(row.attempts)
                                           else ReturnedFailed(row.attempts, row.lastError))
  {
    OnlyDueTombstonesAreDeleted(h, n);
    RowsKeep(h, n, n);
    assert PcOk(h.states[n].pcs[t]);
    assert Linked(h, n);
  }

  // ---- the transition system runs on the store ----

  // Executes one event with the settlements made through the store.
  method Drive(store: PurgeStore, before: Sys, e: Event) returns (after: Sys)
    requires before.row == store.row
    modifies store
    ensures after == Step(before, e) && store.row == after.row
  {
    after := before;
    if e.Reappear? {
      after := after.(present := true);
    } else if e.t in before.pcs && e.action.Settle? && before.pcs[e.t].Verified? {
      var pc := before.pcs[e.t];
      var applied := store.MarkPurged(store.row.owner, store.row.id, pc.seen.locator, pc.seen.version, pc.now);
      after := Sys(store.row, before.present,
                   before.pcs[e.t := if applied then Done(ReturnedPurged(pc.seen.attempts + 1)) else Conflicted]);
    } else if e.t in before.pcs && e.action.Settle? && before.pcs[e.t].Broken? {
      var pc := before.pcs[e.t];
      var applied := store.MarkFailed(store.row.owner, store.row.id, pc.seen.version, pc.retryAt, DeleteFailedCode);
      after := Sys(store.row, before.present,
                   before.pcs[e.t := if applied then Done(ReturnedFailed(pc.seen.attempts + 1, Some(DeleteFailedCode)))
                                     else Conflicted]);
    } else if e.t in before.pcs {
      after := DoStep(before, e.t, e.action);
    }
  }

  // Any interleaving of executors on the store is a run, so all of the above holds of it.
  method DriveAll(store: PurgeStore, threads: set<Tid>, present: bool, events: seq<Event>) returns (ghost h: History)
    requires RowOk(store.row)
    modifies store
    ensures Run(h) && h.events == events && h.states[0].row == old(store.row) && h.states[|events|].row == store.row
    ensures RowOk(store.row) && Keeps(old(store.row), store.row)
  {
    var sys := Sys(store.row, present, map t | t in threads :: Done(RaisedConflict));
    h := History([sys], []);
    for n := 0 to |events|
      invariant Run(h) && h.events == events[..n] && h.states[0].row == old(store.row)
      invariant h.states[n] == sys && sys.row == store.row
    {
      sys := Drive(store, sys, events[n]);
      ghost var longer := History(h.states + [sys], h.events + [events[n]]);
      forall i | 0 <= i < |longer.events| ensures Linked(longer, i) {
        if i < n { assert Linked(h, i); }
      }
      h := longer;
      assert events[..n + 1] == events[..n] + [events[n]];
    }
    assert events[..|events|] == events;
    RowsKeep(h, 0, |events|);
  }
}
