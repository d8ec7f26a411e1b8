// The reference-counted owner-lock table and the life cycle of the blob store. The
// table's guard is dropped between steps, so each guarded section and each lock
// operation is one atomic step of some thread, and threads interleave freely.
module OwnerLocks {
  import opened Common

  type Owner = string // already case-folded
  type LockId = nat
  type Tid = nat

  datatype Entry = Entry(lock: LockId, references: nat)
  type Entries = map<Owner, Entry>

  // ---- the guarded sections of the table ----

  function LockFor(entries: Entries, owner: Owner, newLock: LockId): LockId {
    if owner in entries then entries[owner].lock else newLock
  }

  function Referenced(entries: Entries, owner: Owner, newLock: LockId): Entries {
    entries[owner := Entry(LockFor(entries, owner, newLock),
                           (if owner in entries then entries[owner].references else 0) + 1)]
  }

  // The bookkeeping check of a reference that is being given up.
  predicate Sound(entries: Entries, owner: Owner, lock: LockId) {
    owner in entries && entries[owner].lock == lock && entries[owner].references >= 1
  }

  function Dropped(entries: Entries, owner: Owner): Entries
    requires owner in entries && entries[owner].references >= 1
  {
    if entries[owner].references == 1 then entries - {owner}
    else entries[owner := Entry(entries[owner].lock, entries[owner].references - 1)]
  }

  class OwnerLockTable {
    var entries: Entries
    var held: set<LockId>
    var nextLock: LockId

    constructor ()
      ensures entries == map[] && held == {} && nextLock == 0
    {
      entries, held, nextLock := map[], {}, 0;
    }

    // Finds or makes the owner's lock and counts one more reference to it.
    method Reference(owner: Owner) returns (lock: LockId)
      modifies this`entries, this`nextLock
      ensures lock == LockFor(old(entries), owner, old(nextLock))
      ensures entries == Referenced(old(entries), owner, old(nextLock))
      ensures nextLock == old(nextLock) + 1
    {
      var references := 0;
      lock := nextLock;
      nextLock := nextLock + 1;
      if owner in entries { lock, references := entries[owner].lock, entries[owner].references; }
      entries := entries[owner := Entry(lock, references + 1)];
    }

    method TryLock(lock: LockId) returns (taken: bool)
      modifies this`held
      ensures taken == (lock !in old(held)) && held == old(held) + {lock}
    {
      taken := lock !in held;
      held := held + {lock};
    }

    method Unlock(lock: LockId) returns (ok: bool)
      modifies this`held
      ensures ok == (lock in old(held)) && held == old(held) - {lock}
    {
      ok := lock in held;
      held := held - {lock};
    }

    // Gives up one reference; `false` is the corrupted-bookkeeping error.
    method Drop(owner: Owner, lock: LockId) returns (ok: bool)
      modifies this`entries
      ensures ok == Sound(old(entries), owner, lock)
      ensures entries == if ok then Dropped(old(entries), owner) else old(entries)
    {
      if owner !in entries { return false; }
      var current := entries[owner];
      if current.lock != lock || current.references < 1 { return false; }
      if current.references == 1 {
        entries := entries - {owner};
      } else {
        entries := entries[owner := Entry(lock, current.references - 1)];
      }
      return true;
    }
  }

  // ---- threads ----

  // Where one acquisition or token stands.
  datatype Pc =
    | Idle
    | Admitted(owner: Owner, trying: bool)          // counted as pending, no reference yet
    | Waiting(owner: Owner, lock: LockId, trying: bool) // reference taken, lock not yet
    | BackingOut(owner: Owner, lock: LockId)        // try failed, reference to be dropped
    | Holding(owner: Owner, lock: LockId)           // lock taken, cross-process lock not yet
    | Bound(owner: Owner, lock: LockId)             // both locks taken, still pending
    | Token(owner: Owner, lock: LockId)             // handed to the caller
    | Unlocking(owner: Owner, lock: LockId, admitted: bool)
    | Dropping(owner: Owner, lock: LockId, admitted: bool)
    | Leaving(owner: Owner)                         // no token, still pending
    | Corrupted                                     // a bookkeeping error was raised

  datatype Sys = Sys(entries: Entries, held: set<LockId>, nextLock: LockId, pcs: map<Tid, Pc>,
                     pending: int, closing: bool, closed: bool)

  datatype Action = Begin(owner: string, trying: bool) | Reference | Lock | TryLock | Bind(ok: bool)
                  | Finish | Again | Release | Unlock | Drop

  // `CloseCheck` and `CloseCommit` are the two reads of `close`, made under the
  // life-cycle guard: pending acquisitions first, table entries second.
  datatype Event = Do(t: Tid, action: Action) | CloseCheck | CloseCommit

  // Between taking its reference and dropping it.
  predicate Using(pc: Pc) {
    pc.Waiting? || pc.BackingOut? || pc.Holding? || pc.Bound? || pc.Token? || pc.Unlocking? || pc.Dropping?
  }
  predicate Possesses(pc: Pc) { pc.Holding? || pc.Bound? || pc.Token? || pc.Unlocking? }
  predicate Pending(pc: Pc) {
    pc.Admitted? || pc.Waiting? || pc.BackingOut? || pc.Holding? || pc.Bound? || pc.Leaving?
    || (pc.Unlocking? && pc.admitted) || (pc.Dropping? && pc.admitted)
  }

  function After(owner: Owner, admitted: bool): Pc { if admitted then Leaving(owner) else Idle }

  // One atomic step of a thread; an action that is not possible now does nothing.
  function DoStep(fold: string -> Owner, s: Sys, t: Tid, action: Action): Sys
    requires t in s.pcs
  {
    var pc := s.pcs[t];
    match action
    case Begin(owner, trying) =>
      if pc.Idle? && !s.closing && !s.closed
      then s.(pending := s.pending + 1, pcs := s.pcs[t := Admitted(fold(owner), trying)]) else s
    case Reference =>
      if pc.Admitted? then
        var lock := LockFor(s.entries, pc.owner, s.nextLock);
        s.(entries := Referenced(s.entries, pc.owner, s.nextLock), nextLock := s.nextLock + 1,
           pcs := s.pcs[t := Waiting(pc.owner, lock, pc.trying)])
      else s
    case Lock =>
      if pc.Waiting? && !pc.trying && pc.lock !in s.held
      then s.(held := s.held + {pc.lock}, pcs := s.pcs[t := Holding(pc.owner, pc.lock)]) else s
    case TryLock =>
      if !pc.Waiting? || !pc.trying then s
      else if pc.lock in s.held then s.(pcs := s.pcs[t := BackingOut(pc.owner, pc.lock)])
      else s.(held := s.held + {pc.lock}, pcs := s.pcs[t := Holding(pc.owner, pc.lock)])
    case Bind(ok) => // a failed, busy or cancelled acquisition releases what it has
      if !pc.Holding? && !pc.Bound? then s
      else if ok then s.(pcs := s.pcs[t := Bound(pc.owner, pc.lock)])
      else if pc.owner in s.entries then s.(pcs := s.pcs[t := Unlocking(pc.owner, s.entries[pc.owner].lock, true)])
      else s.(pcs := s.pcs[t := Corrupted])
    case Finish =>
      if s.closing then s
      else if pc.Bound? then s.(pending := s.pending - 1, pcs := s.pcs[t := Token(pc.owner, pc.lock)])
      else if pc.Leaving? then s.(pending := s.pending - 1, pcs := s.pcs[t := Idle])
      else s
    case Again => if pc.Leaving? then s.(pcs := s.pcs[t := Admitted(pc.owner, true)]) else s
    case Release =>
      if !pc.Token? then s
      else if pc.owner in s.entries then s.(pcs := s.pcs[t := Unlocking(pc.owner, s.entries[pc.owner].lock, false)])
      else s.(pcs := s.pcs[t := Corrupted])
    case Unlock =>
      if !pc.Unlocking? then s
      else if pc.lock in s.held
      then s.(held := s.held - {pc.lock}, pcs := s.pcs[t := Dropping(pc.owner, pc.lock, pc.admitted)])
      else s.(pcs := s.pcs[t := Corrupted])
    case Drop =>
      if !pc.Dropping? && !pc.BackingOut? then s
      else if Sound(s.entries, pc.owner, pc.lock)
      then s.(entries := Dropped(s.entries, pc.owner),
              pcs := s.pcs[t := After(pc.owner, pc.BackingOut? || pc.admitted)])
      else s.(pcs := s.pcs[t := Corrupted])
  }

  function Step(fold: string -> Owner, s: Sys, e: Event): Sys {
    match e
    case Do(t, action) => if t in s.pcs then DoStep(fold, s, t, action) else s
    case CloseCheck => if !s.closing && !s.closed && s.pending == 0 then s.(closing := true) else s
    case CloseCommit => if s.closing then s.(closing := false, closed := s.entries == map[]) else s
  }

  // ---- the invariant ----

  function Users(pcs: map<Tid, Pc>, owner: Owner): set<Tid> {
    set t | t in pcs && Using(pcs[t]) && pcs[t].owner == owner
  }
  function Pendings(pcs: map<Tid, Pc>): set<Tid> { set t | t in pcs && Pending(pcs[t]) }

  // The count of an entry is the number of threads between taking and dropping it.
  predicate Exact(entries: Entries, pcs: map<Tid, Pc>) {
    forall o <- entries :: entries[o].references == |Users(pcs, o)|
  }

  // Every thread that uses an owner shares the one lock of its entry.
  predicate Shared(entries: Entries, pcs: map<Tid, Pc>) {
    forall t <- pcs :: Using(pcs[t]) ==> pcs[t].owner in entries && entries[pcs[t].owner].lock == pcs[t].lock
  }

  predicate Distinct(entries: Entries, nextLock: LockId) {
    && (forall o <- entries :: entries[o].references >= 1 && entries[o].lock < nextLock)
    && (forall o, p :: o in entries && p in entries && entries[o].lock == entries[p].lock ==> o == p)
  }

  predicate Counted(entries: Entries, nextLock: LockId, pcs: map<Tid, Pc>) {
    Exact(entries, pcs) && Shared(entries, pcs) && Distinct(entries, nextLock)
  }

  // Possession implies the lock is held, and by one thread only.
  predicate Exclusive(held: set<LockId>, pcs: map<Tid, Pc>) {
    && (forall t <- pcs :: Possesses(pcs[t]) ==> pcs[t].lock in held)
    && (forall t, u | t in pcs && u in pcs && Possesses(pcs[t]) && Possesses(pcs[u]) ::
          pcs[t].lock == pcs[u].lock ==> t == u)
  }

  ghost predicate Guarded(s: Sys) {
    && s.pending == |Pendings(s.pcs)|
    && (s.closing ==> s.pending == 0 && !s.closed)
    && (s.closed ==> forall t <- s.pcs :: s.pcs[t].Idle?)
    && (forall t <- s.pcs :: !s.pcs[t].Corrupted?)
  }

  ghost predicate Inv(s: Sys) {
    Counted(s.entries, s.nextLock, s.pcs) && Exclusive(s.held, s.pcs) && Guarded(s)
  }

  lemma UsersAfter(pcs: map<Tid, Pc>, t: Tid, pc: Pc, owner: Owner)
    requires t in pcs
    ensures |Users(pcs[t := pc], owner)| == |Users(pcs, owner)|
              + (if Using(pc) && pc.owner == owner then 1 else 0)
              - (if Using(pcs[t]) && pcs[t].owner == owner then 1 else 0)
  {
    assert Users(pcs[t := pc], owner)
        == if Using(pc) && pc.owner == owner then Users(pcs, owner) + {t} else Users(pcs, owner) - {t};
  }

  lemma PendingsAfter(pcs: map<Tid, Pc>, t: Tid, pc: Pc)
    requires t in pcs
    ensures |Pendings(pcs[t := pc])|
            == |Pendings(pcs)| + (if Pending(pc) then 1 else 0) - (if Pending(pcs[t]) then 1 else 0)
  {
    assert Pendings(pcs[t := pc]) == if Pending(pc) then Pendings(pcs) + {t} else Pendings(pcs) - {t};
  }

  // The three ways a step touches the table: it takes a reference, gives one up, or
  // leaves the thread's use of the table as it is.

  lemma TakeKeepsCounted(entries: Entries, nextLock: LockId, pcs: map<Tid, Pc>, t: Tid, pc: Pc)
    requires Counted(entries, nextLock, pcs) && t in pcs && !Using(pcs[t])
    requires Using(pc) && pc.lock == LockFor(entries, pc.owner, nextLock)
    ensures Counted(Referenced(entries, pc.owner, nextLock), nextLock + 1, pcs[t := pc])
  {
    var after := Referenced(entries, pc.owner, nextLock);
    if pc.owner !in entries { assert Users(pcs, pc.owner) == {}; }
    forall o | o in after ensures after[o].references == |Users(pcs[t := pc], o)| { UsersAfter(pcs, t, pc, o); }
  }

  lemma Alone(users: set<Tid>, t: Tid)
    requires t in users && |users| == 1
    ensures users == {t}
  {
    assert |users - {t}| == 0;
  }

  lemma GiveKeepsCounted(entries: Entries, nextLock: LockId, pcs: map<Tid, Pc>, t: Tid, pc: Pc)
    requires Counted(entries, nextLock, pcs) && t in pcs && Using(pcs[t]) && !Using(pc)
    ensures Sound(entries, pcs[t].owner, pcs[t].lock)
    ensures Counted(Dropped(entries, pcs[t].owner), nextLock, pcs[t := pc])
  {
    var owner := pcs[t].owner;
    var after := Dropped(entries, owner);
    assert t in Users(pcs, owner);
    if entries[owner].references == 1 { Alone(Users(pcs, owner), t); }
    forall u | u in pcs && u != t && Using(pcs[u])
      ensures pcs[u].owner in after && after[pcs[u].owner].lock == pcs[u].lock
    {
      assert u in Users(pcs, pcs[u].owner);
    }
    forall o | o in after ensures after[o].references == |Users(pcs[t := pc], o)| { UsersAfter(pcs, t, pc, o); }
  }

  lemma SameKeepsCounted(entries: Entries, nextLock: LockId, pcs: map<Tid, Pc>, t: Tid, pc: Pc)
    requires Counted(entries, nextLock, pcs) && t in pcs
    requires Using(pc) == Using(pcs[t]) && (Using(pc) ==> pc.owner == pcs[t].owner && pc.lock == pcs[t].lock)
    ensures Counted(entries, nextLock, pcs[t := pc])
  {
    forall o | o in entries ensures |Users(pcs[t := pc], o)| == |Users(pcs, o)| { UsersAfter(pcs, t, pc, o); }
  }

  // Likewise for the locks: a step takes a free one, frees its own, or does neither.

  lemma LockKeepsExclusive(held: set<LockId>, pcs: map<Tid, Pc>, t: Tid, pc: Pc)
    requires Exclusive(held, pcs) && t in pcs && Possesses(pc) && pc.lock !in held
    ensures Exclusive(held + {pc.lock}, pcs[t := pc])
  {
  }

  lemma UnlockKeepsExclusive(held: set<LockId>, pcs: map<Tid, Pc>, t: Tid, pc: Pc)
    requires Exclusive(held, pcs) && t in pcs && Possesses(pcs[t]) && !Possesses(pc)
    ensures Exclusive(held - {pcs[t].lock}, pcs[t := pc])
  {
  }

  lemma SameKeepsExclusive(held: set<LockId>, pcs: map<Tid, Pc>, t: Tid, pc: Pc)
    requires Exclusive(held, pcs) && t in pcs && (Possesses(pc) ==> Possesses(pcs[t]) && pc.lock == pcs[t].lock)
    ensures Exclusive(held, pcs[t := pc])
  {
  }

  lemma DoKeepsCounted(fold: string -> Owner, s: Sys, t: Tid, action: Action)
    requires Inv(s) && t in s.pcs
    ensures var s' := DoStep(fold, s, t, action); Counted(s'.entries, s'.nextLock, s'.pcs)
  {
    var pc, pc' := s.pcs[t], DoStep(fold, s, t, action).pcs[t];
    if action.Reference? && pc.Admitted? {
      TakeKeepsCounted(s.entries, s.nextLock, s.pcs, t, pc');
    } else if action.Drop? && (pc.Dropping? || pc.BackingOut?) {
      GiveKeepsCounted(s.entries, s.nextLock, s.pcs, t, After(pc.owner, pc.BackingOut? || pc.admitted));
    } else {
      SameKeepsCounted(s.entries, s.nextLock, s.pcs, t, pc');
    }
  }

  lemma DoKeepsExclusive(fold: string -> Owner, s: Sys, t: Tid, action: Action)
    requires Inv(s) && t in s.pcs
    ensures var s' := DoStep(fold, s, t, action); Exclusive(s'.held, s'.pcs)
  {
    var pc, pc' := s.pcs[t], DoStep(fold, s, t, action).pcs[t];
    if pc.Unlocking? && action.Unlock? {
      UnlockKeepsExclusive(s.held, s.pcs, t, pc');
    } else if pc.Waiting? && pc'.Holding? {
      LockKeepsExclusive(s.held, s.pcs, t, pc');
    } else {
      SameKeepsExclusive(s.held, s.pcs, t, pc');
    }
  }

  // No step raises a bookkeeping error.
  lemma DoNeverCorrupts(fold: string -> Owner, s: Sys, t: Tid, action: Action)
    requires Inv(s) && t in s.pcs
    ensures !DoStep(fold, s, t, action).pcs[t].Corrupted?
  {
    if Using(s.pcs[t]) { assert t in Users(s.pcs, s.pcs[t].owner); }
  }

  lemma DoMovesOne(fold: string -> Owner, s: Sys, t: Tid, action: Action)
    requires t in s.pcs
    ensures var s' := DoStep(fold, s, t, action);
            s'.pcs == s.pcs[t := s'.pcs[t]] && s'.closing == s.closing && s'.closed == s.closed
  {
  }

  lemma DoKeepsPending(fold: string -> Owner, s: Sys, t: Tid, action: Action)
    requires t in s.pcs
    ensures var s' := DoStep(fold, s, t, action);
            !s'.pcs[t].Corrupted? ==>
              s'.pending == s.pending + (if Pending(s'.pcs[t]) then 1 else 0) - (if Pending(s.pcs[t]) then 1 else 0)
  {
  }

  lemma DoKeepsGuarded(fold: string -> Owner, s: Sys, t: Tid, action: Action)
    requires Inv(s) && t in s.pcs
    ensures Guarded(DoStep(fold, s, t, action))
  {
    var s' := DoStep(fold, s, t, action);
    DoNeverCorrupts(fold, s, t, action);
    DoMovesOne(fold, s, t, action);
    DoKeepsPending(fold, s, t, action);
    PendingsAfter(s.pcs, t, s'.pcs[t]);
  }

  // With nothing pending and no entry, no acquisition is under way and no token exists.
  lemma EmptyMeansIdle(s: Sys)
    requires Inv(s) && s.pending == 0 && s.entries == map[]
    ensures forall t <- s.pcs :: s.pcs[t].Idle?
  {
    forall t | t in s.pcs ensures s.pcs[t].Idle? {
      assert Pending(s.pcs[t]) ==> t in Pendings(s.pcs);
    }
  }

  lemma StepKeepsInv(fold: string -> Owner, s: Sys, e: Event)
    requires Inv(s)
    ensures Inv(Step(fold, s, e))
  {
    match e
    case Do(t, action) =>
      if t in s.pcs {
        DoKeepsCounted(fold, s, t, action);
        DoKeepsExclusive(fold, s, t, action);
        DoKeepsGuarded(fold, s, t, action);
      }
    case CloseCheck =>
    case CloseCommit =>
      if s.closing && s.entries == map[] { EmptyMeansIdle(s); }
  }

  // ---- whole runs ----

  function Init(threads: set<Tid>): Sys {
    Sys(map[], {}, 0, map t | t in threads :: Idle, 0, false, false)
  }

  function At(fold: string -> Owner, threads: set<Tid>, events: seq<Event>, n: nat): Sys
    requires n <= |events|
  {
    if n == 0 then Init(threads) else Step(fold, At(fold, threads, events, n - 1), events[n - 1])
  }

  lemma {:induction false} ReachableInv(fold: string -> Owner, threads: set<Tid>, events: seq<Event>, n: nat)
    requires n <= |events|
    ensures Inv(At(fold, threads, events, n))
  {
    if n == 0 {
      assert Pendings(Init(threads).pcs) == {};
    } else {
      ReachableInv(fold, threads, events, n - 1);
      StepKeepsInv(fold, At(fold, threads, events, n - 1), events[n - 1]);
    }
  }

  // In every reachable state: counts are exact, users of an owner share one lock, at
  // most one thread possesses it, and no bookkeeping error was ever raised.
  lemma TableIsSound(fold: string -> Owner, threads: set<Tid>, events: seq<Event>, n: nat)
    requires n <= |events|
    ensures var s := At(fold, threads, events, n);
            && (forall o <- s.entries :: s.entries[o].references == |Users(s.pcs, o)|)
            && (forall t, u :: t in s.pcs && u in s.pcs && Using(s.pcs[t]) && Using(s.pcs[u])
                               && s.pcs[t].owner == s.pcs[u].owner
                  ==> s.pcs[t].lock == s.pcs[u].lock)
            && (forall t, u :: t in s.pcs && u in s.pcs && Possesses(s.pcs[t]) && Possesses(s.pcs[u])
                               && s.pcs[t].owner == s.pcs[u].owner
                  ==> t == u)
            && (forall t <- s.pcs :: !s.pcs[t].Corrupted?)
  {
    ReachableInv(fold, threads, events, n);
  }

  // ---- why a thread stands where it stands ----

  // Every lock that is held is possessed by some thread.
  predicate Owned(held: set<LockId>, pcs: map<Tid, Pc>) {
    forall l <- held :: exists t <- pcs :: Possesses(pcs[t]) && pcs[t].lock == l
  }

  // A step takes or gives up the thread's own lock, or leaves the locks alone.
  lemma LocksMove(fold: string -> Owner, s: Sys, t: Tid, action: Action)
    requires t in s.pcs && (Possesses(s.pcs[t]) ==> s.pcs[t].lock in s.held)
    requires Using(s.pcs[t]) ==> s.pcs[t].owner in s.entries && s.entries[s.pcs[t].owner].lock == s.pcs[t].lock
    ensures var s', pc := DoStep(fold, s, t, action), s.pcs[t];
            var pc' := s'.pcs[t];
            && s'.pcs == s.pcs[t := pc']
            && s'.held == (if Possesses(pc') && !Possesses(pc) then s.held + {pc'.lock}
                           else if Possesses(pc) && !Possesses(pc') then s.held - {pc.lock} else s.held)
            && (Possesses(pc) && Possesses(pc') ==> pc'.lock == pc.lock)
  {
  }

  lemma DoKeepsOwned(fold: string -> Owner, s: Sys, t: Tid, action: Action)
    requires Inv(s) && t in s.pcs && Owned(s.held, s.pcs)
    ensures var s' := DoStep(fold, s, t, action); Owned(s'.held, s'.pcs)
  {
    LocksMove(fold, s, t, action);
    var pc, s' := s.pcs[t], DoStep(fold, s, t, action);
    forall l | l in s'.held ensures exists u <- s'.pcs :: Possesses(s'.pcs[u]) && s'.pcs[u].lock == l {
      if l in s.held {
        var u :| u in s.pcs && Possesses(s.pcs[u]) && s.pcs[u].lock == l;
        assert Possesses(s'.pcs[u]) && s'.pcs[u].lock == l;
      } else {
        assert Possesses(s'.pcs[t]) && s'.pcs[t].lock == l;
      }
    }
  }

  // In every reachable state no lock is left behind: whatever is held, some thread possesses.
  lemma {:induction false} NoLockIsLeftBehind(fold: string -> Owner, threads: set<Tid>, events: seq<Event>, n: nat)
    requires n <= |events|
    ensures Owned(At(fold, threads, events, n).held, At(fold, threads, events, n).pcs)
  {
    if n > 0 {
      var s, e := At(fold, threads, events, n - 1), events[n - 1];
      NoLockIsLeftBehind(fold, threads, events, n - 1);
      ReachableInv(fold, threads, events, n - 1);
      if e.Do? && e.t in s.pcs { DoKeepsOwned(fold, s, e.t, e.action); }
    }
  }

  // The table knows the thread: a thread that uses an owner has its entry and lock, and a lock
  // it possesses is held. So it is in every reachable state.
  predicate Registered(s: Sys, pc: Pc) {
    && (Using(pc) ==> Sound(s.entries, pc.owner, pc.lock))
    && (Possesses(pc) ==> pc.lock in s.held)
  }

  lemma EveryoneIsRegistered(fold: string -> Owner, threads: set<Tid>, events: seq<Event>, n: nat, t: Tid)
    requires n <= |events| && t in At(fold, threads, events, n).pcs
    ensures var s := At(fold, threads, events, n); Registered(s, s.pcs[t])
  {
    ReachableInv(fold, threads, events, n);
  }

  // A thread comes to stand anywhere only for the reason that position names.
  lemma PositionHasCause(fold: string -> Owner, s: Sys, t: Tid, action: Action)
    requires t in s.pcs && Registered(s, s.pcs[t]) && DoStep(fold, s, t, action).pcs[t] != s.pcs[t]
    ensures var pc := s.pcs[t];
            match DoStep(fold, s, t, action).pcs[t]
            case Idle => || (action.Finish? && pc.Leaving?)
                         || (action.Drop? && pc.Dropping? && !pc.admitted)
            case Admitted(owner, trying) =>
              || (&& action.Begin? && fold(action.owner) == owner && action.trying == trying
                  && pc.Idle? && !s.closing && !s.closed)
              || (action.Again? && pc == Leaving(owner) && trying)
            case Waiting(owner, _, trying) => action.Reference? && pc == Admitted(owner, trying)
            case BackingOut(owner, lock) => action.TryLock? && pc == Waiting(owner, lock, true) && lock in s.held
            case Holding(owner, lock) =>
              && lock !in s.held
              && (|| (action.Lock? && pc == Waiting(owner, lock, false))
                  || (action.TryLock? && pc == Waiting(owner, lock, true)))
            case Bound(owner, lock) => action == Bind(true) && pc == Holding(owner, lock)
            case Token(owner, lock) => action.Finish? && pc == Bound(owner, lock) && !s.closing
            case Unlocking(owner, lock, admitted) =>
              if admitted then action == Bind(false) && pc in {Holding(owner, lock), Bound(owner, lock)}
              else action.Release? && pc == Token(owner, lock)
            case Dropping(owner, lock, admitted) => action.Unlock? && pc == Unlocking(owner, lock, admitted)
            case Leaving(owner) => && action.Drop? && (pc.BackingOut? || (pc.Dropping? && pc.admitted))
                                   && pc.owner == owner
            case Corrupted => false
  {
  }

  // The action is one that a thread standing here waits for and can take now.
  predicate Awaited(s: Sys, pc: Pc, action: Action) {
    match action
    case Begin(_, _) => pc.Idle? && !s.closing && !s.closed
    case Reference => pc.Admitted?
    case Lock => pc.Waiting? && !pc.trying && pc.lock !in s.held
    case TryLock => pc.Waiting? && pc.trying
    case Bind(ok) => pc.Holding? || (pc.Bound? && !ok)
    case Finish => !s.closing && (pc.Bound? || pc.Leaving?)
    case Again => pc.Leaving?
    case Release => pc.Token?
    case Unlock => pc.Unlocking?
    case Drop => pc.Dropping? || pc.BackingOut?
  }

  lemma OnlyAwaitedActionsMove(fold: string -> Owner, s: Sys, t: Tid, action: Action)
    requires t in s.pcs && Registered(s, s.pcs[t])
    ensures DoStep(fold, s, t, action).pcs[t] != s.pcs[t] <==> Awaited(s, s.pcs[t], action)
  {
  }

  // A try for an owner is turned away exactly while another thread possesses that owner's
  // lock, and a blocking acquisition goes on exactly when nobody does.
  lemma RefusedOnlyWhilePossessed(fold: string -> Owner, threads: set<Tid>, events: seq<Event>, n: nat, t: Tid)
    requires n <= |events| && t in At(fold, threads, events, n).pcs && At(fold, threads, events, n).pcs[t].Waiting?
    ensures var s := At(fold, threads, events, n);
            var owner, lock := s.pcs[t].owner, s.pcs[t].lock;
            var busy := exists u <- s.pcs :: Possesses(s.pcs[u]) && s.pcs[u].owner == owner;
            if s.pcs[t].trying
            then DoStep(fold, s, t, TryLock).pcs[t] == (if busy then BackingOut(owner, lock) else Holding(owner, lock))
            else DoStep(fold, s, t, Lock).pcs[t] == (if busy then s.pcs[t] else Holding(owner, lock))
  {
    ReachableInv(fold, threads, events, n);
    NoLockIsLeftBehind(fold, threads, events, n);
    var s := At(fold, threads, events, n);
    HeldByOwner(s, t);
  }

  lemma HeldByOwner(s: Sys, t: Tid)
    requires Inv(s) && Owned(s.held, s.pcs) && t in s.pcs && s.pcs[t].Waiting?
    ensures s.pcs[t].lock in s.held <==> exists u <- s.pcs :: Possesses(s.pcs[u]) && s.pcs[u].owner == s.pcs[t].owner
  {
    if s.pcs[t].lock in s.held {
      var u :| u in s.pcs && Possesses(s.pcs[u]) && s.pcs[u].lock == s.pcs[t].lock;
      assert Using(s.pcs[u]) && Using(s.pcs[t]);
    }
  }

  // `close` goes on from its first read exactly when the store is open and nothing is pending.
  lemma CloseBeginsWhenQuiet(fold: string -> Owner, s: Sys)
    requires Inv(s) && !s.closing
    ensures Step(fold, s, CloseCheck) == s.(closing := !s.closed && forall t <- s.pcs :: !Pending(s.pcs[t]))
  {
    if t :| t in s.pcs && Pending(s.pcs[t]) {
      assert t in Pendings(s.pcs);
    } else {
      assert Pendings(s.pcs) == {};
    }
  }

  predicate HasOwner(pc: Pc) { !pc.Idle? && !pc.Corrupted? }

  // A step moves one program counter, and changes its owner only by beginning anew.
  lemma DoKeepsOwner(fold: string -> Owner, s: Sys, t: Tid, action: Action)
    requires t in s.pcs
    ensures DoStep(fold, s, t, action).pcs.Keys == s.pcs.Keys
    ensures var pc, pc' := s.pcs[t], DoStep(fold, s, t, action).pcs[t];
            HasOwner(pc') ==> if action.Begin? && pc.Idle? then pc'.owner == fold(action.owner)
                              else HasOwner(pc) && pc.owner == pc'.owner
  {
  }

  lemma OthersKeepOwner(fold: string -> Owner, s: Sys, t: Tid, action: Action, u: Tid)
    requires t in s.pcs && u in s.pcs && u != t
    ensures u in DoStep(fold, s, t, action).pcs && DoStep(fold, s, t, action).pcs[u] == s.pcs[u]
  {
  }

  lemma OwnerStep(fold: string -> Owner, s: Sys, e: Event, t: Tid)
    requires t in s.pcs
    ensures Step(fold, s, e).pcs.Keys == s.pcs.Keys
    ensures var pc, pc' := s.pcs[t], Step(fold, s, e).pcs[t];
            HasOwner(pc') ==> || (HasOwner(pc) && pc.owner == pc'.owner)
                              || (e.Do? && e.t == t && e.action.Begin? && pc'.owner == fold(e.action.owner))
  {
    if e.Do? && e.t in s.pcs {
      DoKeepsOwner(fold, s, e.t, e.action);
      if e.t != t { OthersKeepOwner(fold, s, e.t, e.action, t); }
    }
  }

  // Whoever uses the table does so under the case-folded owner it asked for, so two
  // owners that fold alike exclude each other.
  lemma {:induction false} OwnerIsFolded(fold: string -> Owner, threads: set<Tid>, events: seq<Event>, n: nat, t: Tid)
    returns (i: nat)
    requires n <= |events| && t in At(fold, threads, events, n).pcs && HasOwner(At(fold, threads, events, n).pcs[t])
    ensures i < n && events[i].Do? && events[i].t == t && events[i].action.Begin?
    ensures At(fold, threads, events, n).pcs[t].owner == fold(events[i].action.owner)
    decreases n
  {
    var before := At(fold, threads, events, n - 1);
    SameThreads(fold, threads, events, n - 1, t);
    OwnerStep(fold, before, events[n - 1], t);
    if HasOwner(before.pcs[t]) && before.pcs[t].owner == At(fold, threads, events, n).pcs[t].owner {
      i := OwnerIsFolded(fold, threads, events, n - 1, t);
    } else {
      i := n - 1;
    }
  }

  lemma SameThreads(fold: string -> Owner, threads: set<Tid>, events: seq<Event>, n: nat, t: Tid)
    requires n < |events| && t in At(fold, threads, events, n + 1).pcs
    ensures t in At(fold, threads, events, n).pcs
  {
    var s, e := At(fold, threads, events, n), events[n];
    if e.Do? && e.t in s.pcs { DoKeepsOwner(fold, s, e.t, e.action); }
  }

  lemma StepStaysClosed(fold: string -> Owner, s: Sys, e: Event)
    requires Inv(s) && s.closed
    ensures Step(fold, s, e) == s
  {
  }

  // Once `close` has succeeded no token exists, and none is ever issued again: the
  // store never changes any more.
  lemma {:induction false} ClosedIsFinal(fold: string -> Owner, threads: set<Tid>, events: seq<Event>, i: nat, j: nat)
    requires i <= j <= |events| && At(fold, threads, events, i).closed
    ensures At(fold, threads, events, j) == At(fold, threads, events, i)
    ensures forall t <- At(fold, threads, events, j).pcs :: At(fold, threads, events, j).pcs[t].Idle?
    decreases j
  {
    ReachableInv(fold, threads, events, i);
    if i < j {
      ClosedIsFinal(fold, threads, events, i, j - 1);
      StepStaysClosed(fold, At(fold, threads, events, j - 1), events[j - 1]);
    }
  }

  // The two reads of `close` cannot be fooled by an acquisition between them: what it
  // commits is closed only if nothing was pending and nothing was held.
  lemma CloseRefusesWhileInUse(fold: string -> Owner, s: Sys)
    requires Inv(s) && s.closing
    ensures Step(fold, s, CloseCommit).closed <==> forall t <- s.pcs :: s.pcs[t].Idle?
  {
    if s.entries == map[] {
      EmptyMeansIdle(s);
    } else {
      var o :| o in s.entries;
      assert |Users(s.pcs, o)| >= 1;
      var t :| t in Users(s.pcs, o);
      assert !s.pcs[t].Idle?;
    }
  }

  // ---- the store's life cycle ----

  class StoreLifecycle {
    const table: OwnerLockTable
    var pending: int
    var closing: bool // `close` holds the life-cycle guard, between its two reads
    var closed: bool

    constructor ()
      ensures pending == 0 && !closing && !closed && fresh(table)
      ensures table.entries == map[] && table.held == {} && table.nextLock == 0
    {
      pending, closing, closed := 0, false, false;
      table := new OwnerLockTable();
    }

    method BeginAcquisition() returns (admitted: bool)
      requires !closing
      modifies this`pending
      ensures admitted == !closed && pending == if admitted then old(pending) + 1 else old(pending)
    {
      if closed { return false; }
      pending := pending + 1;
      return true;
    }

    method FinishAcquisition()
      requires !closing
      modifies this`pending
      ensures pending == old(pending) - 1
    {
      pending := pending - 1;
    }

    // Takes the guard and makes the first read; `false` when `close` ends here.
    method CloseCheck() returns (on: bool)
      requires !closing
      modifies this`closing
      ensures on == closing == (!closed && pending == 0)
    {
      if closed || pending != 0 { return false; }
      closing := true;
      return true;
    }

    // Makes the second read, closes or gives up, and drops the guard.
    method CloseCommit()
      requires closing
      modifies this`closing, this`closed
      ensures !closing && closed == (table.entries == map[])
    {
      closed := table.entries == map[];
      closing := false;
    }

    // `true` when the store is closed on return, `false` for the busy error.
    method Close() returns (ok: bool)
      requires !closing
      modifies this`closing, this`closed
      ensures !closing
      ensures ok == (old(closed) || (pending == 0 && table.entries == map[])) && closed == ok
    {
      if closed { return true; }
      var on := CloseCheck();
      if !on { return false; }
      CloseCommit();
      return closed;
    }

    // The life cycle, its table and the threads as one state.
    function View(pcs: map<Tid, Pc>): Sys
      reads this, table
    {
      Sys(table.entries, table.held, table.nextLock, pcs, pending, closing, closed)
    }
  }

  // ---- the transition system runs on the store ----

  // Executes one step of a thread through the methods of the table and the life cycle.
  method DriveThread(life: StoreLifecycle, fold: string -> Owner, pcs: map<Tid, Pc>, t: Tid, action: Action)
    returns (after: map<Tid, Pc>)
    requires t in pcs
    modifies life, life.table
    ensures life.View(after) == DoStep(fold, old(life.View(pcs)), t, action)
  {
    after := pcs;
    var pc, table := pcs[t], life.table;
    match action
    case Begin(owner, trying) =>
      if pc.Idle? && !life.closing {
        var admitted := life.BeginAcquisition();
        if admitted { after := pcs[t := Admitted(fold(owner), trying)]; }
      }
    case Reference =>
      if pc.Admitted? {
        var lock := table.Reference(pc.owner);
        after := pcs[t := Waiting(pc.owner, lock, pc.trying)];
      }
    case Lock =>
      if pc.Waiting? && !pc.trying && pc.lock !in table.held {
        var _ := table.TryLock(pc.lock);
        after := pcs[t := Holding(pc.owner, pc.lock)];
      }
    case TryLock =>
      if pc.Waiting? && pc.trying {
        var taken := table.TryLock(pc.lock);
        after := pcs[t := if taken then Holding(pc.owner, pc.lock) else BackingOut(pc.owner, pc.lock)];
      }
    case Bind(ok) =>
      if pc.Holding? || pc.Bound? {
        if ok {
          after := pcs[t := Bound(pc.owner, pc.lock)];
        } else {
          after := pcs[t := if pc.owner in table.entries then Unlocking(pc.owner, table.entries[pc.owner].lock, true)
                       else Corrupted];
        }
      }
    case Finish =>
      if !life.closing && (pc.Bound? || pc.Leaving?) {
        life.FinishAcquisition();
        after := pcs[t := if pc.Bound? then Token(pc.owner, pc.lock) else Idle];
      }
    case Again => if pc.Leaving? { after := pcs[t := Admitted(pc.owner, true)]; }
    case Release =>
      if pc.Token? {
        after := pcs[t := if pc.owner in table.entries then Unlocking(pc.owner, table.entries[pc.owner].lock, false)
                     else Corrupted];
      }
    case Unlock =>
      if pc.Unlocking? {
        var ok := table.Unlock(pc.lock);
        after := pcs[t := if ok then Dropping(pc.owner, pc.lock, pc.admitted) else Corrupted];
      }
    case Drop =>
      if pc.Dropping? || pc.BackingOut? {
        var ok := table.Drop(pc.owner, pc.lock);
        after := pcs[t := if ok then After(pc.owner, pc.BackingOut? || pc.admitted) else Corrupted];
      }
  }

  // Any interleaving of threads and closers on a fresh store reaches exactly the states
  // above.
  method DriveAll(fold: string -> Owner, threads: set<Tid>, events: seq<Event>)
    returns (life: StoreLifecycle, pcs: map<Tid, Pc>)
    ensures fresh(life) && fresh(life.table) && life.View(pcs) == At(fold, threads, events, |events|)
  {
    life := new StoreLifecycle();
    pcs := map t | t in threads :: Idle;
    for n := 0 to |events|
      invariant fresh(life) && fresh(life.table) && life.View(pcs) == At(fold, threads, events, n)
    {
      match events[n]
      case Do(t, action) => if t in pcs { pcs := DriveThread(life, fold, pcs, t, action); }
      case CloseCheck => if !life.closing { var _ := life.CloseCheck(); }
      case CloseCommit => if life.closing { life.CloseCommit(); }
    }
  }
}
