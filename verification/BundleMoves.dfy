// The native directory move and what can be concluded from it. The operating
// system is assumed only to move atomically and never onto an occupied path; the
// error code it returns may be anything, whether or not the move happened.
module BundleMoves {
  import opened Common
  import opened BundleModel

  // Places where a run may stop: fence checks, revocation checks, fault
  // boundaries, torn file writes and failed flushes.
  datatype Checkpoint =
    | BeforeStage | BeforeStagingDirectory | AfterStagingDirectory | BeforeFile(index: nat) | WriteFile(index: nat)
    | AfterFile(index: nat) | BeforeManifest | WriteManifest | AfterManifest | StagingFsync
    | AfterStagingFsync | AfterValidate | BeforeReplace | AfterReplace | RevisionFsync
    | AfterRevisionFsync | RedurableFsync | StagingParentFsync | BeforePromotion
    | BeforeRecovery | BeforeRedurable | QuarantineFsync | AfterRecoveryQuarantine

  datatype Failure =
    | Collision | Integrity | Publication | Revoked | OsError(code: int) | Stopped(at: Checkpoint)
    | Reconciliation
    | Retrying // not a failure: the native move is still being interrupted

  // `stops(c)` says that checkpoint `c` raises; `torn(i)` is how many bytes of file
  // `i` had been written when its write raised (the manifest has the last index).
  datatype Faults = Faults(stops: Checkpoint -> bool, torn: nat -> nat)

  datatype Platform = Posix | Windows

  // One native move attempt: whether the fence checks before it let it go ahead,
  // whether the system carries it out, and the code it reports.
  datatype Attempt = Attempt(permitted: bool, performed: bool, code: int)

  datatype MoveOutcome = Committed | Idempotent | Raised(failure: Failure) | Unfinished

  const WindowsAttempts := 7
  const EINTR := 4
  const EXDEV := 18

  function CollisionCodes(p: Platform): set<int> { if p.Posix? then {17, 39} else {80, 183} }
  function RetryCodes(p: Platform): set<int> { if p.Posix? then {EINTR} else {5, 32} }
  function MoveFailure(p: Platform, code: int): Failure {
    if p.Posix? && code in {38, 22, 95, EXDEV} then Publication else OsError(code)
  }

  function Moved(fs: FileSystem, src: Path, dst: Path): FileSystem
    requires src in fs
  {
    (fs - {src})[dst := fs[src]]
  }

  predicate SameEntry(a: Node, b: Node) { a.inode == b.inode && a.Directory? == b.Directory? }

  // What the code concludes by looking at both paths after an attempt; `None`
  // means that nothing moved and the code decides whether to try again.
  function Observe(fs: FileSystem, src: Path, dst: Path, expected: Node, code: int,
                   p: Platform, equivalent: bool): Option<MoveOutcome>
  {
    var sourceIsExpected := src in fs && SameEntry(fs[src], expected);
    if src !in fs && dst in fs && SameEntry(fs[dst], expected) then Some(Committed)
    else if code in CollisionCodes(p) && sourceIsExpected && dst in fs && equivalent then Some(Idempotent)
    else if !sourceIsExpected then Some(Raised(Integrity))
    else if dst in fs then Some(Raised(Collision))
    else if code == 0 then Some(Raised(Integrity))
    else None
  }

  // What one attempt really amounts to, given whether it was carried out.
  function Truth(p: Platform, a: Attempt, last: bool, occupied: bool, equivalent: bool): Option<MoveOutcome> {
    if !a.permitted then Some(Raised(Revoked))
    else if a.performed && !occupied then Some(Committed)
    else if occupied then
      Some(if equivalent && a.code in CollisionCodes(p) then Idempotent else Raised(Collision))
    else if a.code == 0 then Some(Raised(Integrity))
    else if a.code in RetryCodes(p) && !last then None
    else Some(Raised(MoveFailure(p, a.code)))
  }

  // The answer a move loop owes its caller, in terms of what really happened.
  function MoveResult(p: Platform, attempts: seq<Attempt>, k: nat, occupied: bool, equivalent: bool): MoveOutcome
    decreases |attempts| - k
  {
    if k >= |attempts| then Unfinished
    else
      var t := Truth(p, attempts[k], p.Windows? && k + 1 == WindowsAttempts, occupied, equivalent);
      if t.Some? then t.value else MoveResult(p, attempts, k + 1, occupied, equivalent)
  }

  function FailureOf(outcome: MoveOutcome): Failure
    requires !outcome.Committed? && !outcome.Idempotent?
  {
    if outcome.Raised? then outcome.failure else Retrying
  }

  // A move onto a free path never collides and never finds an equivalent.
  lemma {:induction false} FreePathNeverCollides(p: Platform, attempts: seq<Attempt>, k: nat, equivalent: bool)
    ensures var o := MoveResult(p, attempts, k, false, equivalent);
            o != Raised(Collision) && o != Idempotent && (o.Raised? ==> !o.failure.Stopped?)
    decreases |attempts| - k
  {
    if k < |attempts| { FreePathNeverCollides(p, attempts, k + 1, equivalent); }
  }

  // Attempt `k` is reached: all earlier ones were let through, did nothing and
  // reported a transient code.
  predicate Reached(p: Platform, attempts: seq<Attempt>, k: nat)
    requires k <= |attempts|
  {
    && (p.Windows? ==> k < WindowsAttempts)
    && forall j :: 0 <= j < k ==>
         attempts[j].permitted && !attempts[j].performed && attempts[j].code in RetryCodes(p)
  }

  lemma {:induction false} CommittedExactlyWhenCarriedOut(p: Platform, attempts: seq<Attempt>, k: nat, equivalent: bool)
    requires k <= |attempts| && Reached(p, attempts, k)
    ensures MoveResult(p, attempts, k, false, equivalent).Committed?
       <==> exists n :: k <= n < |attempts| && Reached(p, attempts, n)
                        && attempts[n].permitted && attempts[n].performed
    decreases |attempts| - k
  {
    if k < |attempts| {
      var a := attempts[k];
      if a.permitted && !a.performed && a.code in RetryCodes(p) && !(p.Windows? && k + 1 == WindowsAttempts) {
        CommittedExactlyWhenCarriedOut(p, attempts, k + 1, equivalent);
      } else if MoveResult(p, attempts, k, false, equivalent).Committed? {
        assert Reached(p, attempts, k);
      }
    }
  }

  // A move onto a free path that raises names the attempt that decided it: one that was not
  // let through, one that reported success without moving, or one whose code is final.
  lemma {:induction false} RaisedNamesItsAttempt(p: Platform, attempts: seq<Attempt>, k: nat, equivalent: bool)
    returns (n: nat)
    requires k <= |attempts| && Reached(p, attempts, k) && MoveResult(p, attempts, k, false, equivalent).Raised?
    ensures k <= n < |attempts| && Reached(p, attempts, n)
    ensures var a := attempts[n];
            && !(a.permitted && a.performed)
            && (a.permitted && a.code in RetryCodes(p) ==> p.Windows? && n + 1 == WindowsAttempts)
            && MoveResult(p, attempts, k, false, equivalent) ==
                 Raised(if !a.permitted then Revoked else if a.code == 0 then Integrity
                        else if p.Posix? && a.code in {38, 22, 95, 18} then Publication else OsError(a.code))
    decreases |attempts| - k
  {
    var a := attempts[k];
    if a.permitted && !a.performed && a.code in RetryCodes(p) && !(p.Windows? && k + 1 == WindowsAttempts) {
      n := RaisedNamesItsAttempt(p, attempts, k + 1, equivalent);
    } else {
      n := k;
    }
  }

  // Onto an occupied path the first attempt settles the matter, and only a
  // collision code together with an equivalent destination is idempotent.
  lemma OccupiedSettlesAtOnce(p: Platform, attempts: seq<Attempt>, equivalent: bool)
    requires |attempts| > 0
    ensures MoveResult(p, attempts, 0, true, equivalent) ==
      if !attempts[0].permitted then Raised(Revoked)
      else if equivalent && attempts[0].code in CollisionCodes(p) then Idempotent
      else Raised(Collision)
  {
    assert Truth(p, attempts[0], p.Windows? && 1 == WindowsAttempts, true, equivalent).Some?;
  }

  // On Windows the eighth attempt never exists: seven settle every move.
  lemma {:induction false} WindowsNeedsSevenAttempts(attempts: seq<Attempt>, k: nat, occupied: bool, equivalent: bool)
    requires k < WindowsAttempts <= |attempts|
    ensures !MoveResult(Windows, attempts, k, occupied, equivalent).Unfinished?
    ensures MoveResult(Windows, attempts, k, occupied, equivalent)
         == MoveResult(Windows, attempts[..WindowsAttempts], k, occupied, equivalent)
    decreases WindowsAttempts - k
  {
    if k + 1 < WindowsAttempts {
      WindowsNeedsSevenAttempts(attempts, k + 1, occupied, equivalent);
    }
  }
}
