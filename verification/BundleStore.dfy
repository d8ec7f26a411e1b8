// The bundle store: staging, promotion, publication, recovery and quarantine over
// a file system whose runs may stop at any checkpoint.
module BundleStore {
  import opened Common
  import opened BundleModel
  import opened BundleMoves

  datatype Receipt = Receipt(key: Key, inode: Inode, want: Want)

  datatype Disposition = FinalValid | StagingPromoted | Absent | Partial | ForeignEntry | CollisionFound

  datatype Recovery = Recovery(disposition: Disposition, observed: Option<Inode>, quarantined: bool,
                               published: Option<Bundle>)

  // Why staging would be refused, judged from the staging path alone.
  function StageRefusal(st: Store, fs: FileSystem, key: Key, want: Want, replaceExisting: bool): Option<Failure> {
    var s := StagingOf(key);
    if s !in fs then None
    else if fs[s].Foreign? then Some(Collision)
    else if LoadWanted(st, fs[s], key, want).Some? then
      if Matches(st, fs[s], key, want) then None else Some(Collision)
    else if Validates(st, fs[s], key) then Some(Collision)
    else if replaceExisting then None
    else Some(Integrity)
  }

  // Why promoting a staged receipt would be refused, judged from its paths alone.
  function PromotionRefusal(st: Store, fs: FileSystem, receipt: Receipt): Option<Failure> {
    var key, want := receipt.key, receipt.want;
    var s, r := StagingOf(key), RevisionOf(key);
    if s in fs && (fs[s].inode != receipt.inode || !Matches(st, fs[s], key, want)) then Some(Integrity)
    else if r !in fs then (if s in fs then None else Some(Integrity))
    else if fs[r].Foreign? then Some(if s in fs then Integrity else Collision)
    else if LoadWanted(st, fs[r], key, want).None? then Some(Integrity)
    else if Matches(st, fs[r], key, want) then None else Some(Collision)
  }

  // The entry a receipt names is already in quarantine and gone from `live`.
  predicate AlreadyQuarantined(fs: FileSystem, live: Path, q: Path, inode: Inode) {
    live !in fs && q in fs && fs[q].Directory? && fs[q].inode == inode
  }

  // A directory a publication may be working with: the staged bundle it found, or
  // one it is writing in place of nothing or of an invalid directory.
  ghost predicate WorkingNode(st: Store, fs: FileSystem, key: Key, f: Finalized, newInode: Inode, node: Node)
    requires f.files.Keys == NameSet(st.contract.fileNames)
  {
    var s := StagingOf(key);
    || (s in fs && node == fs[s] && Matches(st, node, key, WantOf(f)))
    || (&& (s in fs ==> fs[s].Directory? && !Validates(st, fs[s], key))
        && exists p :: ProgressOk(st, f, p) && node == Directory(newInode, Contents(st, f, p)))
  }

  // The staging entry is gone from where it was, if it was there, and the working
  // node stands at `at` instead; it leaves staging only complete and only for a free path.
  ghost predicate LeavesAt(st: Store, fs0: FileSystem, fs1: FileSystem, key: Key, f: Finalized, newInode: Inode,
                           at: Path)
    requires f.files.Keys == NameSet(st.contract.fileNames)
  {
    && at in fs1 && WorkingNode(st, fs0, key, f, newInode, fs1[at])
    && fs1 == (fs0 - {StagingOf(key)})[at := fs1[at]]
    && (at != StagingOf(key) ==> at !in fs0 && Matches(st, fs1[at], key, WantOf(f)))
  }

  // An invalid staging directory was deleted and nothing stands in its place yet.
  predicate Cleared(st: Store, fs0: FileSystem, fs1: FileSystem, key: Key) {
    var s := StagingOf(key);
    s in fs0 && fs0[s].Directory? && !Validates(st, fs0[s], key) && fs1 == fs0 - {s}
  }

  // Every state in which a publication can end, however it ends.
  ghost predicate PublishLeaves(st: Store, fs0: FileSystem, fs1: FileSystem, key: Key, f: Finalized, newInode: Inode)
    requires f.files.Keys == NameSet(st.contract.fileNames)
  {
    || fs1 == fs0
    || (&& RevisionOf(key) !in fs0
        && (|| Cleared(st, fs0, fs1, key)
            || LeavesAt(st, fs0, fs1, key, f, newInode, StagingOf(key))
            || LeavesAt(st, fs0, fs1, key, f, newInode, RevisionOf(key))
            || LeavesAt(st, fs0, fs1, key, f, newInode, QuarantineOf(key))))
  }

  // The answer recovery owes its caller and the file system it leaves, as a table
  // over the three paths of the key.
  function RecoveryOf(st: Store, fs: FileSystem, key: Key, want: Want): (Recovery, FileSystem) {
    var s, r, q := StagingOf(key), RevisionOf(key), QuarantineOf(key);
    if r in fs then
      (if fs[r].Foreign? then Recovery(ForeignEntry, Some(fs[r].inode), false, None)
       else if Matches(st, fs[r], key, want)
       then Recovery(FinalValid, Some(fs[r].inode), false, LoadWanted(st, fs[r], key, want))
       else Recovery(CollisionFound, Some(fs[r].inode), false, None), fs)
    else if s !in fs then
      (if q !in fs then Recovery(Absent, None, false, None)
       else if fs[q].Foreign? then Recovery(ForeignEntry, Some(fs[q].inode), true, None)
       else if Validates(st, fs[q], key) && !Matches(st, fs[q], key, want)
       then Recovery(CollisionFound, Some(fs[q].inode), true, None)
       else Recovery(Partial, Some(fs[q].inode), true, None), fs)
    else if q in fs then (Recovery(CollisionFound, Some(fs[q].inode), false, None), fs)
    else if fs[s].Foreign? then
      (Recovery(ForeignEntry, Some(fs[s].inode), true, None), Moved(fs, s, q))
    else if Matches(st, fs[s], key, want) then
      (Recovery(StagingPromoted, Some(fs[s].inode), false, LoadWanted(st, fs[s], key, want)), Moved(fs, s, r))
    else if Validates(st, fs[s], key) then
      (Recovery(CollisionFound, Some(fs[s].inode), false, None), fs)
    else
      (Recovery(Partial, Some(fs[s].inode), true, None), Moved(fs, s, q))
  }

  // The path whose entry decides what recovery answers.
  function Deciding(fs: FileSystem, key: Key): Option<Path> {
    var s, r, q := StagingOf(key), RevisionOf(key), QuarantineOf(key);
    if r in fs then Some(r) else if q in fs then Some(q) else if s in fs then Some(s) else None
  }

  // Staging and quarantine are both occupied and nothing is published.
  predicate Crowded(fs: FileSystem, key: Key) {
    RevisionOf(key) !in fs && StagingOf(key) in fs && QuarantineOf(key) in fs
  }

  // The entry at `at` stands in the way: at the revision path anything but the wanted
  // bundle, elsewhere another valid bundle.
  predicate InTheWay(st: Store, node: Node, at: Path, key: Key, want: Want) {
    node.Directory? && !Matches(st, node, key, want) && (at.Revision? || Validates(st, node, key))
  }

  // What an answer of recovery means, said for each disposition of what the three paths
  // held: the entry it is about, when it is given, and where that entry ends.
  predicate Diagnosed(st: Store, fs: FileSystem, key: Key, want: Want, answer: Recovery, after: FileSystem) {
    var s, r, q, at := StagingOf(key), RevisionOf(key), QuarantineOf(key), Deciding(fs, key);
    && answer.observed == (if at.Some? then Some(fs[at.value].inode) else None)
    && (answer.disposition == Absent <==> s !in fs && r !in fs && q !in fs)
    && (answer.disposition == FinalValid <==> r in fs && Matches(st, fs[r], key, want))
    && (answer.disposition == StagingPromoted <==> at == Some(s) && Matches(st, fs[s], key, want))
    && (answer.disposition == ForeignEntry <==> at.Some? && !Crowded(fs, key) && fs[at.value].Foreign?)
    && (answer.disposition == CollisionFound
        <==> Crowded(fs, key) || (at.Some? && InTheWay(st, fs[at.value], at.value, key, want)))
    && (answer.disposition == Partial && q !in fs ==> s in fs && !Validates(st, fs[s], key))
    && (answer.quarantined <==> s !in after && r !in after && q in after)
    && answer.published == (if answer.disposition in {FinalValid, StagingPromoted} && at.Some?
                            then LoadWanted(st, fs[at.value], key, want) else None)
    && after == (if at == Some(s) && answer.disposition != CollisionFound
                 then Moved(fs, s, if answer.disposition == StagingPromoted then r else q) else fs)
  }

  lemma RecoveryIsDiagnosed(st: Store, fs: FileSystem, key: Key, want: Want)
    ensures var (answer, after) := RecoveryOf(st, fs, key, want); Diagnosed(st, fs, key, want, answer, after)
  {
    var at := Deciding(fs, key);
    if at.Some? && Matches(st, fs[at.value], key, want) { MatchValidates(st, fs[at.value], key, want); }
  }

  // Staging is refused exactly for a foreign entry or another valid bundle at the staging
  // path, and for an invalid directory when it must not be replaced.
  lemma StageRefusals(st: Store, fs: FileSystem, key: Key, want: Want, replaceExisting: bool)
    ensures var s, refusal := StagingOf(key), StageRefusal(st, fs, key, want, replaceExisting);
            && (refusal == Some(Collision)
                <==> s in fs && !Matches(st, fs[s], key, want) && (fs[s].Foreign? || Validates(st, fs[s], key)))
            && (refusal == Some(Integrity)
                <==> s in fs && fs[s].Directory? && !Validates(st, fs[s], key) && !replaceExisting)
            && (refusal.Some? ==> refusal.value in {Collision, Integrity})
  {
    var s := StagingOf(key);
    if s in fs && LoadWanted(st, fs[s], key, want).Some? { MatchValidates(st, fs[s], key, want); }
  }

  // Promotion is allowed exactly when the entries at the two paths, if any, are the receipt's
  // own staged bundle and the wanted published one, and there is at least one; it collides
  // exactly with a foreign entry or a bundle of other metadata at the revision path.
  lemma PromotionRefusals(st: Store, fs: FileSystem, receipt: Receipt)
    ensures var s, r, refusal := StagingOf(receipt.key), RevisionOf(receipt.key), PromotionRefusal(st, fs, receipt);
            var own := s in fs ==> fs[s].inode == receipt.inode && Matches(st, fs[s], receipt.key, receipt.want);
            && (refusal.None? <==> && own && (s in fs || r in fs)
                                   && (r in fs ==> Matches(st, fs[r], receipt.key, receipt.want)))
            && (refusal == Some(Collision)
                <==> && own && r in fs && !Matches(st, fs[r], receipt.key, receipt.want)
                     && ((fs[r].Foreign? && s !in fs) || LoadWanted(st, fs[r], receipt.key, receipt.want).Some?))
            && (refusal.Some? ==> refusal.value in {Collision, Integrity})
  {
  }

  // What withdrawing the receipt's entry from `live` promises, given whether the entry
  // there loads as the receipt says, and the error if it does not. The entry moves exactly
  // when it is the receipt's own, quarantine is free and the native move happens; a failed
  // flush raises with the entry moved, and the next call then finds the work done.
  ghost predicate Withdrawal(p: Platform, fs0: FileSystem, fs1: FileSystem, live: Path, receipt: Receipt, loads: bool,
                             unloadable: Failure, faults: Faults, attempts: seq<Attempt>, r: Result<(), Failure>)
  {
    var q := QuarantineOf(receipt.key);
    var already := AlreadyQuarantined(fs0, live, q, receipt.inode);
    var due := live in fs0 && fs0[live].inode == receipt.inode && q !in fs0 && loads;
    && fs1 == (if due && MoveResult(p, attempts, 0, false, false).Committed? then Moved(fs0, live, q) else fs0)
    && (r.Ok? ==> live !in fs1 && q in fs1 && fs1[q].Directory? && fs1[q].inode == receipt.inode)
    && (r.Ok? ==> (already || due) && AlreadyQuarantined(fs1, live, q, receipt.inode) && !faults.stops(QuarantineFsync))
    && (already && !faults.stops(QuarantineFsync) ==> r.Ok?)
    && (r.Err? && already ==> r.error == Stopped(QuarantineFsync))
    && (r.Err? && due ==> Reasoned(p, r.error, faults, attempts))
    && (r.Err? && fs1 != fs0 ==> r.error == Stopped(QuarantineFsync) && AlreadyQuarantined(fs1, live, q, receipt.inode))
    && (Calm(faults, attempts) ==> (r.Ok? <==> already || due))
    && (!already && !due ==> r == Err(if live in fs0 && fs0[live].inode == receipt.inode && q !in fs0
                                      then unloadable else Reconciliation))
  }

  // Every state in which promoting the validated staging directory can end.
  predicate PromoteLeaves(st: Store, fs0: FileSystem, fs1: FileSystem, key: Key, want: Want)
    requires StagingOf(key) in fs0
  {
    var s, r, q := StagingOf(key), RevisionOf(key), QuarantineOf(key);
    || fs1 == fs0
    || (r in fs0 && Matches(st, fs0[r], key, want) && fs1 == fs0 - {s})
    || (r !in fs0 && fs1 == Moved(fs0, s, r))
    || (r !in fs0 && q !in fs0 && fs1 == Moved(fs0, s, q))
  }

  // What stage, publish, promote and recover keep at every step. Occupied revision
  // and quarantine paths and the staging paths of other publications are untouched;
  // a valid staged bundle is still held by one of the key's paths, or an equal bundle
  // stands at the revision path; only a valid bundle ever enters a revision path.
  predicate StepKeeps(st: Store, fs0: FileSystem, fs1: FileSystem, key: Key) {
    var s, r, q := StagingOf(key), RevisionOf(key), QuarantineOf(key);
    && (forall p <- fs0 :: p != s ==> p in fs1 && fs1[p] == fs0[p])
    && (s in fs0 && Validates(st, fs0[s], key) ==> Held(st, fs1, key, fs0[s]))
    && (r in fs1 && r !in fs0 ==> Validates(st, fs1[r], key))
    && (forall p <- fs1 :: p.Revision? && p != r ==> p in fs0)
  }

  // The node is still at one of the key's paths, or an equal bundle is published.
  predicate Held(st: Store, fs: FileSystem, key: Key, node: Node) {
    var s, r, q := StagingOf(key), RevisionOf(key), QuarantineOf(key);
    || (s in fs && fs[s] == node) || (r in fs && fs[r] == node) || (q in fs && fs[q] == node)
    || (r in fs && SameBundle(st, fs[r], node, key))
  }

  lemma PromoteKeeps(st: Store, fs0: FileSystem, fs1: FileSystem, key: Key, want: Want)
    requires StagingOf(key) in fs0 && Matches(st, fs0[StagingOf(key)], key, want)
    requires PromoteLeaves(st, fs0, fs1, key, want)
    ensures StepKeeps(st, fs0, fs1, key)
  {
  }

  lemma LeavesKeeps(st: Store, fs0: FileSystem, fs1: FileSystem, key: Key, f: Finalized, newInode: Inode)
    requires f.files.Keys == NameSet(st.contract.fileNames)
    requires PublishLeaves(st, fs0, fs1, key, f, newInode)
    ensures StepKeeps(st, fs0, fs1, key)
  {
  }

  // Promoting what staging left behind stays within what a publication may leave.
  lemma PromotedLeaves(st: Store, fs0: FileSystem, mid: FileSystem, fs1: FileSystem, key: Key, f: Finalized,
                       newInode: Inode)
    requires f.files.Keys == NameSet(st.contract.fileNames)
    requires RevisionOf(key) !in fs0 && StagingOf(key) in mid
    requires mid == fs0 || LeavesAt(st, fs0, mid, key, f, newInode, StagingOf(key))
    requires Matches(st, mid[StagingOf(key)], key, WantOf(f)) && PromoteLeaves(st, mid, fs1, key, WantOf(f))
    ensures PublishLeaves(st, fs0, fs1, key, f, newInode)
  {
    var s, r, q := StagingOf(key), RevisionOf(key), QuarantineOf(key);
    assert WorkingNode(st, fs0, key, f, newInode, mid[s]);
    if fs1 == mid {
    } else if r in fs1 {
      assert fs1 == (fs0 - {s})[r := fs1[r]];
    } else {
      assert fs1 == (fs0 - {s})[q := fs1[q]];
    }
  }

  // Nothing stops and the first native move is carried out.
  ghost predicate Calm(faults: Faults, attempts: seq<Attempt>) {
    && (forall c :: !faults.stops(c))
    && |attempts| > 0 && attempts[0].permitted && attempts[0].performed
  }

  // How many bytes of a file a write leaves when it may stop after `length`.
  function KeptLength(bytes: Bytes, torn: bool, length: nat): (k: nat) {
    if torn && length < |bytes| then length else |bytes|
  }

  // How far the writer has got at the checkpoint where it stops.
  function ProgressAt(st: Store, f: Finalized, faults: Faults, at: Checkpoint): Progress
    requires f.files.Keys == NameSet(st.contract.fileNames)
  {
    var names := st.contract.fileNames;
    match at
    case BeforeFile(i) => Files(i)
    case WriteFile(i) =>
      if i < |names| then PartOfFile(i, KeptLength(f.files[names[i]], true, faults.torn(i))) else Files(0)
    case AfterFile(i) => Files(i + 1)
    case BeforeManifest => Files(|names|)
    case WriteManifest => PartOfManifest(KeptLength(f.manifest, true, faults.torn(|names|)))
    case AfterManifest => PartOfManifest(|f.manifest|)
    case StagingFsync => PartOfManifest(|f.manifest|)
    case AfterStagingFsync => PartOfManifest(|f.manifest|)
    case _ => Files(0)
  }

  // The writer stopped at a checkpoint that does stop, with exactly the contents it has
  // at that point.
  ghost predicate StoppedWriting(st: Store, f: Finalized, faults: Faults, failure: Failure, items: map<Name, Item>)
    requires f.files.Keys == NameSet(st.contract.fileNames)
  {
    failure.Stopped? && faults.stops(failure.at) &&
    var p := ProgressAt(st, f, faults, failure.at);
    ProgressOk(st, f, p) && items == Contents(st, f, p)
  }

  // No checkpoint stops the writing of the first `n` files; none stops the writing at all.
  predicate FilesUndisturbed(faults: Faults, n: nat) {
    forall i | 0 <= i < n ::
      !faults.stops(BeforeFile(i)) && !faults.stops(Checkpoint.WriteFile(i)) && !faults.stops(AfterFile(i))
  }
  predicate WritingUndisturbed(st: Store, faults: Faults) {
    !faults.stops(AfterStagingDirectory) && FilesUndisturbed(faults, |st.contract.fileNames|)
    && ManifestUndisturbed(faults)
  }
  predicate ManifestUndisturbed(faults: Faults) {
    && !faults.stops(BeforeManifest) && !faults.stops(WriteManifest) && !faults.stops(AfterManifest)
    && !faults.stops(StagingFsync) && !faults.stops(AfterStagingFsync)
  }

  // Every fence and flush of a promotion to a free revision path lets it go on.
  predicate PromotionUndisturbed(faults: Faults) {
    && !faults.stops(AfterValidate) && !faults.stops(BeforeReplace) && !faults.stops(AfterReplace)
    && !faults.stops(RevisionFsync) && !faults.stops(AfterRevisionFsync)
  }

  // The file system a promotion leaves when it raises.
  function FailedPromotion(p: Platform, fs: FileSystem, key: Key, failure: Failure, cleanup: seq<Attempt>): FileSystem
    requires StagingOf(key) in fs
  {
    var s, r, q := StagingOf(key), RevisionOf(key), QuarantineOf(key);
    if r in fs then if failure == Stopped(StagingParentFsync) then fs - {s} else fs
    else if failure == Stopped(AfterReplace) || failure == Stopped(AfterRevisionFsync) then Moved(fs, s, r)
    else if failure == Stopped(RevisionFsync) then
      Moved(fs, s, if q !in fs && MoveResult(p, cleanup, 0, false, false).Committed? then q else r)
    else fs
  }

  // The answer of a relocation to quarantine: its move, then its flush.
  function Relocation(p: Platform, occupied: bool, faults: Faults, attempts: seq<Attempt>): MoveOutcome {
    if occupied then Raised(Collision)
    else if MoveResult(p, attempts, 0, false, false).Committed? && faults.stops(QuarantineFsync)
    then Raised(Stopped(QuarantineFsync))
    else MoveResult(p, attempts, 0, false, false)
  }

  // Some attempt to move onto a free path is reached and carried out.
  ghost predicate CarriedOut(p: Platform, attempts: seq<Attempt>) {
    exists n :: 0 <= n < |attempts| && Reached(p, attempts, n) && attempts[n].permitted && attempts[n].performed
  }

  // Where a promotion that raised has left the staged bundle, told by the failure: still
  // staged before the move; dropped when an equal one was published and only the last flush
  // failed; published after the move; and withdrawn to quarantine when the flush behind the
  // move failed, the path was free and the move there was carried out.
  lemma FailureTellsWhere(p: Platform, fs: FileSystem, key: Key, failure: Failure, cleanup: seq<Attempt>)
    requires StagingOf(key) in fs
    ensures var s, r, q := StagingOf(key), RevisionOf(key), QuarantineOf(key);
            var after := FailedPromotion(p, fs, key, failure, cleanup);
            var moved := && r !in fs && failure.Stopped?
                         && failure.at in {AfterReplace, RevisionFsync, AfterRevisionFsync};
            var withdrawn := moved && failure == Stopped(RevisionFsync) && q !in fs && CarriedOut(p, cleanup);
            && (s !in after <==> moved || (r in fs && failure == Stopped(StagingParentFsync)))
            && (r in after <==> r in fs || (moved && !withdrawn))
            && (q in after <==> q in fs || withdrawn)
            && (moved ==> after[if withdrawn then q else r] == fs[s])
            && (forall path <- fs :: path != s ==> path in after && after[path] == fs[path])
            && (forall path <- after :: path in fs || path == r || path == q)
  {
    CommittedExactlyWhenCarriedOut(p, cleanup, 0, false);
  }

  // A relocation collides with an occupied path; otherwise the entry arrives exactly when an
  // attempt is carried out, and a flush that then fails is reported with the entry moved.
  lemma RelocationAnswers(p: Platform, occupied: bool, faults: Faults, attempts: seq<Attempt>)
    ensures var outcome := Relocation(p, occupied, faults, attempts);
            && (outcome == Raised(Collision) <==> occupied)
            && (outcome == Committed <==> !occupied && CarriedOut(p, attempts) && !faults.stops(QuarantineFsync))
            && (outcome == Raised(Stopped(QuarantineFsync))
                <==> !occupied && CarriedOut(p, attempts) && faults.stops(QuarantineFsync))
            && outcome != Idempotent
  {
    CommittedExactlyWhenCarriedOut(p, attempts, 0, false);
    FreePathNeverCollides(p, attempts, 0, false);
  }

  // A reason is real: a checkpoint that does stop; an attempt that was not let through, moved
  // nothing although it reported success, or failed for good; or no attempt that settled it.
  lemma ReasonsAreReal(p: Platform, failure: Failure, faults: Faults, attempts: seq<Attempt>) returns (n: nat)
    requires Reasoned(p, failure, faults, attempts)
    ensures failure.Stopped? ==> faults.stops(failure.at)
    ensures !failure.Stopped? && failure != Retrying ==>
              && n < |attempts| && Reached(p, attempts, n) && !(attempts[n].permitted && attempts[n].performed)
              && failure == (if !attempts[n].permitted then Revoked else if attempts[n].code == 0 then Integrity
                             else if p.Posix? && attempts[n].code in {38, 22, 95, 18} then Publication
                             else OsError(attempts[n].code))
    ensures failure == Retrying ==> MoveResult(p, attempts, 0, false, false) == Unfinished
  {
    n := 0;
    FreePathNeverCollides(p, attempts, 0, false);
    if MoveResult(p, attempts, 0, false, false).Raised? { n := RaisedNamesItsAttempt(p, attempts, 0, false); }
  }

  // A failure has its reason: a checkpoint that does stop, or a native move that fails.
  predicate Reasoned(p: Platform, failure: Failure, faults: Faults, attempts: seq<Attempt>) {
    if failure.Stopped? then faults.stops(failure.at)
    else
      var outcome := MoveResult(p, attempts, 0, false, false);
      (outcome.Raised? && outcome.failure == failure) || (outcome.Unfinished? && failure == Retrying)
  }

  lemma PrefixStep(st: Store, f: Finalized, i: nat)
    requires f.files.Keys == NameSet(st.contract.fileNames) && i < |st.contract.fileNames|
    ensures var name := st.contract.fileNames[i];
            Prefix(st, f, i + 1) == Prefix(st, f, i)[name := Regular(f.files[name][..|f.files[name]|])]
  {
    var names := st.contract.fileNames;
    assert names[..i + 1] == names[..i] + [names[i]];
    assert f.files[names[i]][..|f.files[names[i]]|] == f.files[names[i]];
  }

  class ImmutableBundleStore {
    const st: Store
    const platform: Platform
    var fs: FileSystem
    var nextInode: nat

    // The system answers as many native calls as the platform's loop can make.
    predicate Answers(attempts: seq<Attempt>) {
      platform.Windows? ==> |attempts| >= WindowsAttempts
    }

    constructor (store: Store, os: Platform)
      requires ContractOk(store.contract)
      ensures fs == map[] && st == store && platform == os
    {
      st, platform, fs, nextInode := store, os, map[], 0;
    }

    // Reads the bundle files in contract order, giving up at the first unreadable one.
    method ReadFiles(items: map<Name, Item>) returns (files: Option<map<Name, Bytes>>)
      requires items.Keys == ExpectedNames(st)
      ensures files.Some? <==> forall n <- st.contract.fileNames :: FileReadable(st, items[n])
      ensures files.Some? ==> files.value.Keys == NameSet(st.contract.fileNames)
                              && forall n <- files.value :: files.value[n] == items[n].bytes
    {
      var found: map<Name, Bytes> := map[];
      for i := 0 to |st.contract.fileNames|
        invariant forall n <- st.contract.fileNames[..i] :: FileReadable(st, items[n])
        invariant found.Keys == NameSet(st.contract.fileNames[..i])
        invariant forall n <- found :: found[n] == items[n].bytes
      {
        var name := st.contract.fileNames[i];
        assert st.contract.fileNames[..i + 1] == st.contract.fileNames[..i] + [name];
        if !FileReadable(st, items[name]) { return None; }
        found := found[name := items[name].bytes];
      }
      assert st.contract.fileNames[..|st.contract.fileNames|] == st.contract.fileNames;
      return Some(found);
    }

    // Reads and validates one directory against the wanted digests.
    method LoadPath(path: Path, key: Key, wantBundle: Option<Digest>, wantManifest: Option<Digest>)
      returns (bundle: Option<Bundle>)
      requires path in fs
      ensures bundle == Load(st, fs[path], key, wantBundle, wantManifest)
    {
      var node := fs[path];
      if node.Foreign? || node.items.Keys != ExpectedNames(st) { return None; }
      var read := ReadFiles(node.items);
      if read.None? { return None; }
      var files := read.value;
      var digest := st.codec.bundleDigest(files);
      var manifest := node.items[st.contract.manifestName];
      if manifest.Regular? && |manifest.bytes| <= st.contract.maxManifestBytes {
        assert files == FilesOf(st, node.items);
      }
      if wantBundle.Some? && digest != wantBundle.value { return None; }
      if manifest.Irregular? || |manifest.bytes| > st.contract.maxManifestBytes { return None; }
      var manifestDigest := st.codec.sha256(manifest.bytes);
      if wantManifest.Some? && manifestDigest != wantManifest.value { return None; }
      var facts := st.codec.readManifest(files, manifest.bytes);
      if facts.None? || facts.value.scopeId != key.scopeId || facts.value.revisionId != key.revisionId {
        return None;
      }
      return Some(Bundle(files, manifest.bytes, digest, manifestDigest, facts.value.metadata, node.inode));
    }

    // The native primitive: atomic, never replacing, its code arbitrary.
    method MoveNoReplace(src: Path, dst: Path, attempt: Attempt) returns (code: int)
      requires src in fs && src != dst
      modifies this`fs
      ensures fs == if attempt.performed && dst !in old(fs) then Moved(old(fs), src, dst) else old(fs)
      ensures code == attempt.code
    {
      if attempt.performed && dst !in fs {
        fs := Moved(fs, src, dst);
      }
      return attempt.code;
    }

    ghost predicate Equivalent(dst: Path, check: Option<(Key, Want)>)
      reads this
    {
      check.Some? && dst in fs && Matches(st, fs[dst], check.value.0, check.value.1)
    }

    method EquivalentDestination(dst: Path, check: Option<(Key, Want)>) returns (same: bool)
      ensures same == Equivalent(dst, check)
    {
      if check.None? || dst !in fs { return false; }
      var (key, want) := check.value;
      var loaded := LoadPath(dst, key, Some(want.bundle), Some(want.manifest));
      return loaded.Some? && loaded.value.metadata == want.metadata;
    }

    // The durable rename. It learns what happened only by looking at the two paths.
    method DurableReplace(src: Path, dst: Path, expected: Node, attempts: seq<Attempt>,
                          check: Option<(Key, Want)>) returns (outcome: MoveOutcome)
      requires src != dst && src in fs && fs[src] == expected && Answers(attempts)
      modifies this`fs
      ensures outcome == MoveResult(platform, attempts, 0, dst in old(fs), old(Equivalent(dst, check)))
      ensures outcome.Committed? ==> dst !in old(fs) && fs == Moved(old(fs), src, dst)
      ensures !outcome.Committed? ==> fs == old(fs)
      ensures outcome.Idempotent? ==> dst in fs && Equivalent(dst, check)
      ensures platform.Windows? ==> !outcome.Unfinished?
    {
      if platform.Windows? {
        outcome := DurableReplaceWindows(src, dst, expected, attempts, check);
        return;
      }
      var k := 0;
      while k < |attempts|
        invariant fs == old(fs) && k <= |attempts|
        invariant MoveResult(platform, attempts, 0, dst in fs, Equivalent(dst, check))
               == MoveResult(platform, attempts, k, dst in fs, Equivalent(dst, check))
      {
        if !attempts[k].permitted { return Raised(Revoked); }
        var code := MoveNoReplace(src, dst, attempts[k]);
        var same := EquivalentDestination(dst, check);
        var seen := Observe(fs, src, dst, expected, code, platform, same);
        if seen.Some? { return seen.value; }
        if code !in RetryCodes(platform) { return Raised(MoveFailure(platform, code)); }
        k := k + 1;
      }
      return Unfinished;
    }

    method DurableReplaceWindows(src: Path, dst: Path, expected: Node, attempts: seq<Attempt>,
                                 check: Option<(Key, Want)>) returns (outcome: MoveOutcome)
      requires src != dst && src in fs && fs[src] == expected
      requires platform.Windows? && |attempts| >= WindowsAttempts
      modifies this`fs
      ensures outcome == MoveResult(Windows, attempts, 0, dst in old(fs), old(Equivalent(dst, check)))
      ensures outcome.Committed? ==> dst !in old(fs) && fs == Moved(old(fs), src, dst)
      ensures !outcome.Committed? ==> fs == old(fs)
      ensures outcome.Idempotent? ==> dst in fs && Equivalent(dst, check)
      ensures !outcome.Unfinished?
    {
      for attempt := 0 to WindowsAttempts
        invariant fs == old(fs)
        invariant attempt < WindowsAttempts
        invariant MoveResult(Windows, attempts, 0, dst in fs, Equivalent(dst, check))
               == MoveResult(Windows, attempts, attempt, dst in fs, Equivalent(dst, check))
      {
        if !attempts[attempt].permitted { return Raised(Revoked); }
        var code := MoveNoReplace(src, dst, attempts[attempt]);
        var same := EquivalentDestination(dst, check);
        var seen := Observe(fs, src, dst, expected, code, Windows, same);
        if seen.Some? { return seen.value; }
        if code !in RetryCodes(Windows) || attempt == WindowsAttempts - 1 {
          return Raised(MoveFailure(Windows, code));
        }
      }
      assert false;
    }

    // Moves one exact entry, directory or foreign, to a quarantine path and flushes the
    // directories involved; a failed flush raises with the entry already moved.
    method RelocateExact(src: Path, dst: Path, expected: Node, faults: Faults, attempts: seq<Attempt>)
      returns (outcome: MoveOutcome)
      requires src != dst && src in fs && fs[src] == expected && Answers(attempts)
      modifies this`fs
      ensures outcome == Relocation(platform, dst in old(fs), faults, attempts)
      ensures fs == if dst !in old(fs) && MoveResult(platform, attempts, 0, false, false).Committed?
                    then Moved(old(fs), src, dst) else old(fs)
    {
      if dst in fs { return Raised(Collision); }
      outcome := DurableReplace(src, dst, expected, attempts, None);
      if outcome.Committed? && faults.stops(QuarantineFsync) { return Raised(Stopped(QuarantineFsync)); }
    }

    // Adds one file of the given length to a staging directory.
    method WriteFile(path: Path, name: Name, bytes: Bytes, length: nat)
      requires path in fs && fs[path].Directory? && length <= |bytes|
      modifies this`fs
      ensures fs == old(fs)[path := Directory(old(fs)[path].inode,
                                              old(fs)[path].items[name := Regular(bytes[..length])])]
    {
      fs := fs[path := fs[path].(items := fs[path].items[name := Regular(bytes[..length])])];
    }

    // Writes one contract file after the files before it.
    method WriteContractFile(fin: Finalized, s: Path, i: nat, faults: Faults) returns (failed: Option<Failure>)
      requires fin.files.Keys == NameSet(st.contract.fileNames) && i < |st.contract.fileNames|
      requires s in fs && fs[s].Directory? && fs[s].items == Prefix(st, fin, i)
      modifies this`fs
      ensures s in fs && fs[s].Directory? && fs == old(fs)[s := Directory(old(fs)[s].inode, fs[s].items)]
      ensures failed.None? ==> fs[s].items == Prefix(st, fin, i + 1)
                               && !faults.stops(BeforeFile(i)) && !faults.stops(Checkpoint.WriteFile(i))
                               && !faults.stops(AfterFile(i))
      ensures failed.Some? ==> StoppedWriting(st, fin, faults, failed.value, fs[s].items)
    {
      var name := st.contract.fileNames[i];
      if faults.stops(BeforeFile(i)) { return Some(Stopped(BeforeFile(i))); }
      var torn := faults.stops(Checkpoint.WriteFile(i));
      WriteFile(s, name, fin.files[name], KeptLength(fin.files[name], torn, faults.torn(i)));
      if torn { return Some(Stopped(Checkpoint.WriteFile(i))); }
      PrefixStep(st, fin, i);
      if faults.stops(AfterFile(i)) { return Some(Stopped(AfterFile(i))); }
      return None;
    }

    // Writes the contract's files in order.
    method WriteFiles(fin: Finalized, s: Path, faults: Faults) returns (failed: Option<Failure>)
      requires fin.files.Keys == NameSet(st.contract.fileNames)
      requires s in fs && fs[s].Directory? && fs[s].items == map[]
      modifies this`fs
      ensures s in fs && fs[s].Directory? && fs == old(fs)[s := Directory(old(fs)[s].inode, fs[s].items)]
      ensures failed.None? ==> fs[s].items == Prefix(st, fin, |st.contract.fileNames|)
                               && FilesUndisturbed(faults, |st.contract.fileNames|)
      ensures failed.Some? ==> StoppedWriting(st, fin, faults, failed.value, fs[s].items)
    {
      assert Prefix(st, fin, 0) == map[];
      for i := 0 to |st.contract.fileNames|
        invariant s in fs && fs[s].Directory? && fs == old(fs)[s := Directory(old(fs)[s].inode, fs[s].items)]
        invariant fs[s].items == Prefix(st, fin, i) && FilesUndisturbed(faults, i)
      {
        failed := WriteContractFile(fin, s, i, faults);
        if failed.Some? { return; }
      }
      return None;
    }

    // Writes the manifest after all files and flushes the directory.
    method WriteManifestLast(fin: Finalized, s: Path, faults: Faults) returns (failed: Option<Failure>)
      requires fin.files.Keys == NameSet(st.contract.fileNames)
      requires s in fs && fs[s].Directory? && fs[s].items == Prefix(st, fin, |st.contract.fileNames|)
      modifies this`fs
      ensures s in fs && fs[s].Directory? && fs == old(fs)[s := Directory(old(fs)[s].inode, fs[s].items)]
      ensures failed.None? ==> && fs[s].items == Contents(st, fin, PartOfManifest(|fin.manifest|))
                               && ManifestUndisturbed(faults)
      ensures failed.Some? ==> StoppedWriting(st, fin, faults, failed.value, fs[s].items)
    {
      if faults.stops(BeforeManifest) { return Some(Stopped(BeforeManifest)); }
      var torn := faults.stops(WriteManifest);
      WriteFile(s, st.contract.manifestName, fin.manifest,
                KeptLength(fin.manifest, torn, faults.torn(|st.contract.fileNames|)));
      if torn { return Some(Stopped(WriteManifest)); }
      if faults.stops(AfterManifest) { return Some(Stopped(AfterManifest)); }
      if faults.stops(StagingFsync) { return Some(Stopped(StagingFsync)); }
      if faults.stops(AfterStagingFsync) { return Some(Stopped(AfterStagingFsync)); }
      return None;
    }

    // Creates the staging directory and writes the finalized bundle into it, manifest last.
    method WriteStaging(fin: Finalized, key: Key, faults: Faults) returns (failed: Option<Failure>)
      requires fin.files.Keys == NameSet(st.contract.fileNames) && StagingOf(key) !in fs
      modifies this
      ensures nextInode == old(nextInode) + 1
      ensures StagingOf(key) in fs && fs[StagingOf(key)].Directory?
              && fs == old(fs)[StagingOf(key) := Directory(old(nextInode), fs[StagingOf(key)].items)]
      ensures failed.None? ==> fs[StagingOf(key)].items == Contents(st, fin, PartOfManifest(|fin.manifest|))
                               && WritingUndisturbed(st, faults)
      ensures failed.Some? ==> StoppedWriting(st, fin, faults, failed.value, fs[StagingOf(key)].items)
    {
      var s := StagingOf(key);
      fs, nextInode := fs[s := Directory(nextInode, map[])], nextInode + 1;
      assert Prefix(st, fin, 0) == map[];
      if faults.stops(AfterStagingDirectory) { return Some(Stopped(AfterStagingDirectory)); }
      failed := WriteFiles(fin, s, faults);
      if failed.Some? { return; }
      failed := WriteManifestLast(fin, s, faults);
    }

    // Stages a finalized bundle: keeps a matching directory, refuses another valid
    // bundle or a foreign entry, replaces an invalid directory only when told to.
    method StageLocked(fin: Finalized, key: Key, replaceExisting: bool, faults: Faults)
      returns (r: Result<Receipt, Failure>)
      requires ContractOk(st.contract) && FinalizedOk(st, fin) && ForKey(fin, key)
      modifies this
      ensures var refusal := StageRefusal(st, old(fs), key, WantOf(fin), replaceExisting);
              && (refusal.Some? ==> r == Err(refusal.value) && fs == old(fs))
              && (refusal.None? && r.Err? ==> r.error.Stopped? && faults.stops(r.error.at))
      ensures || fs == old(fs) || Cleared(st, old(fs), fs, key)
              || LeavesAt(st, old(fs), fs, key, fin, old(nextInode), StagingOf(key))
      ensures r.Ok? ==> && r.value.key == key && r.value.want == WantOf(fin)
                        && StagingOf(key) in fs && fs[StagingOf(key)].inode == r.value.inode
                        && Matches(st, fs[StagingOf(key)], key, WantOf(fin))
                        && if fs == old(fs) then !faults.stops(StagingFsync)
                           else !faults.stops(BeforeStagingDirectory) && WritingUndisturbed(st, faults)
      ensures StagingOf(key) in old(fs) && Matches(st, old(fs)[StagingOf(key)], key, WantOf(fin)) ==> fs == old(fs)
      ensures r.Err? && fs != old(fs) ==>
                if StagingOf(key) !in fs then r.error == Stopped(BeforeStagingDirectory)
                else fs[StagingOf(key)].Directory? && StoppedWriting(st, fin, faults, r.error, fs[StagingOf(key)].items)
      ensures !replaceExisting && StagingOf(key) in old(fs) ==> fs == old(fs)
    {
      var s, want := StagingOf(key), WantOf(fin);
      if s in fs {
        if fs[s].Foreign? { return Err(Collision); }
        var existing := LoadPath(s, key, Some(want.bundle), Some(want.manifest));
        if existing.Some? {
          if existing.value.metadata != want.metadata { return Err(Collision); }
          if faults.stops(StagingFsync) { return Err(Stopped(StagingFsync)); }
          return Ok(Receipt(key, existing.value.inode, want));
        }
        var other := LoadPath(s, key, None, None);
        if other.Some? { return Err(Collision); }
        if !replaceExisting { return Err(Integrity); }
        fs := fs - {s};
      }
      if faults.stops(BeforeStagingDirectory) { return Err(Stopped(BeforeStagingDirectory)); }
      ghost var inode := nextInode;
      var failed := WriteStaging(fin, key, faults);
      assert fs == (old(fs) - {s})[s := fs[s]];
      if failed.Some? { return Err(failed.value); }
      assert fin.manifest[..|fin.manifest|] == fin.manifest;
      CompleteLoads(st, fin, key, inode);
      var staged := LoadPath(s, key, Some(want.bundle), Some(want.manifest));
      return Ok(Receipt(key, staged.value.inode, want));
    }

    // Moves a validated staging directory to its revision path, or drops it when an
    // equal bundle already stands there.
    method PromoteValidated(key: Key, want: Want, faults: Faults, attempts: seq<Attempt>, cleanup: seq<Attempt>)
      returns (r: Result<Bundle, Failure>)
      requires StagingOf(key) in fs && Matches(st, fs[StagingOf(key)], key, want)
      requires Answers(attempts) && Answers(cleanup)
      modifies this`fs
      ensures PromoteLeaves(st, old(fs), fs, key, want)
      ensures r.Ok? ==> && RevisionOf(key) in fs && LoadWanted(st, fs[RevisionOf(key)], key, want) == Some(r.value)
                        && r.value.metadata == want.metadata
                        && fs == if RevisionOf(key) in old(fs) then old(fs) - {StagingOf(key)}
                                 else Moved(old(fs), StagingOf(key), RevisionOf(key))
      ensures r.Ok? ==> !faults.stops(AfterValidate) && !faults.stops(BeforeReplace)
      ensures r.Ok? ==> if RevisionOf(key) in old(fs)
                        then !faults.stops(RedurableFsync) && !faults.stops(StagingParentFsync)
                        else && !faults.stops(AfterReplace) && !faults.stops(RevisionFsync)
                             && !faults.stops(AfterRevisionFsync)
      ensures RevisionOf(key) !in old(fs) ==> r != Err(Collision)
      ensures RevisionOf(key) in old(fs) && !Matches(st, old(fs)[RevisionOf(key)], key, want) ==>
                && fs == old(fs)
                && (|| (r.Err? && r.error.Stopped?)
                    || r == Err(if LoadWanted(st, old(fs)[RevisionOf(key)], key, want).None? then Integrity
                                else Collision))
      ensures RevisionOf(key) in old(fs) && Matches(st, old(fs)[RevisionOf(key)], key, want)
              ==> r.Ok? || r.error.Stopped?
      ensures r.Err? ==> fs == FailedPromotion(platform, old(fs), key, r.error, cleanup)
      ensures r.Err? && (r.error.Stopped? || RevisionOf(key) !in old(fs))
              ==> Reasoned(platform, r.error, faults, attempts)
      ensures Calm(faults, attempts) ==>
                (r.Ok? <==> (RevisionOf(key) in old(fs) ==> Matches(st, old(fs)[RevisionOf(key)], key, want)))
    {
      var s, rev, q := StagingOf(key), RevisionOf(key), QuarantineOf(key);
      var node := fs[s];
      if faults.stops(AfterValidate) { return Err(Stopped(AfterValidate)); }
      if faults.stops(BeforeReplace) { return Err(Stopped(BeforeReplace)); }
      if rev in fs {
        var existing := LoadPath(rev, key, Some(want.bundle), Some(want.manifest));
        if existing.None? { return Err(Integrity); }
        if existing.value.metadata != want.metadata { return Err(Collision); }
        if faults.stops(RedurableFsync) { return Err(Stopped(RedurableFsync)); }
        fs := fs - {s};
        if faults.stops(StagingParentFsync) { return Err(Stopped(StagingParentFsync)); }
        return Ok(existing.value);
      }
      FreePathNeverCollides(platform, attempts, 0, false);
      var outcome := DurableReplace(s, rev, node, attempts, Some((key, want)));
      if !outcome.Committed? { return Err(FailureOf(outcome)); }
      if faults.stops(AfterReplace) { return Err(Stopped(AfterReplace)); }
      if faults.stops(RevisionFsync) {
        var _ := RelocateExact(rev, q, node, faults, cleanup);
        assert rev !in fs ==> fs == Moved(old(fs), s, q);
        return Err(Stopped(RevisionFsync));
      }
      if faults.stops(AfterRevisionFsync) { return Err(Stopped(AfterRevisionFsync)); }
      var published := LoadPath(rev, key, Some(want.bundle), Some(want.manifest));
      return Ok(published.value);
    }

    method Publish(fin: Finalized, key: Key, faults: Faults, attempts: seq<Attempt>, cleanup: seq<Attempt>)
      returns (r: Result<Bundle, Failure>)
      requires ContractOk(st.contract) && FinalizedOk(st, fin)
      requires Answers(attempts) && Answers(cleanup)
      modifies this
      ensures PublishLeaves(st, old(fs), fs, key, fin, old(nextInode))
      ensures StepKeeps(st, old(fs), fs, key)
      ensures r.Ok? ==> RevisionOf(key) in fs
                        && LoadWanted(st, fs[RevisionOf(key)], key, WantOf(fin)) == Some(r.value)
      ensures r.Err? ==> || Reasoned(platform, r.error, faults, attempts)
                         || (r.error == Integrity && (!ForKey(fin, key) || RevisionOf(key) in old(fs)))
                         || StageRefusal(st, old(fs), key, WantOf(fin), true) == Some(r.error)
      ensures Calm(faults, attempts) ==>
                (r.Ok? <==> && ForKey(fin, key)
                            && if RevisionOf(key) in old(fs)
                               then LoadWanted(st, old(fs)[RevisionOf(key)], key, WantOf(fin)).Some?
                               else StageRefusal(st, old(fs), key, WantOf(fin), true).None?)
      ensures r.Ok? ==> && !faults.stops(BeforeStage)
                        && if RevisionOf(key) in old(fs) then !faults.stops(RedurableFsync)
                           else PromotionUndisturbed(faults)
      ensures r.Ok? && RevisionOf(key) !in old(fs) && StagingOf(key) in old(fs)
              && Matches(st, old(fs)[StagingOf(key)], key, WantOf(fin)) ==>
                fs == Moved(old(fs), StagingOf(key), RevisionOf(key))
      ensures Calm(faults, attempts) && ForKey(fin, key) && RevisionOf(key) !in old(fs)
              && StagingOf(key) in old(fs) && Matches(st, old(fs)[StagingOf(key)], key, WantOf(fin)) ==>
                r.Ok?
    {
      var rev, want := RevisionOf(key), WantOf(fin);
      if !ForKey(fin, key) { return Err(Integrity); }
      if faults.stops(BeforeStage) { return Err(Stopped(BeforeStage)); }
      if rev in fs {
        var existing := LoadPath(rev, key, Some(want.bundle), Some(want.manifest));
        if existing.None? { return Err(Integrity); }
        if faults.stops(RedurableFsync) { return Err(Stopped(RedurableFsync)); }
        return Ok(existing.value);
      }
      var staged := StageLocked(fin, key, true, faults);
      LeavesKeeps(st, old(fs), fs, key, fin, old(nextInode));
      if staged.Err? { return Err(staged.error); }
      ghost var mid := fs;
      r := PromoteValidated(key, want, faults, attempts, cleanup);
      PromotedLeaves(st, old(fs), mid, fs, key, fin, old(nextInode));
      LeavesKeeps(st, old(fs), fs, key, fin, old(nextInode));
    }

    method Stage(fin: Finalized, key: Key, faults: Faults) returns (r: Result<Receipt, Failure>)
      requires ContractOk(st.contract) && FinalizedOk(st, fin)
      modifies this
      ensures StepKeeps(st, old(fs), fs, key)
      ensures r.Ok? ==> && r.value.key == key && r.value.want == WantOf(fin)
                        && RevisionOf(key) !in fs && StagingOf(key) in fs
                        && fs[StagingOf(key)].inode == r.value.inode
                        && Matches(st, fs[StagingOf(key)], key, WantOf(fin))
      ensures r.Ok? ==> && !faults.stops(BeforeStage)
                        && if StagingOf(key) in old(fs) then !faults.stops(StagingFsync)
                           else !faults.stops(BeforeStagingDirectory) && WritingUndisturbed(st, faults)
      ensures (forall c :: !faults.stops(c)) ==>
                (r.Ok? <==> && ForKey(fin, key) && RevisionOf(key) !in old(fs)
                            && StageRefusal(st, old(fs), key, WantOf(fin), false).None?)
      ensures StagingOf(key) in old(fs) ==> fs == old(fs)
      ensures StagingOf(key) in old(fs) && Matches(st, old(fs)[StagingOf(key)], key, WantOf(fin)) && r.Err? ==>
                r.error.Stopped? || !ForKey(fin, key) || RevisionOf(key) in old(fs)
      ensures r.Err? ==> || (r.error.Stopped? && faults.stops(r.error.at))
                         || (r.error == Integrity && !ForKey(fin, key))
                         || (r.error == Collision && RevisionOf(key) in old(fs))
                         || StageRefusal(st, old(fs), key, WantOf(fin), false) == Some(r.error)
    {
      if !ForKey(fin, key) { return Err(Integrity); }
      if RevisionOf(key) in fs { return Err(Collision); }
      if faults.stops(BeforeStage) { return Err(Stopped(BeforeStage)); }
      r := StageLocked(fin, key, false, faults);
      LeavesKeeps(st, old(fs), fs, key, fin, old(nextInode));
    }

    method PromoteStaged(receipt: Receipt, faults: Faults, attempts: seq<Attempt>, cleanup: seq<Attempt>)
      returns (r: Result<Bundle, Failure>)
      requires Answers(attempts) && Answers(cleanup)
      modifies this`fs
      ensures StepKeeps(st, old(fs), fs, receipt.key)
      ensures r.Ok? ==> && RevisionOf(receipt.key) in fs && StagingOf(receipt.key) !in fs
                        && LoadWanted(st, fs[RevisionOf(receipt.key)], receipt.key, receipt.want) == Some(r.value)
                        && r.value.metadata == receipt.want.metadata
      ensures r.Ok? ==> && !faults.stops(BeforePromotion)
                        && if RevisionOf(receipt.key) in old(fs) then !faults.stops(RedurableFsync)
                           else PromotionUndisturbed(faults)
      ensures var refusal := PromotionRefusal(st, old(fs), receipt);
              && (refusal.Some? ==> fs == old(fs) && (r == Err(refusal.value) || (r.Err? && r.error.Stopped?)))
              && (r.Err? && refusal.None? ==> Reasoned(platform, r.error, faults, attempts))
              && (Calm(faults, attempts) ==> (r.Ok? <==> refusal.None?))
    {
      var key, want := receipt.key, receipt.want;
      var s, rev := StagingOf(key), RevisionOf(key);
      if faults.stops(BeforePromotion) { return Err(Stopped(BeforePromotion)); }
      if s !in fs {
        if rev !in fs { return Err(Integrity); }
        if fs[rev].Foreign? { return Err(Collision); }
        var existing := LoadPath(rev, key, Some(want.bundle), Some(want.manifest));
        if existing.None? { return Err(Integrity); }
        if existing.value.metadata != want.metadata { return Err(Collision); }
        if faults.stops(RedurableFsync) { return Err(Stopped(RedurableFsync)); }
        return Ok(existing.value);
      }
      if fs[s].inode != receipt.inode || fs[s].Foreign? { return Err(Integrity); }
      var staged := LoadPath(s, key, Some(want.bundle), Some(want.manifest));
      if staged.None? || staged.value.metadata != want.metadata { return Err(Integrity); }
      r := PromoteValidated(key, want, faults, attempts, cleanup);
      PromoteKeeps(st, old(fs), fs, key, want);
    }

    // Recovers a journaled publication from whatever the three paths hold.
    method Recover(key: Key, want: Want, faults: Faults, attempts: seq<Attempt>, cleanup: seq<Attempt>)
      returns (r: Result<Recovery, Failure>)
      requires Answers(attempts) && Answers(cleanup)
      modifies this`fs
      ensures StepKeeps(st, old(fs), fs, key)
      ensures var (answer, after) := RecoveryOf(st, old(fs), key, want);
              && (r.Ok? ==> r.value == answer && fs == after && Diagnosed(st, old(fs), key, want, r.value, fs))
              && (r.Err? ==> || fs == old(fs) || fs == after
                             || (answer.disposition.StagingPromoted?
                                 && fs == Moved(old(fs), StagingOf(key), QuarantineOf(key))))
              && (r.Err? ==> Reasoned(platform, r.error, faults, attempts))
              && (Calm(faults, attempts) ==> r.Ok?)
      ensures r.Ok? ==> && !faults.stops(BeforeRecovery)
                        && match r.value.disposition
                           case FinalValid => !faults.stops(BeforeRedurable) && !faults.stops(RedurableFsync)
                           case StagingPromoted => PromotionUndisturbed(faults)
                           case _ => fs != old(fs) ==>
                                       !faults.stops(QuarantineFsync) && !faults.stops(AfterRecoveryQuarantine)
    {
      RecoveryIsDiagnosed(st, fs, key, want);
      var s, rev, q := StagingOf(key), RevisionOf(key), QuarantineOf(key);
      if faults.stops(BeforeRecovery) { return Err(Stopped(BeforeRecovery)); }
      if rev in fs {
        if fs[rev].Foreign? { return Ok(Recovery(ForeignEntry, Some(fs[rev].inode), false, None)); }
        var existing := LoadPath(rev, key, Some(want.bundle), Some(want.manifest));
        if existing.None? || existing.value.metadata != want.metadata {
          return Ok(Recovery(CollisionFound, Some(fs[rev].inode), false, None));
        }
        if faults.stops(BeforeRedurable) { return Err(Stopped(BeforeRedurable)); }
        if faults.stops(RedurableFsync) { return Err(Stopped(RedurableFsync)); }
        return Ok(Recovery(FinalValid, Some(existing.value.inode), false, existing));
      }
      if s !in fs {
        r := InspectQuarantine(key, want, faults);
        return;
      }
      if q in fs { return Ok(Recovery(CollisionFound, Some(fs[q].inode), false, None)); }
      var node := fs[s];
      if node.Directory? {
        var staged := LoadPath(s, key, Some(want.bundle), Some(want.manifest));
        if staged.Some? && staged.value.metadata == want.metadata {
          var promoted := PromoteValidated(key, want, faults, attempts, cleanup);
          PromoteKeeps(st, old(fs), fs, key, want);
          if promoted.Err? { return Err(promoted.error); }
          return Ok(Recovery(StagingPromoted, Some(promoted.value.inode), false, Some(promoted.value)));
        }
        var other := LoadPath(s, key, None, None);
        if other.Some? { return Ok(Recovery(CollisionFound, Some(node.inode), false, None)); }
      }
      FreePathNeverCollides(platform, attempts, 0, false);
      var outcome := RelocateExact(s, q, node, faults, attempts);
      if !outcome.Committed? { return Err(FailureOf(outcome)); }
      if faults.stops(AfterRecoveryQuarantine) { return Err(Stopped(AfterRecoveryQuarantine)); }
      return Ok(Recovery(if node.Foreign? then ForeignEntry else Partial, Some(node.inode), true, None));
    }

    // Recovery when only the quarantine path may hold something.
    method InspectQuarantine(key: Key, want: Want, faults: Faults) returns (r: Result<Recovery, Failure>)
      requires RevisionOf(key) !in fs && StagingOf(key) !in fs
      ensures r.Ok? ==> r.value == RecoveryOf(st, fs, key, want).0 && Diagnosed(st, fs, key, want, r.value, fs)
      ensures r.Err? ==> r.error == Stopped(QuarantineFsync) && faults.stops(QuarantineFsync)
    {
      RecoveryIsDiagnosed(st, fs, key, want);
      var q := QuarantineOf(key);
      if q !in fs { return Ok(Recovery(Absent, None, false, None)); }
      if fs[q].Foreign? { return Ok(Recovery(ForeignEntry, Some(fs[q].inode), true, None)); }
      var bundle := LoadPath(q, key, Some(want.bundle), Some(want.manifest));
      if bundle.Some? && bundle.value.metadata == want.metadata {
        if faults.stops(QuarantineFsync) { return Err(Stopped(QuarantineFsync)); }
        return Ok(Recovery(Partial, Some(fs[q].inode), true, None));
      }
      var other := LoadPath(q, key, None, None);
      return Ok(Recovery(if other.Some? then CollisionFound else Partial, Some(fs[q].inode), true, None));
    }

    // Withdraws a staged bundle to quarantine; repeating it changes nothing.
    method QuarantineStaged(receipt: Receipt, faults: Faults, attempts: seq<Attempt>) returns (r: Result<(), Failure>)
      requires Answers(attempts)
      modifies this`fs
      ensures Withdrawal(platform, old(fs), fs, StagingOf(receipt.key), receipt,
                         StagingOf(receipt.key) in old(fs)
                         && Matches(st, old(fs)[StagingOf(receipt.key)], receipt.key, receipt.want),
                         Reconciliation, faults, attempts, r)
    {
      var key, want := receipt.key, receipt.want;
      var s, q := StagingOf(key), QuarantineOf(key);
      if s !in fs {
        if q !in fs || fs[q].inode != receipt.inode || fs[q].Foreign? { return Err(Reconciliation); }
        if faults.stops(QuarantineFsync) { return Err(Stopped(QuarantineFsync)); }
        return Ok(());
      }
      if fs[s].inode != receipt.inode || fs[s].Foreign? || q in fs { return Err(Reconciliation); }
      var staged := LoadPath(s, key, Some(want.bundle), Some(want.manifest));
      if staged.None? || staged.value.metadata != want.metadata { return Err(Reconciliation); }
      FreePathNeverCollides(platform, attempts, 0, false);
      var outcome := RelocateExact(s, q, fs[s], faults, attempts);
      if !outcome.Committed? { return Err(FailureOf(outcome)); }
      return Ok(());
    }

    // Withdraws a published bundle to quarantine; repeating it changes nothing.
    method QuarantineReceipt(receipt: Receipt, faults: Faults, attempts: seq<Attempt>) returns (r: Result<(), Failure>)
      requires Answers(attempts)
      modifies this`fs
      ensures Withdrawal(platform, old(fs), fs, RevisionOf(receipt.key), receipt,
                         RevisionOf(receipt.key) in old(fs)
                         && LoadWanted(st, old(fs)[RevisionOf(receipt.key)], receipt.key, receipt.want).Some?,
                         Integrity, faults, attempts, r)
    {
      var key, want := receipt.key, receipt.want;
      var rev, q := RevisionOf(key), QuarantineOf(key);
      if rev !in fs {
        if q !in fs || fs[q].inode != receipt.inode || fs[q].Foreign? { return Err(Reconciliation); }
        if faults.stops(QuarantineFsync) { return Err(Stopped(QuarantineFsync)); }
        return Ok(());
      }
      if fs[rev].inode != receipt.inode || q in fs { return Err(Reconciliation); }
      var loaded := LoadPath(rev, key, Some(want.bundle), Some(want.manifest));
      if loaded.None? { return Err(Integrity); }
      FreePathNeverCollides(platform, attempts, 0, false);
      var outcome := RelocateExact(rev, q, fs[rev], faults, attempts);
      if !outcome.Committed? { return Err(FailureOf(outcome)); }
      return Ok(());
    }
  }
}
