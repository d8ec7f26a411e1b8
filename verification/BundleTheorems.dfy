// What the bundle store promises over crashes, repeated recoveries and whole runs.
module BundleTheorems {
  import opened Common
  import opened BundleModel
  import opened BundleMoves
  import opened BundleStore

  // The finalized bundle stands complete at the given path.
  predicate StandsAt(st: Store, fs: FileSystem, path: Path, f: Finalized)
    requires f.files.Keys == NameSet(st.contract.fileNames)
  {
    path in fs && fs[path].Directory? && fs[path].items == Complete(st, f)
  }

  // What a writer leaves behind matches, and validates, exactly when it is complete.
  lemma LeftoverLoadsWhenComplete(st: Store, f: Finalized, key: Key, inode: Inode, p: Progress)
    requires ContractOk(st.contract) && PrefixFree(st.codec) && FinalizedOk(st, f) && ForKey(f, key)
    requires ProgressOk(st, f, p)
    ensures var node := Directory(inode, Contents(st, f, p));
            && (Matches(st, node, key, WantOf(f)) <==> node.items == Complete(st, f))
            && (Validates(st, node, key) <==> node.items == Complete(st, f))
  {
    var node := Directory(inode, Contents(st, f, p));
    if Matches(st, node, key, WantOf(f)) { MatchValidates(st, node, key, WantOf(f)); }
    if Validates(st, node, key) { UnfinishedNeverLoads(st, f, key, inode, p); }
    if node.items == Complete(st, f) {
      CompleteLoads(st, f, key, inode);
      MatchValidates(st, node, key, WantOf(f));
    }
  }

  // A publication into three empty paths stops anywhere, leaving `fs1`; recovery with
  // the same evidence then answers, leaving `RecoveryOf(...).1`.
  lemma CrashThenRecover(st: Store, fs0: FileSystem, fs1: FileSystem, key: Key, f: Finalized, newInode: Inode)
    requires ContractOk(st.contract) && PrefixFree(st.codec) && FinalizedOk(st, f) && ForKey(f, key)
    requires StagingOf(key) !in fs0 && RevisionOf(key) !in fs0 && QuarantineOf(key) !in fs0
    requires PublishLeaves(st, fs0, fs1, key, f, newInode)
    ensures var (answer, fs2) := RecoveryOf(st, fs1, key, WantOf(f));
            var reached := StandsAt(st, fs1, StagingOf(key), f) || StandsAt(st, fs1, RevisionOf(key), f);
            && (RevisionOf(key) !in fs2 || StandsAt(st, fs2, RevisionOf(key), f))
            && (answer.disposition in {FinalValid, StagingPromoted} <==> reached)
            && (reached ==> StandsAt(st, fs2, RevisionOf(key), f))
            && (!reached ==> answer.disposition in {Partial, Absent})
  {
    var s, r, q := StagingOf(key), RevisionOf(key), QuarantineOf(key);
    if fs1 != fs0 {
      var at := if r in fs1 then r else if s in fs1 then s else q;
      assert LeavesAt(st, fs0, fs1, key, f, newInode, at);
      var p :| ProgressOk(st, f, p) && fs1[at] == Directory(newInode, Contents(st, f, p));
      LeftoverLoadsWhenComplete(st, f, key, newInode, p);
    }
  }

  // Recovery converges: asked again with the same evidence, it changes nothing and
  // gives the same answer, except that a promoted bundle is now simply final.
  lemma RecoveryConverges(st: Store, fs: FileSystem, key: Key, want: Want)
    ensures var (first, fs1) := RecoveryOf(st, fs, key, want);
            var (second, fs2) := RecoveryOf(st, fs1, key, want);
            && fs2 == fs1
            && second.observed == first.observed
            && second.published == first.published
            && second.disposition ==
                 (if first.disposition == StagingPromoted then FinalValid else first.disposition)
            && (first.quarantined ==> second.quarantined)
  {
    var s, r, q := StagingOf(key), RevisionOf(key), QuarantineOf(key);
    if r !in fs && s in fs && q !in fs && Matches(st, fs[s], key, want) {
      MatchValidates(st, fs[s], key, want);
    }
  }

  // Recovery never adopts anything but the wanted bundle: it reports success exactly
  // when the wanted bundle ends at the revision path.
  lemma RecoverySucceedsExactlyOnMatch(st: Store, fs: FileSystem, key: Key, want: Want)
    ensures var (answer, after) := RecoveryOf(st, fs, key, want);
            && (answer.published.Some? <==> answer.disposition in {FinalValid, StagingPromoted})
            && (answer.published.Some?
                <==> RevisionOf(key) in after && Matches(st, after[RevisionOf(key)], key, want))
  {
  }

  // Publications that share a staging path publish to the same revision path.
  ghost predicate Coherent(keys: seq<Key>) {
    forall i, j :: 0 <= i < |keys| && 0 <= j < |keys| && StagingOf(keys[i]) == StagingOf(keys[j])
      ==> RevisionOf(keys[i]) == RevisionOf(keys[j])
  }

  // A run of stage, publish, promote and recover calls: call `i` was made for
  // `keys[i]` and took the file system from `states[i]` to `states[i + 1]`.
  ghost predicate Run(st: Store, states: seq<FileSystem>, keys: seq<Key>) {
    && |states| == |keys| + 1
    && forall i :: 0 <= i < |keys| ==> StepKeeps(st, states[i], states[i + 1], keys[i])
  }

  // Whatever occupies a revision or quarantine path keeps it, unchanged, for the
  // rest of the run.
  lemma {:induction false} OccupiedStays(st: Store, states: seq<FileSystem>, keys: seq<Key>, i: nat, j: nat, p: Path)
    requires Run(st, states, keys) && i <= j < |states|
    requires p in states[i] && !p.Staging?
    ensures p in states[j] && states[j][p] == states[i][p]
    decreases j - i
  {
    if i < j {
      assert StepKeeps(st, states[i], states[i + 1], keys[i]);
      OccupiedStays(st, states, keys, i + 1, j, p);
    }
  }

  // A revision path that was empty and is now occupied was filled with a bundle
  // valid for it.
  lemma {:induction false} OnlyValidBundlesArePublished(st: Store, states: seq<FileSystem>, keys: seq<Key>, j: nat,
                                                        key: Key)
    requires Run(st, states, keys) && j < |states|
    requires RevisionOf(key) !in states[0] && RevisionOf(key) in states[j]
    ensures Validates(st, states[j][RevisionOf(key)], key)
    decreases j
  {
    var r := RevisionOf(key);
    assert StepKeeps(st, states[j - 1], states[j], keys[j - 1]);
    if r in states[j - 1] {
      OnlyValidBundlesArePublished(st, states, keys, j - 1, key);
    } else {
      assert RevisionOf(keys[j - 1]) == r;
    }
  }

  // A valid staged bundle is never lost: at every later moment of the run one of the
  // key's three paths still holds it, or an equal bundle stands at its revision path.
  lemma {:induction false} StagedBundleIsNeverLost(st: Store, states: seq<FileSystem>, keys: seq<Key>, i: nat, j: nat,
                                                   key: Key, node: Node)
    requires Run(st, states, keys) && Coherent(keys + [key]) && i <= j < |states|
    requires Validates(st, node, key) && Held(st, states[i], key, node)
    ensures Held(st, states[j], key, node)
    decreases j - i
  {
    if i < j {
      var s, step := StagingOf(key), keys[i];
      assert StepKeeps(st, states[i], states[i + 1], step);
      if s in states[i] && states[i][s] == node && StagingOf(step) == s {
        assert (keys + [key])[i] == step && (keys + [key])[|keys|] == key;
        assert RevisionOf(step) == RevisionOf(key) && Validates(st, node, step);
      }
      StagedBundleIsNeverLost(st, states, keys, i + 1, j, key, node);
    }
  }

  // The only way to end with the second key's revision path occupied is to have
  // replaced what was staged, since that does not validate for the second key.
  lemma PublishedOverAnother(st: Store, fs0: FileSystem, fs1: FileSystem, node: Node, k1: Key, f2: Finalized, k2: Key)
    requires f2.files.Keys == NameSet(st.contract.fileNames)
    requires StagingOf(k1) == StagingOf(k2) && RevisionOf(k1) != RevisionOf(k2)
    requires fs0 == map[StagingOf(k1) := node] && !Validates(st, node, k2)
    requires PublishLeaves(st, fs0, fs1, k2, f2, 1) && RevisionOf(k2) in fs1
    ensures !Held(st, fs1, k1, node)
  {
    assert LeavesAt(st, fs0, fs1, k2, f2, 1, RevisionOf(k2));
    assert fs1.Keys == {RevisionOf(k2)};
  }

  // Coherence cannot be dropped: whenever two keys share a staging path but not a
  // revision path, publishing for the second discards the bundle staged for the first.
  method SharedStagingPathDiscards(store: ImmutableBundleStore, f1: Finalized, k1: Key, f2: Finalized, k2: Key,
                                   faults: Faults, attempts: seq<Attempt>, cleanup: seq<Attempt>)
    requires ContractOk(store.st.contract) && store.Answers(attempts) && store.Answers(cleanup)
             && Calm(faults, attempts)
    requires FinalizedOk(store.st, f1) && ForKey(f1, k1) && FinalizedOk(store.st, f2) && ForKey(f2, k2)
    requires StagingOf(k1) == StagingOf(k2) && RevisionOf(k1) != RevisionOf(k2)
    requires store.fs == map[StagingOf(k1) := Directory(0, Complete(store.st, f1))] && store.nextInode == 1
    modifies store
    ensures Validates(store.st, old(store.fs)[StagingOf(k1)], k1)
    ensures !Held(store.st, store.fs, k1, old(store.fs)[StagingOf(k1)])
  {
    ghost var fs0, node := store.fs, Directory(0, Complete(store.st, f1));
    CompleteLoads(store.st, f1, k1, 0);
    MatchValidates(store.st, node, k1, WantOf(f1));
    assert !Validates(store.st, node, k2);
    assert StageRefusal(store.st, fs0, k2, WantOf(f2), true).None?;
    var published := store.Publish(f2, k2, faults, attempts, cleanup);
    assert published.Ok?;
    PublishedOverAnother(store.st, fs0, store.fs, node, k1, f2, k2);
  }

  // The two theorems above, on the store itself: a publication that stops anywhere,
  // leaving `crashed`, followed by a recovery that answers.
  method PublishThenRecover(store: ImmutableBundleStore, f: Finalized, key: Key,
                            crash: Faults, attempts: seq<Attempt>, cleanup: seq<Attempt>,
                            faults: Faults, attempts': seq<Attempt>, cleanup': seq<Attempt>)
    returns (r: Result<Recovery, Failure>, ghost crashed: FileSystem)
    requires ContractOk(store.st.contract) && PrefixFree(store.st.codec) && FinalizedOk(store.st, f) && ForKey(f, key)
    requires StagingOf(key) !in store.fs && RevisionOf(key) !in store.fs && QuarantineOf(key) !in store.fs
    requires store.Answers(attempts) && store.Answers(cleanup) && store.Answers(attempts') && store.Answers(cleanup')
    modifies store
    ensures PublishLeaves(store.st, old(store.fs), crashed, key, f, old(store.nextInode))
    ensures var reached := || StandsAt(store.st, crashed, StagingOf(key), f)
                           || StandsAt(store.st, crashed, RevisionOf(key), f);
            r.Ok? ==>
              && (r.value.disposition in {FinalValid, StagingPromoted} <==> reached)
              && (r.value.disposition in {Partial, Absent} <==> !reached)
              && (RevisionOf(key) in store.fs <==> reached)
              && (reached ==> StandsAt(store.st, store.fs, RevisionOf(key), f))
  {
    ghost var fs0, inode := store.fs, store.nextInode;
    var _ := store.Publish(f, key, crash, attempts, cleanup);
    crashed := store.fs;
    CrashThenRecover(store.st, fs0, store.fs, key, f, inode);
    RecoverySucceedsExactlyOnMatch(store.st, store.fs, key, WantOf(f));
    r := store.Recover(key, WantOf(f), faults, attempts', cleanup');
  }

  // A recovery that answered, asked again, answers the same and changes nothing.
  method RecoverTwice(store: ImmutableBundleStore, key: Key, want: Want,
                      faults: Faults, attempts: seq<Attempt>, cleanup: seq<Attempt>,
                      faults': Faults, attempts': seq<Attempt>, cleanup': seq<Attempt>)
    returns (r: Result<Recovery, Failure>, again: Result<Recovery, Failure>, ghost between: FileSystem)
    requires store.Answers(attempts) && store.Answers(cleanup) && store.Answers(attempts') && store.Answers(cleanup')
    modifies store
    ensures r.Ok? && again.Ok? ==>
              && store.fs == between && again.value.observed == r.value.observed
              && again.value.disposition == (if r.value.disposition == StagingPromoted then FinalValid
                                             else r.value.disposition)
  {
    ghost var fs0 := store.fs;
    r := store.Recover(key, want, faults, attempts, cleanup);
    between := store.fs;
    again := store.Recover(key, want, faults', attempts', cleanup');
    RecoveryConverges(store.st, fs0, key, want);
  }

  // ---- runs of calls on the store ----

  datatype Call =
    | StageCall(fin: Finalized, key: Key, faults: Faults)
    | PublishCall(fin: Finalized, key: Key, faults: Faults, attempts: seq<Attempt>, cleanup: seq<Attempt>)
    | PromoteCall(receipt: Receipt, faults: Faults, attempts: seq<Attempt>, cleanup: seq<Attempt>)
    | RecoverCall(key: Key, want: Want, faults: Faults, attempts: seq<Attempt>, cleanup: seq<Attempt>)

  function KeyOf(call: Call): Key { if call.PromoteCall? then call.receipt.key else call.key }

  // A finalized bundle is what its constructor let through, and the system answers.
  predicate CallOk(st: Store, p: Platform, call: Call) {
    && (call.StageCall? || call.PublishCall? ==> FinalizedOk(st, call.fin))
    && (!call.StageCall? && p.Windows? ==> |call.attempts| >= WindowsAttempts && |call.cleanup| >= WindowsAttempts)
  }

  method Perform(store: ImmutableBundleStore, call: Call)
    requires ContractOk(store.st.contract) && CallOk(store.st, store.platform, call)
    modifies store
    ensures StepKeeps(store.st, old(store.fs), store.fs, KeyOf(call))
  {
    match call
    case StageCall(fin, key, faults) => var _ := store.Stage(fin, key, faults);
    case PublishCall(fin, key, faults, attempts, cleanup) =>
      var _ := store.Publish(fin, key, faults, attempts, cleanup);
    case PromoteCall(receipt, faults, attempts, cleanup) =>
      var _ := store.PromoteStaged(receipt, faults, attempts, cleanup);
    case RecoverCall(key, want, faults, attempts, cleanup) =>
      var _ := store.Recover(key, want, faults, attempts, cleanup);
  }

  // Between an earlier and a later moment: occupied revision and quarantine paths are
  // intact; revision paths filled since hold bundles valid for them; and every valid
  // bundle held for a key coherent with the calls is still held.
  predicate Intact(before: FileSystem, after: FileSystem) {
    forall p <- before :: !p.Staging? ==> p in after && after[p] == before[p]
  }
  ghost predicate FilledValidly(st: Store, before: FileSystem, after: FileSystem) {
    forall key: Key | RevisionOf(key) !in before && RevisionOf(key) in after ::
      Validates(st, after[RevisionOf(key)], key)
  }
  ghost predicate StillHeld(st: Store, before: FileSystem, after: FileSystem, keys: seq<Key>) {
    forall key: Key, node: Node | Held(st, before, key, node) && Validates(st, node, key) && Coherent(keys + [key]) ::
      Held(st, after, key, node)
  }

  lemma RunKeepsPromises(st: Store, states: seq<FileSystem>, keys: seq<Key>, i: nat, j: nat)
    requires Run(st, states, keys) && i <= j < |states|
    ensures Intact(states[i], states[j]) && StillHeld(st, states[i], states[j], keys)
  {
    forall p | p in states[i] && !p.Staging? ensures p in states[j] && states[j][p] == states[i][p] {
      OccupiedStays(st, states, keys, i, j, p);
    }
    forall key: Key, node: Node | Held(st, states[i], key, node) && Validates(st, node, key) && Coherent(keys + [key])
      ensures Held(st, states[j], key, node)
    {
      StagedBundleIsNeverLost(st, states, keys, i, j, key, node);
    }
  }

  lemma RunFillsValidly(st: Store, states: seq<FileSystem>, keys: seq<Key>, j: nat)
    requires Run(st, states, keys) && j < |states|
    ensures FilledValidly(st, states[0], states[j])
  {
    forall key: Key | RevisionOf(key) !in states[0] && RevisionOf(key) in states[j]
      ensures Validates(st, states[j][RevisionOf(key)], key)
    {
      OnlyValidBundlesArePublished(st, states, keys, j, key);
    }
  }

  // Any sequence of stage, publish, promote and recover calls on the store, for any keys,
  // each stopped anywhere or not: `states` is the file system between the calls.
  method PerformAll(store: ImmutableBundleStore, calls: seq<Call>)
    returns (ghost states: seq<FileSystem>, ghost keys: seq<Key>)
    requires ContractOk(store.st.contract) && forall call <- calls :: CallOk(store.st, store.platform, call)
    modifies store
    ensures |states| == |calls| + 1 && states[0] == old(store.fs) && states[|calls|] == store.fs
    ensures |keys| == |calls| && forall i :: 0 <= i < |calls| ==> keys[i] == KeyOf(calls[i])
    ensures forall i, j :: 0 <= i <= j < |states| ==> Intact(states[i], states[j])
    ensures forall j :: 0 <= j < |states| ==> FilledValidly(store.st, states[0], states[j])
    ensures forall i, j :: 0 <= i <= j < |states| ==> StillHeld(store.st, states[i], states[j], keys)
  {
    states, keys := [store.fs], [];
    for n := 0 to |calls|
      invariant |states| == n + 1 && states[0] == old(store.fs) && states[n] == store.fs
      invariant |keys| == n && forall i :: 0 <= i < n ==> keys[i] == KeyOf(calls[i])
      invariant Run(store.st, states, keys)
    {
      Perform(store, calls[n]);
      states, keys := states + [store.fs], keys + [KeyOf(calls[n])];
    }
    forall i, j | 0 <= i <= j < |states|
      ensures Intact(states[i], states[j]) && StillHeld(store.st, states[i], states[j], keys)
    {
      RunKeepsPromises(store.st, states, keys, i, j);
    }
    forall j | 0 <= j < |states| ensures FilledValidly(store.st, states[0], states[j]) {
      RunFillsValidly(store.st, states, keys, j);
    }
  }
}
