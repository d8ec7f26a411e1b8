// Values of the immutable bundle store: paths, directory entries, bundle
// contracts, and what it means for a directory to hold a valid bundle.
module BundleModel {
  import opened Common

  type Name = string
  type Inode = nat
  type Metadata = string // canonical JSON of the runtime metadata

  // An entry of a bundle directory: a regular file, or anything else.
  datatype Item = Regular(bytes: Bytes) | Irregular

  // What a store path may hold when it is occupied. A `Foreign` node is a
  // non-directory, a symbolic link or a reparse point.
  datatype Node =
    | Directory(inode: Inode, items: map<Name, Item>)
    | Foreign(inode: Inode)

  datatype Path =
    | Staging(stagingId: string, sourceRevision: nat, publicationId: string)
    | Revision(scopeId: string, revisionId: string)
    | Quarantine(publicationId: string)

  type FileSystem = map<Path, Node>

  datatype Key = Key(scopeId: string, stagingId: string, sourceRevision: nat,
                     publicationId: string, revisionId: string)

  function StagingOf(k: Key): Path { Staging(k.stagingId, k.sourceRevision, k.publicationId) }
  function RevisionOf(k: Key): Path { Revision(k.scopeId, k.revisionId) }
  function QuarantineOf(k: Key): Path { Quarantine(k.publicationId) }

  // The identity and metadata fields of a parsed manifest.
  datatype Facts = Facts(scopeId: string, revisionId: string, metadata: Metadata)

  datatype Contract = Contract(fileNames: seq<Name>, manifestName: Name,
                               maxFileBytes: nat, maxManifestBytes: nat)

  predicate ContractOk(c: Contract) {
    && |c.fileNames| > 0
    && (forall i, j :: 0 <= i < j < |c.fileNames| ==> c.fileNames[i] != c.fileNames[j])
    && c.manifestName !in c.fileNames
  }

  // Encodings and hashes are uninterpreted. `readManifest(files, bytes)` is the
  // parse of a canonical manifest that agrees with `files`, if it is one.
  datatype Codec = Codec(isText: Bytes -> bool,
                         bundleDigest: map<Name, Bytes> -> Digest,
                         sha256: Bytes -> Digest,
                         readManifest: (map<Name, Bytes>, Bytes) -> Option<Facts>)

  // Canonical JSON text is prefix-free: a cut-off manifest never parses.
  ghost predicate PrefixFree(c: Codec) {
    forall files, m: Bytes, k: nat | k < |m| && c.readManifest(files, m).Some? ::
      c.readManifest(files, m[..k]).None?
  }

  datatype Store = Store(contract: Contract, codec: Codec)

  function NameSet(names: seq<Name>): set<Name> { set n | n in names }

  function ExpectedNames(st: Store): set<Name> {
    NameSet(st.contract.fileNames) + {st.contract.manifestName}
  }

  datatype Bundle = Bundle(files: map<Name, Bytes>, manifest: Bytes, bundleDigest: Digest,
                           manifestDigest: Digest, metadata: Metadata, inode: Inode)

  // One bundle file is readable: regular, within its limit, UTF-8 text.
  predicate FileReadable(st: Store, item: Item) {
    item.Regular? && |item.bytes| <= st.contract.maxFileBytes && st.codec.isText(item.bytes)
  }

  // The directory holds exactly the contract's files and all of them can be read.
  predicate Readable(st: Store, items: map<Name, Item>) {
    && items.Keys == ExpectedNames(st)
    && (forall n <- st.contract.fileNames :: FileReadable(st, items[n]))
    && var m := items[st.contract.manifestName];
       m.Regular? && |m.bytes| <= st.contract.maxManifestBytes
  }

  function FilesOf(st: Store, items: map<Name, Item>): map<Name, Bytes>
    requires Readable(st, items)
  {
    map n | n in NameSet(st.contract.fileNames) :: items[n].bytes
  }

  predicate Accepts(want: Option<Digest>, d: Digest) { want.None? || want.value == d }

  // The bundle a node holds for this revision identity, if it validates. With
  // both digests `None` this is the "independently valid" inspection.
  function Load(st: Store, node: Node, key: Key, wantBundle: Option<Digest>,
                wantManifest: Option<Digest>): Option<Bundle>
  {
    if node.Foreign? || !Readable(st, node.items) then None
    else
      var files := FilesOf(st, node.items);
      var manifest := node.items[st.contract.manifestName].bytes;
      var digest := st.codec.bundleDigest(files);
      var manifestDigest := st.codec.sha256(manifest);
      var facts := st.codec.readManifest(files, manifest);
      if Accepts(wantBundle, digest) && Accepts(wantManifest, manifestDigest) && facts.Some?
         && facts.value.scopeId == key.scopeId && facts.value.revisionId == key.revisionId
      then Some(Bundle(files, manifest, digest, manifestDigest, facts.value.metadata, node.inode))
      else None
  }

  // What loading a bundle proves about the directory, and all it asks of it: exactly the
  // contract's files and the manifest, each within its limit, the digests of the very bytes
  // read, the wanted ones where any are wanted, and a manifest for this revision.
  lemma LoadsExactly(st: Store, node: Node, key: Key, wantBundle: Option<Digest>, wantManifest: Option<Digest>,
                     b: Bundle)
    ensures Load(st, node, key, wantBundle, wantManifest) == Some(b)
       <==> && node.Directory? && b.inode == node.inode
            && node.items.Keys == NameSet(st.contract.fileNames) + {st.contract.manifestName}
            && node.items[st.contract.manifestName] == Regular(b.manifest)
            && |b.manifest| <= st.contract.maxManifestBytes
            && b.files.Keys == NameSet(st.contract.fileNames)
            && (forall n <- b.files :: && node.items[n] == Regular(b.files[n]) && st.codec.isText(b.files[n])
                                       && |b.files[n]| <= st.contract.maxFileBytes)
            && b.bundleDigest == st.codec.bundleDigest(b.files) && b.manifestDigest == st.codec.sha256(b.manifest)
            && wantBundle in {None, Some(b.bundleDigest)} && wantManifest in {None, Some(b.manifestDigest)}
            && st.codec.readManifest(b.files, b.manifest) == Some(Facts(key.scopeId, key.revisionId, b.metadata))
  {
    if node.Directory? && Readable(st, node.items) && b.files.Keys == NameSet(st.contract.fileNames)
       && forall n <- b.files :: node.items[n] == Regular(b.files[n]) {
      assert FilesOf(st, node.items) == b.files;
    }
  }

  // The evidence a caller holds about the bundle it wants.
  datatype Want = Want(bundle: Digest, manifest: Digest, metadata: Metadata)

  function LoadWanted(st: Store, node: Node, key: Key, want: Want): Option<Bundle> {
    Load(st, node, key, Some(want.bundle), Some(want.manifest))
  }

  predicate Validates(st: Store, node: Node, key: Key) { Load(st, node, key, None, None).Some? }

  predicate Matches(st: Store, node: Node, key: Key, want: Want) {
    var b := LoadWanted(st, node, key, want);
    b.Some? && b.value.metadata == want.metadata
  }

  // Two nodes hold bundles with the same digests and metadata.
  predicate SameBundle(st: Store, a: Node, b: Node, key: Key) {
    var x, y := Load(st, a, key, None, None), Load(st, b, key, None, None);
    && x.Some? && y.Some?
    && x.value.bundleDigest == y.value.bundleDigest
    && x.value.manifestDigest == y.value.manifestDigest
    && x.value.metadata == y.value.metadata
  }

  // A bundle finalized for a contract; `FinalizedOk` is what its constructor checks.
  datatype Finalized = Finalized(files: map<Name, Bytes>, manifest: Bytes, bundleDigest: Digest,
                                 manifestDigest: Digest, facts: Facts)

  predicate FinalizedOk(st: Store, f: Finalized) {
    && f.files.Keys == NameSet(st.contract.fileNames)
    && (forall n <- st.contract.fileNames ::
          |f.files[n]| <= st.contract.maxFileBytes && st.codec.isText(f.files[n]))
    && f.bundleDigest == st.codec.bundleDigest(f.files)
    && |f.manifest| <= st.contract.maxManifestBytes
    && f.manifestDigest == st.codec.sha256(f.manifest)
    && st.codec.readManifest(f.files, f.manifest) == Some(f.facts)
  }

  function WantOf(f: Finalized): Want { Want(f.bundleDigest, f.manifestDigest, f.facts.metadata) }

  predicate ForKey(f: Finalized, key: Key) {
    f.facts.scopeId == key.scopeId && f.facts.revisionId == key.revisionId
  }

  // Directory contents after the first `n` contract files have been written.
  function Prefix(st: Store, f: Finalized, n: nat): map<Name, Item>
    requires n <= |st.contract.fileNames| && f.files.Keys == NameSet(st.contract.fileNames)
  {
    map name | name in NameSet(st.contract.fileNames[..n]) :: Regular(f.files[name])
  }

  // Directory contents after the manifest, written last, is complete.
  function Complete(st: Store, f: Finalized): map<Name, Item>
    requires f.files.Keys == NameSet(st.contract.fileNames)
  {
    Prefix(st, f, |st.contract.fileNames|)[st.contract.manifestName := Regular(f.manifest)]
  }

  // How far a writer got: whole files only, part of the next file, or part of the
  // manifest after all files.
  datatype Progress = Files(n: nat) | PartOfFile(n: nat, k: nat) | PartOfManifest(k: nat)

  predicate ProgressOk(st: Store, f: Finalized, p: Progress)
    requires f.files.Keys == NameSet(st.contract.fileNames)
  {
    var names := st.contract.fileNames;
    match p
    case Files(n) => n <= |names|
    case PartOfFile(n, k) => n < |names| && k <= |f.files[names[n]]|
    case PartOfManifest(k) => k <= |f.manifest|
  }

  // Every directory content a writer can leave behind.
  function Contents(st: Store, f: Finalized, p: Progress): map<Name, Item>
    requires f.files.Keys == NameSet(st.contract.fileNames) && ProgressOk(st, f, p)
  {
    var names := st.contract.fileNames;
    match p
    case Files(n) => Prefix(st, f, n)
    case PartOfFile(n, k) => Prefix(st, f, n)[names[n] := Regular(f.files[names[n]][..k])]
    case PartOfManifest(k) => Prefix(st, f, |names|)[st.contract.manifestName := Regular(f.manifest[..k])]
  }

  lemma CompleteLoads(st: Store, f: Finalized, key: Key, inode: Inode)
    requires ContractOk(st.contract) && FinalizedOk(st, f) && ForKey(f, key)
    ensures LoadWanted(st, Directory(inode, Complete(st, f)), key, WantOf(f))
         == Some(Bundle(f.files, f.manifest, f.bundleDigest, f.manifestDigest, f.facts.metadata, inode))
  {
    var items := Complete(st, f);
    assert st.contract.fileNames[..|st.contract.fileNames|] == st.contract.fileNames;
    assert items.Keys == ExpectedNames(st);
    assert Readable(st, items);
    assert FilesOf(st, items) == f.files;
  }

  // A directory the writer left behind loads, even without expected digests,
  // only when it is complete.
  lemma UnfinishedNeverLoads(st: Store, f: Finalized, key: Key, inode: Inode, p: Progress)
    requires ContractOk(st.contract) && FinalizedOk(st, f) && PrefixFree(st.codec) && ProgressOk(st, f, p)
    requires Validates(st, Directory(inode, Contents(st, f, p)), key)
    ensures p == PartOfManifest(|f.manifest|) && Contents(st, f, p) == Complete(st, f)
  {
    var names, items := st.contract.fileNames, Contents(st, f, p);
    assert names[..|names|] == names;
    assert st.contract.manifestName in items;
    assert p.PartOfManifest?;
    assert FilesOf(st, items) == f.files;
    assert f.manifest[..|f.manifest|] == f.manifest;
  }

  // Wanting digests and metadata only narrows what loads.
  lemma MatchValidates(st: Store, node: Node, key: Key, want: Want)
    requires LoadWanted(st, node, key, want).Some?
    ensures Validates(st, node, key)
    ensures Load(st, node, key, None, None) == LoadWanted(st, node, key, want)
  {}
}
