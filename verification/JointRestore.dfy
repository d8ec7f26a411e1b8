// Qualifying a restored blob inventory: a recursive walk over every root must find
// exactly the declared entries, and the inventory digest must not depend on the order
// in which the entries were declared.
module JointRestore {
  import opened Common

  const ControlDirectory := ".astralplane-owner-locks"
  const MaxComponents := 32

  // ---- file trees ----

  datatype Tree = File(content: Bytes, links: nat) | Dir(entries: Entries) | LinkNode | SpecialNode
  datatype Entries = Nil | Cons(name: string, node: Tree, rest: Entries)

  predicate HasName(es: Entries, name: string) { es.Cons? && (es.name == name || HasName(es.rest, name)) }

  // What any file system guarantees: names are non-empty, contain no separator, and
  // are distinct within a directory.
  predicate WellNamed(es: Entries) {
    match es
    case Nil => true
    case Cons(name, node, rest) =>
      && name != [] && '/' !in name && !HasName(rest, name)
      && (node.Dir? ==> WellNamed(node.entries)) && WellNamed(rest)
  }

  // The node at a path of components below a directory: the meaning of a tree.
  function Lookup(es: Entries, path: seq<string>): Option<Tree>
    decreases |path|, es
  {
    if path == [] || es.Nil? then None
    else if es.name != path[0] then Lookup(es.rest, path)
    else if |path| == 1 then Some(es.node)
    else if es.node.Dir? then Lookup(es.node.entries, path[1..])
    else None
  }

  function Join(parts: seq<string>): string {
    if parts == [] then "" else if |parts| == 1 then parts[0] else parts[0] + "/" + Join(parts[1..])
  }

  // ---- inventory entries ----

  datatype Entry = Entry(root: string, key: string, size: nat, sha256: Digest)

  // The text rules for storage keys, stage markers and lock names, and the hash.
  datatype Rules = Rules(keyOk: string -> bool, isMarker: string -> bool, isLockName: string -> bool,
                         hash: Bytes -> Digest, fold: string -> string)

  function EntryFor(rules: Rules, root: string, key: string, content: Bytes): Entry {
    Entry(root, key, |content|, rules.hash(content))
  }

  // A file the walk accepts: a legal key, and a stage marker is empty and has one link.
  predicate FileOk(rules: Rules, key: string, node: Tree)
    requires node.File?
  {
    rules.keyOk(key) && (rules.isMarker(key) ==> node.links == 1 && node.content == [])
  }

  predicate AllLocks(rules: Rules, es: Entries) {
    es.Nil? || (es.node.File? && rules.isLockName(es.name) && AllLocks(rules, es.rest))
  }
  predicate ControlOk(rules: Rules, node: Tree) { node.Dir? && AllLocks(rules, node.entries) }

  // ---- the walk ----

  // What one directory entry contributes, `None` when it is refused.
  function WalkNode(rules: Rules, root: string, name: string, node: Tree, components: seq<string>): Option<seq<Entry>>
    decreases node, 1
  {
    if components == [] && name == ControlDirectory then
      if ControlOk(rules, node) then Some([]) else None
    else
      match node
      case Dir(entries) =>
        if |components| + 1 > MaxComponents then None else Walk(rules, root, entries, components + [name])
      case File(content, links) =>
        var key := Join(components + [name]);
        if FileOk(rules, key, node) then Some([EntryFor(rules, root, key, content)]) else None
      case _ => None
  }

  function Walk(rules: Rules, root: string, es: Entries, components: seq<string>): Option<seq<Entry>>
    decreases es, 0
  {
    if es.Nil? then Some([])
    else
      var here := WalkNode(rules, root, es.name, es.node, components);
      var there := Walk(rules, root, es.rest, components);
      if here.None? || there.None? then None else Some(here.value + there.value)
  }

  // ---- the meaning of the walk, by paths ----

  predicate InControl(components: seq<string>, path: seq<string>) {
    components == [] && path != [] && path[0] == ControlDirectory
  }

  predicate NodeOk(rules: Rules, full: seq<string>, node: Tree) {
    match node
    case Dir(_) => |full| <= MaxComponents
    case File(content, links) =>
      rules.keyOk(Join(full)) && (rules.isMarker(Join(full)) ==> links == 1 && content == [])
    case _ => false
  }

  // Every node outside the control directory is an ordinary directory within the
  // component bound or an acceptable file, and the control directory holds locks only.
  ghost predicate Clean(rules: Rules, es: Entries, components: seq<string>) {
    forall path | Lookup(es, path).Some? ::
      if !InControl(components, path) then NodeOk(rules, components + path, Lookup(es, path).value)
      else |path| == 1 ==> ControlOk(rules, Lookup(es, path).value)
  }

  // The entry stands for a file outside the control directory.
  ghost predicate Found(rules: Rules, root: string, es: Entries, components: seq<string>, e: Entry, path: seq<string>) {
    && Lookup(es, path).Some? && Lookup(es, path).value.File? && !InControl(components, path)
    && e == EntryFor(rules, root, Join(components + path), Lookup(es, path).value.content)
  }

  lemma LookupHasName(es: Entries, path: seq<string>)
    requires Lookup(es, path).Some?
    ensures path != [] && HasName(es, path[0])
  {
  }

  // The control directory is acceptable exactly when it is a directory and whatever stands
  // in it, looked up by name, is a file with the name of a lock.
  lemma ControlHoldsLocks(rules: Rules, node: Tree)
    requires node.Dir? ==> WellNamed(node.entries)
    ensures ControlOk(rules, node)
       <==> node.Dir? && forall name: string | Lookup(node.entries, [name]).Some? ::
              Lookup(node.entries, [name]).value.File? && rules.isLockName(name)
  {
    if node.Dir? { LocksByName(rules, node.entries); }
  }

  lemma {:induction false} LocksByName(rules: Rules, es: Entries)
    requires WellNamed(es)
    ensures AllLocks(rules, es)
       <==> forall name: string | Lookup(es, [name]).Some? ::
              Lookup(es, [name]).value.File? && rules.isLockName(name)
    decreases es
  {
    if es.Cons? {
      LocksByName(rules, es.rest);
      assert Lookup(es, [es.name]) == Some(es.node);
      forall name: string | Lookup(es.rest, [name]).Some?
        ensures name != es.name && Lookup(es, [name]) == Lookup(es.rest, [name])
      {
        LookupHasName(es.rest, [name]);
      }
    }
  }

  // A path below the first entry, or below one of the others.
  lemma LookupSplits(es: Entries, path: seq<string>)
    requires es.Cons? && WellNamed(es)
    ensures Lookup(es.rest, path).Some? ==> path[0] != es.name && Lookup(es, path) == Lookup(es.rest, path)
    ensures Lookup(es, path).Some? && path[0] != es.name ==> Lookup(es, path) == Lookup(es.rest, path)
  {
    if Lookup(es.rest, path).Some? { LookupHasName(es.rest, path); }
  }

  lemma LookupBelow(es: Entries, below: seq<string>)
    requires es.Cons? && es.node.Dir? && below != []
    ensures Lookup(es, [es.name] + below) == Lookup(es.node.entries, below)
  {
    assert ([es.name] + below)[1..] == below;
  }

  // The part of `Clean` that concerns the first entry and what lies below it.
  ghost predicate HeadClean(rules: Rules, es: Entries, components: seq<string>)
    requires es.Cons?
  {
    if components == [] && es.name == ControlDirectory then ControlOk(rules, es.node)
    else && NodeOk(rules, components + [es.name], es.node)
         && (es.node.Dir? ==> Clean(rules, es.node.entries, components + [es.name]))
  }

  lemma CleanImpliesRest(rules: Rules, es: Entries, components: seq<string>)
    requires es.Cons? && WellNamed(es) && Clean(rules, es, components)
    ensures Clean(rules, es.rest, components)
  {
    forall path | Lookup(es.rest, path).Some?
      ensures if !InControl(components, path) then NodeOk(rules, components + path, Lookup(es.rest, path).value)
              else |path| == 1 ==> ControlOk(rules, Lookup(es.rest, path).value)
    {
      LookupSplits(es, path);
    }
  }

  lemma CleanImpliesHead(rules: Rules, es: Entries, components: seq<string>)
    requires es.Cons? && Clean(rules, es, components)
    ensures HeadClean(rules, es, components)
  {
    assert Lookup(es, [es.name]) == Some(es.node);
    if es.node.Dir? && !InControl(components, [es.name]) {
      forall below | Lookup(es.node.entries, below).Some?
        ensures NodeOk(rules, components + [es.name] + below, Lookup(es.node.entries, below).value)
      {
        LookupHasName(es.node.entries, below);
        LookupBelow(es, below);
        assert components + ([es.name] + below) == components + [es.name] + below;
      }
    }
  }

  lemma PartsImplyClean(rules: Rules, es: Entries, components: seq<string>)
    requires es.Cons? && WellNamed(es) && HeadClean(rules, es, components) && Clean(rules, es.rest, components)
    ensures Clean(rules, es, components)
  {
    forall path | Lookup(es, path).Some?
      ensures if !InControl(components, path) then NodeOk(rules, components + path, Lookup(es, path).value)
              else |path| == 1 ==> ControlOk(rules, Lookup(es, path).value)
    {
      LookupSplits(es, path);
      if path[0] == es.name {
        if |path| == 1 {
          assert path == [es.name];
        } else {
          assert components + path == components + [es.name] + path[1..];
        }
      }
    }
  }

  // The walk goes through exactly when every node is acceptable.
  lemma {:induction false} WalkAcceptsClean(rules: Rules, root: string, es: Entries, components: seq<string>)
    requires WellNamed(es)
    ensures Walk(rules, root, es, components).Some? <==> Clean(rules, es, components)
    decreases es
  {
    if es.Cons? {
      WalkAcceptsClean(rules, root, es.rest, components);
      if es.node.Dir? { WalkAcceptsClean(rules, root, es.node.entries, components + [es.name]); }
      assert WalkNode(rules, root, es.name, es.node, components).Some? <==> HeadClean(rules, es, components);
      if Clean(rules, es, components) {
        CleanImpliesHead(rules, es, components);
        CleanImpliesRest(rules, es, components);
      }
      if HeadClean(rules, es, components) && Clean(rules, es.rest, components) {
        PartsImplyClean(rules, es, components);
      }
    }
  }

  // Everything the walk reports is a file of the tree.
  lemma {:induction false} WalkReportsFiles(rules: Rules, root: string, es: Entries, components: seq<string>, e: Entry)
    returns (path: seq<string>)
    requires WellNamed(es) && Walk(rules, root, es, components).Some? && e in Walk(rules, root, es, components).value
    ensures Found(rules, root, es, components, e, path)
    decreases es
  {
    if e in Walk(rules, root, es.rest, components).value {
      path := WalkReportsFiles(rules, root, es.rest, components, e);
      LookupSplits(es, path);
    } else if es.node.File? {
      path := [es.name];
    } else {
      var below := WalkReportsFiles(rules, root, es.node.entries, components + [es.name], e);
      LookupHasName(es.node.entries, below);
      LookupBelow(es, below);
      path := [es.name] + below;
      assert components + path == components + [es.name] + below;
    }
  }

  // Every file of the tree is reported by the walk.
  lemma {:induction false} FilesAreReported(rules: Rules, root: string, es: Entries, components: seq<string>, e: Entry,
                                            path: seq<string>)
    requires WellNamed(es) && Walk(rules, root, es, components).Some? && Found(rules, root, es, components, e, path)
    ensures e in Walk(rules, root, es, components).value
    decreases es
  {
    LookupHasName(es, path);
    LookupSplits(es, path);
    if path[0] != es.name {
      FilesAreReported(rules, root, es.rest, components, e, path);
    } else if |path| == 1 {
      assert path == [es.name];
    } else {
      assert components + path == components + [es.name] + path[1..];
      FilesAreReported(rules, root, es.node.entries, components + [es.name], e, path[1..]);
    }
  }

  // ---- storage keys determine paths ----

  predicate Plain(parts: seq<string>) { parts != [] && forall p <- parts :: p != [] && '/' !in p }

  lemma FirstSeparator(a: string, x: string, b: string, y: string)
    requires '/' !in a && '/' !in b && a + "/" + x == b + "/" + y
    ensures a == b && x == y
  {
    var s := a + "/" + x;
    assert s == b + "/" + y;
    assert s[|a|] == '/' && s[|b|] == '/';
    assert forall i :: 0 <= i < |a| ==> s[i] == a[i];
    assert forall i :: 0 <= i < |b| ==> s[i] == b[i];
    assert |a| == |b|;
    assert a == s[..|a|] && b == s[..|b|];
    assert x == s[|a| + 1..] && y == s[|b| + 1..];
  }

  lemma JoinHasSeparator(parts: seq<string>)
    requires |parts| > 1
    ensures '/' in Join(parts)
  {
    assert Join(parts)[|parts[0]|] == '/';
  }

  lemma {:induction false} JoinIsInjective(p: seq<string>, q: seq<string>)
    requires Plain(p) && Plain(q) && Join(p) == Join(q)
    ensures p == q
    decreases |p|
  {
    if |p| > 1 { JoinHasSeparator(p); }
    if |q| > 1 { JoinHasSeparator(q); }
    assert p == [p[0]] + p[1..] && q == [q[0]] + q[1..];
    if |p| > 1 && |q| > 1 {
      FirstSeparator(p[0], Join(p[1..]), q[0], Join(q[1..]));
      assert forall part <- p[1..] :: part in p;
      assert forall part <- q[1..] :: part in q;
      JoinIsInjective(p[1..], q[1..]);
    }
  }

  lemma {:induction false} PathsArePlain(es: Entries, path: seq<string>)
    requires WellNamed(es) && Lookup(es, path).Some?
    ensures Plain(path)
    decreases |path|, es
  {
    if es.name != path[0] {
      PathsArePlain(es.rest, path);
    } else if |path| > 1 {
      PathsArePlain(es.node.entries, path[1..]);
      assert path == [path[0]] + path[1..];
    }
  }

  // Two files of a tree with the same storage key are the same file.
  lemma KeysAreUnique(rules: Rules, root: string, es: Entries, e: Entry, p: seq<string>, f: Entry, q: seq<string>)
    requires WellNamed(es) && Found(rules, root, es, [], e, p) && Found(rules, root, es, [], f, q) && e.key == f.key
    ensures p == q && e == f
  {
    PathsArePlain(es, p);
    PathsArePlain(es, q);
    assert [] + p == p && [] + q == q;
    JoinIsInjective(p, q);
  }

  // ---- one root ----

  datatype RootDir = RootDir(name: string, identity: Digest, entries: Entries)

  type Expected = map<string, Entry>

  predicate ExpectedOk(expected: Expected, root: string) {
    forall key <- expected :: expected[key].key == key && expected[key].root == root
  }

  // The restored root is what was declared: every node is acceptable, every file outside
  // the control directory is a declared entry, and every declared entry is such a file.
  ghost predicate RootMatches(rules: Rules, rd: RootDir, expected: Expected) {
    && Clean(rules, rd.entries, [])
    && (forall e, path | Found(rules, rd.name, rd.entries, [], e, path) :: e.key in expected && expected[e.key] == e)
    && (forall key <- expected :: exists path :: Found(rules, rd.name, rd.entries, [], expected[key], path))
  }

  // The mapping from key to entry of what was observed.
  predicate Indexes(actual: Expected, observed: seq<Entry>) {
    && (forall e <- observed :: e.key in actual && actual[e.key] == e)
    && (forall key <- actual :: actual[key] in observed && actual[key].key == key)
  }

  lemma EqualMatches(rules: Rules, rd: RootDir, observed: seq<Entry>, actual: Expected)
    requires WellNamed(rd.entries)
    requires Walk(rules, rd.name, rd.entries, []) == Some(observed) && Indexes(actual, observed)
    ensures RootMatches(rules, rd, actual)
  {
    WalkAcceptsClean(rules, rd.name, rd.entries, []);
    forall e, path | Found(rules, rd.name, rd.entries, [], e, path) ensures e.key in actual && actual[e.key] == e {
      FilesAreReported(rules, rd.name, rd.entries, [], e, path);
    }
    forall key | key in actual ensures exists path :: Found(rules, rd.name, rd.entries, [], actual[key], path) {
      var path := WalkReportsFiles(rules, rd.name, rd.entries, [], actual[key]);
    }
  }

  lemma MatchesExactlyWhenEqual(rules: Rules, rd: RootDir, expected: Expected, observed: seq<Entry>, actual: Expected)
    requires WellNamed(rd.entries) && ExpectedOk(expected, rd.name)
    requires Walk(rules, rd.name, rd.entries, []) == Some(observed) && Indexes(actual, observed)
    ensures actual == expected <==> RootMatches(rules, rd, expected)
  {
    EqualMatches(rules, rd, observed, actual);
    if RootMatches(rules, rd, expected) {
      forall key | key in actual ensures key in expected && expected[key] == actual[key] {
        var path := WalkReportsFiles(rules, rd.name, rd.entries, [], actual[key]);
      }
      forall key | key in expected ensures key in actual {
        var path :| Found(rules, rd.name, rd.entries, [], expected[key], path);
        FilesAreReported(rules, rd.name, rd.entries, [], expected[key], path);
      }
    }
  }

  // Sizes over a mapping, in whatever order they are added up.
  ghost function Total(m: Expected): nat {
    if m == map[] then 0
    else
      var k :| k in m;
      m[k].size + Total(m - {k})
  }

  lemma {:induction false} TotalPick(m: Expected, k: string)
    requires k in m
    ensures Total(m) == m[k].size + Total(m - {k})
    decreases |m|
  {
    var j :| j in m && Total(m) == m[j].size + Total(m - {j});
    if j != k {
      TotalPick(m - {j}, k);
      TotalPick(m - {k}, j);
      assert m - {j} - {k} == m - {k} - {j};
    }
  }

  // Walks one directory, appending what it finds to what was observed before.
  method WalkRoot(rules: Rules, root: string, es: Entries, components: seq<string>, before: seq<Entry>)
    returns (observed: Option<seq<Entry>>)
    ensures var found := Walk(rules, root, es, components);
            observed == if found.None? then None else Some(before + found.value)
    decreases es
  {
    var list, cursor := before, es;
    while cursor.Cons?
      invariant cursor == es || cursor < es
      invariant var found, left := Walk(rules, root, es, components), Walk(rules, root, cursor, components);
                && (found.Some? <==> left.Some?) && (found.Some? ==> before + found.value == list + left.value)
      decreases cursor
    {
      var name, node := cursor.name, cursor.node;
      if components == [] && name == ControlDirectory {
        if !ControlOk(rules, node) { return None; }
      } else if node.Dir? {
        if |components| + 1 > MaxComponents { return None; }
        var inner := WalkRoot(rules, root, node.entries, components + [name], list);
        if inner.None? { return None; }
        list := inner.value;
      } else if node.File? {
        var key := Join(components + [name]);
        if !FileOk(rules, key, node) { return None; }
        list := list + [EntryFor(rules, root, key, node.content)];
      } else {
        return None;
      }
      cursor := cursor.rest;
    }
    assert list + [] == list;
    return Some(list);
  }

  datatype Refusal = MembershipMismatch | SizeMismatch | DigestMismatch | UnsafeTree | RootDuplicate

  method IndexObserved(observed: seq<Entry>) returns (actual: Expected)
    requires forall e, f :: e in observed && f in observed && e.key == f.key ==> e == f
    ensures Indexes(actual, observed)
  {
    actual := map[];
    for i := 0 to |observed|
      invariant Indexes(actual, observed[..i])
    {
      assert observed[..i + 1] == observed[..i] + [observed[i]];
      actual := actual[observed[i].key := observed[i]];
    }
    assert observed[..|observed|] == observed;
  }

  // Compares the found entries with the declared ones and adds up their sizes.
  method CompareEntries(actual: Expected, expected: Expected, root: string) returns (r: Result<nat, Refusal>)
    requires ExpectedOk(expected, root) && ExpectedOk(actual, root)
    ensures r.Ok? <==> actual == expected
    ensures r.Ok? ==> r.value == Total(expected)
  {
    if actual.Keys != expected.Keys { return Err(MembershipMismatch); }
    var todo, size := actual, 0;
    while todo != map[]
      invariant todo.Keys <= actual.Keys && forall k <- todo :: todo[k] == actual[k]
      invariant forall k <- actual :: k !in todo ==> actual[k] == expected[k]
      invariant size + Total(todo) == Total(actual)
      decreases |todo|
    {
      var k :| k in todo;
      if todo[k].size != expected[k].size { return Err(SizeMismatch); }
      if todo[k].sha256 != expected[k].sha256 { return Err(DigestMismatch); }
      TotalPick(todo, k);
      size := size + todo[k].size;
      todo := todo - {k};
    }
    assert actual == expected;
    return Ok(size);
  }

  method ScanRoot(rules: Rules, rd: RootDir, expected: Expected) returns (r: Result<(Digest, nat, nat), Refusal>)
    requires WellNamed(rd.entries) && ExpectedOk(expected, rd.name)
    ensures r.Ok? <==> RootMatches(rules, rd, expected)
    ensures r.Ok? ==> r.value == (rd.identity, |expected|, Total(expected))
  {
    WalkAcceptsClean(rules, rd.name, rd.entries, []);
    var observed := WalkRoot(rules, rd.name, rd.entries, [], []);
    if observed.None? { return Err(UnsafeTree); }
    assert [] + Walk(rules, rd.name, rd.entries, []).value == Walk(rules, rd.name, rd.entries, []).value;
    forall e, f | e in observed.value && f in observed.value && e.key == f.key ensures e == f {
      var p := WalkReportsFiles(rules, rd.name, rd.entries, [], e);
      var q := WalkReportsFiles(rules, rd.name, rd.entries, [], f);
      KeysAreUnique(rules, rd.name, rd.entries, e, p, f, q);
    }
    var actual := IndexObserved(observed.value);
    forall key | key in actual ensures actual[key].root == rd.name {
      var p := WalkReportsFiles(rules, rd.name, rd.entries, [], actual[key]);
    }
    MatchesExactlyWhenEqual(rules, rd, expected, observed.value, actual);
    var compared := CompareEntries(actual, expected, rd.name);
    if compared.Err? { return Err(compared.error); }
    return Ok((rd.identity, |actual|, compared.value));
  }

  // ---- all roots ----

  // The entries declared for one root, by key.
  function ExpectedFor(entries: seq<Entry>, root: string): Expected {
    if entries == [] then map[]
    else
      var last := entries[|entries| - 1];
      var others := ExpectedFor(entries[..|entries| - 1], root);
      if last.root == root then others[last.key := last] else others
  }

  predicate DistinctKeys(entries: seq<Entry>) {
    forall i, j :: 0 <= i < j < |entries| ==> (entries[i].root, entries[i].key) != (entries[j].root, entries[j].key)
  }
  predicate DistinctNames(roots: seq<RootDir>) {
    forall i, j :: 0 <= i < j < |roots| ==> roots[i].name != roots[j].name
  }

  function SumSizes(entries: seq<Entry>): nat {
    if entries == [] then 0 else SumSizes(entries[..|entries| - 1]) + entries[|entries| - 1].size
  }

  lemma {:induction false} ExpectedForHolds(entries: seq<Entry>, root: string)
    ensures ExpectedOk(ExpectedFor(entries, root), root)
    ensures forall key <- ExpectedFor(entries, root) :: ExpectedFor(entries, root)[key] in entries
    decreases |entries|
  {
    if entries != [] { ExpectedForHolds(entries[..|entries| - 1], root); }
  }

  // Counts and sizes of the declared entries, root by root.
  ghost function CountOver(roots: seq<RootDir>, entries: seq<Entry>): nat {
    if roots == [] then 0
    else CountOver(roots[..|roots| - 1], entries) + |ExpectedFor(entries, roots[|roots| - 1].name)|
  }
  ghost function SizeOver(roots: seq<RootDir>, entries: seq<Entry>): nat {
    if roots == [] then 0
    else SizeOver(roots[..|roots| - 1], entries) + Total(ExpectedFor(entries, roots[|roots| - 1].name))
  }

  predicate Among(root: string, roots: seq<RootDir>) { exists rd <- roots :: rd.name == root }

  // A further entry counts once, under its own root.
  lemma {:induction false} EntryCountsOnce(roots: seq<RootDir>, entries: seq<Entry>, e: Entry)
    requires DistinctNames(roots) && DistinctKeys(entries + [e])
    ensures CountOver(roots, entries + [e]) == CountOver(roots, entries) + (if Among(e.root, roots) then 1 else 0)
    ensures SizeOver(roots, entries + [e]) == SizeOver(roots, entries) + (if Among(e.root, roots) then e.size else 0)
    decreases |roots|
  {
    if roots != [] {
      var rd, others := roots[|roots| - 1], roots[..|roots| - 1];
      EntryCountsOnce(others, entries, e);
      var before, after := ExpectedFor(entries, rd.name), ExpectedFor(entries + [e], rd.name);
      assert (entries + [e])[..|entries|] == entries;
      if e.root == rd.name {
        ExpectedForHolds(entries, rd.name);
        KeyIsNew(entries, e);
        assert after == before[e.key := e] && after - {e.key} == before;
        TotalPick(after, e.key);
      }
    }
  }

  lemma KeyIsNew(entries: seq<Entry>, e: Entry)
    requires DistinctKeys(entries + [e])
    ensures e.key !in ExpectedFor(entries, e.root)
  {
    ExpectedForHolds(entries, e.root);
    forall f | f in entries ensures (f.root, f.key) != (e.root, e.key) {
      var i :| 0 <= i < |entries| && entries[i] == f;
      assert (entries + [e])[i] == f && (entries + [e])[|entries|] == e;
    }
  }

  // Added up over all roots, the declared entries are counted exactly once each.
  lemma {:induction false} TotalsAreTheInventorys(roots: seq<RootDir>, entries: seq<Entry>)
    requires DistinctNames(roots) && DistinctKeys(entries) && forall e <- entries :: Among(e.root, roots)
    ensures CountOver(roots, entries) == |entries| && SizeOver(roots, entries) == SumSizes(entries)
    decreases |entries|
  {
    if entries == [] {
      NothingDeclared(roots);
    } else {
      var others, last := entries[..|entries| - 1], entries[|entries| - 1];
      assert entries == others + [last];
      TotalsAreTheInventorys(roots, others);
      EntryCountsOnce(roots, others, last);
    }
  }

  lemma {:induction false} NothingDeclared(roots: seq<RootDir>)
    ensures CountOver(roots, []) == 0 && SizeOver(roots, []) == 0
    decreases |roots|
  {
    if roots != [] { NothingDeclared(roots[..|roots| - 1]); }
  }

  predicate NoRepeats(s: seq<Digest>) { forall i, j :: 0 <= i < j < |s| ==> s[i] != s[j] }

  function Identities(roots: seq<RootDir>): seq<Digest> {
    seq(|roots|, i requires 0 <= i < |roots| => roots[i].identity)
  }

  predicate AllBelow(p: nat -> bool, n: nat) { n == 0 || (AllBelow(p, n - 1) && p(n - 1)) }

  lemma {:induction false} AllBelowMeans(p: nat -> bool, n: nat)
    ensures AllBelow(p, n) <==> forall k: nat :: k < n ==> p(k)
  {
    if n > 0 { AllBelowMeans(p, n - 1); }
  }

  // Whether root `k` holds what was declared for it.
  ghost function MatchAt(rules: Rules, roots: seq<RootDir>, entries: seq<Entry>): nat -> bool {
    (k: nat) => k < |roots| && RootMatches(rules, roots[k], ExpectedFor(entries, roots[k].name))
  }

  // Scans the next root after `i` matching ones.
  method ScanNext(rules: Rules, roots: seq<RootDir>, entries: seq<Entry>, i: nat)
    returns (r: Result<(Digest, nat, nat), Refusal>)
    requires i < |roots| && WellNamed(roots[i].entries)
    ensures r.Ok? <==> MatchAt(rules, roots, entries)(i)
    ensures r.Ok? ==> r.value == (roots[i].identity, |ExpectedFor(entries, roots[i].name)|,
                                  Total(ExpectedFor(entries, roots[i].name)))
  {
    ExpectedForHolds(entries, roots[i].name);
    r := ScanRoot(rules, roots[i], ExpectedFor(entries, roots[i].name));
  }

  // Scans the roots one after the other and adds up what they hold.
  method ScanRoots(rules: Rules, roots: seq<RootDir>, entries: seq<Entry>) returns (r: Result<(nat, nat), Refusal>)
    requires forall rd <- roots :: WellNamed(rd.entries)
    ensures r.Ok? <==> AllBelow(MatchAt(rules, roots, entries), |roots|)
    ensures r.Ok? ==> r.value == (CountOver(roots, entries), SizeOver(roots, entries))
  {
    var count, size := 0, 0;
    for i := 0 to |roots|
      invariant AllBelow(MatchAt(rules, roots, entries), i)
      invariant count == CountOver(roots[..i], entries) && size == SizeOver(roots[..i], entries)
    {
      var scanned := ScanNext(rules, roots, entries, i);
      if scanned.Err? {
        AllBelowMeans(MatchAt(rules, roots, entries), |roots|);
        return Err(scanned.error);
      }
      count, size := count + scanned.value.1, size + scanned.value.2;
      OverPrefix(roots, entries, i);
    }
    assert roots[..|roots|] == roots;
    return Ok((count, size));
  }

  lemma OverPrefix(roots: seq<RootDir>, entries: seq<Entry>, i: nat)
    requires i < |roots|
    ensures CountOver(roots[..i + 1], entries) == CountOver(roots[..i], entries) + |ExpectedFor(entries, roots[i].name)|
    ensures SizeOver(roots[..i + 1], entries)
            == SizeOver(roots[..i], entries) + Total(ExpectedFor(entries, roots[i].name))
  {
    assert roots[..i + 1][..i] == roots[..i];
  }

  // The restore check: it accepts exactly when every root holds what was declared for it
  // and no two roots are the same directory, and then reports the inventory's own totals.
  method BlobEvidence(rules: Rules, roots: seq<RootDir>, entries: seq<Entry>)
    returns (r: Result<(seq<Digest>, nat, nat), Refusal>)
    requires DistinctNames(roots) && (forall rd <- roots :: WellNamed(rd.entries))
    requires DistinctKeys(entries) && (forall e <- entries :: Among(e.root, roots))
    ensures r.Ok? <==> NoRepeats(Identities(roots)) && AllBelow(MatchAt(rules, roots, entries), |roots|)
    ensures r.Ok? ==> r.value == (Identities(roots), |entries|, SumSizes(entries))
  {
    var scanned := ScanRoots(rules, roots, entries);
    if scanned.Err? { return Err(scanned.error); }
    TotalsAreTheInventorys(roots, entries);
    if !NoRepeats(Identities(roots)) { return Err(RootDuplicate); }
    return Ok((Identities(roots), scanned.value.0, scanned.value.1));
  }

  // ---- the declared inventory ----

  predicate EntryLess(a: Entry, b: Entry) { Less(a.root, b.root) || (a.root == b.root && Less(a.key, b.key)) }

  lemma {:induction false} LessIsTotal(a: string, b: string)
    ensures Less(a, b) || a == b || Less(b, a)
    decreases |a|
  {
    if a != [] && b != [] && a[0] == b[0] {
      LessIsTotal(a[1..], b[1..]);
      assert a == [a[0]] + a[1..] && b == [b[0]] + b[1..];
    }
  }

  lemma {:induction false} LessIsTransitive(a: string, b: string, c: string)
    requires Less(a, b) && Less(b, c)
    ensures Less(a, c)
    decreases |a|
  {
    if a != [] && b != [] && c != [] && a[0] == b[0] == c[0] { LessIsTransitive(a[1..], b[1..], c[1..]); }
  }

  lemma {:induction false} LessIsAsymmetric(a: string, b: string)
    requires Less(a, b)
    ensures !Less(b, a) && a != b
    decreases |a|
  {
    if a != [] && a[0] == b[0] { LessIsAsymmetric(a[1..], b[1..]); }
  }

  lemma EntryLessTransitive(a: Entry, b: Entry, c: Entry)
    requires EntryLess(a, b) && EntryLess(b, c)
    ensures EntryLess(a, c)
  {
    if Less(a.root, b.root) && Less(b.root, c.root) {
      LessIsTransitive(a.root, b.root, c.root);
    } else if a.root == b.root == c.root && Less(a.key, b.key) && Less(b.key, c.key) {
      LessIsTransitive(a.key, b.key, c.key);
    } else {
      if Less(a.root, b.root) { LessIsAsymmetric(a.root, b.root); }
      if Less(b.root, c.root) { LessIsAsymmetric(b.root, c.root); }
    }
  }

  lemma EntryLessAsymmetric(a: Entry, b: Entry)
    requires EntryLess(a, b)
    ensures !EntryLess(b, a) && a != b
  {
    if Less(a.root, b.root) { LessIsAsymmetric(a.root, b.root); }
    if Less(b.root, a.root) { LessIsAsymmetric(b.root, a.root); }
    if Less(a.key, b.key) { LessIsAsymmetric(a.key, b.key); }
  }

  predicate InOrder(s: seq<Entry>) { Ordered(s, EntryLess) }

  function Insert(s: seq<Entry>, e: Entry): seq<Entry> {
    if s == [] || EntryLess(e, s[0]) then [e] + s else [s[0]] + Insert(s[1..], e)
  }
  function Sorted(s: seq<Entry>): seq<Entry> {
    if s == [] then [] else Insert(Sorted(s[..|s| - 1]), s[|s| - 1])
  }

  lemma {:induction false} InsertKeepsElements(s: seq<Entry>, e: Entry)
    ensures multiset(Insert(s, e)) == multiset(s) + multiset{e}
    decreases |s|
  {
    if s != [] && !EntryLess(e, s[0]) {
      InsertKeepsElements(s[1..], e);
      assert s == [s[0]] + s[1..];
    }
  }

  lemma {:induction false} InsertKeepsOrder(s: seq<Entry>, e: Entry)
    requires InOrder(s) && forall x <- s :: (x.root, x.key) != (e.root, e.key)
    ensures InOrder(Insert(s, e))
    decreases |s|
  {
    if s == [] {
    } else if EntryLess(e, s[0]) {
      forall j | 0 <= j < |s| ensures EntryLess(e, s[j]) { if j > 0 { EntryLessTransitive(e, s[0], s[j]); } }
    } else {
      LessIsTotal(e.root, s[0].root);
      LessIsTotal(e.key, s[0].key);
      InsertKeepsOrder(s[1..], e);
      InsertKeepsElements(s[1..], e);
      forall x | x in Insert(s[1..], e) ensures EntryLess(s[0], x) {
        assert x in multiset(Insert(s[1..], e));
      }
    }
  }

  lemma {:induction false} SortedKeepsElements(s: seq<Entry>)
    ensures multiset(Sorted(s)) == multiset(s)
    decreases |s|
  {
    if s != [] {
      var others, last := s[..|s| - 1], s[|s| - 1];
      SortedKeepsElements(others);
      InsertKeepsElements(Sorted(others), last);
      assert s == others + [last];
    }
  }

  lemma {:induction false} SortedIsInOrder(s: seq<Entry>)
    requires DistinctKeys(s)
    ensures InOrder(Sorted(s))
    decreases |s|
  {
    if s != [] {
      var others, last := s[..|s| - 1], s[|s| - 1];
      SortedIsInOrder(others);
      SortedKeepsElements(others);
      forall x | x in Sorted(others) ensures (x.root, x.key) != (last.root, last.key) {
        assert x in multiset(Sorted(others));
        assert x in multiset(others);
        var i :| 0 <= i < |others| && others[i] == x;
        assert s[i] == x;
      }
      InsertKeepsOrder(Sorted(others), last);
    }
  }

  lemma WithoutOne(s: seq<Entry>, i: nat)
    requires i < |s|
    ensures multiset(s[..i] + s[i + 1..]) == multiset(s) - multiset{s[i]}
  {
    assert s == s[..i] + [s[i]] + s[i + 1..];
  }

  predicate Ordered<T>(s: seq<T>, less: (T, T) -> bool) { forall i, j :: 0 <= i < j < |s| ==> less(s[i], s[j]) }

  lemma SameFirst<T>(a: seq<T>, b: seq<T>, less: (T, T) -> bool)
    requires Ordered(a, less) && Ordered(b, less) && a != [] && b != [] && a[0] in b && b[0] in a
    requires less(a[0], b[0]) ==> !less(b[0], a[0])
    ensures a[0] == b[0]
  {
    var i :| 0 <= i < |b| && b[i] == a[0];
    var j :| 0 <= j < |a| && a[j] == b[0];
  }

  lemma TailElements<T>(s: seq<T>)
    requires s != []
    ensures multiset(s[1..]) == multiset(s) - multiset{s[0]}
  {
    assert s == [s[0]] + s[1..];
  }

  // For an asymmetric relation there is only one way to order given elements.
  lemma {:induction false} OrderIsUnique<T>(a: seq<T>, b: seq<T>, less: (T, T) -> bool)
    requires Ordered(a, less) && Ordered(b, less) && multiset(a) == multiset(b)
    requires forall x, y :: less(x, y) ==> !less(y, x)
    ensures a == b
    decreases |a|
  {
    assert |multiset(a)| == |a| && |multiset(b)| == |b|;
    if a != [] {
      assert a[0] in multiset(b) && b[0] in multiset(a);
      SameFirst(a, b, less);
      TailElements(a);
      TailElements(b);
      OrderIsUnique(a[1..], b[1..], less);
    }
  }

  // An inventory is acceptable when its roots are known and no two entries of a root
  // have the same key, even after case folding.
  predicate InventoryOk(rules: Rules, entries: seq<Entry>, roots: set<string>) {
    && (forall e <- entries :: e.root in roots)
    && forall i, j :: 0 <= i < j < |entries| ==>
         (entries[i].root, rules.fold(entries[i].key)) != (entries[j].root, rules.fold(entries[j].key))
  }

  method NormalizedEntries(rules: Rules, value: seq<Entry>, roots: set<string>) returns (entries: Option<seq<Entry>>)
    ensures entries == if InventoryOk(rules, value, roots) then Some(Sorted(value)) else None
  {
    var kept: seq<Entry>, seen: set<(string, string)>, folded: set<(string, string)> := [], {}, {};
    for i := 0 to |value|
      invariant kept == value[..i] && InventoryOk(rules, value[..i], roots)
      invariant seen == set e | e in value[..i] :: (e.root, e.key)
      invariant folded == set e | e in value[..i] :: (e.root, rules.fold(e.key))
    {
      var e := value[i];
      assert value[..i + 1] == value[..i] + [e];
      if e.root !in roots { return None; }
      var key, foldedKey := (e.root, e.key), (e.root, rules.fold(e.key));
      if key in seen || foldedKey in folded {
        assert foldedKey in folded;
        var f :| f in value[..i] && (f.root, rules.fold(f.key)) == foldedKey;
        return None;
      }
      seen, folded, kept := seen + {key}, folded + {foldedKey}, kept + [e];
    }
    assert value[..|value|] == value;
    return Some(Sorted(kept));
  }

  // Two places of a sequence hold a pair of its elements, and the other way round.
  lemma PairInside(s: seq<Entry>, i: nat, j: nat)
    requires i < j < |s|
    ensures multiset{s[i], s[j]} <= multiset(s)
  {
    assert s == s[..i] + [s[i]] + s[i + 1..j] + [s[j]] + s[j + 1..];
  }

  lemma PlacesOf(s: seq<Entry>, x: Entry, y: Entry) returns (p: nat, q: nat)
    requires multiset{x, y} <= multiset(s)
    ensures p < |s| && q < |s| && p != q && s[p] == x && s[q] == y
  {
    assert x in multiset(s);
    p :| 0 <= p < |s| && s[p] == x;
    var others := s[..p] + s[p + 1..];
    WithoutOne(s, p);
    assert multiset{x, y}[y] <= multiset(s)[y];
    assert y in multiset(others);
    var r :| 0 <= r < |others| && others[r] == y;
    q := if r < p then r else r + 1;
  }

  // Whether two declarations of the same entries are acceptable, and what they normalize
  // to, does not depend on their order; neither then does any digest of the result.
  lemma OrderDoesNotMatter(rules: Rules, a: seq<Entry>, b: seq<Entry>, roots: set<string>,
                           digest: (set<string>, seq<Entry>) -> Digest)
    requires multiset(a) == multiset(b)
    ensures InventoryOk(rules, a, roots) <==> InventoryOk(rules, b, roots)
    ensures InventoryOk(rules, a, roots) ==>
              InOrder(Sorted(a)) && Sorted(a) == Sorted(b) && digest(roots, Sorted(a)) == digest(roots, Sorted(b))
  {
    if InventoryOk(rules, a, roots) { PermutedInventoryOk(rules, a, b, roots); }
    if InventoryOk(rules, b, roots) { PermutedInventoryOk(rules, b, a, roots); }
    if InventoryOk(rules, a, roots) {
      assert DistinctKeys(a) && DistinctKeys(b);
      SortedIsInOrder(a);
      SortedIsInOrder(b);
      SortedKeepsElements(a);
      SortedKeepsElements(b);
      forall x, y | EntryLess(x, y) ensures !EntryLess(y, x) { EntryLessAsymmetric(x, y); }
      OrderIsUnique(Sorted(a), Sorted(b), EntryLess);
    }
  }

  lemma PermutedInventoryOk(rules: Rules, a: seq<Entry>, b: seq<Entry>, roots: set<string>)
    requires multiset(a) == multiset(b) && InventoryOk(rules, a, roots)
    ensures InventoryOk(rules, b, roots)
  {
    forall e | e in b ensures e.root in roots { assert e in multiset(a); }
    forall i, j | 0 <= i < j < |b|
      ensures (b[i].root, rules.fold(b[i].key)) != (b[j].root, rules.fold(b[j].key))
    {
      PairInside(b, i, j);
      var p, q := PlacesOf(a, b[i], b[j]);
    }
  }

  // ---- the whole check ----

  // The files of the root outside the control directory are exactly the entries declared
  // for it, with equal sizes and digests.
  ghost predicate HoldsExactly(rules: Rules, rd: RootDir, declared: seq<Entry>) {
    && (forall e, path | Found(rules, rd.name, rd.entries, [], e, path) :: e in declared)
    && (forall e <- declared :: e.root == rd.name ==> exists path :: Found(rules, rd.name, rd.entries, [], e, path))
  }

  lemma {:induction false} ExpectedForMeans(entries: seq<Entry>, root: string, e: Entry)
    requires DistinctKeys(entries) && e.root == root
    ensures e in entries <==> e.key in ExpectedFor(entries, root) && ExpectedFor(entries, root)[e.key] == e
    decreases |entries|
  {
    if entries != [] {
      var others, last := entries[..|entries| - 1], entries[|entries| - 1];
      assert entries == others + [last];
      ExpectedForMeans(others, root, e);
      KeyIsNew(others, last);
    }
  }

  lemma MatchingIsHolding(rules: Rules, rd: RootDir, entries: seq<Entry>, declared: seq<Entry>)
    requires DistinctKeys(entries) && forall e :: e in entries <==> e in declared
    ensures RootMatches(rules, rd, ExpectedFor(entries, rd.name))
       <==> Clean(rules, rd.entries, []) && HoldsExactly(rules, rd, declared)
  {
    var expected := ExpectedFor(entries, rd.name);
    ExpectedForHolds(entries, rd.name);
    forall e: Entry | e.root == rd.name
      ensures e in declared <==> e.key in expected && expected[e.key] == e
    {
      ExpectedForMeans(entries, rd.name, e);
    }
  }

  lemma {:induction false} SumFromFront(x: Entry, s: seq<Entry>)
    ensures SumSizes([x] + s) == x.size + SumSizes(s)
    decreases |s|
  {
    if s == [] {
      assert [x] + s == [x];
    } else {
      SumFromFront(x, s[..|s| - 1]);
      assert ([x] + s)[..|s|] == [x] + s[..|s| - 1];
    }
  }

  lemma {:induction false} InsertAddsSize(s: seq<Entry>, e: Entry)
    ensures SumSizes(Insert(s, e)) == SumSizes(s) + e.size
    decreases |s|
  {
    if s == [] || EntryLess(e, s[0]) {
      SumFromFront(e, s);
    } else {
      InsertAddsSize(s[1..], e);
      SumFromFront(s[0], s[1..]);
      SumFromFront(s[0], Insert(s[1..], e));
      assert s == [s[0]] + s[1..];
    }
  }

  lemma {:induction false} SortedKeepsTotals(s: seq<Entry>)
    ensures |Sorted(s)| == |s| && SumSizes(Sorted(s)) == SumSizes(s)
    decreases |s|
  {
    if s != [] {
      SortedKeepsTotals(s[..|s| - 1]);
      InsertAddsSize(Sorted(s[..|s| - 1]), s[|s| - 1]);
      SortedKeepsElements(s);
      assert |multiset(Sorted(s))| == |Sorted(s)| && |multiset(s)| == |s|;
    }
  }

  // An acceptable inventory, once sorted, has distinct keys and the same entries.
  lemma SortedInventory(rules: Rules, value: seq<Entry>, roots: set<string>)
    requires InventoryOk(rules, value, roots)
    ensures DistinctKeys(Sorted(value)) && forall e :: e in Sorted(value) <==> e in value
  {
    assert DistinctKeys(value);
    SortedKeepsElements(value);
    SortedIsInOrder(value);
    forall e ensures e in Sorted(value) <==> e in value {
      assert e in Sorted(value) <==> e in multiset(Sorted(value));
      assert e in value <==> e in multiset(value);
    }
    var s := Sorted(value);
    forall i, j | 0 <= i < j < |s| ensures (s[i].root, s[i].key) != (s[j].root, s[j].key) {
      assert EntryLess(s[i], s[j]);
      if Less(s[i].root, s[j].root) {
        LessIsAsymmetric(s[i].root, s[j].root);
      } else {
        LessIsAsymmetric(s[i].key, s[j].key);
      }
    }
  }

  // For every declaration and every set of roots: the check accepts exactly when the
  // declaration is acceptable, the roots are distinct directories, and each root is a
  // clean tree that holds exactly its declared files; it then reports the declaration's
  // own count and byte total.
  method QualifyInventory(rules: Rules, roots: seq<RootDir>, declared: seq<Entry>)
    returns (r: Result<(seq<Digest>, nat, nat), Refusal>)
    requires DistinctNames(roots) && forall rd <- roots :: WellNamed(rd.entries)
    ensures r.Ok? <==> && InventoryOk(rules, declared, set rd | rd in roots :: rd.name)
                       && NoRepeats(Identities(roots))
                       && forall rd <- roots :: Clean(rules, rd.entries, []) && HoldsExactly(rules, rd, declared)
    ensures r.Ok? ==> r.value.1 == |declared| && r.value.2 == SumSizes(declared)
  {
    var names := set rd | rd in roots :: rd.name;
    var entries := NormalizedEntries(rules, declared, names);
    if entries.None? { return Err(MembershipMismatch); }
    SortedInventory(rules, declared, names);
    SortedKeepsTotals(declared);
    forall k: nat | k < |roots|
      ensures MatchAt(rules, roots, entries.value)(k)
         <==> Clean(rules, roots[k].entries, []) && HoldsExactly(rules, roots[k], declared)
    {
      MatchingIsHolding(rules, roots[k], entries.value, declared);
    }
    AllBelowMeans(MatchAt(rules, roots, entries.value), |roots|);
    r := BlobEvidence(rules, roots, entries.value);
  }

  // ---- what was backed up restores ----

  // The entries are those of the files of the roots, each once, and case folding does not
  // identify two keys of one root.
  ghost predicate InventoryOf(rules: Rules, roots: seq<RootDir>, entries: seq<Entry>) {
    && (forall e <- entries :: exists rd, path :: rd in roots && Found(rules, rd.name, rd.entries, [], e, path))
    && (forall rd, e, path | rd in roots && Found(rules, rd.name, rd.entries, [], e, path) :: e in entries)
    && (forall i, j :: 0 <= i < j < |entries| ==> entries[i] != entries[j])
    && (forall e, f | e in entries && f in entries && e.root == f.root && rules.fold(e.key) == rules.fold(f.key) ::
          e.key == f.key)
  }

  lemma SameName(roots: seq<RootDir>, a: RootDir, b: RootDir)
    requires DistinctNames(roots) && a in roots && b in roots && a.name == b.name
    ensures a == b
  {
    var i :| 0 <= i < |roots| && roots[i] == a;
    var j :| 0 <= j < |roots| && roots[j] == b;
    assert i == j;
  }

  // Two entries of the inventory with the same root and key are the same.
  lemma SameFile(rules: Rules, roots: seq<RootDir>, entries: seq<Entry>, e: Entry, f: Entry)
    requires DistinctNames(roots) && (forall rd <- roots :: WellNamed(rd.entries))
    requires InventoryOf(rules, roots, entries) && e in entries && f in entries && e.root == f.root && e.key == f.key
    ensures e == f
  {
    var a, p :| a in roots && Found(rules, a.name, a.entries, [], e, p);
    var b, q :| b in roots && Found(rules, b.name, b.entries, [], f, q);
    SameName(roots, a, b);
    KeysAreUnique(rules, a.name, a.entries, e, p, f, q);
  }

  lemma OwnInventoryOk(rules: Rules, roots: seq<RootDir>, entries: seq<Entry>)
    requires DistinctNames(roots) && (forall rd <- roots :: WellNamed(rd.entries))
    requires InventoryOf(rules, roots, entries)
    ensures InventoryOk(rules, entries, set rd | rd in roots :: rd.name)
  {
    forall e | e in entries ensures e.root in set rd | rd in roots :: rd.name {
      var rd, path :| rd in roots && Found(rules, rd.name, rd.entries, [], e, path);
      assert e.root == rd.name;
    }
    forall i, j | 0 <= i < j < |entries|
      ensures (entries[i].root, rules.fold(entries[i].key)) != (entries[j].root, rules.fold(entries[j].key))
    {
      if (entries[i].root, rules.fold(entries[i].key)) == (entries[j].root, rules.fold(entries[j].key)) {
        assert entries[i] in entries && entries[j] in entries;
        SameFile(rules, roots, entries, entries[i], entries[j]);
      }
    }
  }

  lemma OwnFilesHeld(rules: Rules, roots: seq<RootDir>, entries: seq<Entry>, rd: RootDir)
    requires DistinctNames(roots) && InventoryOf(rules, roots, entries) && rd in roots
    ensures HoldsExactly(rules, rd, entries)
  {
    forall e | e in entries && e.root == rd.name
      ensures exists path :: Found(rules, rd.name, rd.entries, [], e, path)
    {
      var other, path :| other in roots && Found(rules, other.name, other.entries, [], e, path);
      SameName(roots, other, rd);
    }
  }

  // Clean roots always qualify against the inventory of their own files, in whatever order
  // it lists them.
  method QualifyOwnFiles(rules: Rules, roots: seq<RootDir>, entries: seq<Entry>)
    returns (r: Result<(seq<Digest>, nat, nat), Refusal>)
    requires DistinctNames(roots) && forall rd <- roots :: WellNamed(rd.entries)
    requires NoRepeats(Identities(roots)) && forall rd <- roots :: Clean(rules, rd.entries, [])
    requires InventoryOf(rules, roots, entries)
    ensures r.Ok? && r.value.1 == |entries| && r.value.2 == SumSizes(entries)
  {
    OwnInventoryOk(rules, roots, entries);
    forall rd | rd in roots ensures HoldsExactly(rules, rd, entries) { OwnFilesHeld(rules, roots, entries, rd); }
    r := QualifyInventory(rules, roots, entries);
  }
}
