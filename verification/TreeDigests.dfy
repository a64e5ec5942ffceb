/** The digest of a directory tree: a bounded walk, and an encoding that can only be read one way. */
module TreeDigests {
  import opened Domain

  /** A path below the base directory; the base itself is the empty path. */
  type Path = seq<string>

  datatype Entry = File(content: string) | Directory | Link | Unsupported

  type Tree = map<Path, Entry>

  const EXCLUDED: set<string> := {"__pycache__", ".pytest_cache", ".northstack"}

  function Parent(p: Path): Path
    requires p != []
  {
    p[..|p| - 1]
  }

  function Name(p: Path): string
    requires p != []
  {
    p[|p| - 1]
  }

  /** What a file system looks like: the base is a directory and so is every parent. */
  ghost predicate WellFormed(tree: Tree) {
    && [] in tree && tree[[]].Directory?
    && forall p :: p in tree && p != [] ==> Parent(p) in tree && tree[Parent(p)].Directory?
  }

  /** A directory that is left out, with everything below it. */
  predicate LeftOut(tree: Tree, p: Path)
    requires p in tree
  {
    p != [] && tree[p].Directory? && Name(p) in EXCLUDED
  }

  /** Directories of caches and of the tool's own state are left out; a file of such a name is not. */
  lemma {:induction false} LeftOutMeans(tree: Tree, p: Path)
    requires p in tree
    ensures LeftOut(tree, p) <==>
            p != [] && tree[p].Directory? && (Name(p) == "__pycache__" || Name(p) == ".pytest_cache" ||
                                              Name(p) == ".northstack")
  {
  }

  /** An entry that the walk meets. */
  predicate Included(tree: Tree, p: Path)
    decreases |p|
  {
    p in tree && !LeftOut(tree, p) && (p == [] || Included(tree, Parent(p)))
  }

  function AllIncluded(tree: Tree): set<Path> { set p | p in tree && Included(tree, p) }

  /** The entries of one directory that count. */
  function ChildrenOf(tree: Tree, directory: Path): set<Path> {
    set p | p in tree && p != [] && Parent(p) == directory && !LeftOut(tree, p)
  }

  /** The walk accepts a tree of files and directories within the limits. */
  ghost predicate Acceptable(tree: Tree, maxEntries: nat, maxDepth: nat) {
    && |AllIncluded(tree)| <= maxEntries + 1
    && forall p :: p in AllIncluded(tree) ==> tree[p].File? || (tree[p].Directory? && |p| <= maxDepth)
  }

  // The walk.

  /** What the walk knows: every entry met, the directories read, those still on the stack, and the files. */
  ghost predicate WalkState(tree: Tree, maxEntries: nat, maxDepth: nat, met: set<Path>, done: set<Path>,
                            stack: seq<Path>, files: seq<Path>)
  {
    && [] in met && met <= AllIncluded(tree)
    && Distinct(stack) && done !! (set p | p in stack)
    && (forall p :: p in met && tree[p].Directory? <==> p in done || p in stack)
    && Distinct(files) && (forall p :: p in files <==> p in met && tree[p].File?)
    && (forall p :: p in met ==> tree[p].File? || (tree[p].Directory? && |p| <= maxDepth))
    && |met| <= maxEntries + 1
  }

  /** Directories that have been read have all their entries met. */
  ghost predicate Closed(tree: Tree, met: set<Path>, done: set<Path>) {
    && (forall p :: p in done ==> ChildrenOf(tree, p) <= met)
    && (forall p :: p in met && p != [] ==> Parent(p) in done)
  }

  /** When no directory is left to read, everything has been met. */
  lemma {:induction false} AllMet(tree: Tree, met: set<Path>, done: set<Path>, p: Path)
    requires WellFormed(tree) && Included(tree, p) && met <= AllIncluded(tree)
    requires [] in met && Closed(tree, met, done)
    requires forall q :: q in met && tree[q].Directory? ==> q in done
    ensures p in met
    decreases |p|
  {
    if p != [] {
      AllMet(tree, met, done, Parent(p));
      assert p in ChildrenOf(tree, Parent(p));
    }
  }

  lemma {:induction false} MeetFile(tree: Tree, maxEntries: nat, maxDepth: nat, met: set<Path>, done: set<Path>,
                                    stack: seq<Path>, files: seq<Path>, p: Path)
    requires WalkState(tree, maxEntries, maxDepth, met, done, stack, files) && p !in met
    requires p in AllIncluded(tree) && tree[p].File? && |met| <= maxEntries
    ensures WalkState(tree, maxEntries, maxDepth, met + {p}, done, stack, files + [p])
  {
    DistinctSnoc(files, p);
    assert forall q :: q in files + [p] <==> q in files || q == p;
  }

  lemma {:induction false} MeetDirectory(tree: Tree, maxEntries: nat, maxDepth: nat, met: set<Path>, done: set<Path>,
                                         stack: seq<Path>, files: seq<Path>, p: Path)
    requires WalkState(tree, maxEntries, maxDepth, met, done, stack, files) && p !in met && done <= met
    requires p in AllIncluded(tree) && tree[p].Directory? && |p| <= maxDepth && |met| <= maxEntries
    ensures WalkState(tree, maxEntries, maxDepth, met + {p}, done, stack + [p], files)
  {
    DistinctSnoc(stack, p);
    assert forall q :: q in stack + [p] <==> q in stack || q == p;
    assert p !in files;
  }

  lemma {:induction false} DistinctSnoc(s: seq<Path>, p: Path)
    requires Distinct(s) && p !in s
    ensures Distinct(s + [p])
  {
  }

  lemma {:induction false} PopDirectory(tree: Tree, maxEntries: nat, maxDepth: nat, met: set<Path>, done: set<Path>,
                                        stack: seq<Path>, files: seq<Path>)
    requires WalkState(tree, maxEntries, maxDepth, met, done, stack, files) && stack != []
    ensures var p := stack[|stack| - 1];
            && p in met && p !in done && tree[p].Directory?
            && WalkState(tree, maxEntries, maxDepth, met, done + {p}, stack[..|stack| - 1], files)
  {
    var front, p := stack[..|stack| - 1], stack[|stack| - 1];
    assert stack == front + [p] && p in stack;
    forall q | q in front ensures q != p {
      var i :| 0 <= i < |front| && front[i] == q;
      assert stack[i] != stack[|stack| - 1];
    }
  }

  /** Reading a directory yields its entries in any order; the order in which the source sorts them is one. */
  method Scan(tree: Tree, directory: Path) returns (entries: seq<Path>)
    ensures Distinct(entries)
    ensures forall p :: p in entries <==> p in tree && p != [] && Parent(p) == directory
  {
    entries := [];
    var left := set p | p in tree && p != [] && Parent(p) == directory;
    ghost var all := left;
    while left != {}
      invariant left <= all && Distinct(entries)
      invariant forall p :: p in entries <==> p in all && p !in left
      decreases |left|
    {
      var p :| p in left;
      DistinctSnoc(entries, p);
      assert forall q :: q in entries + [p] <==> q in entries || q == p;
      entries := entries + [p];
      left := left - {p};
    }
  }

  datatype Walked = Walked(files: seq<Path>) | Refused

  /** The entries of one directory that are handled so far are met; those before it are complete. */
  ghost predicate Reading(tree: Tree, met: set<Path>, done: set<Path>, directory: Path, handled: seq<Path>) {
    && directory in done && done <= met
    && (forall p :: p in done && p != directory ==> ChildrenOf(tree, p) <= met)
    && (forall p :: p in met && p != [] ==> Parent(p) in done)
    && (forall p :: p in met && p != [] && Parent(p) == directory ==> p in handled)
    && (forall p :: p in handled && p in ChildrenOf(tree, directory) ==> p in met)
  }

  lemma {:induction false} TooMany(tree: Tree, maxEntries: nat, maxDepth: nat, met: set<Path>, p: Path)
    requires met <= AllIncluded(tree) && p in AllIncluded(tree) && p !in met && |met| > maxEntries
    ensures !Acceptable(tree, maxEntries, maxDepth)
  {
    var more := met + {p};
    assert AllIncluded(tree) == more + (AllIncluded(tree) - more);
  }

  /** One entry of a directory: left out, refused, or met. */
  method Meet(tree: Tree, maxEntries: nat, maxDepth: nat, directory: Path, p: Path, entries: nat, stack: seq<Path>,
              files: seq<Path>, ghost met: set<Path>, ghost done: set<Path>, ghost handled: seq<Path>)
    returns (ok: bool, entries2: nat, stack2: seq<Path>, files2: seq<Path>, ghost met2: set<Path>)
    requires WalkState(tree, maxEntries, maxDepth, met, done, stack, files) &&
      Reading(tree, met, done, directory, handled)
    requires entries + 1 == |met| && p in tree && p != [] && Parent(p) == directory && p !in handled
    ensures ok ==> WalkState(tree, maxEntries, maxDepth, met2, done, stack2, files2) && entries2 + 1 == |met2|
    ensures ok ==> Reading(tree, met2, done, directory, handled + [p])
    ensures !ok ==> !Acceptable(tree, maxEntries, maxDepth)
  {
    ok, entries2, stack2, files2, met2 := true, entries, stack, files, met;
    OneMoreHandled(tree, met, done, directory, handled, p);
    assert Included(tree, directory);
    if tree[p].Directory? && Name(p) in EXCLUDED {
      return true, entries2, stack2, files2, met2;
    }
    assert p in AllIncluded(tree);
    entries2 := entries + 1;
    if entries2 > maxEntries {
      TooMany(tree, maxEntries, maxDepth, met, p);
      return false, entries2, stack2, files2, met2;
    }
    match tree[p]
    case Link =>
      return false, entries2, stack2, files2, met2;
    case Directory =>
      if |directory| >= maxDepth {
        return false, entries2, stack2, files2, met2;
      }
      MeetDirectory(tree, maxEntries, maxDepth, met, done, stack, files, p);
      stack2, met2 := stack + [p], met + {p};
    case File(_) =>
      MeetFile(tree, maxEntries, maxDepth, met, done, stack, files, p);
      files2, met2 := files + [p], met + {p};
    case Unsupported =>
      return false, entries2, stack2, files2, met2;
  }

  /** An entry of the directory that is being read: new, and handled once it is met or left out. */
  lemma {:induction false} OneMoreHandled(tree: Tree, met: set<Path>, done: set<Path>, directory: Path,
                                          handled: seq<Path>, p: Path)
    requires Reading(tree, met, done, directory, handled)
    requires p in tree && p != [] && Parent(p) == directory && p !in handled
    ensures p !in met && Reading(tree, met + {p}, done, directory, handled + [p])
    ensures p !in ChildrenOf(tree, directory) ==> Reading(tree, met, done, directory, handled + [p])
  {
    assert forall q :: q in handled + [p] <==> q in handled || q == p;
  }

  lemma {:induction false} NotYetHandled(children: seq<Path>, i: nat)
    requires Distinct(children) && i < |children|
    ensures children[i] in children && children[i] !in children[..i] &&
      children[..i + 1] == children[..i] + [children[i]]
  {
  }

  /** Reads one directory; false if the tree is refused. */
  method ReadDirectory(tree: Tree, maxEntries: nat, maxDepth: nat, directory: Path, entries: nat, stack: seq<Path>,
                       files: seq<Path>, ghost met: set<Path>, ghost done: set<Path>)
    returns (ok: bool, entries2: nat, stack2: seq<Path>, files2: seq<Path>, ghost met2: set<Path>)
    requires WalkState(tree, maxEntries, maxDepth, met, done, stack, files) && Reading(tree, met, done, directory, [])
    requires entries + 1 == |met|
    ensures ok ==> WalkState(tree, maxEntries, maxDepth, met2, done, stack2, files2) && entries2 + 1 == |met2|
    ensures ok ==> Closed(tree, met2, done) && done <= met2
    ensures !ok ==> !Acceptable(tree, maxEntries, maxDepth)
  {
    ok, entries2, stack2, files2, met2 := true, entries, stack, files, met;
    var children := Scan(tree, directory);
    for i := 0 to |children|
      invariant WalkState(tree, maxEntries, maxDepth, met2, done, stack2, files2) && entries2 + 1 == |met2|
      invariant Reading(tree, met2, done, directory, children[..i])
    {
      var p := children[i];
      NotYetHandled(children, i);
      ok, entries2, stack2, files2, met2 :=
        Meet(tree, maxEntries, maxDepth, directory, p, entries2, stack2, files2, met2, done, children[..i]);
      if !ok {
        return;
      }
    }
    assert children[..|children|] == children;
  }

  /** The walk with a stack: it reads every directory that is not left out, once, and finds every file. */
  method Walk(tree: Tree, maxEntries: nat, maxDepth: nat) returns (r: Walked)
    requires WellFormed(tree)
    ensures r.Walked? <==> Acceptable(tree, maxEntries, maxDepth)
    ensures r.Walked? ==> Distinct(r.files) && forall p :: p in r.files <==> p in AllIncluded(tree) && tree[p].File?
  {
    var stack: seq<Path>, entries, files: seq<Path> := [[]], 0, [];
    ghost var met: set<Path>, done: set<Path> := {[]}, {};
    while stack != []
      invariant WalkState(tree, maxEntries, maxDepth, met, done, stack, files) && entries + 1 == |met|
      invariant Closed(tree, met, done) && done <= met
      decreases |tree.Keys - done|
    {
      PopDirectory(tree, maxEntries, maxDepth, met, done, stack, files);
      var directory := stack[|stack| - 1];
      stack := stack[..|stack| - 1];
      ghost var before := tree.Keys - done;
      done := done + {directory};
      FewerLeft(tree.Keys, before, done, directory);
      var ok;
      ok, entries, stack, files, met :=
        ReadDirectory(tree, maxEntries, maxDepth, directory, entries, stack, files, met, done);
      if !ok {
        return Refused;
      }
    }
    Complete(tree, maxEntries, maxDepth, met, done, files);
    r := Walked(files);
  }

  lemma {:induction false} FewerLeft(all: set<Path>, before: set<Path>, done: set<Path>, directory: Path)
    requires directory in before && directory in done && all - done == before - {directory}
    ensures |all - done| < |before|
  {
  }

  lemma {:induction false} Complete(tree: Tree, maxEntries: nat, maxDepth: nat, met: set<Path>, done: set<Path>,
                                    files: seq<Path>)
    requires WellFormed(tree) && WalkState(tree, maxEntries, maxDepth, met, done, [], files) && Closed(tree, met, done)
    ensures met == AllIncluded(tree) && Acceptable(tree, maxEntries, maxDepth)
  {
    forall p | p in AllIncluded(tree) ensures p in met {
      AllMet(tree, met, done, p);
    }
  }

  // Sorting by relative path.

  /** The order of strings by their characters. */
  predicate Before(a: string, b: string)
    decreases |a|
  {
    b != "" && (a == "" || a[0] < b[0] || (a[0] == b[0] && Before(a[1..], b[1..])))
  }

  lemma {:induction false} BeforeIsOrder(a: string, b: string, c: string)
    ensures !Before(a, a)
    ensures Before(a, b) && Before(b, c) ==> Before(a, c)
    ensures a == b || Before(a, b) || Before(b, a)
    decreases |a|
  {
    if a != "" {
      if b != "" {
        BeforeIsOrder(a[1..], b[1..], if c == "" then "" else c[1..]);
        assert a[1..] == b[1..] && a[0] == b[0] ==> a == [a[0]] + a[1..] == [b[0]] + b[1..] == b;
      } else {
        BeforeIsOrder(a[1..], "", "");
      }
    }
  }

  /** The strings agree before a position and the first is smaller there. */
  ghost predicate SmallerAt(a: string, b: string, k: int) {
    0 <= k < |a| && k < |b| && a[k] < b[k] && forall j :: 0 <= j < k ==> a[j] == b[j]
  }

  ghost predicate Smaller(a: string, b: string) { exists k :: SmallerAt(a, b, k) }

  /** A string comes before a longer one that it begins, or has the smaller character where they first differ. */
  lemma {:induction false} BeforeMeans(a: string, b: string)
    ensures Before(a, b) <==> a < b || Smaller(a, b)
    decreases |a|
  {
    if a != "" && b != "" {
      assert SmallerAt(a, b, 0) <==> a[0] < b[0];
      if a[0] == b[0] {
        BeforeMeans(a[1..], b[1..]);
        SmallerFurther(a, b);
      }
    }
  }

  lemma {:induction false} SmallerFurther(a: string, b: string)
    requires a != "" && b != "" && a[0] == b[0]
    ensures Smaller(a, b) <==> Smaller(a[1..], b[1..])
    ensures a < b <==> a[1..] < b[1..]
  {
    if k :| SmallerAt(a, b, k) {
      assert SmallerAt(a[1..], b[1..], k - 1);
    }
    if k :| SmallerAt(a[1..], b[1..], k) {
      forall j | 0 <= j < k + 1 ensures a[j] == b[j] {
        assert j > 0 ==> a[1..][j - 1] == b[1..][j - 1];
      }
      assert SmallerAt(a, b, k + 1);
    }
    assert a == [a[0]] + a[1..] && b == [b[0]] + b[1..];
  }

  /** A relative path with the content of the file there. */
  datatype Record = Record(path: string, content: string)

  predicate Sorted(records: seq<Record>) {
    forall i, j :: 0 <= i < j < |records| ==> Before(records[i].path, records[j].path)
  }

  /** Where a record belongs in a sorted list. */
  method Insert(records: seq<Record>, r: Record) returns (more: seq<Record>)
    requires Sorted(records) && forall x :: x in records ==> x.path != r.path
    ensures Sorted(more) && forall x :: x in more <==> x in records || x == r
  {
    var k := 0;
    while k < |records| && Before(records[k].path, r.path)
      invariant k <= |records| && forall i :: 0 <= i < k ==> Before(records[i].path, r.path)
    {
      k := k + 1;
    }
    InsertedIsSorted(records, r, k);
    more := records[..k] + [r] + records[k..];
    assert records == records[..k] + records[k..];
  }

  lemma {:induction false} InsertedIsSorted(records: seq<Record>, r: Record, k: nat)
    requires Sorted(records) && k <= |records| && forall x :: x in records ==> x.path != r.path
    requires forall i :: 0 <= i < k ==> Before(records[i].path, r.path)
    requires k < |records| ==> !Before(records[k].path, r.path)
    ensures Sorted(records[..k] + [r] + records[k..])
  {
    forall i | k <= i < |records| ensures Before(r.path, records[i].path) {
      assert records[k] in records;
      BeforeIsOrder(r.path, records[k].path, records[i].path);
    }
    var all := records[..k] + [r] + records[k..];
    forall i, j | 0 <= i < j < |all| ensures Before(all[i].path, all[j].path) {
      assert all[i] == if i < k then records[i] else if i == k then r else records[i - 1];
      assert all[j] == if j < k then records[j] else if j == k then r else records[j - 1];
    }
  }

  lemma {:induction false} FrontOfSorted(a: seq<Record>)
    requires Sorted(a) && a != []
    ensures forall x :: x in a[..|a| - 1] <==> x in a && x != a[|a| - 1]
    ensures forall x :: x in a ==> x == a[|a| - 1] || Before(x.path, a[|a| - 1].path)
  {
    var front, last := a[..|a| - 1], a[|a| - 1];
    assert a == front + [last];
    forall x | x in front ensures Before(x.path, last.path) && x != last {
      var i :| 0 <= i < |front| && front[i] == x;
      assert Before(a[i].path, a[|a| - 1].path);
      BeforeIsOrder(last.path, last.path, last.path);
    }
  }

  /** There is only one sorted list of a set of records: the order of the walk does not matter. */
  lemma {:induction false} SortedIsUnique(a: seq<Record>, b: seq<Record>)
    requires Sorted(a) && Sorted(b) && forall x :: x in a <==> x in b
    ensures a == b
    decreases |a|
  {
    assert a != [] ==> a[|a| - 1] in a;
    assert b != [] ==> b[|b| - 1] in b;
    if a != [] {
      var x, y := a[|a| - 1], b[|b| - 1];
      FrontOfSorted(a);
      FrontOfSorted(b);
      BeforeIsOrder(x.path, y.path, x.path);
      assert x == y;
      var frontA, frontB := a[..|a| - 1], b[..|b| - 1];
      forall r ensures r in frontA <==> r in frontB {
        assert r in frontA <==> r in a && r != x;
        assert r in frontB <==> r in b && r != y;
      }
      SortedIsUnique(frontA, frontB);
      assert a == frontA + [x] && b == frontB + [y];
    }
  }

  // Rendering and encoding.

  predicate Without(s: string, c: char) { forall i :: 0 <= i < |s| ==> s[i] != c }

  /** Up to a separator that does not occur before it, a text reads one way. */
  lemma {:induction false} ReadsOneWay(a: string, x: string, b: string, y: string, c: char)
    requires Without(a, c) && Without(b, c) && a + [c] + x == b + [c] + y
    ensures a == b && x == y
  {
    var s := a + [c] + x;
    assert s == b + [c] + y;
    assert forall k :: 0 <= k < |a| ==> s[k] == a[k];
    assert forall k :: 0 <= k < |b| ==> s[k] == b[k];
    assert s[|a|] == c && s[|b|] == c;
    assert a == s[..|a|] && b == s[..|b|];
    assert x == s[|a| + 1..] && y == s[|b| + 1..];
  }

  /** Names are not empty and contain neither the separator nor NUL. */
  predicate ValidName(s: string) { s != "" && Without(s, '/') && Without(s, '\0') }

  predicate ValidPath(p: Path) { forall i :: 0 <= i < |p| ==> ValidName(p[i]) }

  function Render(p: Path): string {
    if p == [] then "" else if |p| == 1 then p[0] else p[0] + ['/'] + Render(p[1..])
  }

  lemma {:induction false} RenderHasNoNul(p: Path)
    requires ValidPath(p)
    ensures Without(Render(p), '\0')
  {
    if |p| > 1 {
      RenderHasNoNul(p[1..]);
    }
  }

  lemma {:induction false} RenderSeparates(p: Path)
    requires ValidPath(p) && p != []
    ensures Without(Render(p), '/') <==> |p| == 1
  {
    if |p| > 1 {
      assert Render(p)[|p[0]|] == '/';
    }
  }

  lemma {:induction false} RenderIsInjective(p: Path, q: Path)
    requires ValidPath(p) && ValidPath(q) && p != [] && q != [] && Render(p) == Render(q)
    ensures p == q
    decreases |p|
  {
    RenderSeparates(p);
    RenderSeparates(q);
    if |p| > 1 {
      ReadsOneWay(p[0], Render(p[1..]), q[0], Render(q[1..]), '/');
      RenderIsInjective(p[1..], q[1..]);
      assert p == [p[0]] + p[1..] && q == [q[0]] + q[1..];
    }
  }

  const HASH_LENGTH: nat := 32

  /** Path, NUL and the hash of the content, one record after the other. */
  function Encode(records: seq<Record>, fileHash: string -> string): string {
    if records == [] then ""
      else records[0].path + ['\0'] + (fileHash(records[0].content) + Encode(records[1..], fileHash))
  }

  /** A hash of fixed length that does not collide on the contents at hand. */
  ghost predicate NoCollision(fileHash: string -> string, a: seq<Record>, b: seq<Record>) {
    && (forall c :: |fileHash(c)| == HASH_LENGTH)
    && (forall x, y :: x in a && y in b && fileHash(x.content) == fileHash(y.content) ==> x.content == y.content)
  }

  /** The encoding can be read back in only one way. */
  lemma {:induction false} EncodingIsUnique(a: seq<Record>, b: seq<Record>, fileHash: string -> string)
    requires NoCollision(fileHash, a, b) && Encode(a, fileHash) == Encode(b, fileHash)
    requires forall r :: r in a || r in b ==> Without(r.path, '\0')
    ensures a == b
    decreases |a|
  {
    if a != [] && b != [] {
      var x, y := a[0], b[0];
      var restA, restB := Encode(a[1..], fileHash), Encode(b[1..], fileHash);
      assert x in a && y in b;
      ReadsOneWay(x.path, fileHash(x.content) + restA, y.path, fileHash(y.content) + restB, '\0');
      SameHalves(fileHash(x.content), restA, fileHash(y.content), restB);
      EncodingIsUnique(a[1..], b[1..], fileHash);
      assert a == [x] + a[1..] && b == [y] + b[1..];
    }
  }

  lemma {:induction false} SameHalves(a: string, x: string, b: string, y: string)
    requires |a| == |b| && a + x == b + y
    ensures a == b && x == y
  {
    assert a == (a + x)[..|a|] && b == (b + y)[..|b|];
    assert x == (a + x)[|a|..] && y == (b + y)[|b|..];
  }

  // The digest.

  /** The files of a tree, by path. */
  function FilesOf(tree: Tree): map<Path, string> {
    map p | p in tree && Included(tree, p) && tree[p].File? :: tree[p].content
  }

  /** The sorted records of a set of files. */
  ghost predicate RecordsOf(files: map<Path, string>, records: seq<Record>) {
    && Sorted(records)
    && (forall r :: r in records ==> exists p :: p in files && r == Record(Render(p), files[p]))
    && (forall p :: p in files ==> Record(Render(p), files[p]) in records)
  }

  function TotalSize(records: seq<Record>): nat {
    if records == [] then 0 else TotalSize(records[..|records| - 1]) + |records[|records| - 1].content|
  }

  const PREFIX: string := "northstack-tree-v2\0"

  ghost predicate ValidTree(tree: Tree) {
    WellFormed(tree) && forall p :: p in tree ==> ValidPath(p)
  }

  method ComputeTreeDigest<D>(tree: Tree, maxEntries: nat, maxBytes: nat, maxDepth: nat, fileHash: string -> string,
                              hash: string -> D)
    returns (digest: Option<D>, ghost records: seq<Record>)
    requires ValidTree(tree)
    ensures RecordsOf(FilesOf(tree), records) || !Acceptable(tree, maxEntries, maxDepth)
    ensures digest.Some? <==> Acceptable(tree, maxEntries, maxDepth) && TotalSize(records) <= maxBytes
    ensures digest.Some? ==> digest.value == hash(PREFIX + Encode(records, fileHash))
  {
    var walked := Walk(tree, maxEntries, maxDepth);
    if walked.Refused? {
      return None, [];
    }
    var sorted := SortFiles(tree, walked.files);
    records := sorted;
    var encoded := HashFiles(sorted, maxBytes, fileHash);
    digest := if encoded.Some? then Some(hash(PREFIX + encoded.value)) else None;
  }

  /** Feeds the records to the digest, unless the files are too large together. */
  method HashFiles(records: seq<Record>, maxBytes: nat, fileHash: string -> string) returns (encoded: Option<string>)
    ensures encoded.Some? <==> TotalSize(records) <= maxBytes
    ensures encoded.Some? ==> encoded.value == Encode(records, fileHash)
  {
    var total, text := 0, "";
    for i := 0 to |records|
      invariant total == TotalSize(records[..i]) <= maxBytes
      invariant text == Encode(records[..i], fileHash)
    {
      var r := records[i];
      assert records[..i + 1][..i] == records[..i] && records[..i + 1] == records[..i] + [r];
      SizeGrows(records, i + 1);
      if total + |r.content| > maxBytes {
        return None;
      }
      total := total + |r.content|;
      EncodeSnoc(records[..i], r, fileHash);
      text := text + r.path + ['\0'] + fileHash(r.content);
    }
    assert records[..|records|] == records;
    encoded := Some(text);
  }

  lemma {:induction false} SizeGrows(records: seq<Record>, n: nat)
    requires n <= |records|
    ensures TotalSize(records[..n]) <= TotalSize(records)
    decreases |records|
  {
    if n == |records| {
      assert records[..n] == records;
    } else {
      SizeGrows(records[..|records| - 1], n);
      assert records[..|records| - 1][..n] == records[..n];
    }
  }

  lemma {:induction false} EncodeSnoc(records: seq<Record>, r: Record, fileHash: string -> string)
    ensures Encode(records + [r], fileHash) == Encode(records, fileHash) + r.path + ['\0'] + fileHash(r.content)
  {
    if records == [] {
      assert [r][1..] == [] && fileHash(r.content) + "" == fileHash(r.content);
      assert r.path + ['\0'] + fileHash(r.content) == "" + r.path + ['\0'] + fileHash(r.content);
    } else {
      assert (records + [r])[1..] == records[1..] + [r] && (records + [r])[0] == records[0];
      EncodeSnoc(records[1..], r, fileHash);
      var head, hash, rest := records[0].path + ['\0'], fileHash(records[0].content), Encode(records[1..], fileHash);
      assert head + (hash + (rest + r.path + ['\0'] + fileHash(r.content))) ==
        (head + (hash + rest)) + r.path + ['\0'] + fileHash(r.content);
    }
  }

  function FileRecord(tree: Tree, p: Path): Record {
    Record(Render(p), if p in tree && tree[p].File? then tree[p].content else "")
  }

  /** Sorts the files that a walk found, in whatever order. */
  method SortFiles(tree: Tree, files: seq<Path>) returns (records: seq<Record>)
    requires ValidTree(tree) && Distinct(files)
    requires forall p :: p in files <==> p in AllIncluded(tree) && tree[p].File?
    ensures RecordsOf(FilesOf(tree), records)
  {
    records := [];
    for i := 0 to |files|
      invariant Sorted(records)
      invariant forall r :: r in records <==> exists k :: 0 <= k < i && r == FileRecord(tree, files[k])
    {
      var p := files[i];
      assert p in files;
      NewPath(tree, files, i, records);
      records := Insert(records, FileRecord(tree, p));
    }
    forall p | p in FilesOf(tree) ensures Record(Render(p), FilesOf(tree)[p]) in records {
      assert p in files;
      var k :| 0 <= k < |files| && files[k] == p;
      assert FileRecord(tree, files[k]) in records;
    }
    forall r | r in records ensures exists p :: p in FilesOf(tree) && r == Record(Render(p), FilesOf(tree)[p]) {
      var k :| 0 <= k < |files| && r == FileRecord(tree, files[k]);
      assert files[k] in files && files[k] in FilesOf(tree);
    }
  }

  lemma {:induction false} NewPath(tree: Tree, files: seq<Path>, i: nat, records: seq<Record>)
    requires ValidTree(tree) && Distinct(files) && i < |files|
    requires forall p :: p in files <==> p in AllIncluded(tree) && tree[p].File?
    requires forall r :: r in records <==> exists k :: 0 <= k < i && r == FileRecord(tree, files[k])
    ensures forall r :: r in records ==> r.path != Render(files[i])
  {
    forall r | r in records ensures r.path != Render(files[i]) {
      var k :| 0 <= k < i && r == FileRecord(tree, files[k]);
      assert files[k] in files && files[i] in files && files[k] != files[i];
      if Render(files[k]) == Render(files[i]) {
        RenderIsInjective(files[k], files[i]);
      }
    }
  }

  /** The records, and so the digest, do not depend on the order in which directories were read. */
  lemma {:induction false} RecordsAreUnique(files: map<Path, string>, a: seq<Record>, b: seq<Record>)
    requires RecordsOf(files, a) && RecordsOf(files, b)
    ensures a == b
  {
    forall x ensures x in a <==> x in b {
      if x in a {
        var p :| p in files && x == Record(Render(p), files[p]);
      }
      if x in b {
        var p :| p in files && x == Record(Render(p), files[p]);
      }
    }
    SortedIsUnique(a, b);
  }

  /** Two trees have the same digest exactly when they have the same files with the same contents. */
  lemma {:induction false} DigestIdentifiesFiles<D(!new)>(treeA: Tree, treeB: Tree, a: seq<Record>, b: seq<Record>,
                                                           fileHash: string -> string, hash: string -> D)
    requires ValidTree(treeA) && ValidTree(treeB) && RecordsOf(FilesOf(treeA), a) && RecordsOf(FilesOf(treeB), b)
    requires NoCollision(fileHash, a, b) && forall s, t :: hash(s) == hash(t) ==> s == t
    ensures hash(PREFIX + Encode(a, fileHash)) == hash(PREFIX + Encode(b, fileHash)) <==>
      FilesOf(treeA) == FilesOf(treeB)
  {
    if FilesOf(treeA) == FilesOf(treeB) {
      RecordsAreUnique(FilesOf(treeA), a, b);
    }
    if hash(PREFIX + Encode(a, fileHash)) == hash(PREFIX + Encode(b, fileHash)) {
      SameHalves(PREFIX, Encode(a, fileHash), PREFIX, Encode(b, fileHash));
      SameEncodingSameFiles(treeA, treeB, a, b, fileHash);
    }
  }

  lemma {:induction false} SameEncodingSameFiles(treeA: Tree, treeB: Tree, a: seq<Record>, b: seq<Record>,
                                                 fileHash: string -> string)
    requires ValidTree(treeA) && ValidTree(treeB) && RecordsOf(FilesOf(treeA), a) && RecordsOf(FilesOf(treeB), b)
    requires NoCollision(fileHash, a, b) && Encode(a, fileHash) == Encode(b, fileHash)
    ensures FilesOf(treeA) == FilesOf(treeB)
  {
    RecordPathsHaveNoNul(treeA, a);
    RecordPathsHaveNoNul(treeB, b);
    EncodingIsUnique(a, b, fileHash);
    SameRecordsSameFiles(treeA, treeB, a);
    SameRecordsSameFiles(treeB, treeA, a);
    SameMaps(FilesOf(treeA), FilesOf(treeB));
  }

  lemma {:induction false} SameMaps(a: map<Path, string>, b: map<Path, string>)
    requires forall p :: p in a ==> p in b && a[p] == b[p]
    requires forall p :: p in b ==> p in a && a[p] == b[p]
    ensures a == b
  {
    assert a.Keys == b.Keys;
  }

  lemma {:induction false} RecordPathsHaveNoNul(tree: Tree, records: seq<Record>)
    requires ValidTree(tree) && RecordsOf(FilesOf(tree), records)
    ensures forall r :: r in records ==> Without(r.path, '\0')
  {
    forall r | r in records ensures Without(r.path, '\0') {
      var p :| p in FilesOf(tree) && r == Record(Render(p), FilesOf(tree)[p]);
      RenderHasNoNul(p);
    }
  }

  lemma {:induction false} SameRecordsSameFiles(treeA: Tree, treeB: Tree, records: seq<Record>)
    requires ValidTree(treeA) && ValidTree(treeB) && RecordsOf(FilesOf(treeA), records) &&
      RecordsOf(FilesOf(treeB), records)
    ensures forall p :: p in FilesOf(treeA) ==> p in FilesOf(treeB) && FilesOf(treeA)[p] == FilesOf(treeB)[p]
  {
    forall p | p in FilesOf(treeA) ensures p in FilesOf(treeB) && FilesOf(treeA)[p] == FilesOf(treeB)[p] {
      var r := Record(Render(p), FilesOf(treeA)[p]);
      var q :| q in FilesOf(treeB) && r == Record(Render(q), FilesOf(treeB)[q]);
      FilesHavePaths(treeA, p);
      FilesHavePaths(treeB, q);
      RenderIsInjective(p, q);
    }
  }

  lemma {:induction false} FilesHavePaths(tree: Tree, p: Path)
    requires ValidTree(tree) && p in FilesOf(tree)
    ensures p != [] && ValidPath(p)
  {
  }
}
