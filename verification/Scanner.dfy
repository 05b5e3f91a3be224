/** The directory walk: which files it visits, in which order, and what a resumed or a restricted
    walk leaves out. */
module Scanner {
  import opened PathOrder

  /******* Directory trees *******/

  datatype Node =
    | File
    | Dir(entries: seq<Entry>)
    | Closed               // a directory that cannot be read
    | NoInfo(isDir: bool)  // an entry whose metadata cannot be read
    | Ignored(isDir: bool) // a symlink, or an entry on another device

  datatype Entry = Entry(name: string, node: Node)

  predicate IsDir(n: Node) {
    n.Dir? || n.Closed? || (n.NoInfo? && n.isDir) || (n.Ignored? && n.isDir)
  }

  function NodeSize(n: Node): nat {
    if n.Dir? then 1 + ListSize(n.entries) else 0
  }

  function ListSize(es: seq<Entry>): nat {
    if es == [] then 0 else 1 + NodeSize(es[0].node) + ListSize(es[1..])
  }

  /** dirSortKey: a directory sorts the way its contents do. */
  function SortKey(e: Entry): string {
    if IsDir(e.node) then e.name + "/" else e.name
  }

  predicate Sorted(es: seq<Entry>) {
    forall i, j :: 0 <= i < j < |es| ==> Less(SortKey(es[i]), SortKey(es[j]))
  }

  /** Names as a file system gives them: not empty, without a separator, no two alike. */
  predicate Proper(es: seq<Entry>) {
    && (forall e <- es :: e.name != "" && '/' !in e.name)
    && (forall i, j :: 0 <= i < j < |es| ==> es[i].name != es[j].name)
  }

  predicate WellFormed(n: Node)
    decreases NodeSize(n)
  {
    n.Dir? ==> Proper(n.entries) && WellFormedList(n.entries)
  }

  predicate WellFormedList(es: seq<Entry>)
    decreases ListSize(es)
  {
    es != [] ==> WellFormed(es[0].node) && WellFormedList(es[1..])
  }

  function Insert(e: Entry, es: seq<Entry>): (r: seq<Entry>)
    ensures ListSize(r) == 1 + NodeSize(e.node) + ListSize(es)
    ensures multiset(r) == multiset(es) + multiset{e}
    ensures WellFormedList(r) == (WellFormed(e.node) && WellFormedList(es))
  {
    if es == [] || Less(SortKey(e), SortKey(es[0])) then [e] + es
    else
      assert es == [es[0]] + es[1..];
      [es[0]] + Insert(e, es[1..])
  }

  /** Entries in sort-key order. */
  function Ordered(es: seq<Entry>): (r: seq<Entry>)
    ensures ListSize(r) == ListSize(es) && multiset(r) == multiset(es)
    ensures WellFormedList(r) == WellFormedList(es)
  {
    if es == [] then []
    else
      assert es == [es[0]] + es[1..];
      Insert(es[0], Ordered(es[1..]))
  }

  /******* The walk *******/

  datatype Event =
    | Visit(path: string)
    | Fail(path: string, isDir: bool)
    | Leave(path: string)

  datatype Selection = Everything | Only(paths: set<string>)

  datatype Options = Options(excluded: set<string>, resume: string, selection: Selection)

  predicate Above(ancestor: string, path: string) {
    ancestor + "/" <= path
  }

  /** A path on the way to a selected one; parents outside the root are never asked about. */
  predicate Ancestor(selection: Selection, path: string) {
    selection.Only? && exists s <- selection.paths :: Above(path, s)
  }

  predicate Admits(o: Options, path: string, name: string) {
    name !in o.excluded && (o.selection.Only? ==> path in o.selection.paths || Ancestor(o.selection, path))
  }

  /** Resume pruning, decided on strings alone. */
  predicate Pruned(resume: string, path: string, isDir: bool) {
    resume != "" &&
    if isDir then AtMost(path + "/", resume) && !(path + "/" <= resume) else AtMost(path, resume)
  }

  function Walk(o: Options, path: string, n: Node): seq<Event>
    decreases NodeSize(n), 1
  {
    match n
    case Dir(entries) => WalkList(o, path, Ordered(entries)) + [Leave(path)]
    case _ => [Fail(path, true)]
  }

  function WalkList(o: Options, dir: string, es: seq<Entry>): seq<Event>
    decreases ListSize(es), 0
  {
    if es == [] then [] else WalkEntry(o, dir + "/" + es[0].name, es[0]) + WalkList(o, dir, es[1..])
  }

  function WalkEntry(o: Options, path: string, e: Entry): seq<Event>
    decreases NodeSize(e.node), 2
  {
    if !Admits(o, path, e.name) || Pruned(o.resume, path, IsDir(e.node)) then []
    else match e.node
      case File => [Visit(path)]
      case Dir(_) => Walk(o, path, e.node)
      case Closed => Walk(o, path, e.node)
      case NoInfo(isDir) => [Fail(path, isDir)]
      case Ignored(_) => []
  }

  function Visits(es: seq<Event>): seq<string> {
    if es == [] then []
    else (if es[0].Visit? then [es[0].path] else []) + Visits(es[1..])
  }

  /******* The sort *******/

  lemma {:induction false} InsertSorts(e: Entry, es: seq<Entry>)
    requires Sorted(es) && forall x <- es :: SortKey(x) != SortKey(e)
    ensures Sorted(Insert(e, es))
  {
    if es == [] {
    } else if Less(SortKey(e), SortKey(es[0])) {
      forall j | 0 <= j < |es| ensures Less(SortKey(e), SortKey(es[j])) {
        if j > 0 { Transitive(SortKey(e), SortKey(es[0]), SortKey(es[j])); }
      }
    } else {
      InsertSorts(e, es[1..]);
      Total(SortKey(e), SortKey(es[0]));
      var rest := Insert(e, es[1..]);
      forall j | 0 <= j < |rest| ensures Less(SortKey(es[0]), SortKey(rest[j])) {
        assert rest[j] in multiset(rest);
        assert rest[j] == e || rest[j] in es[1..];
      }
    }
  }

  lemma {:induction false} OrderedSorts(es: seq<Entry>)
    requires Proper(es)
    ensures Sorted(Ordered(es)) && Proper(Ordered(es))
  {
    if es != [] {
      OrderedSorts(es[1..]);
      forall x | x in Ordered(es[1..]) ensures SortKey(x) != SortKey(es[0]) {
        assert x in multiset(es[1..]);
        KeysDiffer(es[0], x);
      }
      InsertSorts(es[0], Ordered(es[1..]));
      ProperAnyOrder(es, Ordered(es));
    }
  }

  function NameOfKey(key: string): string {
    if key != "" && key[|key| - 1] == '/' then key[..|key| - 1] else key
  }

  lemma KeyTellsName(e: Entry)
    requires '/' !in e.name
    ensures NameOfKey(SortKey(e)) == e.name
  {
    if !IsDir(e.node) && e.name != "" { assert e.name[|e.name| - 1] in e.name; }
  }

  lemma KeysDiffer(a: Entry, b: Entry)
    requires a.name != b.name && '/' !in a.name && '/' !in b.name
    ensures SortKey(a) != SortKey(b)
  {
    KeyTellsName(a);
    KeyTellsName(b);
  }

  lemma ProperAnyOrder(es: seq<Entry>, sorted: seq<Entry>)
    requires Proper(es) && multiset(sorted) == multiset(es) && Sorted(sorted)
    ensures Proper(sorted)
  {
    forall e | e in sorted ensures e in es { assert e in multiset(sorted); }
    forall i, j | 0 <= i < j < |sorted| ensures sorted[i].name != sorted[j].name {
      assert sorted[i] in sorted && sorted[j] in sorted;
      Irreflexive(SortKey(sorted[i]));
      var a :| 0 <= a < |es| && es[a] == sorted[i];
      var b :| 0 <= b < |es| && es[b] == sorted[j];
      assert a != b;
    }
  }

  /******* The order of the visits *******/

  predicate Ascending(ps: seq<string>) {
    forall i, j :: 0 <= i < j < |ps| ==> Less(ps[i], ps[j])
  }

  /** Where the files of one entry of `dir` lie. */
  predicate InZone(dir: string, e: Entry, p: string) {
    if IsDir(e.node) then dir + "/" + e.name + "/" <= p else p == dir + "/" + e.name
  }

  lemma {:induction false} VisitsOfBoth(a: seq<Event>, b: seq<Event>)
    ensures Visits(a + b) == Visits(a) + Visits(b)
  {
    if a == [] {
      assert a + b == b;
    } else {
      var head := if a[0].Visit? then [a[0].path] else [];
      assert (a + b)[0] == a[0] && (a + b)[1..] == a[1..] + b;
      VisitsOfBoth(a[1..], b);
      assert head + (Visits(a[1..]) + Visits(b)) == (head + Visits(a[1..])) + Visits(b);
    }
  }

  /** Where an event stands in byte order; completing a directory has no place of its own. */
  function Keys(es: seq<Event>): seq<string> {
    if es == [] then []
    else Key(es[0]) + Keys(es[1..])
  }

  function Key(e: Event): seq<string> {
    match e
    case Visit(path) => [path]
    case Fail(path, isDir) => [if isDir then path + "/" else path]
    case Leave(_) => []
  }

  lemma {:induction false} KeysOfBoth(a: seq<Event>, b: seq<Event>)
    ensures Keys(a + b) == Keys(a) + Keys(b)
  {
    if a == [] {
      assert a + b == b;
    } else {
      assert (a + b)[1..] == a[1..] + b;
      KeysOfBoth(a[1..], b);
    }
  }

  lemma ZoneSplits(dir: string, e: Entry, p: string) returns (rest: string)
    requires InZone(dir, e, p)
    ensures p == dir + "/" + (SortKey(e) + rest) && (!IsDir(e.node) ==> rest == "")
  {
    rest := p[|dir + "/" + SortKey(e)|..];
    assert dir + "/" + SortKey(e) == if IsDir(e.node) then dir + "/" + e.name + "/" else dir + "/" + e.name;
    assert p == dir + "/" + SortKey(e) + rest;
  }

  /** Two entries in sort-key order: everything under the first comes before everything under the
      second. With plain names this fails for a directory "a" beside a file "a.txt". */
  lemma ZonesInOrder(dir: string, a: Entry, b: Entry, p: string, q: string)
    requires Less(SortKey(a), SortKey(b)) && a.name != b.name && '/' !in a.name && '/' !in b.name
    requires InZone(dir, a, p) && InZone(dir, b, q)
    ensures Less(p, q)
  {
    var s := ZoneSplits(dir, a, p);
    var t := ZoneSplits(dir, b, q);
    SamePrefix(dir + "/", SortKey(a) + s, SortKey(b) + t);
    if IsDir(a.node) {
      DirKeyIsNoPrefix(a, b);
      FirstDifferenceDecides(SortKey(a), SortKey(b), s, t);
    } else {
      assert SortKey(a) + s == SortKey(a);
      LessThanExtension(SortKey(a), SortKey(b), t);
    }
  }

  lemma DirKeyIsNoPrefix(a: Entry, b: Entry)
    requires IsDir(a.node) && a.name != b.name && '/' !in a.name && '/' !in b.name
    ensures !(SortKey(a) <= SortKey(b))
  {
    var k := |a.name|;
    if k < |b.name| {
      assert b.name[k] in b.name;
      assert SortKey(a)[k] != SortKey(b)[k];
    } else if k < |SortKey(b)| {
      assert SortKey(a)[..k] == a.name && SortKey(b)[..k] == b.name;
    }
  }

  lemma {:induction false} KeysBelow(o: Options, path: string, n: Node)
    requires WellFormed(n)
    ensures forall p <- Keys(Walk(o, path, n)) :: path + "/" <= p
    ensures Ascending(Keys(Walk(o, path, n)))
    decreases NodeSize(n), 1
  {
    if n.Dir? {
      OrderedSorts(n.entries);
      KeysOfList(o, path, Ordered(n.entries));
      KeysOfBoth(WalkList(o, path, Ordered(n.entries)), [Leave(path)]);
      assert Keys([Leave(path)]) == [];
    }
  }

  lemma {:induction false} KeysOfEntry(o: Options, dir: string, e: Entry)
    requires WellFormed(e.node)
    ensures forall p <- Keys(WalkEntry(o, dir + "/" + e.name, e)) :: InZone(dir, e, p)
    ensures Ascending(Keys(WalkEntry(o, dir + "/" + e.name, e)))
    decreases NodeSize(e.node), 2
  {
    if e.node.Dir? || e.node.Closed? { KeysBelow(o, dir + "/" + e.name, e.node); }
  }

  lemma {:induction false} KeysOfList(o: Options, dir: string, es: seq<Entry>)
    requires Sorted(es) && Proper(es) && WellFormedList(es)
    ensures forall p <- Keys(WalkList(o, dir, es)) :: dir + "/" <= p && exists e <- es :: InZone(dir, e, p)
    ensures Ascending(Keys(WalkList(o, dir, es)))
    decreases ListSize(es), 0
  {
    if es != [] {
      var first, rest := WalkEntry(o, dir + "/" + es[0].name, es[0]), WalkList(o, dir, es[1..]);
      KeysOfEntry(o, dir, es[0]);
      KeysOfList(o, dir, es[1..]);
      KeysOfBoth(first, rest);
      forall p, q | p in Keys(first) && q in Keys(rest) ensures Less(p, q) {
        var e :| e in es[1..] && InZone(dir, e, q);
        ZonesInOrder(dir, es[0], e, p, q);
      }
      forall p | p in Keys(first + rest) ensures dir + "/" <= p && exists e <- es :: InZone(dir, e, p) {
        if p in Keys(first) {
          assert es[0] in es && InZone(dir, es[0], p);
          assert dir + "/" <= dir + "/" + es[0].name + "/" && dir + "/" <= dir + "/" + es[0].name;
        } else {
          var e :| e in es[1..] && InZone(dir, e, p);
          assert e in es;
        }
      }
    }
  }

  lemma {:induction false} VisitsAmongKeys(es: seq<Event>)
    ensures forall p <- Visits(es) :: p in Keys(es)
  {
    if es != [] { VisitsAmongKeys(es[1..]); }
  }

  lemma {:induction false} AscendingVisits(es: seq<Event>)
    requires Ascending(Keys(es))
    ensures Ascending(Visits(es))
  {
    if es != [] {
      var keys, later := Keys(es[1..]), Visits(es[1..]);
      assert Keys(es)[|Key(es[0])|..] == keys;
      AscendingVisits(es[1..]);
      VisitsAmongKeys(es[1..]);
      if es[0].Visit? {
        forall j | 0 <= j < |later| ensures Less(es[0].path, later[j]) {
          assert later[j] in later;
          var k :| 0 <= k < |keys| && keys[k] == later[j];
          assert Keys(es)[0] == es[0].path && Keys(es)[k + 1] == keys[k];
        }
      }
    }
  }

  /** The walk visits files in strictly ascending byte order of their full paths. */
  lemma VisitsAscend(o: Options, root: string, tree: Node)
    requires WellFormed(tree)
    ensures Ascending(Visits(Walk(o, root, tree)))
  {
    KeysBelow(o, root, tree);
    AscendingVisits(Walk(o, root, tree));
  }

  lemma VisitsBelow(o: Options, path: string, n: Node)
    requires WellFormed(n)
    ensures forall p <- Visits(Walk(o, path, n)) :: path + "/" <= p
  {
    KeysBelow(o, path, n);
    VisitsAmongKeys(Walk(o, path, n));
  }

  lemma AscendingAcross(a: seq<string>, b: seq<string>, x: string, y: string)
    requires Ascending(a + b) && x in a && y in b
    ensures Less(x, y)
  {
    var k :| 0 <= k < |a| && a[k] == x;
    var m :| 0 <= m < |b| && b[m] == y;
    assert (a + b)[k] == x && (a + b)[|a| + m] == y;
  }

  lemma {:induction false} LaterKeyIsGreater(es: seq<Event>, i: nat, j: nat)
    requires Ascending(Keys(es)) && i < j < |es| && !es[i].Leave? && !es[j].Leave?
    ensures Less(Key(es[i])[0], Key(es[j])[0])
    decreases |es|
  {
    if i == 0 {
      InKeys(es[1..], j - 1);
      AscendingAcross(Key(es[0]), Keys(es[1..]), Key(es[0])[0], Key(es[j])[0]);
    } else {
      assert Keys(es)[|Key(es[0])|..] == Keys(es[1..]);
      LaterKeyIsGreater(es[1..], i - 1, j - 1);
    }
  }

  /** What comes after a visit, be it a file or a read failure, is not covered by it. */
  lemma LaterIsNotCovered(o: Options, root: string, tree: Node, i: nat, j: nat)
    requires WellFormed(tree) && i < j < |Walk(o, root, tree)|
    requires var es := Walk(o, root, tree); es[i].Visit? && !es[j].Leave?
    ensures var es := Walk(o, root, tree); !Covered(es[j], es[i].path)
  {
    var es := Walk(o, root, tree);
    KeysBelow(o, root, tree);
    LaterKeyIsGreater(es, i, j);
    Asymmetric(Key(es[i])[0], Key(es[j])[0]);
  }

  lemma {:induction false} InKeys(es: seq<Event>, i: nat)
    requires i < |es| && !es[i].Leave?
    ensures Key(es[i])[0] in Keys(es)
  {
    if i > 0 { InKeys(es[1..], i - 1); }
  }

  /******* The files of a tree *******/

  ghost predicate FileAt(excluded: set<string>, n: Node, names: seq<string>)
    decreases |names|
  {
    if names == [] then n.File?
    else n.Dir? && exists e <- n.entries ::
      e.name == names[0] && e.name !in excluded && FileAt(excluded, e.node, names[1..])
  }

  function PathOf(root: string, names: seq<string>): string
    decreases |names|
  {
    if names == [] then root else PathOf(root + "/" + names[0], names[1..])
  }

  ghost predicate IsFile(excluded: set<string>, root: string, n: Node, p: string) {
    exists names :: names != [] && FileAt(excluded, n, names) && PathOf(root, names) == p
  }

  predicate Plain(o: Options) {
    o.resume == "" && o.selection.Everything?
  }

  lemma {:induction false} VisitsAreFiles(o: Options, path: string, n: Node, p: string)
    requires Plain(o) && p in Visits(Walk(o, path, n))
    ensures IsFile(o.excluded, path, n, p)
    decreases NodeSize(n), 1
  {
    if n.Dir? {
      VisitsOfDir(o, path, n);
      var e, names := VisitsOfListAreFiles(o, path, Ordered(n.entries), p);
      FileBelow(o, path, n, e, names, p);
    }
  }

  lemma FileBelow(o: Options, path: string, n: Node, e: Entry, names: seq<string>, p: string)
    requires n.Dir? && e in Ordered(n.entries) && e.name !in o.excluded && FileAt(o.excluded, e.node, names)
    requires PathOf(path + "/" + e.name, names) == p
    ensures IsFile(o.excluded, path, n, p)
  {
    assert e in multiset(Ordered(n.entries));
    assert ([e.name] + names)[1..] == names;
    assert FileAt(o.excluded, n, [e.name] + names) && PathOf(path, [e.name] + names) == p;
  }

  lemma {:induction false} VisitsOfListAreFiles(o: Options, dir: string, es: seq<Entry>, p: string)
    returns (e: Entry, names: seq<string>)
    requires Plain(o) && p in Visits(WalkList(o, dir, es))
    ensures e in es && e.name !in o.excluded && FileAt(o.excluded, e.node, names) &&
            PathOf(dir + "/" + e.name, names) == p
    decreases ListSize(es), 0
  {
    e := es[0];
    var path := dir + "/" + e.name;
    VisitsOfBoth(WalkEntry(o, path, e), WalkList(o, dir, es[1..]));
    if p in Visits(WalkEntry(o, path, e)) {
      names := [];
      assert e.node.Closed? ==> Walk(o, path, e.node) == [Fail(path, true)];
      if e.node.Dir? {
        VisitsAreFiles(o, path, e.node, p);
        names :| names != [] && FileAt(o.excluded, e.node, names) && PathOf(path, names) == p;
      }
    } else {
      e, names := VisitsOfListAreFiles(o, dir, es[1..], p);
    }
  }

  lemma {:induction false} FilesAreVisited(o: Options, path: string, n: Node, names: seq<string>)
    requires Plain(o) && names != [] && FileAt(o.excluded, n, names)
    ensures PathOf(path, names) in Visits(Walk(o, path, n))
    decreases |names|
  {
    var e :| e in n.entries && e.name == names[0] && e.name !in o.excluded && FileAt(o.excluded, e.node, names[1..]);
    var entry := path + "/" + e.name;
    if names[1..] != [] { FilesAreVisited(o, entry, e.node, names[1..]); }
    assert PathOf(path, names) == PathOf(entry, names[1..]);
    assert PathOf(entry, names[1..]) in Visits(WalkEntry(o, entry, e));
    assert e in multiset(Ordered(n.entries));
    EntryVisited(o, path, Ordered(n.entries), e, PathOf(path, names));
    VisitsOfDir(o, path, n);
  }

  lemma {:induction false} EntryVisited(o: Options, dir: string, es: seq<Entry>, e: Entry, p: string)
    requires e in es && p in Visits(WalkEntry(o, dir + "/" + e.name, e))
    ensures p in Visits(WalkList(o, dir, es))
  {
    VisitsOfBoth(WalkEntry(o, dir + "/" + es[0].name, es[0]), WalkList(o, dir, es[1..]));
    if e != es[0] { EntryVisited(o, dir, es[1..], e, p); }
  }

  /** A plain walk visits exactly the regular files reachable through readable, admitted directories. */
  lemma WalkFindsEveryFile(o: Options, root: string, tree: Node, p: string)
    requires Plain(o)
    ensures p in Visits(Walk(o, root, tree)) <==> IsFile(o.excluded, root, tree, p)
  {
    if p in Visits(Walk(o, root, tree)) { VisitsAreFiles(o, root, tree, p); }
    if IsFile(o.excluded, root, tree, p) {
      var names :| names != [] && FileAt(o.excluded, tree, names) && PathOf(root, names) == p;
      FilesAreVisited(o, root, tree, names);
    }
  }

  /******* Resume *******/

  function Resumed(o: Options, boundary: string): Options {
    o.(resume := boundary)
  }

  /** The durable boundary has settled this event: its file, or every file its subtree could hold. */
  predicate Covered(e: Event, boundary: string) {
    match e
    case Visit(path) => Pruned(boundary, path, false)
    case Fail(path, isDir) => Pruned(boundary, path, isDir)
    case Leave(path) => Pruned(boundary, path, true)
  }

  function Beyond(es: seq<Event>, boundary: string): seq<Event> {
    if es == [] then []
    else (if Covered(es[0], boundary) then [] else [es[0]]) + Beyond(es[1..], boundary)
  }

  lemma {:induction false} BeyondBoth(a: seq<Event>, b: seq<Event>, boundary: string)
    ensures Beyond(a + b, boundary) == Beyond(a, boundary) + Beyond(b, boundary)
  {
    if a == [] {
      assert a + b == b;
    } else {
      assert (a + b)[1..] == a[1..] + b;
      BeyondBoth(a[1..], b, boundary);
    }
  }

  lemma {:induction false} NothingBeyond(es: seq<Event>, boundary: string)
    requires forall e <- es :: Covered(e, boundary)
    ensures Beyond(es, boundary) == []
  {
    if es != [] { NothingBeyond(es[1..], boundary); }
  }

  /** Once a directory is pruned, so is every path below it. */
  lemma PrunedBelow(boundary: string, dir: string, path: string, isDir: bool)
    requires Pruned(boundary, dir, true) && dir + "/" <= path
    ensures Pruned(boundary, path, isDir)
  {
    var s := path[|dir + "/"|..];
    assert path == dir + "/" + s;
    FirstDifferenceDecides(dir + "/", boundary, s, "");
    FirstDifferenceDecides(dir + "/", boundary, s + "/", "");
    assert dir + "/" + (s + "/") == path + "/" && boundary + "" == boundary;
    assert path + "/" <= boundary ==> dir + "/" <= boundary;
  }

  lemma {:induction false} EventsBelow(o: Options, path: string, n: Node)
    ensures forall e <- Walk(o, path, n) :: e == Fail(path, true) || e == Leave(path) || path + "/" <= e.path
    decreases NodeSize(n), 1
  {
    if n.Dir? { EventsOfList(o, path, Ordered(n.entries)); }
  }

  lemma {:induction false} EventsOfList(o: Options, dir: string, es: seq<Entry>)
    ensures forall e <- WalkList(o, dir, es) :: dir + "/" <= e.path
    decreases ListSize(es), 0
  {
    if es != [] {
      var path := dir + "/" + es[0].name;
      EventsOfList(o, dir, es[1..]);
      if es[0].node.Dir? || es[0].node.Closed? { EventsBelow(o, path, es[0].node); }
      forall e | e in WalkEntry(o, path, es[0]) ensures dir + "/" <= e.path {
        assert dir + "/" <= path;
      }
    }
  }

  lemma PrunedEntry(o: Options, boundary: string, path: string, e: Entry)
    requires o.resume == "" && Pruned(boundary, path, IsDir(e.node))
    ensures Beyond(WalkEntry(o, path, e), boundary) == []
  {
    var events := WalkEntry(o, path, e);
    if e.node.Dir? || e.node.Closed? { EventsBelow(o, path, e.node); }
    forall x | x in events ensures Covered(x, boundary) {
      if path + "/" <= x.path { PrunedBelow(boundary, path, x.path, if x.Fail? then x.isDir else x.Leave?); }
    }
    NothingBeyond(events, boundary);
  }

  lemma {:induction false} ResumedList(o: Options, boundary: string, dir: string, es: seq<Entry>)
    requires o.resume == ""
    ensures WalkList(Resumed(o, boundary), dir, es) == Beyond(WalkList(o, dir, es), boundary)
    decreases ListSize(es), 0
  {
    if es != [] {
      var path := dir + "/" + es[0].name;
      ResumedEntry(o, boundary, path, es[0]);
      ResumedList(o, boundary, dir, es[1..]);
      BeyondBoth(WalkEntry(o, path, es[0]), WalkList(o, dir, es[1..]), boundary);
    }
  }

  lemma {:induction false} ResumedEntry(o: Options, boundary: string, path: string, e: Entry)
    requires o.resume == ""
    ensures WalkEntry(Resumed(o, boundary), path, e) == Beyond(WalkEntry(o, path, e), boundary)
    decreases NodeSize(e.node), 2
  {
    if Pruned(boundary, path, IsDir(e.node)) {
      PrunedEntry(o, boundary, path, e);
    } else if e.node.Dir? {
      var entries := Ordered(e.node.entries);
      ResumedList(o, boundary, path, entries);
      BeyondBoth(WalkList(o, path, entries), [Leave(path)], boundary);
    }
  }

  /** A resumed walk is the full walk without the events its boundary covers: pruning by string
      comparison loses no file, no read failure and no completed directory above the boundary. */
  lemma ResumeSkipsExactlyTheCovered(o: Options, boundary: string, root: string, entries: seq<Entry>)
    requires o.resume == ""
    ensures WalkList(Resumed(o, boundary), root, Ordered(entries)) ==
            Beyond(WalkList(o, root, Ordered(entries)), boundary)
  {
    ResumedList(o, boundary, root, Ordered(entries));
  }

  function After(ps: seq<string>, boundary: string): seq<string> {
    if ps == [] then []
    else (if boundary != "" && AtMost(ps[0], boundary) then [] else [ps[0]]) + After(ps[1..], boundary)
  }

  lemma VisitsThen(e: Event, es: seq<Event>)
    ensures Visits([e] + es) == (if e.Visit? then [e.path] else []) + Visits(es)
  {
    assert ([e] + es)[1..] == es;
  }

  lemma AfterThen(p: string, ps: seq<string>, boundary: string)
    ensures After([p] + ps, boundary) ==
            (if boundary != "" && AtMost(p, boundary) then [] else [p]) + After(ps, boundary)
  {
    assert ([p] + ps)[1..] == ps;
  }

  lemma {:induction false} VisitsBeyond(es: seq<Event>, boundary: string)
    ensures Visits(Beyond(es, boundary)) == After(Visits(es), boundary)
  {
    if es != [] {
      var none: seq<string>, rest := [], es[1..];
      VisitsBeyond(rest, boundary);
      assert Visits(es) == (if es[0].Visit? then [es[0].path] else none) + Visits(rest);
      assert none + Visits(rest) == Visits(rest) && [] + Beyond(rest, boundary) == Beyond(rest, boundary);
      if es[0].Visit? { AfterThen(es[0].path, Visits(rest), boundary); }
      if !Covered(es[0], boundary) { VisitsThen(es[0], Beyond(rest, boundary)); }
    }
  }

  lemma VisitsOfDir(o: Options, path: string, n: Node)
    requires n.Dir?
    ensures Visits(Walk(o, path, n)) == Visits(WalkList(o, path, Ordered(n.entries)))
  {
    VisitsOfBoth(WalkList(o, path, Ordered(n.entries)), [Leave(path)]);
    assert Visits([Leave(path)]) == [];
  }

  /** Scanning with a resume path visits exactly the files of the full scan above it, in the same order. */
  lemma ResumeVisitsTheRest(o: Options, boundary: string, root: string, tree: Node)
    requires o.resume == "" && tree.Dir?
    ensures Visits(Walk(Resumed(o, boundary), root, tree)) == After(Visits(Walk(o, root, tree)), boundary)
  {
    ResumeSkipsExactlyTheCovered(o, boundary, root, tree.entries);
    VisitsBeyond(WalkList(o, root, Ordered(tree.entries)), boundary);
    VisitsOfDir(o, root, tree);
    VisitsOfDir(Resumed(o, boundary), root, tree);
  }

  /******* Selected paths *******/

  ghost function Among(ps: seq<string>, selection: Selection): seq<string> {
    if ps == [] then []
    else (if Wanted(selection, ps[0]) then [ps[0]] else []) + Among(ps[1..], selection)
  }

  ghost predicate Wanted(selection: Selection, path: string) {
    selection.Only? ==> path in selection.paths || Ancestor(selection, path)
  }

  lemma {:induction false} AmongBoth(a: seq<string>, b: seq<string>, selection: Selection)
    ensures Among(a + b, selection) == Among(a, selection) + Among(b, selection)
  {
    if a == [] {
      assert a + b == b;
    } else {
      assert (a + b)[1..] == a[1..] + b;
      AmongBoth(a[1..], b, selection);
    }
  }

  lemma {:induction false} NoneAmong(ps: seq<string>, selection: Selection)
    requires forall p <- ps :: !Wanted(selection, p)
    ensures Among(ps, selection) == []
  {
    if ps != [] { NoneAmong(ps[1..], selection); }
  }

  lemma WantedBelow(selection: Selection, dir: string, path: string)
    requires dir + "/" <= path && Wanted(selection, path)
    ensures Wanted(selection, dir)
  {
    if selection.Only? && path !in selection.paths {
      var s :| s in selection.paths && Above(path, s);
      assert Above(dir, s);
    }
  }

  lemma {:induction false} SelectedList(o: Options, selection: Selection, dir: string, es: seq<Entry>)
    requires o.selection == Everything && WellFormedList(es)
    ensures Visits(WalkList(o.(selection := selection), dir, es)) == Among(Visits(WalkList(o, dir, es)), selection)
    decreases ListSize(es), 0
  {
    if es != [] {
      var o' := o.(selection := selection);
      var path := dir + "/" + es[0].name;
      SelectedEntry(o, selection, path, es[0]);
      SelectedList(o, selection, dir, es[1..]);
      VisitsOfBoth(WalkEntry(o, path, es[0]), WalkList(o, dir, es[1..]));
      VisitsOfBoth(WalkEntry(o', path, es[0]), WalkList(o', dir, es[1..]));
      AmongBoth(Visits(WalkEntry(o, path, es[0])), Visits(WalkList(o, dir, es[1..])), selection);
    }
  }

  lemma {:induction false} SelectedEntry(o: Options, selection: Selection, path: string, e: Entry)
    requires o.selection == Everything && WellFormed(e.node)
    ensures Visits(WalkEntry(o.(selection := selection), path, e)) == Among(Visits(WalkEntry(o, path, e)), selection)
    decreases NodeSize(e.node), 2
  {
    if e.node.Dir? {
      SelectedDir(o, selection, path, e.node);
      if !Wanted(selection, path) { NothingWantedBelow(o, selection, path, e.node); }
    } else {
      SelectedLeaf(o, selection, path, e);
    }
  }

  lemma SelectedLeaf(o: Options, selection: Selection, path: string, e: Entry)
    requires o.selection == Everything && !e.node.Dir?
    ensures Visits(WalkEntry(o.(selection := selection), path, e)) == Among(Visits(WalkEntry(o, path, e)), selection)
  {
    var o' := o.(selection := selection);
    assert Visits([]) == [] && Among([], selection) == [];
    match e.node
    case File =>
      OneVisit(path, selection);
    case Closed =>
      assert Walk(o, path, e.node) == [Fail(path, true)] == Walk(o', path, e.node);
      NoVisit(path, true);
    case NoInfo(isDir) =>
      NoVisit(path, isDir);
    case Ignored(_) =>
  }

  lemma OneVisit(path: string, selection: Selection)
    ensures Visits([Visit(path)]) == [path]
    ensures Among([path], selection) == if Wanted(selection, path) then [path] else []
  {
    assert [Visit(path)][1..] == [] && [path][1..] == [];
  }

  lemma NoVisit(path: string, isDir: bool)
    ensures Visits([Fail(path, isDir)]) == []
  {
  }

  lemma NothingWantedBelow(o: Options, selection: Selection, path: string, n: Node)
    requires WellFormed(n) && !Wanted(selection, path)
    ensures Among(Visits(Walk(o, path, n)), selection) == []
  {
    VisitsBelow(o, path, n);
    forall p | p in Visits(Walk(o, path, n)) ensures !Wanted(selection, p) {
      if Wanted(selection, p) { WantedBelow(selection, path, p); }
    }
    NoneAmong(Visits(Walk(o, path, n)), selection);
  }

  /** With SelectedPaths the walk visits, in order, the visible files that are selected or lie where
      a directory on the way to a selected path is expected. */
  lemma {:induction false} SelectedDir(o: Options, selection: Selection, path: string, n: Node)
    requires o.selection == Everything && WellFormed(n)
    ensures Visits(Walk(o.(selection := selection), path, n)) == Among(Visits(Walk(o, path, n)), selection)
    decreases NodeSize(n), 1
  {
    if n.Dir? {
      SelectedList(o, selection, path, Ordered(n.entries));
      VisitsOfDir(o, path, n);
      VisitsOfDir(o.(selection := selection), path, n);
    }
  }

  lemma {:induction false} AmongMembers(ps: seq<string>, selection: Selection, p: string)
    ensures p in Among(ps, selection) <==> p in ps && Wanted(selection, p)
  {
    if ps != [] { AmongMembers(ps[1..], selection, p); }
  }

  /** It visits exactly the visible selected files if and only if no visible file stands where a
      directory on the way to a selected path is expected. */
  lemma SelectionIsExact(o: Options, selected: set<string>, root: string, tree: Node)
    requires o.selection == Everything && WellFormed(tree)
    ensures var visible := Visits(Walk(o, root, tree));
      (forall p :: p in Visits(Walk(o.(selection := Only(selected)), root, tree)) <==> p in visible && p in selected)
      <==> (forall p <- visible :: Ancestor(Only(selected), p) ==> p in selected)
  {
    var visible := Visits(Walk(o, root, tree));
    SelectedDir(o, Only(selected), root, tree);
    forall p ensures p in Visits(Walk(o.(selection := Only(selected)), root, tree)) <==>
                     p in visible && Wanted(Only(selected), p)
    {
      AmongMembers(visible, Only(selected), p);
    }
  }

  /** The other side: a file where the directory of a selected path is expected is visited, though not selected. */
  lemma AFileInTheWayIsVisited()
    ensures var tree := Dir([Entry("a", File)]);
      Visits(Walk(Options({}, "", Only({"r/a/b"})), "r", tree)) == ["r/a"] && "r/a" !in {"r/a/b"}
  {
    var o, a := Options({}, "", Only({"r/a/b"})), Entry("a", File);
    assert [a][1..] == [] && Ordered([a]) == [a] && "r" + "/" + "a" == "r/a" && "r/a" + "/" <= "r/a/b";
    assert Above("r/a", "r/a/b");
    assert WalkEntry(o, "r/a", a) == [Visit("r/a")];
    assert WalkList(o, "r", [a]) == [Visit("r/a")] + WalkList(o, "r", []);
    assert [Visit("r/a")] + [Leave("r")] == [Visit("r/a"), Leave("r")];
    assert [Visit("r/a"), Leave("r")][1..] == [Leave("r")] && [Leave("r")][1..] == [];
  }

  /******* Durable boundaries *******/

  predicate NoFailure(es: seq<Event>) {
    forall e <- es :: !e.Fail?
  }

  /** What OnDirectoryCompleted is told after these events, if it is told anything. */
  predicate OffersBoundary(es: seq<Event>) {
    NoFailure(es) && Visits(es) != []
  }

  function Boundary(es: seq<Event>): string
    requires OffersBoundary(es)
  {
    var visits := Visits(es);
    visits[|visits| - 1]
  }

  lemma {:induction false} BeyondMembers(es: seq<Event>, boundary: string, e: Event)
    ensures e in Beyond(es, boundary) <==> e in es && !Covered(e, boundary)
  {
    if es != [] { BeyondMembers(es[1..], boundary, e); }
  }

  lemma {:induction false} VisitMembers(es: seq<Event>, p: string)
    ensures p in Visits(es) <==> Visit(p) in es
  {
    if es != [] { VisitMembers(es[1..], p); }
  }

  lemma ResumedMembers(o: Options, resume: string, root: string, tree: Node, e: Event)
    requires Plain(o) && tree.Dir? && !e.Leave?
    ensures e in Walk(Resumed(o, resume), root, tree) <==> e in Walk(o, root, tree) && !Covered(e, resume)
  {
    var full := WalkList(o, root, Ordered(tree.entries));
    ResumeSkipsExactlyTheCovered(o, resume, root, tree.entries);
    BeyondMembers(full, resume, e);
    assert Walk(o, root, tree) == full + [Leave(root)];
    assert Walk(Resumed(o, resume), root, tree) == Beyond(full, resume) + [Leave(root)];
  }

  /** A boundary offered by a walk resumed at `resume` is safe to resume from: every visible file at
      or below it was settled by `resume` or has been visited, and no unreadable part of the tree
      lies below it that `resume` had not settled. */
  lemma BoundaryIsSafe(o: Options, resume: string, root: string, tree: Node, t: nat, e: Event)
    requires Plain(o) && WellFormed(tree) && tree.Dir?
    requires t <= |Walk(Resumed(o, resume), root, tree)|
    requires var done := Walk(Resumed(o, resume), root, tree)[..t];
      OffersBoundary(done) && e in Walk(o, root, tree) && !e.Leave? && Covered(e, Boundary(done))
    ensures Covered(e, resume) || (e.Visit? && e in Walk(Resumed(o, resume), root, tree)[..t])
  {
    var all := Walk(Resumed(o, resume), root, tree);
    var done := all[..t];
    ResumedMembers(o, resume, root, tree, e);
    VisitMembers(done, Boundary(done));
    var i :| 0 <= i < t && done[i] == Visit(Boundary(done));
    forall j | t <= j < |all| && !all[j].Leave? ensures all[j] != e {
      LaterIsNotCovered(Resumed(o, resume), root, tree, i, j);
    }
    if !Covered(e, resume) {
      var j :| 0 <= j < |all| && all[j] == e;
      assert done[j] == e;
    }
  }

  /******* The walk as the program makes it *******/

  class Scan {
    const options: Options
    var visited: seq<string>
    var errors: seq<string>
    var lastScannedPath: string
    var checkpointBlocked: bool
    ghost var trace: seq<Event>
    var boundaries: seq<string> // handed to OnDirectoryCompleted

    ghost predicate Valid()
      reads this
    {
      && visited == Visits(trace)
      && (checkpointBlocked <==> !NoFailure(trace))
      && (if visited == [] then lastScannedPath == "" else lastScannedPath == visited[|visited| - 1] != "")
      && boundaries == Boundaries(trace)
    }

    constructor (options: Options)
      ensures Valid() && trace == [] && this.options == options
    {
      this.options := options;
      visited, errors, boundaries, lastScannedPath, checkpointBlocked := [], [], [], "", false;
      trace := [];
    }

    method Record(path: string)
      requires Valid() && path != ""
      modifies this
      ensures Valid() && trace == old(trace) + [Visit(path)]
    {
      VisitsOfBoth(trace, [Visit(path)]);
      BoundariesOneMore(trace, Visit(path));
      visited, lastScannedPath := visited + [path], path;
      trace := trace + [Visit(path)];
    }

    method RecordError(path: string, ghost isDir: bool)
      requires Valid()
      modifies this
      ensures Valid() && trace == old(trace) + [Fail(path, isDir)]
    {
      VisitsOfBoth(trace, [Fail(path, isDir)]);
      BoundariesOneMore(trace, Fail(path, isDir));
      errors, checkpointBlocked := errors + [path], true;
      trace := trace + [Fail(path, isDir)];
      assert Fail(path, isDir) in trace;
    }

    method WalkDir(path: string, n: Node) returns (ok: bool)
      requires Valid() && WellFormed(n)
      modifies this
      ensures Valid()
      ensures ok ==> trace == old(trace) + Walk(options, path, n)
      ensures !ok ==> old(trace) <= trace <= old(trace) + Walk(options, path, n)
      decreases NodeSize(n), 1
    {
      if !n.Dir? {
        RecordError(path, true);
        return true;
      }
      var entries := Ordered(n.entries);
      ghost var before := trace;
      ok := WalkEntries(path, entries);
      if ok {
        assert trace + [Leave(path)] == before + Walk(options, path, n);
        DirectoryCompleted(path);
        ok := *; // the checkpoint callback may fail, and ends the walk then
      }
    }

    method DirectoryCompleted(path: string)
      requires Valid()
      modifies this
      ensures Valid() && trace == old(trace) + [Leave(path)]
    {
      VisitsOfBoth(trace, [Leave(path)]);
      BoundariesOneMore(trace, Leave(path));
      if lastScannedPath != "" && !checkpointBlocked { boundaries := boundaries + [lastScannedPath]; }
      trace := trace + [Leave(path)];
    }

    method WalkEntries(dir: string, entries: seq<Entry>) returns (ok: bool)
      requires Valid() && WellFormedList(entries)
      modifies this
      ensures Valid()
      ensures ok ==> trace == old(trace) + WalkList(options, dir, entries)
      ensures !ok ==> old(trace) <= trace <= old(trace) + WalkList(options, dir, entries)
      decreases ListSize(entries), 0
    {
      ghost var goal := trace + WalkList(options, dir, entries);
      assert entries[0..] == entries;
      for i := 0 to |entries|
        invariant Valid() && old(trace) <= trace <= goal
        invariant WellFormedList(entries[i..]) && ListSize(entries[i..]) <= ListSize(entries)
        invariant trace + WalkList(options, dir, entries[i..]) == goal
      {
        var cancelled := *;
        if cancelled { return false; }
        var e := entries[i];
        OneEntry(options, dir, entries, i);
        ghost var before := trace;
        ghost var events := WalkEntry(options, dir + "/" + e.name, e);
        ghost var rest := WalkList(options, dir, entries[i + 1..]);
        ok := WalkOne(dir + "/" + e.name, e);
        if !ok {
          StoppedWithin(old(trace), before, trace, events, rest);
          return;
        }
        Regrouped(old(trace), before, events, rest);
      }
      assert WalkList(options, dir, entries[|entries|..]) == [];
      return true;
    }

    method WalkOne(path: string, e: Entry) returns (ok: bool)
      requires Valid() && WellFormed(e.node) && path != ""
      modifies this
      ensures Valid()
      ensures ok ==> trace == old(trace) + WalkEntry(options, path, e)
      ensures !ok ==> old(trace) <= trace <= old(trace) + WalkEntry(options, path, e)
      decreases NodeSize(e.node), 2
    {
      if e.name in options.excluded { return true; }
      if options.selection.Only? && path !in options.selection.paths && !IsAncestor(options.selection.paths, path) {
        return true;
      }
      if Pruned(options.resume, path, IsDir(e.node)) { return true; }
      match e.node
      case NoInfo(isDir) =>
        RecordError(path, isDir);
        return true;
      case Ignored(_) =>
        return true;
      case File =>
        Record(path);
        var accepted := *;
        return accepted;
      case Dir(_) =>
        ok := WalkDir(path, e.node);
      case Closed =>
        ok := WalkDir(path, e.node);
    }
  }

  lemma Regrouped(start: seq<Event>, a: seq<Event>, b: seq<Event>, c: seq<Event>)
    requires start <= a
    ensures (a + b) + c == a + (b + c) && start <= a + b <= a + (b + c)
  {
  }

  lemma StoppedWithin(start: seq<Event>, a: seq<Event>, t: seq<Event>, b: seq<Event>, c: seq<Event>)
    requires start <= a <= t <= a + b
    ensures start <= t <= a + (b + c)
  {
    assert t == (a + b)[..|t|] == (a + (b + c))[..|t|];
  }

  lemma OneEntry(o: Options, dir: string, es: seq<Entry>, i: nat)
    requires i < |es| && WellFormedList(es[i..])
    ensures WalkList(o, dir, es[i..]) == WalkEntry(o, dir + "/" + es[i].name, es[i]) + WalkList(o, dir, es[i + 1..])
    ensures WellFormed(es[i].node) && WellFormedList(es[i + 1..])
    ensures ListSize(es[i..]) == 1 + NodeSize(es[i].node) + ListSize(es[i + 1..])
  {
    assert es[i..][0] == es[i] && es[i..][1..] == es[i + 1..];
  }

  predicate IsAncestor(paths: set<string>, path: string)
    ensures IsAncestor(paths, path) == Ancestor(Only(paths), path)
  {
    exists s <- paths :: Above(path, s)
  }

  function Boundaries(es: seq<Event>): seq<string> {
    if es == [] then []
    else
      var before := es[..|es| - 1];
      Boundaries(before) + (if es[|es| - 1].Leave? && OffersBoundary(before) then [Boundary(before)] else [])
  }

  lemma BoundariesOneMore(es: seq<Event>, e: Event)
    ensures Boundaries(es + [e]) == Boundaries(es) + (if e.Leave? && OffersBoundary(es) then [Boundary(es)] else [])
    ensures NoFailure(es + [e]) <==> NoFailure(es) && !e.Fail?
  {
    assert (es + [e])[..|es|] == es;
    if NoFailure(es + [e]) {
      forall x | x in es ensures !x.Fail? { assert x in es + [e]; }
      assert e in es + [e];
    }
  }
}
