/** How many physical copies a group of duplicates has: the count over key strings in memory, the
    estimate over key strings in the store's SQL, and what both mean. */
module PhysicalCopies {
  import opened Digits

  type UInt64 = n: int | 0 <= n < 2 * TWO_63

  /** A row of the file table; a zero device or inode means that it is not known. */
  datatype Instance = Instance(storage: string, path: string, sha: string, size: nat, device: UInt64, inode: UInt64,
                               reliable: bool, active: bool)

  predicate Identified(f: Instance) {
    f.reliable && f.device != 0 && f.inode != 0
  }

  /** The physical object behind a path; without a reliable identity every path is its own object. */
  datatype Object = Known(storage: string, device: UInt64, inode: UInt64) | Lone(storage: string, path: string)

  function ObjectOf(f: Instance): Object {
    if Identified(f) then Known(f.storage, f.device, f.inode) else Lone(f.storage, f.path)
  }

  function Elements<T>(s: seq<T>): set<T> { set x <- s }

  function Objects(files: seq<Instance>): (r: seq<Object>)
    ensures |r| == |files| && forall i :: 0 <= i < |files| ==> r[i] == ObjectOf(files[i])
  {
    seq(|files|, i requires 0 <= i < |files| => ObjectOf(files[i]))
  }

  function Copies(files: seq<Instance>): nat {
    |Elements(Objects(files))|
  }

  predicate DistinctPaths(files: seq<Instance>) {
    forall i, k :: 0 <= i < k < |files| ==> files[i].storage != files[k].storage || files[i].path != files[k].path
  }

  /******* Key strings *******/

  /** What is still to be written of a number. */
  function Leading(m: nat): string {
    if m == 0 then "" else Decimal(m)
  }

  lemma OneDigitLess(m: nat, done: string)
    requires m > 0
    ensures Leading(m) + done == Leading(m / 10) + ([('0' as int + m % 10) as char] + done)
  {
    if m >= 10 {
      assert Decimal(m) == Decimal(m / 10) + [('0' as int + m % 10) as char];
    } else {
      assert m % 10 == m;
    }
  }

  /** The digits are written from the end of a buffer of twenty bytes. */
  method UInt64ToString(n: UInt64) returns (s: string)
    ensures s == Decimal(n)
  {
    if n == 0 { return "0"; }
    var buf := new char[20];
    var i, m := buf.Length, n;
    RoomForAll();
    while m > 0
      invariant 0 <= i <= buf.Length && 0 <= m < Pow10(i)
      invariant Decimal(n) == Leading(m) + buf[i..]
      decreases m
    {
      OneDigitLess(m, buf[i..]);
      i := i - 1;
      buf[i] := ('0' as int + m % 10) as char;
      assert buf[i..] == [buf[i]] + buf[i + 1..];
      m := m / 10;
    }
    assert "" + buf[i..] == buf[i..];
    return buf[i..];
  }

  lemma RoomForAll()
    ensures 2 * TWO_63 <= Pow10(20)
  {
    assert Pow10(4) == 10_000;
    assert Pow10(8) == 100_000_000;
    assert Pow10(12) == 1_000_000_000_000;
    assert Pow10(16) == 1_0000_0000_0000_0000;
    assert Pow10(20) == 1_0000_0000_0000_0000_0000;
  }

  /** Empty for an object that has no reliable identity. */
  function PhysicalKey(f: Instance): string {
    if Identified(f) then f.storage + ":" + Decimal(f.device) + ":" + Decimal(f.inode) else ""
  }

  /** The store keeps the two numbers as signed integers with the same bits. */
  function SqlKey(f: Instance): string {
    if Identified(f) then "inode:" + Number(Wrap(f.device)) + ":" + Number(Wrap(f.inode)) else "path:" + f.path
  }

  lemma NoColon(n: int)
    ensures ':' !in Number(n)
  {
    var digits := Decimal(if n < 0 then -n else n);
    assert ':' !in digits;
  }

  /** What follows the last colon, and what precedes it, can be told from the whole. */
  lemma {:induction false} LastColon(a: string, b: string, x: string, y: string)
    requires a + ":" + x == b + ":" + y && ':' !in x && ':' !in y
    ensures a == b && x == y
    decreases |x| + |y|
  {
    var s, t := a + ":" + x, b + ":" + y;
    assert s[|s| - 1] == t[|t| - 1];
    assert x != "" ==> s[|s| - 1] == x[|x| - 1] && x[|x| - 1] in x;
    assert y != "" ==> t[|t| - 1] == y[|y| - 1] && y[|y| - 1] in y;
    assert x == "" <==> y == "";
    if x == "" {
      assert a == s[..|s| - 1] && b == t[..|t| - 1];
    } else {
      var x', y' := x[..|x| - 1], y[..|y| - 1];
      assert s[..|s| - 1] == a + ":" + x' && t[..|t| - 1] == b + ":" + y';
      LastColon(a, b, x', y');
      assert x == x' + [x[|x| - 1]] && y == y' + [y[|y| - 1]];
    }
  }

  /** Known objects have equal keys in memory exactly when they are the same object, in any storages. */
  lemma PhysicalKeyIsInjective(f: Instance, g: Instance)
    requires Identified(f) && Identified(g)
    ensures PhysicalKey(f) != ""
    ensures PhysicalKey(f) == PhysicalKey(g) <==> ObjectOf(f) == ObjectOf(g)
  {
    if PhysicalKey(f) == PhysicalKey(g) {
      var a, b := f.storage + ":" + Decimal(f.device), g.storage + ":" + Decimal(g.device);
      NoColon(f.device); NoColon(g.device);
      NoColon(f.inode); NoColon(g.inode);
      LastColon(a, b, Decimal(f.inode), Decimal(g.inode));
      LastColon(f.storage, g.storage, Decimal(f.device), Decimal(g.device));
      NumbersDiffer(f.device, g.device);
      NumbersDiffer(f.inode, g.inode);
    }
  }

  lemma SqlKeyIsInjective(f: Instance, g: Instance)
    requires f.storage == g.storage
    ensures SqlKey(f) == SqlKey(g) <==> ObjectOf(f) == ObjectOf(g)
  {
    assert SqlKey(f)[0] == (if Identified(f) then 'i' else 'p');
    assert SqlKey(g)[0] == (if Identified(g) then 'i' else 'p');
    if SqlKey(f) == SqlKey(g) {
      if Identified(f) { SqlInodes(f, g); } else {
        assert SqlKey(f)[5..] == f.path && SqlKey(g)[5..] == g.path;
      }
    }
  }

  lemma SqlInodes(f: Instance, g: Instance)
    requires Identified(f) && Identified(g) && SqlKey(f) == SqlKey(g)
    ensures f.device == g.device && f.inode == g.inode
  {
    var a, b := "inode:" + Number(Wrap(f.device)), "inode:" + Number(Wrap(g.device));
    NoColon(Wrap(f.device)); NoColon(Wrap(g.device));
    NoColon(Wrap(f.inode)); NoColon(Wrap(g.inode));
    LastColon(a, b, Number(Wrap(f.inode)), Number(Wrap(g.inode)));
    assert a == "inode" + ":" + Number(Wrap(f.device)) && b == "inode" + ":" + Number(Wrap(g.device));
    LastColon("inode", "inode", Number(Wrap(f.device)), Number(Wrap(g.device)));
    NumbersDiffer(Wrap(f.device), Wrap(g.device));
    NumbersDiffer(Wrap(f.inode), Wrap(g.inode));
    WrapKeepsBits(f.device, g.device);
    WrapKeepsBits(f.inode, g.inode);
  }

  lemma WrapKeepsBits(m: UInt64, n: UInt64)
    requires Wrap(m) == Wrap(n)
    ensures m == n
  {
  }

  /******* Counting *******/

  datatype PhysicalStats = PhysicalStats(copies: nat, aliases: nat, reclaimable: nat)

  ghost function KeysSeen(members: seq<Instance>): set<string> {
    set f | f in members && Identified(f) :: PhysicalKey(f)
  }

  method ComputePhysicalStats(members: seq<Instance>, size: nat) returns (stats: PhysicalStats)
    requires DistinctPaths(members)
    ensures stats == Summarise(|members|, Copies(members), size)
    ensures stats.copies == Copies(members)
    ensures stats.copies + stats.aliases == |members|
    ensures stats.reclaimable == if members == [] then 0 else (Copies(members) - 1) * size
  {
    var physicalSet: set<string> := {};
    var unreliableCount := 0;
    for i := 0 to |members|
      invariant physicalSet == KeysSeen(members[..i])
      invariant |physicalSet| + unreliableCount == Copies(members[..i]) <= i
    {
      CountedOnce(members, i, unreliableCount);
      var key := PhysicalKey(members[i]);
      if key == "" {
        unreliableCount := unreliableCount + 1;
        continue;
      }
      physicalSet := physicalSet + {key};
    }
    assert members[..|members|] == members;
    SomeCopy(members);
    stats := Summarise(|members|, |physicalSet| + unreliableCount, size);
  }

  function Summarise(paths: nat, copies: nat, size: nat): PhysicalStats {
    PhysicalStats(copies, if paths < copies then 0 else paths - copies, if copies > 1 then (copies - 1) * size else 0)
  }

  lemma SomeCopy(members: seq<Instance>)
    ensures members != [] ==> Copies(members) >= 1
  {
    if members != [] { assert Objects(members)[0] in Elements(Objects(members)); }
  }

  lemma OneMore(members: seq<Instance>, i: nat)
    requires i < |members|
    ensures Copies(members[..i + 1]) ==
            Copies(members[..i]) + if ObjectOf(members[i]) in Elements(Objects(members[..i])) then 0 else 1
  {
    assert Elements(Objects(members[..i + 1])) == Elements(Objects(members[..i])) + {ObjectOf(members[i])} by {
      assert Objects(members[..i + 1]) == Objects(members[..i]) + [ObjectOf(members[i])];
    }
  }

  lemma KeysGrow(members: seq<Instance>, i: nat)
    requires i < |members|
    ensures KeysSeen(members[..i + 1]) ==
            KeysSeen(members[..i]) + if Identified(members[i]) then {PhysicalKey(members[i])} else {}
  {
    assert members[..i + 1] == members[..i] + [members[i]];
  }

  /** An identified member's key was seen exactly when its object was; any other member is new. */
  lemma KeySeen(members: seq<Instance>, i: nat)
    requires i < |members| && DistinctPaths(members)
    ensures var (f, seen) := (members[i], Elements(Objects(members[..i])));
            if Identified(f) then PhysicalKey(f) in KeysSeen(members[..i]) <==> ObjectOf(f) in seen
            else ObjectOf(f) !in seen
  {
    var f, before := members[i], members[..i];
    var seen := Objects(before);
    if Identified(f) {
      if PhysicalKey(f) in KeysSeen(before) {
        var g :| g in before && Identified(g) && PhysicalKey(g) == PhysicalKey(f);
        PhysicalKeyIsInjective(g, f);
        var k :| 0 <= k < i && before[k] == g;
        assert seen[k] == ObjectOf(f);
      }
      if ObjectOf(f) in Elements(seen) {
        var k :| 0 <= k < i && seen[k] == ObjectOf(f);
        assert before[k] in before;
        PhysicalKeyIsInjective(before[k], f);
      }
    }
  }

  /** Counting one more member keeps keys and unknown members together at the number of copies. */
  lemma CountedOnce(members: seq<Instance>, i: nat, unreliable: nat)
    requires i < |members| && DistinctPaths(members)
    requires |KeysSeen(members[..i])| + unreliable == Copies(members[..i]) <= i
    ensures Identified(members[i]) <==> PhysicalKey(members[i]) != ""
    ensures Identified(members[i]) ==> KeysSeen(members[..i + 1]) == KeysSeen(members[..i]) + {PhysicalKey(members[i])}
    ensures !Identified(members[i]) ==> KeysSeen(members[..i + 1]) == KeysSeen(members[..i])
    ensures |KeysSeen(members[..i + 1])| + unreliable + (if Identified(members[i]) then 0 else 1) ==
            Copies(members[..i + 1]) <= i + 1
  {
    KeysGrow(members, i);
    KeySeen(members, i);
    OneMore(members, i);
    if Identified(members[i]) { PhysicalKeyIsInjective(members[i], members[i]); }
  }

  lemma LastIsNew<A>(a: seq<A>)
    requires a != []
    ensures var n := |a| - 1;
            |Elements(a)| == |Elements(a[..n])| + if exists k :: 0 <= k < n && a[k] == a[n] then 0 else 1
  {
    var n := |a| - 1;
    assert a == a[..n] + [a[n]];
    assert Elements(a) == Elements(a[..n]) + {a[n]};
    if k :| 0 <= k < n && a[k] == a[n] { assert a[..n][k] == a[n]; }
  }

  /** Sequences that repeat at the same positions have equally many different elements. */
  lemma {:induction false} SameRepeats<A, B>(a: seq<A>, b: seq<B>)
    requires |a| == |b| && forall i, k :: 0 <= i < |a| && 0 <= k < |a| ==> (a[i] == a[k] <==> b[i] == b[k])
    ensures |Elements(a)| == |Elements(b)|
    decreases |a|
  {
    if a != [] {
      var n := |a| - 1;
      SameRepeats(a[..n], b[..n]);
      LastIsNew(a);
      LastIsNew(b);
    }
  }

  function SqlKeys(files: seq<Instance>): (r: seq<string>)
    ensures |r| == |files| && forall i :: 0 <= i < |files| ==> r[i] == SqlKey(files[i])
  {
    seq(|files|, i requires 0 <= i < |files| => SqlKey(files[i]))
  }

  /** COUNT(DISTINCT physical_key) over one storage is the number of physical copies. */
  lemma SqlCountsCopies(files: seq<Instance>)
    requires forall i, k :: 0 <= i < |files| && 0 <= k < |files| ==> files[i].storage == files[k].storage
    ensures |Elements(SqlKeys(files))| == Copies(files)
  {
    forall i, k | 0 <= i < |files| && 0 <= k < |files|
      ensures SqlKeys(files)[i] == SqlKeys(files)[k] <==> Objects(files)[i] == Objects(files)[k]
    {
      SqlKeyIsInjective(files[i], files[k]);
    }
    SameRepeats(SqlKeys(files), Objects(files));
  }
}
