/** Two-stage hashing: a sample of every file, the full hash of files that share size and sample,
    and, when a scan is resumed, the loop that brings pending groups of the prefix back in. */
module ProgressiveHashing {
  import opened Collections
  import opened Files
  import opened PathOrder
  import opened Scanner

  const SAMPLE: nat := 64 * 1024

  /** What the quick fingerprint feeds the hasher. */
  function Sample(content: Bytes): Bytes {
    if |content| <= 2 * SAMPLE then content else content[..SAMPLE] + content[|content| - SAMPLE..]
  }

  /** What is fed for a file recorded with some size, whatever its content has become; a large file that
      has become too short cannot be sampled. */
  function Fed(content: Bytes, size: nat): Option<Bytes> {
    if size <= 2 * SAMPLE then Some(content)
    else if |content| < SAMPLE then None
    else Some(content[..SAMPLE] + content[|content| - SAMPLE..])
  }

  /** One copy, or two with a seek to the last sample in between; a short read or seek fails. */
  method QuickReader(content: Bytes, size: nat) returns (fed: Option<Bytes>)
    ensures fed == Fed(content, size)
    ensures size == |content| ==> fed == Some(Sample(content))
  {
    var position, end := 0, |content|;
    assert content[position..] == content;
    if size <= 2 * SAMPLE { return Some(content[position..]); }
    if position + SAMPLE > end { return None; }
    var first := content[position..position + SAMPLE];
    position := end - SAMPLE;
    assert content[position..position + SAMPLE] == content[position..];
    return Some(first + content[position..position + SAMPLE]);
  }

  /** Digests as the database holds them; the empty string is `NoDigest`. */
  datatype Record = Record(size: nat, quick: Digest, full: Digest)

  type Records = map<Path, Record>

  /** The record tells the truth about the content, as far as it tells anything. */
  predicate Truthful(r: Record, content: Bytes) {
    && (r.quick.Sha256? ==> r.size == |content| && r.quick == Sha256(Sample(content)))
    && (r.full.Sha256? ==> r.full == Sha256(content))
  }

  /** The session's own records take precedence over the cached prefix. */
  function ByPath(cache: Records, boundary: Path, session: Records): Records {
    (map p | p in cache && AtMost(p, boundary) :: cache[p]) + session
  }

  predicate Peers(a: Record, b: Record) {
    a.quick.Sha256? && a.size == b.size && a.quick == b.quick
  }

  /** A path's group has a second member and one whose full hash is still missing. */
  ghost predicate InPendingGroup(all: Records, p: Path)
    requires p in all
  {
    && all[p].quick.Sha256?
    && (exists q <- all :: q != p && Peers(all[p], all[q]))
    && (exists q <- all :: Peers(all[p], all[q]) && all[q].full.NoDigest?)
  }

  ghost predicate IsCandidate(all: Records, boundary: Path, visited: set<Path>, p: Path) {
    p in all && AtMost(p, boundary) && p !in visited && InPendingGroup(all, p)
  }

  type GroupKey = (nat, Digest)

  function KeyOf(r: Record): GroupKey { (r.size, r.quick) }

  ghost function Group(all: Records, among: set<Path>, key: GroupKey): set<Path> {
    set p | p in among && p in all && all[p].quick.Sha256? && KeyOf(all[p]) == key
  }

  lemma GroupOneMore(all: Records, seen: set<Path>, p: Path)
    requires p in all
    ensures forall key :: Group(all, seen + {p}, key) ==
              Group(all, seen, key) + (if all[p].quick.Sha256? && KeyOf(all[p]) == key then {p} else {})
  {
  }

  method GroupRecords(all: Records) returns (groups: map<GroupKey, set<Path>>)
    ensures forall key <- groups :: groups[key] == Group(all, all.Keys, key)
    ensures forall p <- all :: all[p].quick.Sha256? ==> KeyOf(all[p]) in groups
  {
    groups := map[];
    var todo := all.Keys;
    while todo != {}
      invariant todo <= all.Keys
      invariant forall key <- groups :: groups[key] == Group(all, all.Keys - todo, key)
      invariant forall p <- all :: p !in todo && all[p].quick.Sha256? ==> KeyOf(all[p]) in groups
      decreases |todo|
    {
      var p :| p in todo;
      ghost var seen := all.Keys - todo;
      todo := todo - {p};
      assert all.Keys - todo == seen + {p};
      GroupOneMore(all, seen, p);
      if all[p].quick.Sha256? {
        var key := KeyOf(all[p]);
        assert forall q <- Group(all, seen, key) :: KeyOf(all[q]) in groups && KeyOf(all[q]) == key;
        groups := groups[key := (if key in groups then groups[key] else {}) + {p}];
      }
    }
  }

  /** resumeHashCandidates: groups, then the groups with a second member and a pending one, then
      their unvisited members in the prefix. */
  method ResumeHashCandidates(cache: Records, boundary: Path, session: Records, visited: set<Path>)
        returns (selected: set<Path>)
    ensures forall p :: p in selected <==> IsCandidate(ByPath(cache, boundary, session), boundary, visited, p)
  {
    var all := ByPath(cache, boundary, session);
    var groups := GroupRecords(all);
    selected := {};
    var keys := groups.Keys;
    while keys != {}
      invariant keys <= groups.Keys
      invariant forall p :: p in selected <==> IsCandidate(all, boundary, visited, p) && KeyOf(all[p]) !in keys
      decreases |keys|
    {
      var key :| key in keys;
      keys := keys - {key};
      var group := groups[key];
      forall p | p in group ensures InPendingGroup(all, p) <==> IsPending(all, group) { PendingGroup(all, group, p); }
      if IsPending(all, group) {
        selected := selected + set p | p in group && AtMost(p, boundary) && p !in visited;
      }
    }
  }

  predicate IsPending(all: Records, group: set<Path>)
    requires group <= all.Keys
  {
    |group| >= 2 && exists q <- group :: all[q].full.NoDigest?
  }

  lemma PendingGroup(all: Records, group: set<Path>, p: Path)
    requires p in all && p in group && group == Group(all, all.Keys, KeyOf(all[p]))
    ensures InPendingGroup(all, p) <==> IsPending(all, group)
  {
    assert forall q <- all :: q in group <==> Peers(all[p], all[q]);
    if q :| q in group && q != p {
      assert {p, q} <= group;
      SubsetIsNoLarger({p, q}, group);
    } else {
      assert group == {p};
    }
  }

  /******* The world of one resumed scan *******/

  /** What the source holds: the visible files, with their contents. */
  type Source = map<Path, Bytes>

  /** `reusable` are the files whose cached hash may be reused, `unreadable` those whose sample cannot be
      taken and `unhashable` those whose full hash fails; `closed` are the directories that cannot be
      read. A file read twice in one scan reads the same. */
  datatype World = World(source: Source, cache: Records, boundary: Path,
                         reusable: set<Path>, unreadable: set<Path>, unhashable: set<Path>, closed: set<Path>)

  function ReadFile(w: World, p: Path): Record
    requires p in w.source
  {
    if p in w.reusable && p in w.cache && w.cache[p].quick.Sha256? then w.cache[p]
    else if p in w.unreadable then Record(|w.source[p]|, NoDigest, NoDigest)
    else Record(|w.source[p]|, Sha256(Sample(w.source[p])), NoDigest)
  }

  /** What a scan restricted to the selected paths visits: also a file that stands where a directory on
      the way to a selected path is expected. */
  function Observed(source: Source, selected: set<Path>): set<Path> {
    set p | p in source && (p in selected || Ancestor(Only(selected), p))
  }

  /** That is what the restricted walk of a tree with these visible files visits. */
  lemma ObservedIsTheWalk(o: Options, root: string, tree: Node, source: Source, selected: set<Path>)
    requires o.selection == Everything && WellFormed(tree)
    requires forall p :: p in source <==> p in Visits(Walk(o, root, tree))
    ensures forall p :: p in Observed(source, selected) <==>
            p in Visits(Walk(o.(selection := Only(selected)), root, tree))
  {
    var visible := Visits(Walk(o, root, tree));
    SelectedDir(o, Only(selected), root, tree);
    forall p ensures p in Observed(source, selected) <==> p in Among(visible, Only(selected)) {
      AmongMembers(visible, Only(selected), p);
    }
  }

  /** The pass sees as many files as it asked for, and no directory on the way fails. */
  predicate Complete(w: World, selected: set<Path>) {
    |Observed(w.source, selected)| == |selected| &&
    !exists d <- w.closed :: d in selected || Ancestor(Only(selected), d)
  }

  /******* The resume loop *******/

  datatype Resumption = Resumption(session: Records, visited: set<Path>)

  ghost function Candidates(w: World, s: Resumption): set<Path> {
    var all := ByPath(w.cache, w.boundary, s.session);
    set p | p in all && IsCandidate(all, w.boundary, s.visited, p)
  }

  /** The loop goes on after this pass. */
  ghost predicate GoesOn(w: World, s: Resumption) {
    Candidates(w, s) != {} && Complete(w, Candidates(w, s))
  }

  function Reads(w: World, paths: set<Path>): Records {
    map p | p in paths && p in w.source :: ReadFile(w, p)
  }

  lemma ReadsOneFirst(w: World, session: Records, paths: set<Path>, p: Path)
    requires p in w.source && p in paths
    ensures session[p := ReadFile(w, p)] + Reads(w, paths - {p}) == session + Reads(w, paths)
  {
  }

  ghost function Pass(w: World, s: Resumption): Resumption {
    var observed := Observed(w.source, Candidates(w, s));
    Resumption(s.session + Reads(w, observed), s.visited + observed)
  }

  /** The state after n passes, or where the loop has ended before. */
  ghost function Nth(w: World, s: Resumption, n: nat): Resumption {
    if n == 0 then s else Next(w, Nth(w, s, n - 1))
  }

  ghost function Next(w: World, s: Resumption): Resumption {
    if GoesOn(w, s) then Pass(w, s) else s
  }

  ghost predicate Ends(w: World, s: Resumption) {
    exists n: nat :: EndsAt(w, s, n)
  }

  /** The pass sees as many files as it asked for, and all of them have been visited already. */
  ghost predicate Stuck(w: World, s: Resumption) {
    GoesOn(w, s) && Observed(w.source, Candidates(w, s)) <= s.visited
  }

  /** Files of the session are visible and as they are read, and in the prefix they have been visited. */
  ghost predicate Sound(w: World, s: Resumption) {
    && s.session.Keys <= w.source.Keys && s.visited <= s.session.Keys
    && forall p <- s.session :: s.session[p] == ReadFile(w, p) && (AtMost(p, w.boundary) ==> p in s.visited)
  }

  lemma PassIsSound(w: World, s: Resumption)
    requires Sound(w, s)
    ensures Sound(w, Pass(w, s))
  {
  }

  lemma CandidatesAreUnvisited(w: World, s: Resumption)
    ensures Candidates(w, s) !! s.visited
    ensures forall p <- Candidates(w, s) :: AtMost(p, w.boundary) && (p in w.cache || p in s.session)
  {
  }

  /** A stuck pass changes nothing: the next one is as stuck. */
  lemma StuckStays(w: World, s: Resumption)
    requires Sound(w, s) && Stuck(w, s)
    ensures Pass(w, s) == s
  {
    var observed := Observed(w.source, Candidates(w, s));
    assert s.visited + observed == s.visited;
    assert s.session + Reads(w, observed) == s.session;
  }

  /** Every other complete pass visits a file for the first time. */
  lemma PassShrinks(w: World, s: Resumption)
    requires GoesOn(w, s) && !Stuck(w, s)
    ensures |w.source.Keys - Pass(w, s).visited| < |w.source.Keys - s.visited|
  {
    var observed := Observed(w.source, Candidates(w, s));
    var p :| p in observed && p !in s.visited;
    assert p in w.source.Keys - s.visited && p !in w.source.Keys - Pass(w, s).visited;
    ProperSubsetIsSmaller(w.source.Keys - Pass(w, s).visited, w.source.Keys - s.visited);
  }

  /** Neither an ended nor a stuck state changes any more. */
  lemma {:induction false} NothingChanges(w: World, s: Resumption, m: nat, n: nat)
    requires m <= n && Next(w, Nth(w, s, m)) == Nth(w, s, m)
    ensures Nth(w, s, n) == Nth(w, s, m)
  {
    if m < n { NothingChanges(w, s, m, n - 1); }
  }

  lemma {:induction false} NthIsSound(w: World, s: Resumption, n: nat)
    requires Sound(w, s)
    ensures Sound(w, Nth(w, s, n))
  {
    if n > 0 {
      NthIsSound(w, s, n - 1);
      PassIsSound(w, Nth(w, s, n - 1));
    }
  }

  /** From the n-th pass on, the loop comes to its end or to a stuck state. */
  lemma {:induction false} EndsOrSticks(w: World, s: Resumption, n: nat) returns (m: nat)
    requires Sound(w, s)
    ensures !GoesOn(w, Nth(w, s, m)) || Stuck(w, Nth(w, s, m))
    decreases |w.source.Keys - Nth(w, s, n).visited|
  {
    m := n;
    if GoesOn(w, Nth(w, s, n)) && !Stuck(w, Nth(w, s, n)) {
      PassShrinks(w, Nth(w, s, n));
      assert Nth(w, s, n + 1) == Pass(w, Nth(w, s, n));
      m := EndsOrSticks(w, s, n + 1);
    }
  }

  ghost predicate StuckAt(w: World, s: Resumption, n: nat) {
    Stuck(w, Nth(w, s, n))
  }

  /** The loop ends if and only if it reaches no stuck state. */
  lemma EndsUnlessStuck(w: World, s: Resumption)
    requires Sound(w, s)
    ensures Ends(w, s) <==> !exists n: nat :: StuckAt(w, s, n)
  {
    var m := EndsOrSticks(w, s, 0);
    assert EndsAt(w, s, m) || StuckAt(w, s, m);
    if n: nat :| StuckAt(w, s, n) {
      forall k: nat ensures !EndsAt(w, s, k) { GoesOnForever(w, s, n, k); }
    }
  }

  lemma GoesOnForever(w: World, s: Resumption, n: nat, k: nat)
    requires Sound(w, s) && StuckAt(w, s, n)
    ensures !EndsAt(w, s, k)
  {
    if n <= k {
      NthIsSound(w, s, n);
      StuckStays(w, Nth(w, s, n));
      NothingChanges(w, s, n, k);
    } else if !GoesOn(w, Nth(w, s, k)) {
      NothingChanges(w, s, k, n);
    }
  }

  ghost predicate EndsAt(w: World, s: Resumption, n: nat) {
    !GoesOn(w, Nth(w, s, n))
  }

  /** The cached rows a resumed scan relies on. */
  function Prefix(cache: Records, boundary: Path): set<Path> {
    set c | c in cache && AtMost(c, boundary)
  }

  predicate NothingInTheWay(w: World) {
    forall p <- w.source :: !Ancestor(Only(Prefix(w.cache, w.boundary)), p)
  }

  /** With nothing in the way no state is stuck. */
  lemma NothingInTheWayNeverSticks(w: World, s: Resumption)
    requires Sound(w, s) && NothingInTheWay(w)
    ensures !Stuck(w, s)
  {
    var selected := Candidates(w, s);
    CandidatesAreUnvisited(w, s);
    forall p | p in Observed(w.source, selected) ensures p in selected {
      AncestorOfMore(selected, Prefix(w.cache, w.boundary), p);
    }
    assert Stuck(w, s) ==> Observed(w.source, selected) == {};
  }

  lemma AncestorOfMore(a: set<Path>, b: set<Path>, p: Path)
    requires a <= b
    ensures Ancestor(Only(a), p) ==> Ancestor(Only(b), p)
  {
  }

  lemma NothingInTheWayEnds(w: World, s: Resumption)
    requires Sound(w, s) && NothingInTheWay(w)
    ensures Ends(w, s)
  {
    EndsUnlessStuck(w, s);
    if n: nat :| StuckAt(w, s, n) {
      NthIsSound(w, s, n);
      NothingInTheWayNeverSticks(w, Nth(w, s, n));
    }
  }

  /******* A loop that does not end *******/

  /** The directory "r/a" has become a file since "r/a/b" was cached. */
  const REPLACED: World := World(
    map["r/a" := "d", "r/z" := "c"],
    map["r/a/b" := Record(1, Sha256("c"), NoDigest), "r/z" := Record(1, Sha256("c"), Sha256("c"))],
    "r/z", {"r/z"}, {}, {}, {})

  const NOTHING_YET: Resumption := Resumption(map[], {})
  const ONE_PASS: Resumption :=
    Resumption(map["r/a" := Record(1, Sha256("d"), NoDigest), "r/z" := Record(1, Sha256("c"), Sha256("c"))],
        {"r/a", "r/z"})

  lemma BelowZ(p: Path)
    requires p == "r/a/b" || p == "r/a" || p == "r/z"
    ensures AtMost(p, "r/z")
  {
    assert p[1..][1..] == p[2..];
    assert p != "r/z" ==> Less(p[2..], "z");
  }

  lemma BothPending(all: Records)
    requires "r/a/b" in all && "r/z" in all && all["r/a/b"] == Record(1, Sha256("c"), NoDigest)
    requires all["r/z"] == Record(1, Sha256("c"), Sha256("c"))
    ensures InPendingGroup(all, "r/a/b") && InPendingGroup(all, "r/z")
  {
    assert Peers(all["r/a/b"], all["r/z"]) && Peers(all["r/z"], all["r/a/b"]) && Peers(all["r/a/b"], all["r/a/b"]);
  }

  lemma InTheWay(selected: set<Path>)
    requires "r/a/b" in selected && selected <= {"r/a/b", "r/z"}
    ensures Observed(REPLACED.source, selected) == {"r/a"} + (if "r/z" in selected then {"r/z"} else {})
  {
    assert "r/a" + "/" == "r/a/" && "r/a/" <= "r/a/b";
    assert Above("r/a", "r/a/b");
    assert "r/z" + "/" == "r/z/" && "r/z/"[2] != "r/a/b"[2];
    assert !Above("r/z", "r/a/b") && !Above("r/z", "r/z");
    assert !Above("r/a", "r/z") by { assert "r/a/"[2] != "r/z"[2]; }
  }

  lemma FirstPass()
    ensures Candidates(REPLACED, NOTHING_YET) == {"r/a/b", "r/z"}
    ensures GoesOn(REPLACED, NOTHING_YET) && Pass(REPLACED, NOTHING_YET) == ONE_PASS
  {
    FirstCandidates();
    InTheWay({"r/a/b", "r/z"});
  }

  lemma FirstCandidates()
    ensures Candidates(REPLACED, NOTHING_YET) == {"r/a/b", "r/z"}
  {
    BelowZ("r/a/b");
    BelowZ("r/z");
    assert ByPath(REPLACED.cache, "r/z", map[]) == REPLACED.cache;
    BothPending(REPLACED.cache);
  }

  lemma SecondPass()
    ensures Candidates(REPLACED, ONE_PASS) == {"r/a/b"} && Stuck(REPLACED, ONE_PASS)
  {
    SecondCandidates();
    InTheWay({"r/a/b"});
  }

  lemma SecondCandidates()
    ensures Candidates(REPLACED, ONE_PASS) == {"r/a/b"}
  {
    BelowZ("r/a/b");
    BelowZ("r/z");
    var all := ByPath(REPLACED.cache, "r/z", ONE_PASS.session);
    assert all == REPLACED.cache["r/a" := Record(1, Sha256("d"), NoDigest)];
    BothPending(all);
    assert forall p :: p in Candidates(REPLACED, ONE_PASS) <==> p == "r/a/b";
  }

  /** With a file in the way the loop may never end: the first pass sees as many files as it asked for,
      though not the ones it asked for, and every later pass asks for the same path and sees the same file. */
  lemma AFileInTheWayRepeatsForever()
    ensures Sound(REPLACED, NOTHING_YET) && StuckAt(REPLACED, NOTHING_YET, 1) && !Ends(REPLACED, NOTHING_YET)
  {
    FirstPass();
    SecondPass();
    assert Nth(REPLACED, NOTHING_YET, 0) == NOTHING_YET;
    assert Nth(REPLACED, NOTHING_YET, 1) == Next(REPLACED, NOTHING_YET) == ONE_PASS;
    assert StuckAt(REPLACED, NOTHING_YET, 1);
    EndsUnlessStuck(REPLACED, NOTHING_YET);
  }

  /******* Files of the session, and the second stage *******/

  /** A visit of a file; a path visited again appears again. */
  datatype Visited = Visited(path: Path, record: Record)

  /** The last visit of a path counts. */
  function Latest(files: seq<Visited>): Records {
    if files == [] then map[] else Latest(files[..|files| - 1])[files[|files| - 1].path := files[|files| - 1].record]
  }

  lemma LatestThen(files: seq<Visited>, f: Visited)
    ensures Latest(files + [f]) == Latest(files)[f.path := f.record]
  {
    assert (files + [f])[..|files|] == files;
  }

  lemma {:induction false} LatestIsAVisit(files: seq<Visited>, p: Path) returns (i: nat)
    requires p in Latest(files)
    ensures i < |files| && files[i] == Visited(p, Latest(files)[p])
  {
    i := |files| - 1;
    if files[i].path != p { i := LatestIsAVisit(files[..i], p); }
  }

  /** Another visit shares size and sample. */
  predicate HasPeer(files: seq<Visited>, i: nat)
    requires i < |files|
  {
    files[i].record.quick.Sha256? &&
    exists k :: 0 <= k < |files| && k != i && files[k].record.quick.Sha256? &&
        KeyOf(files[k].record) == KeyOf(files[i].record)
  }

  /** A visit that has a peer and no full hash gets one, unless that fails. */
  function Hashed(w: World, files: seq<Visited>, i: nat): Visited
    requires i < |files| && files[i].path in w.source
  {
    var f := files[i];
    if HasPeer(files, i) && f.record.full.NoDigest? && f.path !in w.unhashable
    then f.(record := f.record.(full := Sha256(w.source[f.path])))
    else f
  }

  predicate Fails(w: World, files: seq<Visited>, i: nat)
    requires i < |files|
  {
    HasPeer(files, i) && files[i].record.full.NoDigest? && files[i].path in w.unhashable
  }

  /** The paths whose sample could not be taken. */
  function QuickFailures(files: seq<Visited>): set<Path> {
    set f | f in files && f.record.quick.NoDigest? :: f.path
  }

  lemma QuickFailuresThen(files: seq<Visited>, f: Visited)
    ensures QuickFailures(files + [f]) == QuickFailures(files) + if f.record.quick.NoDigest? then {f.path} else {}
  {
  }

  ghost function AllFailed(w: World, files: seq<Visited>): set<Path> {
    set i | 0 <= i < |files| && Fails(w, files, i) :: files[i].path
  }

  ghost function FailedBelow(w: World, files: seq<Visited>, i: nat): set<Path>
    requires i <= |files|
  {
    if i == 0 then {} else FailedBelow(w, files, i - 1) + if Fails(w, files, i - 1) then {files[i - 1].path} else {}
  }

  lemma FailedOneMore(w: World, files: seq<Visited>, before: set<Path>, i: nat)
    requires i < |files|
    ensures before + FailedBelow(w, files, i + 1) ==
            before + FailedBelow(w, files, i) + if Fails(w, files, i) then {files[i].path} else {}
  {
  }

  lemma {:induction false} FailedBelowIs(w: World, files: seq<Visited>, i: nat)
    requires i <= |files|
    ensures FailedBelow(w, files, i) == set k | 0 <= k < i && Fails(w, files, k) :: files[k].path
  {
    if i > 0 { FailedBelowIs(w, files, i - 1); }
  }

  lemma AllFailedBelow(w: World, files: seq<Visited>)
    ensures FailedBelow(w, files, |files|) == AllFailed(w, files)
  {
    FailedBelowIs(w, files, |files|);
  }

  /** The first i visits have been dealt with. */
  ghost predicate HashedSoFar(w: World, before: seq<Visited>, files: seq<Visited>, i: nat)
    requires AsRead(w, before)
  {
    |files| == |before| &&
    forall k :: 0 <= k < |before| ==> files[k] == if k < i then Hashed(w, before, k) else before[k]
  }

  lemma HashedOneMore(w: World, before: seq<Visited>, files: seq<Visited>, i: nat)
    requires AsRead(w, before) && i < |before| && HashedSoFar(w, before, files, i)
    ensures files[i] == before[i] && HashedSoFar(w, before, files[i := Hashed(w, before, i)], i + 1)
    ensures !IsPendingVisit(before, i) ==> files[i := Hashed(w, before, i)] == files && !Fails(w, before, i)
  {
  }

  ghost function Indexes(files: seq<Visited>, key: GroupKey): set<nat> {
    set i | 0 <= i < |files| && files[i].record.quick.Sha256? && KeyOf(files[i].record) == key
  }

  lemma TwoArePeers(files: seq<Visited>, i: nat)
    requires i < |files| && files[i].record.quick.Sha256?
    ensures |Indexes(files, KeyOf(files[i].record))| >= 2 <==> HasPeer(files, i)
  {
    var group := Indexes(files, KeyOf(files[i].record));
    if HasPeer(files, i) {
      var k :| 0 <= k < |files| && k != i && files[k].record.quick.Sha256? &&
          KeyOf(files[k].record) == KeyOf(files[i].record);
      SubsetIsNoLarger({i, k}, group);
    } else {
      assert group == {i};
    }
  }

  lemma IndexesGrow(files: seq<Visited>, i: nat)
    requires i < |files|
    ensures forall key :: Indexes(files[..i + 1], key) == (Indexes(files[..i], key) +
              if files[i].record.quick.Sha256? && KeyOf(files[i].record) == key then {i} else {})
  {
  }

  method GroupIndexes(files: seq<Visited>) returns (groups: map<GroupKey, set<nat>>)
    ensures forall key <- groups :: groups[key] == Indexes(files, key)
    ensures forall i :: 0 <= i < |files| && files[i].record.quick.Sha256? ==> KeyOf(files[i].record) in groups
  {
    groups := map[];
    for i := 0 to |files|
      invariant forall key <- groups :: groups[key] == Indexes(files[..i], key)
      invariant forall k :: 0 <= k < i && files[k].record.quick.Sha256? ==> KeyOf(files[k].record) in groups
    {
      ghost var before := files[..i];
      IndexesGrow(files, i);
      if files[i].record.quick.Sha256? {
        var key := KeyOf(files[i].record);
        assert key !in groups ==> Indexes(before, key) == {} by {
          assert forall k :: k in Indexes(before, key) ==> before[k] == files[k];
        }
        groups := groups[key := (if key in groups then groups[key] else {}) + {i}];
      }
    }
    assert files[..|files|] == files;
  }

  /** The visits of groups of two or more that have no full hash. */
  method PendingVisits(files: seq<Visited>) returns (pending: set<nat>)
    ensures forall i: nat :: i in pending <==> IsPendingVisit(files, i)
  {
    var groups := GroupIndexes(files);
    pending := {};
    var keys := groups.Keys;
    while keys != {}
      invariant keys <= groups.Keys
      invariant forall i: nat :: i in pending <==> IsPendingVisit(files, i) && KeyOf(files[i].record) !in keys
      decreases |keys|
    {
      var key :| key in keys;
      forall i: nat ensures i in groups[key] && |groups[key]| >= 2 && files[i].record.full.NoDigest? <==>
                            IsPendingVisit(files, i) && KeyOf(files[i].record) == key
      {
        if i < |files| && files[i].record.quick.Sha256? { TwoArePeers(files, i); }
      }
      keys := keys - {key};
      if |groups[key]| >= 2 {
        pending := pending + set i | i in groups[key] && files[i].record.full.NoDigest?;
      }
    }
  }

  predicate IsPendingVisit(files: seq<Visited>, i: nat) {
    i < |files| && HasPeer(files, i) && files[i].record.full.NoDigest?
  }

  class Resume {
    const w: World
    var files: seq<Visited>
    var visited: set<Path>
    var failures: set<Path>

    /** After the traversal behind the boundary, which has visited these files. */
    constructor (w: World, traversed: seq<Visited>)
      requires AsRead(w, traversed) && forall f <- traversed :: !AtMost(f.path, w.boundary)
      ensures this.w == w && files == traversed && visited == {} && Valid()
    {
      this.w, files, visited := w, traversed, {};
      failures := QuickFailures(traversed);
      new;
      AllAsRead(w, traversed);
    }

    ghost function State(): Resumption
      reads this
    {
      Resumption(Latest(files), visited)
    }

    ghost predicate Valid()
      reads this
    {
      && AsRead(w, files) && Sound(w, State())
      && failures == QuickFailures(files)
    }

    /** A cached hash is reused, or a fresh sample taken; a failed read leaves no hash and is recorded. */
    method VisitFile(p: Path)
      requires p in w.source && Valid()
      modifies this
      ensures Valid() && files == old(files) + [Visited(p, ReadFile(w, p))] && visited == old(visited) + {p}
      ensures Latest(files) == Latest(old(files))[p := ReadFile(w, p)]
    {
      var r := ReadOnce(p);
      VisitIsSound(w, files, visited, p);
      QuickFailuresThen(files, Visited(p, r));
      if r.quick.NoDigest? { failures := failures + {p}; }
      files := files + [Visited(p, r)];
      visited := visited + {p};
    }

    method ReadOnce(p: Path) returns (r: Record)
      requires p in w.source
      ensures r == ReadFile(w, p)
    {
      if p in w.reusable && p in w.cache && w.cache[p].quick.Sha256? {
        r := w.cache[p];
      } else if p in w.unreadable {
        r := Record(|w.source[p]|, NoDigest, NoDigest);
      } else {
        var fed := QuickReader(w.source[p], |w.source[p]|);
        r := Record(|w.source[p]|, Sha256(fed.value), NoDigest);
      }
    }

    method VisitAll(paths: set<Path>)
      requires Valid() && paths <= w.source.Keys
      modifies this
      ensures Valid() && visited == old(visited) + paths
      ensures Latest(files) == Latest(old(files)) + Reads(w, paths)
      decreases |paths|
    {
      if paths == {} {
        assert Latest(files) + Reads(w, {}) == Latest(files);
        return;
      }
      var p :| p in paths;
      ReadsOneFirst(w, Latest(files), paths, p);
      assert visited + {p} + (paths - {p}) == visited + paths;
      VisitFile(p);
      VisitAll(paths - {p});
    }

    /** One restricted scan of the candidates, if there are any; it is not complete when it does not see as
        many files as it asked for or a directory fails. */
    method OnePass() returns (left: bool, complete: bool)
      requires Valid()
      modifies this
      ensures Valid() && Latest(files).Keys >= old(Latest(files).Keys)
      ensures left <==> Candidates(w, old(State())) != {}
      ensures left ==> complete == Complete(w, Candidates(w, old(State()))) && State() == Pass(w, old(State()))
      ensures !left ==> State() == old(State())
    {
      var selected := ResumeHashCandidates(w.cache, w.boundary, Latest(files), visited);
      assert selected == Candidates(w, State());
      if selected == {} { return false, true; }
      VisitAll(Observed(w.source, selected));
      return true, Complete(w, selected);
    }

    /** Revisits candidates until none is left, or gives up after a pass that is not complete. */
    method RevisitCandidates() returns (ok: bool)
      requires Valid() && Ends(w, State())
      modifies this
      ensures Valid()
      ensures Outcome(w, old(State()), ok)
      ensures ok ==> Candidates(w, State()) == {} && Latest(files).Keys >= old(Latest(files).Keys)
    {
      ghost var start := State();
      ghost var n: nat :| EndsAt(w, start, n);
      ghost var k: nat := 0;
      while true
        invariant Valid() && State() == Nth(w, start, k) && Latest(files).Keys >= start.session.Keys
        decreases n - k
      {
        var left, complete := OnePass();
        if !left || !complete {
          assert EndsAt(w, start, k);
          return !left;
        }
        StillBeforeTheEnd(w, start, n, k);
        k := k + 1;
      }
    }

    /** The second stage: every visit that shares size and sample with another and has no full hash is hashed. */
    method FullHash()
      requires AsRead(w, files)
      modifies this
      ensures |files| == |old(files)| && forall i :: 0 <= i < |files| ==> files[i] == Hashed(w, old(files), i)
      ensures failures == old(failures) + AllFailed(w, old(files))
    {
      ghost var before := files;
      var pending := PendingVisits(files);
      for i := 0 to |files|
        invariant HashedSoFar(w, before, files, i)
        invariant failures == old(failures) + FailedBelow(w, before, i)
      {
        FailedOneMore(w, before, old(failures), i);
        HashedOneMore(w, before, files, i);
        if i in pending { HashOne(i, before); }
      }
      AllFailedBelow(w, before);
    }

    /** One full hash, which may fail. */
    method HashOne(i: nat, ghost before: seq<Visited>)
      requires AsRead(w, before) && i < |files| == |before| && files[i] == before[i]
      requires IsPendingVisit(before, i)
      modifies this
      ensures files == old(files)[i := Hashed(w, before, i)]
      ensures failures == old(failures) + if before[i].path in w.unhashable then {before[i].path} else {}
    {
      var f := files[i];
      assert before[i] in before;
      if f.path in w.unhashable {
        failures := failures + {f.path};
      } else {
        files := files[i := f.(record := f.record.(full := Sha256(w.source[f.path])))];
      }
    }

    /** What follows the traversal of a resumed scan: the resume loop, then the second stage. When nothing
        fails, the rows of any two visible files share a full hash exactly when their contents are equal. */
    method FinishHashing() returns (ok: bool)
      requires Valid() && Ends(w, State()) && CoversTheSource(w, Latest(files)) && HonestCache(w)
      modifies this
      ensures ok && failures == {} ==> FindsAllDuplicates(w.source, ByPath(w.cache, w.boundary, Latest(files)))
    {
      ok := RevisitCandidates();
      if !ok { return; }
      ghost var before := files;
      NoneLeft(w, State());
      FullHash();
      if failures == {} {
        NothingFailed(w, before, failures);
        TwoStagesFindAllDuplicates(w, before, files);
      }
    }
  }

  lemma VisitIsSound(w: World, files: seq<Visited>, visited: set<Path>, p: Path)
    requires AsRead(w, files) && Sound(w, Resumption(Latest(files), visited)) && p in w.source
    ensures var files' := files + [Visited(p, ReadFile(w, p))];
      && AsRead(w, files') && Latest(files') == Latest(files)[p := ReadFile(w, p)]
      && Sound(w, Resumption(Latest(files'), visited + {p}))
  {
    LatestThen(files, Visited(p, ReadFile(w, p)));
  }

  ghost predicate AsRead(w: World, files: seq<Visited>) {
    forall f <- files :: f.path in w.source && f.record == ReadFile(w, f.path)
  }

  lemma AllAsRead(w: World, files: seq<Visited>)
    requires AsRead(w, files)
    ensures Latest(files).Keys <= w.source.Keys
    ensures forall p <- Latest(files) :: Latest(files)[p] == ReadFile(w, p) && exists f <- files :: f.path == p
  {
    forall p | p in Latest(files)
      ensures p in w.source && Latest(files)[p] == ReadFile(w, p) && exists f <- files :: f.path == p
    {
      var i := LatestIsAVisit(files, p);
      assert files[i] in files;
    }
  }

  /** The loop ends after some pass, well if and only if no candidate is left then. */
  ghost predicate Outcome(w: World, s: Resumption, ok: bool) {
    exists n: nat :: EndsAt(w, s, n) && (ok <==> Candidates(w, Nth(w, s, n)) == {})
  }

  lemma StillBeforeTheEnd(w: World, s: Resumption, n: nat, k: nat)
    requires EndsAt(w, s, n) && GoesOn(w, Nth(w, s, k))
    ensures k < n && Nth(w, s, k + 1) == Pass(w, Nth(w, s, k))
  {
    if n <= k { NothingChanges(w, s, n, k); }
  }

  lemma NothingFailed(w: World, files: seq<Visited>, failures: set<Path>)
    requires failures == QuickFailures(files) + AllFailed(w, files)
    requires failures == {}
    ensures forall f <- files :: f.record.quick.Sha256?
    ensures forall i :: 0 <= i < |files| ==> !Fails(w, files, i)
  {
    forall f | f in files ensures f.record.quick.Sha256? { assert f.path !in failures; }
    forall i | 0 <= i < |files| ensures !Fails(w, files, i) {
      assert files[i].path !in failures;
    }
  }

  lemma NoneLeft(w: World, s: Resumption)
    requires Sound(w, s) && Candidates(w, s) == {}
    ensures var all := ByPath(w.cache, w.boundary, s.session);
      forall p <- all :: AtMost(p, w.boundary) && InPendingGroup(all, p) ==> p in s.session
  {
    var all := ByPath(w.cache, w.boundary, s.session);
    forall p | p in all && AtMost(p, w.boundary) && InPendingGroup(all, p) ensures p in s.session {
      assert p !in Candidates(w, s);
    }
  }

  /******* What the two stages find *******/

  /** Behind the boundary every visible file has been traversed, and up to it every one has a cached row. */
  ghost predicate CoversTheSource(w: World, session: Records) {
    forall p <- w.source :: if AtMost(p, w.boundary) then p in w.cache else p in session
  }

  /** Cached rows of the prefix were sampled and tell the truth about files that are still there. */
  ghost predicate HonestCache(w: World) {
    forall p <- w.cache :: p in w.source ==>
        Truthful(w.cache[p], w.source[p]) && (AtMost(p, w.boundary) ==> w.cache[p].quick.Sha256?)
  }

  /** Grouping by full hash is grouping by content. */
  ghost predicate FindsAllDuplicates(source: Source, rows: Records) {
    forall p, q :: p in source && q in source && p != q ==>
      p in rows && q in rows && ((rows[p].full.Sha256? && rows[p].full == rows[q].full) <==> source[p] == source[q])
  }

  lemma ReadsAreTruthful(w: World, p: Path)
    requires HonestCache(w) && p in w.source
    ensures Truthful(ReadFile(w, p), w.source[p])
  {
  }

  /** What the second stage starts from and what it makes of it, when nothing has failed. */
  ghost predicate SecondStage(w: World, before: seq<Visited>, after: seq<Visited>) {
    && AsRead(w, before) && CoversTheSource(w, Latest(before)) && HonestCache(w)
    && (forall f <- before :: f.record.quick.Sha256?)
    && |after| == |before|
    && (forall i :: 0 <= i < |before| ==> after[i] == Hashed(w, before, i) && !Fails(w, before, i))
    && forall p <- ByPath(w.cache, w.boundary, Latest(before)) ::
         AtMost(p, w.boundary) && InPendingGroup(ByPath(w.cache, w.boundary, Latest(before)), p) ==> p in Latest(before)
  }

  lemma {:induction false} LatestOfBoth(before: seq<Visited>, after: seq<Visited>, p: Path) returns (i: nat)
    requires |after| == |before| && forall k :: 0 <= k < |before| ==> after[k].path == before[k].path
    requires p in Latest(before)
    ensures p in Latest(after) && i < |before| && before[i].path == p
    ensures Latest(before)[p] == before[i].record && Latest(after)[p] == after[i].record
    decreases |before|
  {
    i := |before| - 1;
    if before[i].path != p { i := LatestOfBoth(before[..i], after[..i], p); }
  }

  lemma {:induction false} NoNewPaths(before: seq<Visited>, after: seq<Visited>, p: Path)
    requires |after| == |before| && forall k :: 0 <= k < |before| ==> after[k].path == before[k].path
    ensures p in Latest(after) ==> p in Latest(before)
    decreases |before|
  {
    if before != [] { NoNewPaths(before[..|before| - 1], after[..|before| - 1], p); }
  }

  /** Every visible file has an honest row before and after, and a full hash it had is kept. */
  lemma RowsAreHonest(w: World, before: seq<Visited>, after: seq<Visited>, p: Path)
    requires SecondStage(w, before, after) && p in w.source
    ensures var (all, rows) := (ByPath(w.cache, w.boundary, Latest(before)),
            ByPath(w.cache, w.boundary, Latest(after)));
      && p in all && p in rows && Truthful(all[p], w.source[p]) && Truthful(rows[p], w.source[p])
      && all[p].quick.Sha256? && (all[p].full.Sha256? ==> rows[p].full == all[p].full)
  {
    if p in Latest(before) {
      var i := LatestOfBoth(before, after, p);
      assert before[i] in before;
      ReadsAreTruthful(w, p);
    } else {
      NoNewPaths(before, after, p);
    }
  }

  lemma SameContentIsHashed(w: World, before: seq<Visited>, after: seq<Visited>, p: Path, q: Path)
    requires SecondStage(w, before, after) && p in w.source && q in w.source && p != q && w.source[p] == w.source[q]
    ensures var rows := ByPath(w.cache, w.boundary, Latest(after)); p in rows && rows[p].full.Sha256?
  {
    RowsAreHonest(w, before, after, p);
    RowsAreHonest(w, before, after, q);
    var all := ByPath(w.cache, w.boundary, Latest(before));
    if all[p].full.NoDigest? {
      assert Peers(all[p], all[q]) && Peers(all[q], all[p]) && Peers(all[p], all[p]);
      assert InPendingGroup(all, p) && InPendingGroup(all, q);
      var i := LatestOfBoth(before, after, p);
      var k := LatestOfBoth(before, after, q);
      assert HasPeer(before, i);
    }
  }

  /** Once the resume loop has ended, hashing in full only the visits that share size and sample finds what
      hashing every visible file would find. */
  lemma TwoStagesFindAllDuplicates(w: World, before: seq<Visited>, after: seq<Visited>)
    requires SecondStage(w, before, after)
    ensures FindsAllDuplicates(w.source, ByPath(w.cache, w.boundary, Latest(after)))
  {
    var rows := ByPath(w.cache, w.boundary, Latest(after));
    forall p, q | p in w.source && q in w.source && p != q
      ensures p in rows && q in rows &&
              ((rows[p].full.Sha256? && rows[p].full == rows[q].full) <==> w.source[p] == w.source[q])
    {
      RowsAreHonest(w, before, after, p);
      RowsAreHonest(w, before, after, q);
      if w.source[p] == w.source[q] {
        SameContentIsHashed(w, before, after, p, q);
        SameContentIsHashed(w, before, after, q, p);
      }
    }
  }
}
