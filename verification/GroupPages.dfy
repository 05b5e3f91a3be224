/** Listing duplicate groups page by page: each page is one query, and its last group is where the next one starts. */
module GroupPages {
  import opened Collections
  import opened PhysicalCopies
  import opened PathOrder

  /** A group by its place in the order of the listing; also the cursor that resumes behind it. */
  datatype Entry = Entry(estimate: int, sha: string, storage: string)

  /** Defaults of the query: an empty storage and a bound of zero filter nothing. */
  datatype Query = Query(storage: string, minReclaimable: int, cursor: Option<Entry>, pageSize: int)

  datatype Summary = Summary(storage: string, sha: string, size: nat, pathCount: nat, stats: PhysicalStats)

  datatype Page = Page(groups: seq<Summary>, next: Option<Entry>, total: nat)

  /******* Groups of a database *******/

  function Members(db: seq<Instance>, storage: string, sha: string): (r: seq<Instance>)
    ensures forall f <- r :: f in db && f.storage == storage && f.sha == sha
    ensures forall i :: 0 <= i < |r| ==> r[i].storage == storage
  {
    if db == [] then []
    else
      var first := if db[0].active && db[0].storage == storage && db[0].sha == sha then [db[0]] else [];
      first + Members(db[1..], storage, sha)
  }

  function MinSize(files: seq<Instance>): nat {
    if files == [] then 0
    else if |files| == 1 then files[0].size
    else
      var rest := MinSize(files[1..]);
      if files[0].size < rest then files[0].size else rest
  }

  /** The columns the store computes in SQL. */
  function EntryOf(db: seq<Instance>, storage: string, sha: string): Entry {
    var files := Members(db, storage, sha);
    Entry((|Elements(SqlKeys(files))| - 1) * MinSize(files), sha, storage)
  }

  predicate Listable(db: seq<Instance>, q: Query, f: Instance) {
    && (q.storage == "" || f.storage == q.storage)
    && f.active && f.sha != ""
    && |Members(db, f.storage, f.sha)| > 1
    && (q.minReclaimable > 0 ==> EntryOf(db, f.storage, f.sha).estimate >= q.minReclaimable)
  }

  ghost function Groups(db: seq<Instance>, q: Query): set<Entry> {
    set f | f in db && Listable(db, q, f) :: EntryOf(db, f.storage, f.sha)
  }

  /******* The order of the listing *******/

  predicate Before(a: Entry, b: Entry) {
    if a.estimate != b.estimate then a.estimate > b.estimate
    else if a.sha != b.sha then Less(a.sha, b.sha)
    else Less(a.storage, b.storage)
  }

  lemma BeforeIsTotal(a: Entry, b: Entry)
    ensures !(Before(a, b) && Before(b, a))
    ensures a == b <==> !Before(a, b) && !Before(b, a)
  {
    Total(a.sha, b.sha);
    Total(a.storage, b.storage);
    Irreflexive(a.sha);
    Irreflexive(a.storage);
    if Less(a.sha, b.sha) { Asymmetric(a.sha, b.sha); }
    if Less(a.storage, b.storage) { Asymmetric(a.storage, b.storage); }
  }

  lemma BeforeIsTransitive(a: Entry, b: Entry, c: Entry)
    requires Before(a, b) && Before(b, c)
    ensures Before(a, c)
  {
    if Less(a.sha, b.sha) && Less(b.sha, c.sha) { Transitive(a.sha, b.sha, c.sha); Irreflexive(a.sha); }
    if Less(a.storage, b.storage) && Less(b.storage, c.storage) { Transitive(a.storage, b.storage, c.storage); }
    if Less(a.sha, b.sha) { Asymmetric(a.sha, b.sha); }
  }

  ghost predicate IsFirst(s: set<Entry>, e: Entry) {
    e in s && forall x <- s :: x == e || Before(e, x)
  }

  lemma {:induction false} SomeFirst(s: set<Entry>) returns (e: Entry)
    requires s != {}
    ensures IsFirst(s, e)
    decreases |s|
  {
    e :| e in s;
    if s != {e} {
      var f := SomeFirst(s - {e});
      BeforeIsTotal(e, f);
      if Before(e, f) {
        forall x | x in s && x != e ensures Before(e, x) { if x != f { BeforeIsTransitive(e, f, x); } }
      } else {
        e := f;
      }
    }
  }

  ghost function First(s: set<Entry>): (e: Entry)
    requires s != {}
    ensures IsFirst(s, e)
  {
    assert exists e :: IsFirst(s, e) by { var e := SomeFirst(s); }
    var e :| IsFirst(s, e);
    e
  }

  /** The whole listing, first to last. */
  ghost function Listed(s: set<Entry>): (r: seq<Entry>)
    ensures |r| == |s| && Elements(r) == s
    ensures forall i, k :: 0 <= i < k < |r| ==> Before(r[i], r[k])
  {
    if s == {} then []
    else
      var rest := Listed(s - {First(s)});
      ListedStep(s, rest);
      [First(s)] + rest
  }

  lemma ListedStep(s: set<Entry>, rest: seq<Entry>)
    requires s != {} && |rest| == |s| - 1 && Elements(rest) == s - {First(s)}
    ensures Elements([First(s)] + rest) == s
    ensures forall i :: 0 <= i < |rest| ==> Before(First(s), rest[i])
  {
    forall i | 0 <= i < |rest| ensures Before(First(s), rest[i]) { assert rest[i] in Elements(rest); }
    assert Elements([First(s)] + rest) == {First(s)} + Elements(rest);
  }

  ghost function After(s: set<Entry>, cursor: Option<Entry>): set<Entry> {
    if cursor.None? then s else set x | x in s && Before(cursor.value, x)
  }

  lemma AfterTheFirst(s: set<Entry>)
    requires s != {}
    ensures After(s, Some(First(s))) == s - {First(s)}
  {
    BeforeIsTotal(First(s), First(s));
  }

  lemma AfterAnother(s: set<Entry>, e: Entry)
    requires s != {} && e in s && e != First(s)
    ensures After(s, Some(e)) == After(s - {First(s)}, Some(e))
  {
    BeforeIsTotal(First(s), e);
  }

  lemma OneDown(e: Entry, rest: seq<Entry>, i: nat)
    requires 0 < i <= |rest|
    ensures ([e] + rest)[i] == rest[i - 1] && ([e] + rest)[i + 1..] == rest[i..]
  {
  }

  lemma ListedFirst(s: set<Entry>)
    requires s != {}
    ensures Listed(s)[0] == First(s) && Listed(s)[1..] == Listed(s - {First(s)})
  {
    assert Listed(s) == [First(s)] + Listed(s - {First(s)});
  }

  lemma ListedLater(s: set<Entry>, i: nat)
    requires 0 < i < |s|
    ensures var rest := s - {First(s)};
            && Listed(s)[i] == Listed(rest)[i - 1] && Listed(s)[i + 1..] == Listed(rest)[i..]
            && After(s, Some(Listed(s)[i])) == After(rest, Some(Listed(s)[i]))
  {
    var rest := Listed(s - {First(s)});
    assert Listed(s) == [First(s)] + rest;
    OneDown(First(s), rest, i);
    assert rest[i - 1] in Elements(rest);
    AfterAnother(s, rest[i - 1]);
  }

  /** What comes after an entry of the listing is the rest of the listing. */
  lemma {:induction false} AfterIsTheRest(s: set<Entry>, i: nat)
    requires i < |s|
    ensures Listed(After(s, Some(Listed(s)[i]))) == Listed(s)[i + 1..]
    decreases i
  {
    if i == 0 {
      ListedFirst(s);
      AfterTheFirst(s);
    } else {
      ListedLater(s, i);
      AfterIsTheRest(s - {First(s)}, i - 1);
    }
  }

  /** Moving the cursor to an entry behind it forgets where it was before. */
  lemma CursorsCompose(s: set<Entry>, cursor: Option<Entry>, e: Entry)
    requires e in After(s, cursor)
    ensures After(s, Some(e)) == After(After(s, cursor), Some(e))
  {
    if cursor.Some? {
      forall x | x in After(s, Some(e)) ensures x in After(s, cursor) { BeforeIsTransitive(cursor.value, e, x); }
    }
  }

  /******* Slices of the listing *******/

  datatype Slice = Slice(entries: seq<Entry>, next: Option<Entry>)

  /** What one query may select: up to n + 1 groups, of which the last only tells that there is a next page. */
  function Limited(l: seq<Entry>, n: nat): seq<Entry> {
    l[..if |l| <= n then |l| else n + 1]
  }

  function Trimmed(selected: seq<Entry>, n: nat): Slice
    requires n > 0
  {
    if |selected| <= n then Slice(selected, None) else Slice(selected[..n], Some(selected[n - 1]))
  }

  ghost function SliceOf(all: set<Entry>, cursor: Option<Entry>, n: nat): Slice
    requires n > 0
  {
    Trimmed(Limited(Listed(After(all, cursor)), n), n)
  }

  lemma TrimmedSplits(l: seq<Entry>, n: nat)
    requires n > 0
    ensures Trimmed(Limited(l, n), n) == if |l| <= n then Slice(l, None) else Slice(l[..n], Some(l[n - 1]))
    ensures |l| > n ==> l[..n] + l[n..] == l
  {
    if |l| > n { assert l[..n + 1][..n] == l[..n]; }
  }

  lemma BehindAnEntry(rest: set<Entry>, n: nat)
    requires 0 < n < |rest|
    ensures var e := Listed(rest)[n - 1];
            e in rest && Listed(After(rest, Some(e))) == Listed(rest)[n..] && After(rest, Some(e)) < rest
  {
    assert Listed(rest)[n - 1] in Elements(Listed(rest));
    AfterIsTheRest(rest, n - 1);
    AfterIsSmaller(rest, Listed(rest)[n - 1]);
  }

  lemma AfterIsSmaller(rest: set<Entry>, e: Entry)
    requires e in rest
    ensures After(rest, Some(e)) < rest
  {
    BeforeIsTotal(e, e);
    assert e !in After(rest, Some(e));
  }

  lemma SliceSplits(all: set<Entry>, cursor: Option<Entry>, n: nat)
    requires n > 0
    ensures var (slice, rest) := (SliceOf(all, cursor, n), After(all, cursor));
            if slice.next.None? then slice.entries == Listed(rest)
            else
              && |slice.entries| == n
              && slice.entries + Listed(After(all, slice.next)) == Listed(rest)
              && After(all, slice.next) < rest
  {
    var rest := After(all, cursor);
    TrimmedSplits(Listed(rest), n);
    if |rest| > n {
      BehindAnEntry(rest, n);
      CursorsCompose(all, cursor, Listed(rest)[n - 1]);
    }
  }

  /******* Pages *******/

  function PageSize(q: Query): (n: nat)
    ensures 1 <= n <= 200
  {
    if q.pageSize <= 0 || q.pageSize > 200 then 20 else q.pageSize
  }

  /** The columns the store computes from the members. */
  function SummaryOf(db: seq<Instance>, e: Entry): Summary {
    var files := Members(db, e.storage, e.sha);
    var copies := Copies(files);
    Summary(e.storage, e.sha, MinSize(files), |files|, Summarise(|files|, copies, MinSize(files)))
  }

  function Summaries(db: seq<Instance>, entries: seq<Entry>): seq<Summary> {
    if entries == [] then [] else [SummaryOf(db, entries[0])] + Summaries(db, entries[1..])
  }

  ghost function PageOf(db: seq<Instance>, q: Query): Page {
    var slice := SliceOf(Groups(db, q), q.cursor, PageSize(q));
    Page(Summaries(db, slice.entries), slice.next, |Groups(db, q)|)
  }

  lemma {:induction false} SummariesAppend(db: seq<Instance>, a: seq<Entry>, b: seq<Entry>)
    ensures Summaries(db, a + b) == Summaries(db, a) + Summaries(db, b)
  {
    if a == [] {
      assert a + b == b;
    } else {
      assert (a + b)[1..] == a[1..] + b;
      SummariesAppend(db, a[1..], b);
    }
  }

  lemma CursorFiltersNoGroup(db: seq<Instance>, q: Query, cursor: Option<Entry>)
    ensures Groups(db, q.(cursor := cursor)) == Groups(db, q)
  {
    forall f ensures Listable(db, q.(cursor := cursor), f) == Listable(db, q, f) {}
  }

  /** Every page from the query's cursor on, by asking again with each next cursor. */
  ghost function Follow(db: seq<Instance>, q: Query, all: set<Entry>): seq<Page>
    requires all == Groups(db, q)
    decreases After(all, q.cursor)
  {
    var page := PageOf(db, q);
    SliceSplits(all, q.cursor, PageSize(q));
    CursorFiltersNoGroup(db, q, page.next);
    [page] + if page.next.None? then [] else Follow(db, q.(cursor := page.next), all)
  }

  function Listing(pages: seq<Page>): seq<Summary> {
    if pages == [] then [] else pages[0].groups + Listing(pages[1..])
  }

  lemma ListingStep(page: Page, rest: seq<Page>)
    ensures Listing([page] + rest) == page.groups + Listing(rest)
  {
  }

  lemma {:induction false} FollowListsTheRest(db: seq<Instance>, q: Query, all: set<Entry>)
    requires all == Groups(db, q)
    ensures Listing(Follow(db, q, all)) == Summaries(db, Listed(After(all, q.cursor)))
    decreases After(all, q.cursor)
  {
    var page := PageOf(db, q);
    var slice := SliceOf(all, q.cursor, PageSize(q));
    SliceSplits(all, q.cursor, PageSize(q));
    CursorFiltersNoGroup(db, q, page.next);
    if page.next.Some? {
      var rest := Follow(db, q.(cursor := page.next), all);
      FollowListsTheRest(db, q.(cursor := page.next), all);
      SummariesAppend(db, slice.entries, Listed(After(all, page.next)));
      ListingStep(page, rest);
    } else {
      ListingStep(page, []);
      assert page.groups + [] == page.groups;
    }
  }

  /** Whatever the size of the pages, following the next cursors ends, and lists every group that passes
      the filters exactly once, in order. */
  lemma PagesListEveryGroup(db: seq<Instance>, q: Query)
    requires q.cursor.None?
    ensures Listing(Follow(db, q, Groups(db, q))) == Summaries(db, Listed(Groups(db, q)))
    ensures Elements(Listed(Groups(db, q))) == Groups(db, q)
    ensures forall i, k :: 0 <= i < k < |Listed(Groups(db, q))| ==>
            Before(Listed(Groups(db, q))[i], Listed(Groups(db, q))[k])
  {
    FollowListsTheRest(db, q, Groups(db, q));
  }

  /** The estimate a group is sorted by is the reclaimable size it is shown with. */
  lemma EstimateIsReclaimable(db: seq<Instance>, q: Query, e: Entry)
    requires e in Groups(db, q)
    ensures SummaryOf(db, e).stats.reclaimable == e.estimate
    ensures SummaryOf(db, e).stats.copies == Copies(Members(db, e.storage, e.sha))
  {
    var f :| f in db && Listable(db, q, f) && e == EntryOf(db, f.storage, f.sha);
    var files := Members(db, e.storage, e.sha);
    SqlCountsCopies(files);
    SomeCopy(files);
  }

  /******* From rows to a page *******/

  datatype Row = Row(entry: Entry, size: nat, pathCount: nat, file: Instance)

  /** The rows of one group, one per member, and of the groups one after the other. */
  function RowsFor(db: seq<Instance>, e: Entry): (r: seq<Row>)
    ensures var files := Members(db, e.storage, e.sha);
            |r| == |files| && forall i :: 0 <= i < |r| ==> r[i] == Row(e, MinSize(files), |files|, files[i])
  {
    var files := Members(db, e.storage, e.sha);
    seq(|files|, i requires 0 <= i < |files| => Row(e, MinSize(files), |files|, files[i]))
  }

  function RowsOf(db: seq<Instance>, entries: seq<Entry>): seq<Row> {
    if entries == [] then [] else RowsFor(db, entries[0]) + RowsOf(db, entries[1..])
  }

  datatype Key = Key(storage: string, sha: string)

  datatype Accum = Accum(entry: Entry, size: nat, pathCount: nat, files: seq<Instance>)

  function KeyOf(e: Entry): Key { Key(e.storage, e.sha) }

  function AccumOf(db: seq<Instance>, e: Entry, m: nat): Accum
    requires m <= |Members(db, e.storage, e.sha)|
  {
    var files := Members(db, e.storage, e.sha);
    Accum(e, MinSize(files), |files|, files[..m])
  }

  ghost predicate Complete(db: seq<Instance>, e: Entry, order: seq<Key>, groups: map<Key, Accum>, k: nat)
    requires k < |order|
  {
    order[k] == KeyOf(e) && KeyOf(e) in groups && groups[KeyOf(e)] == AccumOf(db, e, |Members(db, e.storage, e.sha)|)
  }

  /** The first g groups have been read whole, and the next one up to its m-th member. */
  ghost predicate Read(db: seq<Instance>, entries: seq<Entry>, g: nat, m: nat, order: seq<Key>,
      groups: map<Key, Accum>)
  {
    && g <= |entries| && (if m == 0 then |order| == g else |order| == g + 1)
    && groups.Keys == Elements(order)
    && (forall k :: 0 <= k < g ==> Complete(db, entries[k], order, groups, k))
    && (m > 0 ==>
          && g < |entries| && m < |Members(db, entries[g].storage, entries[g].sha)|
          && order[g] == KeyOf(entries[g]) && groups[order[g]] == AccumOf(db, entries[g], m))
  }

  ghost predicate DistinctKeys(entries: seq<Entry>) {
    forall i, k :: 0 <= i < k < |entries| ==> KeyOf(entries[i]) != KeyOf(entries[k])
  }

  ghost predicate Populated(db: seq<Instance>, entries: seq<Entry>) {
    forall e <- entries :: Members(db, e.storage, e.sha) != []
  }

  /** The rows still to come. */
  ghost function Left(db: seq<Instance>, entries: seq<Entry>, g: nat, m: nat): seq<Row>
    requires g <= |entries| && (g < |entries| ==> m <= |Members(db, entries[g].storage, entries[g].sha)|)
  {
    if g == |entries| then [] else RowsFor(db, entries[g])[m..] + RowsOf(db, entries[g + 1..])
  }

  lemma NextGroup(db: seq<Instance>, entries: seq<Entry>, g: nat)
    requires g <= |entries|
    ensures Left(db, entries, g, 0) == RowsOf(db, entries[g..])
  {
    if g < |entries| { assert entries[g..][1..] == entries[g + 1..]; }
  }

  lemma HeadAndTail<T>(a: seq<T>, m: nat, b: seq<T>)
    requires m < |a|
    ensures (a[m..] + b)[0] == a[m] && (a[m..] + b)[1..] == a[m + 1..] + b
    ensures a[|a|..] + b == b
  {
  }

  function MembersOf(db: seq<Instance>, e: Entry): nat {
    |Members(db, e.storage, e.sha)|
  }

  lemma NextRow(db: seq<Instance>, entries: seq<Entry>, g: nat, m: nat)
    requires g < |entries| && m < MembersOf(db, entries[g])
    ensures var (left, n) := (Left(db, entries, g, m), MembersOf(db, entries[g]));
            && left != [] && left[0] == RowsFor(db, entries[g])[m]
            && left[1..] == if m + 1 == n then Left(db, entries, g + 1, 0) else Left(db, entries, g, m + 1)
  {
    NextGroup(db, entries, g + 1);
    HeadAndTail(RowsFor(db, entries[g]), m, RowsOf(db, entries[g + 1..]));
  }

  /** Reading the next row of the group under way, or the first row of the next group. */
  lemma ReadMore(db: seq<Instance>, entries: seq<Entry>, g: nat, m: nat, order: seq<Key>, groups: map<Key, Accum>)
    requires Read(db, entries, g, m, order, groups) && DistinctKeys(entries)
    requires g < |entries| && m < |Members(db, entries[g].storage, entries[g].sha)|
    ensures KeyOf(entries[g]) in groups <==> m > 0
    ensures var (e, n) := (entries[g], |Members(db, entries[g].storage, entries[g].sha)|);
            Read(db, entries, if m + 1 == n then g + 1 else g, if m + 1 == n then 0 else m + 1,
                 if m > 0 then order else order + [KeyOf(e)], groups[KeyOf(e) := AccumOf(db, e, m + 1)])
  {
    var e, n := entries[g], |Members(db, entries[g].storage, entries[g].sha)|;
    forall k | 0 <= k < g ensures order[k] != KeyOf(e) {
      assert Complete(db, entries[k], order, groups, k);
    }
    var order' := if m > 0 then order else order + [KeyOf(e)];
    var groups' := groups[KeyOf(e) := AccumOf(db, e, m + 1)];
    assert order'[g] == KeyOf(e);
    assert Elements(order') == Elements(order) + {KeyOf(e)};
    forall k | 0 <= k < g ensures Complete(db, entries[k], order', groups', k) {
      assert Complete(db, entries[k], order, groups, k);
      assert KeyOf(entries[k]) != KeyOf(e);
    }
    if m + 1 == n { assert Complete(db, e, order', groups', g); }
  }

  lemma AccumGrows(db: seq<Instance>, e: Entry, m: nat)
    requires m < |Members(db, e.storage, e.sha)|
    ensures var files := Members(db, e.storage, e.sha);
            && AccumOf(db, e, 0) == Accum(e, MinSize(files), |files|, [])
            && AccumOf(db, e, m).(files := AccumOf(db, e, m).files + [files[m]]) == AccumOf(db, e, m + 1)
  {
    var files := Members(db, e.storage, e.sha);
    assert files[..m + 1] == files[..m] + [files[m]];
  }

  /** The member a row carries joins its group, which is created if it is new. */
  function AddRow(groups: map<Key, Accum>, row: Row): map<Key, Accum> {
    var key := KeyOf(row.entry);
    var acc := if key in groups then groups[key] else Accum(row.entry, row.size, row.pathCount, []);
    groups[key := acc.(files := acc.files + [row.file])]
  }

  /** Somewhere among the groups, with these rows still to come. */
  ghost predicate Reading(db: seq<Instance>, entries: seq<Entry>, left: seq<Row>, order: seq<Key>,
      groups: map<Key, Accum>)
  {
    exists g: nat, m: nat :: Read(db, entries, g, m, order, groups) && left == Left(db, entries, g, m)
  }

  lemma RowAdded(db: seq<Instance>, entries: seq<Entry>, g: nat, m: nat, order: seq<Key>, groups: map<Key, Accum>)
    requires Read(db, entries, g, m, order, groups) && DistinctKeys(entries)
    requires g < |entries| && m < MembersOf(db, entries[g])
    ensures var row := RowsFor(db, entries[g])[m];
            row.entry == entries[g] &&
            AddRow(groups, row) == groups[KeyOf(entries[g]) := AccumOf(db, entries[g], m + 1)]
  {
    ReadMore(db, entries, g, m, order, groups);
    AccumGrows(db, entries[g], m);
  }

  lemma RowStep(db: seq<Instance>, entries: seq<Entry>, left: seq<Row>, order: seq<Key>, groups: map<Key, Accum>)
    requires Reading(db, entries, left, order, groups) && DistinctKeys(entries) && Populated(db, entries) && left != []
    ensures var key := KeyOf(left[0].entry);
            Reading(db, entries, left[1..], if key in groups then order else order + [key], AddRow(groups, left[0]))
  {
    var g: nat, m: nat :| Read(db, entries, g, m, order, groups) && left == Left(db, entries, g, m);
    assert entries[g] in entries;
    NextRow(db, entries, g, m);
    ReadMore(db, entries, g, m, order, groups);
    RowAdded(db, entries, g, m, order, groups);
  }

  lemma ReadAll(db: seq<Instance>, entries: seq<Entry>, order: seq<Key>, groups: map<Key, Accum>)
    requires Reading(db, entries, [], order, groups) && Populated(db, entries)
    ensures Read(db, entries, |entries|, 0, order, groups)
  {
    var g: nat, m: nat :| Read(db, entries, g, m, order, groups) && [] == Left(db, entries, g, m);
    if g < |entries| {
      assert entries[g] in entries;
      NextRow(db, entries, g, m);
    }
  }

  lemma ReadNone(db: seq<Instance>, entries: seq<Entry>)
    ensures Reading(db, entries, RowsOf(db, entries), [], map[])
  {
    NextGroup(db, entries, 0);
    assert entries[0..] == entries;
    assert Read(db, entries, 0, 0, [], map[]);
  }

  /** Groups the rows by storage and hash, in the order in which they first appear. */
  method Collect(ghost db: seq<Instance>, ghost entries: seq<Entry>, rows: seq<Row>)
    returns (order: seq<Key>, groups: map<Key, Accum>)
    requires rows == RowsOf(db, entries) && DistinctKeys(entries) && Populated(db, entries)
    ensures Read(db, entries, |entries|, 0, order, groups)
  {
    order, groups := [], map[];
    ReadNone(db, entries);
    assert rows[0..] == rows;
    for i := 0 to |rows|
      invariant Reading(db, entries, rows[i..], order, groups)
    {
      var row := rows[i];
      var key := KeyOf(row.entry);
      assert rows[i..][0] == row && rows[i..][1..] == rows[i + 1..];
      RowStep(db, entries, rows[i..], order, groups);
      if key !in groups { order := order + [key]; }
      groups := AddRow(groups, row);
    }
    ReadAll(db, entries, order, groups);
  }

  lemma LimitedIsOrdered(all: set<Entry>, cursor: Option<Entry>, n: nat)
    ensures var entries := Limited(Listed(After(all, cursor)), n);
            && (forall i :: 0 <= i < |entries| ==> entries[i] in all)
            && forall i, k :: 0 <= i < k < |entries| ==> Before(entries[i], entries[k])
  {
    var l := Listed(After(all, cursor));
    forall i | 0 <= i < |Limited(l, n)| ensures Limited(l, n)[i] in all {
      assert l[i] in Elements(l);
    }
  }

  lemma GroupIsPopulated(db: seq<Instance>, q: Query, e: Entry)
    requires e in Groups(db, q)
    ensures Members(db, e.storage, e.sha) != [] && e == EntryOf(db, e.storage, e.sha)
  {
    var f :| f in db && Listable(db, q, f) && e == EntryOf(db, f.storage, f.sha);
  }

  /** The groups a query selects are populated and have different keys. */
  lemma SelectedAreGroups(db: seq<Instance>, q: Query, all: set<Entry>, entries: seq<Entry>)
    requires all == Groups(db, q) && entries == Limited(Listed(After(all, q.cursor)), PageSize(q))
    ensures DistinctKeys(entries) && Populated(db, entries)
  {
    LimitedIsOrdered(all, q.cursor, PageSize(q));
    forall i | 0 <= i < |entries| ensures Members(db, entries[i].storage, entries[i].sha) != [] {
      GroupIsPopulated(db, q, entries[i]);
    }
    forall i, k | 0 <= i < k < |entries| ensures KeyOf(entries[i]) != KeyOf(entries[k]) {
      BeforeIsTotal(entries[i], entries[k]);
      GroupIsPopulated(db, q, entries[i]);
      GroupIsPopulated(db, q, entries[k]);
    }
  }

  lemma {:induction false} MembersAreDistinct(db: seq<Instance>, storage: string, sha: string)
    requires DistinctPaths(db)
    ensures DistinctPaths(Members(db, storage, sha))
  {
    if db != [] {
      MembersAreDistinct(db[1..], storage, sha);
      var rest := Members(db[1..], storage, sha);
      forall k | 0 <= k < |rest| ensures db[0].storage != rest[k].storage || db[0].path != rest[k].path {
        assert rest[k] in rest;
        var j :| 0 <= j < |db[1..]| && db[1..][j] == rest[k];
        assert db[j + 1] == rest[k];
      }
    }
  }

  /** The result of the count query and the rows of the page query become a page. */
  method ListDuplicateGroups(ghost db: seq<Instance>, q: Query, rows: seq<Row>, total: nat) returns (page: Page)
    requires DistinctPaths(db) && total == |Groups(db, q)|
    requires rows == RowsOf(db, Limited(Listed(After(Groups(db, q), q.cursor)), PageSize(q)))
    ensures page == PageOf(db, q)
  {
    ghost var all := Groups(db, q);
    ghost var entries := Limited(Listed(After(all, q.cursor)), PageSize(q));
    SelectedAreGroups(db, q, all, entries);
    var order, groups := Collect(db, entries, rows);
    page := Trim(db, entries, order, groups, PageSize(q), total);
  }

  /** Drops the group that only shows that there is a next page, and makes the last remaining one the next cursor. */
  method Trim(ghost db: seq<Instance>, ghost entries: seq<Entry>, found: seq<Key>, groups: map<Key, Accum>,
        pageSize: nat, total: nat)
    returns (page: Page)
    requires DistinctPaths(db) && pageSize > 0 && Read(db, entries, |entries|, 0, found, groups)
    ensures page == Page(Summaries(db, Trimmed(entries, pageSize).entries), Trimmed(entries, pageSize).next, total)
  {
    var order := found;
    var hasNext := |order| > pageSize;
    if hasNext { order := order[..pageSize]; }
    assert forall k :: 0 <= k < |order| ==> Complete(db, entries[k], order, groups, k) by {
      forall k | 0 <= k < |order| ensures Complete(db, entries[k], order, groups, k) {
        assert Complete(db, entries[k], found, groups, k);
      }
    }
    assert Trimmed(entries, pageSize).entries == entries[..|order|];
    var summaries := SummariseGroups(db, entries[..|order|], order, groups);
    var next := None;
    if hasNext && |order| > 0 {
      next := Some(groups[order[|order| - 1]].entry);
    }
    page := Page(summaries, next, total);
  }

  method SummariseGroups(ghost db: seq<Instance>, ghost entries: seq<Entry>, order: seq<Key>, groups: map<Key, Accum>)
    returns (summaries: seq<Summary>)
    requires DistinctPaths(db) && |order| == |entries|
    requires forall k :: 0 <= k < |order| ==> Complete(db, entries[k], order, groups, k)
    ensures summaries == Summaries(db, entries)
  {
    summaries := [];
    for i := 0 to |order|
      invariant summaries == Summaries(db, entries[..i])
    {
      assert Complete(db, entries[i], order, groups, i);
      MembersAreDistinct(db, entries[i].storage, entries[i].sha);
      var summary := Summarised(db, entries[i], groups[order[i]]);
      OneMoreSummary(db, entries, i);
      summaries := summaries + [summary];
    }
    assert entries[..|order|] == entries;
  }

  method Summarised(ghost db: seq<Instance>, ghost e: Entry, acc: Accum) returns (summary: Summary)
    requires acc == AccumOf(db, e, MembersOf(db, e)) && DistinctPaths(Members(db, e.storage, e.sha))
    ensures summary == SummaryOf(db, e)
  {
    AccumIsWhole(db, e);
    var stats := ComputePhysicalStats(acc.files, acc.size);
    summary := Summary(acc.entry.storage, acc.entry.sha, acc.size, acc.pathCount, stats);
  }

  lemma AccumIsWhole(db: seq<Instance>, e: Entry)
    ensures var files := Members(db, e.storage, e.sha);
            AccumOf(db, e, |files|) == Accum(e, MinSize(files), |files|, files)
  {
    var files := Members(db, e.storage, e.sha);
    assert files[..|files|] == files;
  }

  lemma OneMoreSummary(db: seq<Instance>, entries: seq<Entry>, i: nat)
    requires i < |entries|
    ensures Summaries(db, entries[..i + 1]) == Summaries(db, entries[..i]) + [SummaryOf(db, entries[i])]
  {
    SummariesAppend(db, entries[..i], [entries[i]]);
    assert entries[..i + 1] == entries[..i] + [entries[i]];
  }
}
