/** Which role a directory gets from the built-in and the learned signals, and why no set of learned
    rules can take protection away. */
module DirectoryRules {
  datatype Role =
    UnknownRole | Raw | FormalArchive | ProjectWork | Temporary | Unorganized | Backup | Cache | Sensitive | System

  datatype Signal = Signal(role: Role, authority: int, terms: seq<string>)

  datatype Context = Context(role: Role, authority: int, privacy: string, guarded: bool, matched: seq<string>)

  const MAX_LEARNED: int := 60

  /******* Matching *******/

  predicate HasNonASCII(s: string) {
    exists i :: 0 <= i < |s| && s[i] as int > 127
  }

  predicate OccursAt(s: string, t: string, i: int) {
    0 <= i <= |s| - |t| && s[i..i + |t|] == t
  }

  predicate Contains(s: string, t: string) {
    exists i :: 0 <= i <= |s| && OccursAt(s, t, i)
  }

  predicate EndsWith(s: string, t: string) {
    |t| <= |s| && s[|s| - |t|..] == t
  }

  predicate MatchesSegment(segment: string, term: string) {
    if HasNonASCII(term) then Contains(segment, term)
    else
      || segment == term
      || term + "-" <= segment || term + "_" <= segment
      || EndsWith(segment, "-" + term) || EndsWith(segment, "_" + term)
  }

  predicate Matches(segments: seq<string>, term: string) {
    exists s <- segments :: MatchesSegment(s, term)
  }

  function Matched(terms: seq<string>, segments: seq<string>): seq<string> {
    if terms == [] then []
    else (if Matches(segments, terms[0]) then [terms[0]] else []) + Matched(terms[1..], segments)
  }

  predicate Guards(role: Role) { role.System? || role.Backup? || role.Raw? }

  function ContextOf(s: Signal, segments: seq<string>): Context {
    Context(s.role, s.authority, "normal", Guards(s.role), Matched(s.terms, segments))
  }

  /** The first signal with a matching term decides. */
  function FirstMatch(signals: seq<Signal>, segments: seq<string>): Context {
    if signals == [] then Context(UnknownRole, 50, "unknown", false, [])
    else if Matched(signals[0].terms, segments) != [] then ContextOf(signals[0], segments)
    else FirstMatch(signals[1..], segments)
  }

  function Classify(sensitive: seq<string>, signals: seq<Signal>, segments: seq<string>): Context {
    var matched := Matched(sensitive, segments);
    if matched != [] then Context(Sensitive, 100, "high", true, [matched[0]])
    else FirstMatch(SortFrom(signals, 0), segments)
  }

  /******* The selection sort *******/

  function MaxFrom(s: seq<Signal>, best: nat, j: nat): (r: nat)
    requires best < j <= |s|
    ensures best <= r < |s| && s[r].authority >= s[best].authority
    ensures forall k :: j <= k < |s| ==> s[k].authority <= s[r].authority
    ensures r != best ==>
              j <= r && s[r].authority > s[best].authority && forall k :: j <= k < r ==> s[k].authority < s[r].authority
    decreases |s| - j
  {
    if j == |s| then best
    else MaxFrom(s, if s[j].authority > s[best].authority then j else best, j + 1)
  }

  function Swap(s: seq<Signal>, i: nat, j: nat): (r: seq<Signal>)
    requires i < |s| && j < |s|
    ensures |r| == |s|
  {
    s[i := s[j]][j := s[i]]
  }

  function SortFrom(s: seq<Signal>, i: nat): (r: seq<Signal>)
    requires i <= |s|
    ensures |r| == |s|
    decreases |s| - i
  {
    if i == |s| then s else SortFrom(Swap(s, i, MaxFrom(s, i, i + 1)), i + 1)
  }

  method SelectionSort(a: array<Signal>)
    modifies a
    ensures a[..] == SortFrom(old(a[..]), 0)
  {
    ghost var result := SortFrom(a[..], 0);
    for i := 0 to a.Length
      invariant SortFrom(a[..], i) == result
    {
      var max := FindMax(a, i);
      ghost var before := a[..];
      a[i], a[max] := a[max], a[i];
      assert a[..] == Swap(before, i, max);
      assert SortFrom(before, i) == SortFrom(a[..], i + 1);
    }
  }

  /** The inner loop. */
  method FindMax(a: array<Signal>, i: nat) returns (max: nat)
    requires i < a.Length
    ensures max == MaxFrom(a[..], i, i + 1)
  {
    max := i;
    ghost var s := a[..];
    for j := i + 1 to a.Length
      invariant i <= max < j && MaxFrom(s, i, i + 1) == MaxFrom(s, max, j)
    {
      assert s[j] == a[j] && s[max] == a[max];
      if a[j].authority > a[max].authority { max := j; }
    }
  }

  lemma {:induction false} SortKeepsFront(s: seq<Signal>, i: nat)
    requires i <= |s|
    ensures SortFrom(s, i)[..i] == s[..i]
    decreases |s| - i
  {
    if i < |s| {
      var s' := Swap(s, i, MaxFrom(s, i, i + 1));
      SortKeepsFront(s', i + 1);
      assert SortFrom(s, i)[..i] == SortFrom(s', i + 1)[..i + 1][..i] == s'[..i];
    }
  }

  lemma {:induction false} SortKeepsSignals(s: seq<Signal>, i: nat)
    requires i <= |s|
    ensures multiset(SortFrom(s, i)) == multiset(s)
    decreases |s| - i
  {
    if i < |s| {
      var max := MaxFrom(s, i, i + 1);
      assert multiset(Swap(s, i, max)) == multiset(s);
      SortKeepsSignals(Swap(s, i, max), i + 1);
    }
  }

  lemma SplitCounts(s: seq<Signal>, i: nat)
    requires i <= |s|
    ensures multiset(s) == multiset(s[..i]) + multiset(s[i..])
  {
    assert s == s[..i] + s[i..];
  }

  lemma SortKeepsBack(s: seq<Signal>, i: nat, e: Signal)
    requires i <= |s|
    ensures multiset(SortFrom(s, i)[i..])[e] == multiset(s[i..])[e]
  {
    var r := SortFrom(s, i);
    SortKeepsFront(s, i);
    SplitCounts(s, i);
    SplitCounts(r, i);
    SortKeepsSignals(s, i);
    assert multiset(r)[e] == multiset(s)[e];
    assert multiset(r[..i])[e] == multiset(s[..i])[e];
  }

  /** Nothing above the cap is left at or after i, sorted or not. */
  lemma LowStaysLow(s: seq<Signal>, i: nat)
    requires i <= |s| && forall k :: i <= k < |s| ==> s[k].authority <= MAX_LEARNED
    ensures forall k :: i <= k < |s| ==> SortFrom(s, i)[k].authority <= MAX_LEARNED
  {
    var r := SortFrom(s, i);
    forall k | i <= k < |s| ensures r[k].authority <= MAX_LEARNED {
      SortKeepsBack(s, i, r[k]);
      assert r[i..][k - i] == r[k];
      assert r[k] in multiset(r[i..]);
      assert r[k] in multiset(s[i..]);
      assert r[k] in s[i..];
    }
  }

  /** The sorted signals are the same signals, in descending authority. */
  lemma {:induction false} SortSorts(s: seq<Signal>, i: nat)
    requires i <= |s| && (forall j, k :: 0 <= j < i && j <= k < |s| ==> s[k].authority <= s[j].authority)
    ensures forall j, k :: 0 <= j <= k < |s| ==> SortFrom(s, i)[k].authority <= SortFrom(s, i)[j].authority
    decreases |s| - i
  {
    if i < |s| {
      var max := MaxFrom(s, i, i + 1);
      SortSorts(Swap(s, i, max), i + 1);
    }
  }

  /******* Learned rules beside the built-in ones *******/

  ghost predicate SomeAbove(b: seq<Signal>, i: nat) {
    exists k :: i <= k < |b| && b[k].authority > MAX_LEARNED
  }

  /** As long as some built-in signal at or after i is above the cap, sorting picks the same one with
      and without the learned signals; m is where the signals above the cap end. */
  lemma {:induction false} SameFront(b: seq<Signal>, l: seq<Signal>, i: nat) returns (m: nat)
    requires i <= |b| && forall s <- l :: s.authority <= MAX_LEARNED
    ensures i <= m <= |b| && SortFrom(b + l, i)[..m] == SortFrom(b, i)[..m]
    ensures forall k :: m <= k < |b| ==> SortFrom(b, i)[k].authority <= MAX_LEARNED
    decreases |b| - i
  {
    if SomeAbove(b, i) {
      SameStep(b, l, i);
      m := SameFront(Swap(b, i, MaxFrom(b, i, i + 1)), l, i + 1);
    } else {
      m := i;
      SortKeepsFront(b, i);
      SortKeepsFront(b + l, i);
      assert (b + l)[..i] == b[..i];
      LowStaysLow(b, i);
    }
  }

  lemma SameStep(b: seq<Signal>, l: seq<Signal>, i: nat)
    requires i < |b| && (forall s <- l :: s.authority <= MAX_LEARNED) && SomeAbove(b, i)
    ensures SortFrom(b + l, i) == SortFrom(Swap(b, i, MaxFrom(b, i, i + 1)) + l, i + 1)
  {
    SameMax(b, l, i);
    SwapFront(b, l, i, MaxFrom(b, i, i + 1));
  }

  lemma SwapFront(b: seq<Signal>, l: seq<Signal>, i: nat, j: nat)
    requires i < |b| && j < |b|
    ensures Swap(b + l, i, j) == Swap(b, i, j) + l
  {
  }

  lemma SameMax(b: seq<Signal>, l: seq<Signal>, i: nat)
    requires i < |b| && (forall s <- l :: s.authority <= MAX_LEARNED)
    requires SomeAbove(b, i)
    ensures MaxFrom(b + l, i, i + 1) == MaxFrom(b, i, i + 1)
  {
    var x, y := MaxFrom(b, i, i + 1), MaxFrom(b + l, i, i + 1);
    assert forall k :: 0 <= k < |b| ==> (b + l)[k] == b[k];
    assert forall k :: |b| <= k < |b + l| ==> (b + l)[k] in l;
  }

  lemma {:induction false} FirstMatchInFront(s: seq<Signal>, t: seq<Signal>, m: nat, segments: seq<string>)
    requires m <= |s| && m <= |t| && s[..m] == t[..m]
    requires FirstMatch(s, segments).authority > MAX_LEARNED
    requires forall k :: m <= k < |s| ==> s[k].authority <= MAX_LEARNED
    ensures FirstMatch(t, segments) == FirstMatch(s, segments)
    decreases m
  {
    if m == 0 {
      NoneAboveTheCap(s, segments);
    } else {
      assert s[0] == s[..m][0] == t[..m][0] == t[0];
      if Matched(s[0].terms, segments) == [] {
        assert s[1..][..m - 1] == s[..m][1..] == t[..m][1..] == t[1..][..m - 1];
        FirstMatchInFront(s[1..], t[1..], m - 1, segments);
      }
    }
  }

  lemma {:induction false} NoneAboveTheCap(s: seq<Signal>, segments: seq<string>)
    requires forall k :: 0 <= k < |s| ==> s[k].authority <= MAX_LEARNED
    ensures FirstMatch(s, segments).authority <= MAX_LEARNED
  {
    if s != [] { NoneAboveTheCap(s[1..], segments); }
  }

  /** Whatever has been learned, a path that the built-in signals call sensitive or place above the
      learned cap keeps its role, its authority and its protection. */
  lemma LearnedRulesNeverOverride(sensitive: seq<string>, builtin: seq<Signal>, learned: seq<Signal>,
        segments: seq<string>)
    requires forall s <- learned :: s.authority <= MAX_LEARNED
    requires Classify(sensitive, builtin, segments).authority > MAX_LEARNED
    ensures Classify(sensitive, builtin + learned, segments) == Classify(sensitive, builtin, segments)
  {
    var m := SameFront(builtin, learned, 0);
    if Matched(sensitive, segments) == [] {
      FirstMatchInFront(SortFrom(builtin, 0), SortFrom(builtin + learned, 0), m, segments);
    }
  }

  /** The roles and authorities of the built-in table. */
  const BUILTIN: seq<(Role, int)> :=
    [(System, 100), (Backup, 95), (Cache, 10), (Temporary, 20), (Raw, 90), (FormalArchive, 90), (ProjectWork, 65),
     (Unorganized, 45)]

  ghost predicate IsBuiltin(signals: seq<Signal>) {
    |signals| == |BUILTIN| && forall i :: 0 <= i < |BUILTIN| ==> (signals[i].role, signals[i].authority) == BUILTIN[i]
  }

  lemma {:induction false} DecidedByASignal(s: seq<Signal>, segments: seq<string>)
    ensures FirstMatch(s, segments) == Context(UnknownRole, 50, "unknown", false, []) ||
            exists x <- s :: Matched(x.terms, segments) != [] && FirstMatch(s, segments) == ContextOf(x, segments)
  {
    if s != [] && Matched(s[0].terms, segments) == [] {
      DecidedByASignal(s[1..], segments);
    }
  }

  /** What the sorted signals decide without being at a loss is the context of one of the signals. */
  lemma DecidedByOneOf(signals: seq<Signal>, segments: seq<string>) returns (x: Signal)
    requires !FirstMatch(SortFrom(signals, 0), segments).role.UnknownRole?
    ensures x in signals && Matched(x.terms, segments) != []
    ensures FirstMatch(SortFrom(signals, 0), segments) == ContextOf(x, segments)
  {
    var sorted := SortFrom(signals, 0);
    DecidedByASignal(sorted, segments);
    x :| x in sorted && Matched(x.terms, segments) != [] && FirstMatch(sorted, segments) == ContextOf(x, segments);
    SortKeepsSignals(signals, 0);
    assert x in multiset(sorted);
  }

  /** With the built-in table and any terms: no learned rule removes protection, nor the role of an archive or
      a project. */
  lemma LearnedRulesNeverUnprotect(sensitive: seq<string>, builtin: seq<Signal>, learned: seq<Signal>,
        segments: seq<string>)
    requires IsBuiltin(builtin) && forall s <- learned :: s.authority <= MAX_LEARNED
    ensures var c := Classify(sensitive, builtin, segments);
            c.guarded || c.role.FormalArchive? || c.role.ProjectWork? ==>
              Classify(sensitive, builtin + learned, segments) == c
  {
    var c := Classify(sensitive, builtin, segments);
    if c.guarded || c.role.FormalArchive? || c.role.ProjectWork? {
      if Matched(sensitive, segments) == [] {
        FirstMatchGuards(SortFrom(builtin, 0), segments);
        var x := DecidedByOneOf(builtin, segments);
        assert x.authority > MAX_LEARNED;
      }
      LearnedRulesNeverOverride(sensitive, builtin, learned, segments);
    }
  }

  lemma FirstMatchGuards(s: seq<Signal>, segments: seq<string>)
    ensures FirstMatch(s, segments).guarded == Guards(FirstMatch(s, segments).role)
  {
    DecidedByASignal(s, segments);
  }

  /******* Ties *******/

  ghost predicate Descending(s: seq<Signal>) {
    forall j, k :: 0 <= j < k < |s| ==> s[k].authority <= s[j].authority
  }

  /** At q stands the first signal of its authority from i on, and behind the others of that authority nothing
      is higher. */
  ghost predicate Leads(s: seq<Signal>, i: nat, q: nat) {
    && i <= q < |s|
    && (forall p :: i <= p < q ==> s[p].authority != s[q].authority)
    && (forall p, k :: q < p < k < |s| && s[p].authority == s[q].authority ==> s[k].authority <= s[q].authority)
  }

  /** The sort is not stable, but it leaves such a signal in the lead. */
  lemma {:induction false} LeaderStays(s: seq<Signal>, i: nat, q: nat) returns (q': nat)
    requires Leads(s, i, q)
    ensures var r := SortFrom(s, i);
            i <= q' < |s| && r[q'] == s[q] && forall p :: i <= p < q' ==> r[p].authority != s[q].authority
    decreases |s| - i
  {
    var max := MaxFrom(s, i, i + 1);
    var s' := Swap(s, i, max);
    HighestComesFirst(s, i);
    if max == q {
      q' := i;
    } else {
      LeaderMoves(s, i, q);
      q' := LeaderStays(s', i + 1, if q == i then max else q);
    }
  }

  lemma HighestComesFirst(s: seq<Signal>, i: nat)
    requires i < |s|
    ensures SortFrom(s, i)[i] == s[MaxFrom(s, i, i + 1)]
  {
    var s' := Swap(s, i, MaxFrom(s, i, i + 1));
    SortKeepsFront(s', i + 1);
    assert SortFrom(s, i)[..i + 1][i] == s'[..i + 1][i];
  }

  lemma LeaderMoves(s: seq<Signal>, i: nat, q: nat)
    requires Leads(s, i, q) && MaxFrom(s, i, i + 1) != q
    ensures var max := MaxFrom(s, i, i + 1);
            var q1 := if q == i then max else q;
            s[max].authority > s[q].authority && Swap(s, i, max)[q1] == s[q] && Leads(Swap(s, i, max), i + 1, q1)
  {
    var max := MaxFrom(s, i, i + 1);
    assert s[max].authority >= s[q].authority;
  }

  /** A signal that matches at q leaves the decision to it or to one before it. */
  lemma {:induction false} DecidedBy(s: seq<Signal>, q: nat, segments: seq<string>) returns (p: nat)
    requires q < |s| && Matched(s[q].terms, segments) != []
    ensures p <= q && Matched(s[p].terms, segments) != [] && FirstMatch(s, segments) == ContextOf(s[p], segments)
  {
    if Matched(s[0].terms, segments) != [] {
      p := 0;
    } else {
      p := DecidedBy(s[1..], q - 1, segments);
      p := p + 1;
    }
  }

  /** A learned rule changes what the built-in table decides only if it outranks it: on ties the table wins,
      although the sort is not stable. */
  lemma BuiltinWinsTies(sensitive: seq<string>, builtin: seq<Signal>, learned: seq<Signal>, segments: seq<string>)
    requires IsBuiltin(builtin) && Descending(learned) && forall s <- learned :: s.authority <= MAX_LEARNED
    ensures var (c, c') := (Classify(sensitive, builtin, segments), Classify(sensitive, builtin + learned, segments));
            c.role.UnknownRole? || c' == c || c'.authority > c.authority
  {
    var c := Classify(sensitive, builtin, segments);
    if c.authority > MAX_LEARNED {
      LearnedRulesNeverOverride(sensitive, builtin, learned, segments);
    } else if !c.role.UnknownRole? {
      var x := DecidedByOneOf(builtin, segments);
      var j :| 0 <= j < |builtin| && builtin[j] == x;
      var all := builtin + learned;
      LeadsAtFirst(builtin, learned, j);
      var q := LeaderStays(all, 0, j);
      SortSorts(all, 0);
      var p := DecidedBy(SortFrom(all, 0), q, segments);
    }
  }

  lemma LeadsAtFirst(builtin: seq<Signal>, learned: seq<Signal>, j: nat)
    requires IsBuiltin(builtin) && Descending(learned) && j < |builtin| && builtin[j].authority <= MAX_LEARNED
    ensures Leads(builtin + learned, 0, j)
  {
    var all := builtin + learned;
    assert j == 2 || j == 3 || j == 7;
    assert forall p :: 0 <= p < 8 ==> all[p].authority == BUILTIN[p].1;
    forall p, k | j < p < k < |all| && all[p].authority == all[j].authority
      ensures all[k].authority <= all[j].authority
    {
      assert p >= 8;
      assert all[p] == learned[p - 8] && all[k] == learned[k - 8];
    }
  }
}
