/** Human decisions recorded in batches: one transaction per item, idempotency keys, revision
    checks, replay after a crash, the single-decision writer beside it and the strict history
    reader after it. */
module DecisionBatches {
  import opened Collections

  type Group = string

  datatype Kind =
    KeepAll | DraftAction | Deferred | RejectedSuggestion | CrossArchive | BackupRelation | PrimaryRetention

  /** The latest decision row of a group; a group without one has revision 0. */
  datatype Decision = Decision(kind: Kind, retained: Option<nat>, reason: string, revision: nat)

  datatype Eligibility = Eligible | Conflicting | Barred

  datatype Code = RecordOnly | RecordingUnavailable | GroupUnavailable | SubjectChanged | SafetyStateChanged
                | AlreadyRecorded | RecordedOnly | SourceRejected(why: string) | NotCommitted

  datatype PreviewItem = PreviewItem(group: Group, version: string, revision: nat, eligibility: Eligibility, code: Code)

  datatype Preview = Preview(kind: Kind, reason: string, items: seq<PreviewItem>)

  datatype Status = Saved | Unchanged | Conflict | Blocked | Failed

  datatype Outcome = Outcome(status: Status, code: Code, revision: nat)

  datatype Batch = Batch(key: string, token: string, requested: nat, complete: bool,
                         outcomes: map<Group, Outcome>)

  datatype Audit = Audit(batch: Option<nat>, group: Group, kind: Kind, revision: nat, status: Status)

  datatype Store = Store(decisions: map<Group, Decision>, previews: map<string, Preview>, batches: seq<Batch>,
      audit: seq<Audit>)

  /** What a writer sees around the database: the indexed subject version of each group that still
      has one, the write guard, and the source checks of this call, if it makes any. */
  datatype World = World(index: map<Group, string>, allowed: bool, freshness: Option<map<Group, Code>>, unexpired: bool)

  /** The request digest covers token and key, and SHA-256 is injective here. */
  datatype Request = Request(token: string, key: string)

  const MATCH := RecordOnly

  function Revision(s: Store, g: Group): nat {
    if g in s.decisions then s.decisions[g].revision else 0
  }

  /******* Previews *******/

  predicate Supported(kind: Kind) { !kind.PrimaryRetention? }

  predicate DistinctGroups(items: seq<PreviewItem>) {
    forall i, j :: 0 <= i < j < |items| ==> items[i].group != items[j].group
  }

  predicate WellFormed(p: Preview) {
    1 <= |p.items| <= 100 && Supported(p.kind) && DistinctGroups(p.items)
    && forall item <- p.items :: !item.code.NotCommitted?
  }

  /** PersistGovernancePreview writes under a fresh token, or nothing. */
  function PersistPreview(s: Store, w: World, token: string, p: Preview): Store {
    if w.allowed && token !in s.previews && WellFormed(p) then s.(previews := s.previews[token := p]) else s
  }

  /******* One item, one transaction *******/

  predicate Rejected(code: Code) { code.SourceRejected? }

  /** A source check that does not match blocks an eligible item. */
  function Checked(w: World, item: PreviewItem): PreviewItem {
    if w.freshness.Some? && item.eligibility.Eligible? &&
       !(item.group in w.freshness.value && w.freshness.value[item.group] == MATCH)
    then item.(eligibility := Barred,
               code := SourceRejected(if item.group in w.freshness.value && Rejected(w.freshness.value[item.group])
                                      then w.freshness.value[item.group].why else "SOURCE_UNVERIFIED"))
    else item
  }

  function Decide(s: Store, w: World, p: Preview, item: PreviewItem): Outcome {
    var known := item.group in w.index;
    var revision := if known then Revision(s, item.group) else item.revision;
    if !w.allowed then Outcome(Blocked, SafetyStateChanged, revision)
    else if !item.eligibility.Eligible? then
      Outcome(if item.eligibility.Conflicting? then Conflict else Blocked, item.code, revision)
    else if !known then Outcome(Conflict, GroupUnavailable, revision)
    else if w.index[item.group] != item.version || Revision(s, item.group) != item.revision then
      Outcome(Conflict, SubjectChanged, revision)
    else if item.group in s.decisions && s.decisions[item.group].kind == p.kind &&
            s.decisions[item.group].reason == p.reason then
      Outcome(Unchanged, AlreadyRecorded, revision)
    else Outcome(Saved, RecordedOnly, revision + 1)
  }

  function CommitItem(s: Store, w: World, b: nat, p: Preview, item: PreviewItem): (s': Store)
    requires b < |s.batches|
    ensures |s'.batches| == |s.batches|
  {
    if item.group in s.batches[b].outcomes then s
    else
      var o := Decide(s, w, p, item);
      s.(decisions := if o.status.Saved? then s.decisions[item.group := Decision(p.kind, None, p.reason, o.revision)]
          else s.decisions,
         audit := s.audit + [Audit(Some(b), item.group, p.kind, o.revision, o.status)],
         batches := s.batches[b := s.batches[b].(outcomes := s.batches[b].outcomes[item.group := o])])
  }

  function MarkComplete(s: Store, b: nat): (s': Store)
    requires b < |s.batches|
    ensures |s'.batches| == |s.batches|
  {
    if s.batches[b].requested != |s.batches[b].outcomes| then s
    else s.(batches := s.batches[b := s.batches[b].(complete := true)])
  }

  /******* One call, dying after `n` transactions or not at all *******/

  function OneLess(n: Option<nat>): Option<nat> {
    if n.None? || n.value == 0 then n else Some(n.value - 1)
  }

  function Items(s: Store, w: World, b: nat, p: Preview, items: seq<PreviewItem>, n: Option<nat>): (s': Store)
    requires b < |s.batches|
    ensures |s'.batches| == |s.batches|
    decreases |items|
  {
    if items == [] then (if n == Some(0) then s else MarkComplete(s, b))
    else if items[0].group in s.batches[b].outcomes then Items(s, w, b, p, items[1..], n)
    else if n == Some(0) then s
    else Items(CommitItem(s, w, b, p, Checked(w, items[0])), w, b, p, items[1..], OneLess(n))
  }

  function Find(batches: seq<Batch>, key: string): (r: Option<nat>)
    ensures r.Some? ==> r.value < |batches| && batches[r.value].key == key
    ensures r.None? ==> forall b <- batches :: b.key != key
  {
    if batches == [] then None
    else if batches[|batches| - 1].key == key then Some(|batches| - 1)
    else
      assert batches == batches[..|batches| - 1] + [batches[|batches| - 1]];
      Find(batches[..|batches| - 1], key)
  }

  function Commit(s: Store, w: World, r: Request, n: Option<nat>): Store {
    if !w.allowed then s
    else
      var found := Find(s.batches, r.key);
      if found.Some? && (s.batches[found.value].token != r.token || s.batches[found.value].complete) then s
      else if r.token !in s.previews || !w.unexpired then s
      else
        var p := s.previews[r.token];
        if found.Some? then Items(s, w, found.value, p, p.items, n)
        else if n == Some(0) then s
        else
          var begun := s.(batches := s.batches + [Batch(r.key, r.token, |p.items|, false, map[])]);
          Items(begun, w, |s.batches|, p, p.items, OneLess(n))
  }

  /** SaveGroupDecision: the single-decision writer. */
  function SaveGroupDecision(s: Store, w: World, g: Group, d: Decision): Store {
    if !w.allowed || g == "" || d.retained.Some? != d.kind.PrimaryRetention? || d.revision != Revision(s, g) then s
    else s.(decisions := s.decisions[g := d.(revision := d.revision + 1)],
            audit := s.audit + [Audit(None, g, d.kind, d.revision + 1, Saved)])
  }

  /******* Replay *******/

  /** The recorded outcomes of a batch only grow. */
  ghost predicate Extends(s: Store, s': Store) {
    && |s.batches| <= |s'.batches|
    && (forall b :: 0 <= b < |s.batches| ==>
          && s'.batches[b].key == s.batches[b].key && s'.batches[b].token == s.batches[b].token
          && s'.batches[b].requested == s.batches[b].requested
          && (s.batches[b].complete ==> s'.batches[b].complete)
          && forall g <- s.batches[b].outcomes ::
               g in s'.batches[b].outcomes && s'.batches[b].outcomes[g] == s.batches[b].outcomes[g])
    && (forall t <- s.previews :: t in s'.previews && s'.previews[t] == s.previews[t])
  }

  lemma {:induction false} ItemsExtend(s: Store, w: World, b: nat, p: Preview, items: seq<PreviewItem>, n: Option<nat>)
    requires b < |s.batches|
    ensures Extends(s, Items(s, w, b, p, items, n))
    decreases |items|
  {
    if items != [] {
      if items[0].group in s.batches[b].outcomes {
        ItemsExtend(s, w, b, p, items[1..], n);
      } else if n != Some(0) {
        var s1 := CommitItem(s, w, b, p, Checked(w, items[0]));
        ItemsExtend(s1, w, b, p, items[1..], OneLess(n));
      }
    }
  }

  /** Going over the items again after a crash ends where the first attempt would have ended. */
  lemma {:induction false} ItemsReplay(s: Store, w: World, b: nat, p: Preview, items: seq<PreviewItem>, n: Option<nat>)
    requires b < |s.batches|
    ensures Items(Items(s, w, b, p, items, n), w, b, p, items, None) == Items(s, w, b, p, items, None)
    decreases |items|
  {
    if items == [] {
    } else if items[0].group in s.batches[b].outcomes {
      ItemsReplay(s, w, b, p, items[1..], n);
      ItemsExtend(s, w, b, p, items[1..], n);
    } else if n != Some(0) {
      var s1 := CommitItem(s, w, b, p, Checked(w, items[0]));
      var n1 := OneLess(n);
      ItemsReplay(s1, w, b, p, items[1..], n1);
      ItemsExtend(s1, w, b, p, items[1..], n1);
    }
  }

  lemma {:induction false} FindByKeys(a: seq<Batch>, b: seq<Batch>, key: string)
    requires |a| == |b| && forall i :: 0 <= i < |a| ==> a[i].key == b[i].key
    ensures Find(a, key) == Find(b, key)
  {
    if a != [] { FindByKeys(a[..|a| - 1], b[..|b| - 1], key); }
  }

  /** A run that has marked its batch complete has done everything. */
  lemma {:induction false} CompleteIsFinal(s: Store, w: World, b: nat, p: Preview, items: seq<PreviewItem>,
        n: Option<nat>)
    requires b < |s.batches| && !s.batches[b].complete && Items(s, w, b, p, items, n).batches[b].complete
    ensures Items(s, w, b, p, items, n) == Items(s, w, b, p, items, None)
    decreases |items|
  {
    if items != [] {
      if items[0].group in s.batches[b].outcomes {
        CompleteIsFinal(s, w, b, p, items[1..], n);
      } else if n != Some(0) {
        CompleteIsFinal(CommitItem(s, w, b, p, Checked(w, items[0])), w, b, p, items[1..], OneLess(n));
      }
    }
  }

  lemma {:induction false} ItemsKeepTheRest(s: Store, w: World, b: nat, p: Preview, items: seq<PreviewItem>,
        n: Option<nat>)
    requires b < |s.batches|
    ensures var s' := Items(s, w, b, p, items, n);
      s'.previews == s.previews && forall i :: 0 <= i < |s.batches| && i != b ==> s'.batches[i] == s.batches[i]
    decreases |items|
  {
    if items != [] {
      if items[0].group in s.batches[b].outcomes {
        ItemsKeepTheRest(s, w, b, p, items[1..], n);
      } else if n != Some(0) {
        ItemsKeepTheRest(CommitItem(s, w, b, p, Checked(w, items[0])), w, b, p, items[1..], OneLess(n));
      }
    }
  }

  lemma CommitReplay(s: Store, w: World, r: Request, n: Option<nat>)
    ensures Commit(Commit(s, w, r, n), w, r, None) == Commit(s, w, r, None)
  {
    var found := Find(s.batches, r.key);
    if w.allowed && w.unexpired && r.token in s.previews {
      var p := s.previews[r.token];
      if found.None? && n != Some(0) {
        var begun := s.(batches := s.batches + [Batch(r.key, r.token, |p.items|, false, map[])]);
        ResumeReplay(begun, w, r, |s.batches|, p, OneLess(n));
      } else if found.Some? && s.batches[found.value].token == r.token && !s.batches[found.value].complete {
        ResumeReplay(s, w, r, found.value, p, n);
      }
    }
  }

  lemma ResumeReplay(s: Store, w: World, r: Request, b: nat, p: Preview, n: Option<nat>)
    requires w.allowed && w.unexpired && b < |s.batches| && Find(s.batches, r.key) == Some(b)
    requires s.batches[b].token == r.token && !s.batches[b].complete && r.token in s.previews &&
             s.previews[r.token] == p
    ensures Commit(Items(s, w, b, p, p.items, n), w, r, None) == Items(s, w, b, p, p.items, None)
  {
    var s1 := Items(s, w, b, p, p.items, n);
    ItemsExtend(s, w, b, p, p.items, n);
    FindByKeys(s.batches, s1.batches, r.key);
    ItemsReplay(s, w, b, p, p.items, n);
    if s1.batches[b].complete { CompleteIsFinal(s, w, b, p, p.items, n); }
  }

  function Attempts(s: Store, w: World, r: Request, deaths: seq<nat>): Store
    decreases |deaths|
  {
    if deaths == [] then s else Attempts(Commit(s, w, r, Some(deaths[0])), w, r, deaths[1..])
  }

  /** However often a batch dies, and after however many transactions each time, replaying it with
      its key ends with the decisions, outcomes and audit of one uninterrupted call. */
  lemma {:induction false} ReplayIsUninterrupted(s: Store, w: World, r: Request, deaths: seq<nat>)
    ensures Commit(Attempts(s, w, r, deaths), w, r, None) == Commit(s, w, r, None)
    decreases |deaths|
  {
    if deaths != [] {
      ReplayIsUninterrupted(Commit(s, w, r, Some(deaths[0])), w, r, deaths[1..]);
      CommitReplay(s, w, r, Some(deaths[0]));
    }
  }

  /******* Every reachable database *******/

  /** A whole call that dies or not, or a single transaction of one. The world may be another one for
      every transaction, and other writers may come between them. */
  datatype Call =
    | MakePreview(w: World, token: string, p: Preview)
    | CommitCall(w: World, r: Request, n: Option<nat>)
    | ItemCall(w: World, b: nat, i: nat)
    | MarkCall(b: nat)
    | SaveCall(w: World, g: Group, d: Decision)

  /** One item of a batch that is under way. */
  predicate Underway(s: Store, b: nat, i: nat) {
    b < |s.batches| && !s.batches[b].complete &&
    s.batches[b].token in s.previews && i < |s.previews[s.batches[b].token].items|
  }

  function Do(s: Store, c: Call): Store {
    match c
    case MakePreview(w, token, p) => PersistPreview(s, w, token, p)
    case CommitCall(w, r, n) => Commit(s, w, r, n)
    case ItemCall(w, b, i) =>
      if !Underway(s, b, i) then s
      else
        var p := s.previews[s.batches[b].token];
        CommitItem(s, w, b, p, Checked(w, p.items[i]))
    case MarkCall(b) => if b < |s.batches| then MarkComplete(s, b) else s
    case SaveCall(w, g, d) => SaveGroupDecision(s, w, g, d)
  }

  function DoAll(s: Store, calls: seq<Call>): Store
    decreases |calls|
  {
    if calls == [] then s else DoAll(Do(s, calls[0]), calls[1..])
  }

  ghost predicate Requested(p: Preview, g: Group) {
    exists item <- p.items :: item.group == g
  }

  ghost predicate Recorded(p: Preview, g: Group, o: Outcome) {
    && !o.code.NotCommitted? && !o.status.Failed?
    && exists item <- p.items ::
         item.group == g && (o.status.Saved? ==> item.eligibility.Eligible? && o.revision == item.revision + 1)
  }

  ghost predicate SoundBatch(s: Store, b: Batch) {
    && b.token in s.previews
    && b.requested == |s.previews[b.token].items|
    && (forall g <- b.outcomes :: Recorded(s.previews[b.token], g, b.outcomes[g]))
    && (b.complete ==> |b.outcomes| == b.requested)
  }

  function SavedRevisions(audit: seq<Audit>, g: Group): seq<nat> {
    if audit == [] then []
    else
      var last := audit[|audit| - 1];
      SavedRevisions(audit[..|audit| - 1], g) + (if last.group == g && last.status.Saved? then [last.revision] else [])
  }

  /** The revisions after `lo` up to and including `hi`, none skipped and none repeated. */
  function Consecutive(lo: nat, hi: nat): seq<nat>
    decreases hi
  {
    if hi <= lo then [] else Consecutive(lo, hi - 1) + [hi]
  }

  /** The saves of a group carry every revision after `lo` up to the current one, once and in order. */
  predicate ChainOf(s: Store, g: Group, lo: nat) {
    lo <= Revision(s, g) && SavedRevisions(s.audit, g) == Consecutive(lo, Revision(s, g))
  }

  ghost predicate Sound(s: Store, base: Store) {
    && (forall t <- s.previews :: WellFormed(s.previews[t]))
    && (forall b <- s.batches :: SoundBatch(s, b))
    && (forall g :: ChainOf(s, g, Revision(base, g)))
  }

  ghost predicate Fresh(s: Store) {
    s.previews == map[] && s.batches == [] && s.audit == []
  }

  lemma AuditOneMore(s: Store, s': Store, a: Audit)
    requires s'.audit == s.audit + [a]
    requires forall g :: Revision(s', g) == Revision(s, g) + if a.status.Saved? && g == a.group then 1 else 0
    requires a.status.Saved? ==> a.revision == Revision(s, a.group) + 1
    ensures forall g, lo: nat :: ChainOf(s, g, lo) ==> ChainOf(s', g, lo)
  {
    assert s'.audit[..|s'.audit| - 1] == s.audit;
  }

  lemma ItemIsSound(s: Store, base: Store, w: World, b: nat, p: Preview, item: PreviewItem)
    requires Sound(s, base) && b < |s.batches| && !s.batches[b].complete
    requires s.batches[b].token in s.previews && s.previews[s.batches[b].token] == p && item in p.items
    ensures Sound(CommitItem(s, w, b, p, Checked(w, item)), base)
  {
    if item.group !in s.batches[b].outcomes {
      var item' := Checked(w, item);
      var o := Decide(s, w, p, item');
      var s' := CommitItem(s, w, b, p, item');
      AuditOneMore(s, s', Audit(Some(b), item.group, p.kind, o.revision, o.status));
      assert WellFormed(s.previews[s.batches[b].token]);
      assert Recorded(p, item.group, o);
      forall x | x in s'.batches ensures SoundBatch(s', x) {
        var i :| 0 <= i < |s'.batches| && s'.batches[i] == x;
        assert SoundBatch(s, s.batches[i]);
      }
    }
  }

  lemma MarkIsSound(s: Store, base: Store, b: nat)
    requires Sound(s, base) && b < |s.batches|
    ensures Sound(MarkComplete(s, b), base)
  {
    var s' := MarkComplete(s, b);
    forall x | x in s'.batches ensures SoundBatch(s', x) {
      var i :| 0 <= i < |s'.batches| && s'.batches[i] == x;
      assert SoundBatch(s, s.batches[i]);
    }
  }

  lemma {:induction false} ItemsAreSound(s: Store, base: Store, w: World, b: nat, p: Preview, items: seq<PreviewItem>,
        n: Option<nat>)
    requires Sound(s, base) && b < |s.batches| && !s.batches[b].complete
    requires s.batches[b].token in s.previews && s.previews[s.batches[b].token] == p &&
             forall item <- items :: item in p.items
    ensures Sound(Items(s, w, b, p, items, n), base)
    decreases |items|
  {
    if items == [] {
      MarkIsSound(s, base, b);
    } else if items[0].group in s.batches[b].outcomes {
      ItemsAreSound(s, base, w, b, p, items[1..], n);
    } else if n != Some(0) {
      ItemIsSound(s, base, w, b, p, items[0]);
      ItemsAreSound(CommitItem(s, w, b, p, Checked(w, items[0])), base, w, b, p, items[1..], OneLess(n));
    }
  }

  lemma CallIsSound(s: Store, base: Store, c: Call)
    requires Sound(s, base)
    ensures Sound(Do(s, c), base)
  {
    match c
    case MakePreview(w, token, p) =>
      var s' := PersistPreview(s, w, token, p);
      forall x | x in s'.batches ensures SoundBatch(s', x) { assert SoundBatch(s, x); }
    case CommitCall(w, r, n) => CommitIsSound(s, base, w, r, n);
    case ItemCall(w, b, i) =>
      if Underway(s, b, i) {
        var p := s.previews[s.batches[b].token];
        ItemIsSound(s, base, w, b, p, p.items[i]);
      }
    case MarkCall(b) => if b < |s.batches| { MarkIsSound(s, base, b); }
    case SaveCall(w, g, d) =>
      var s' := SaveGroupDecision(s, w, g, d);
      if s' != s { AuditOneMore(s, s', Audit(None, g, d.kind, d.revision + 1, Saved)); }
      forall x | x in s'.batches ensures SoundBatch(s', x) { assert SoundBatch(s, x); }
  }

  lemma CommitIsSound(s: Store, base: Store, w: World, r: Request, n: Option<nat>)
    requires Sound(s, base)
    ensures Sound(Commit(s, w, r, n), base)
  {
    if w.allowed && w.unexpired && r.token in s.previews {
      var p := s.previews[r.token];
      var found := Find(s.batches, r.key);
      if found.Some? {
        if s.batches[found.value].token == r.token && !s.batches[found.value].complete {
          ItemsAreSound(s, base, w, found.value, p, p.items, n);
        }
      } else if n != Some(0) {
        var begun := s.(batches := s.batches + [Batch(r.key, r.token, |p.items|, false, map[])]);
        forall x | x in begun.batches ensures SoundBatch(begun, x) {
          if x in s.batches { assert SoundBatch(s, x); }
        }
        ItemsAreSound(begun, base, w, |s.batches|, p, p.items, OneLess(n));
      }
    }
  }

  lemma {:induction false} CallsAreSound(s: Store, base: Store, calls: seq<Call>)
    requires Sound(s, base)
    ensures Sound(DoAll(s, calls), base)
    decreases |calls|
  {
    if calls != [] {
      CallIsSound(s, base, calls[0]);
      CallsAreSound(Do(s, calls[0]), base, calls[1..]);
    }
  }

  /******* What a caller can rely on *******/

  lemma CallExtends(s: Store, c: Call)
    ensures Extends(s, Do(s, c))
  {
    if c.CommitCall? {
      var w, r, n := c.w, c.r, c.n;
      if w.allowed && w.unexpired && r.token in s.previews {
        var p := s.previews[r.token];
        var found := Find(s.batches, r.key);
        if found.Some? {
          ItemsExtend(s, w, found.value, p, p.items, n);
        } else if n != Some(0) {
          var begun := s.(batches := s.batches + [Batch(r.key, r.token, |p.items|, false, map[])]);
          ItemsExtend(begun, w, |s.batches|, p, p.items, OneLess(n));
        }
      }
    }
  }

  /** The guard may close between two items of one call: an eligible item is then recorded as blocked. */
  lemma GuardClosesBetweenItems(w: World, token: string, p: Preview, key: string)
    requires w.allowed && w.unexpired && WellFormed(p) && p.items[0].eligibility.Eligible? && w.freshness.None?
    ensures var empty := Store(map[], map[], [], []);
      var s := DoAll(empty, [MakePreview(w, token, p), CommitCall(w, Request(token, key), Some(1)),
                             ItemCall(w.(allowed := false), 0, 0)]);
      && |s.batches| == 1 && p.items[0].group in s.batches[0].outcomes
      && s.batches[0].outcomes[p.items[0].group].status.Blocked?
      && s.batches[0].outcomes[p.items[0].group].code.SafetyStateChanged?
  {
    var empty := Store(map[], map[], [], []);
    var s1 := Do(empty, MakePreview(w, token, p));
    var s2 := s1.(batches := [Batch(key, token, |p.items|, false, map[])]);
    StopsHere(s2, w, 0, p, p.items);
    assert s1.batches + [Batch(key, token, |p.items|, false, map[])] == s2.batches;
    assert Do(s1, CommitCall(w, Request(token, key), Some(1))) == s2;
    var calls := [MakePreview(w, token, p), CommitCall(w, Request(token, key), Some(1)),
        ItemCall(w.(allowed := false), 0, 0)];
    var s3 := Do(s2, calls[2]);
    assert calls[1..] == [calls[1], calls[2]] && calls[1..][1..] == [calls[2]] && [calls[2]][1..] == [];
    assert DoAll(s2, [calls[2]]) == DoAll(s3, []);
    assert DoAll(s1, calls[1..]) == DoAll(s2, [calls[2]]);
  }

  /** A recorded outcome is never rewritten and a complete batch stays complete. */
  lemma {:induction false} OutcomesAreForever(s: Store, calls: seq<Call>)
    ensures Extends(s, DoAll(s, calls))
    decreases |calls|
  {
    if calls != [] {
      CallExtends(s, calls[0]);
      OutcomesAreForever(Do(s, calls[0]), calls[1..]);
    }
  }

  function Groups(items: seq<PreviewItem>): set<Group> {
    set item | item in items :: item.group
  }

  lemma {:induction false} AsManyGroups(items: seq<PreviewItem>)
    requires DistinctGroups(items)
    ensures |Groups(items)| == |items|
  {
    if items != [] {
      AsManyGroups(items[1..]);
      assert Groups(items) == {items[0].group} + Groups(items[1..]);
      assert items[0].group !in Groups(items[1..]);
    }
  }

  lemma KeysCount(outcomes: map<Group, Outcome>)
    ensures |outcomes.Keys| == |outcomes|
  {
  }

  lemma AtMostRequested(s: Store, base: Store, b: nat)
    requires Sound(s, base) && b < |s.batches|
    ensures SoundBatch(s, s.batches[b])
    ensures var items := s.previews[s.batches[b].token].items;
      && s.batches[b].outcomes.Keys <= Groups(items)
      && |s.batches[b].outcomes| <= |items|
      && (|s.batches[b].outcomes| == |items| ==> s.batches[b].outcomes.Keys == Groups(items))
  {
    var batch := s.batches[b];
    assert SoundBatch(s, batch);
    var items := s.previews[batch.token].items;
    assert WellFormed(s.previews[batch.token]);
    AsManyGroups(items);
    forall g | g in batch.outcomes ensures g in Groups(items) {
      assert Recorded(s.previews[batch.token], g, batch.outcomes[g]);
    }
    KeysCount(batch.outcomes);
    SubsetIsNoLarger(batch.outcomes.Keys, Groups(items));
    if |batch.outcomes| == |items| { SubsetOfEqualSize(batch.outcomes.Keys, Groups(items)); }
  }

  /** COMPLETE holds only when every requested group, and no other, has its outcome. */
  lemma CompleteCoversThePreview(base: Store, calls: seq<Call>, b: nat)
    requires Fresh(base) && b < |DoAll(base, calls).batches|
    ensures var s := DoAll(base, calls); var batch := s.batches[b];
      && batch.token in s.previews && batch.outcomes.Keys <= Groups(s.previews[batch.token].items)
      && (batch.complete ==> batch.outcomes.Keys == Groups(s.previews[batch.token].items))
  {
    CallsAreSound(base, base, calls);
    AtMostRequested(DoAll(base, calls), base, b);
  }

  /** Each SAVED outcome moved its group from the previewed revision to the next one. */
  lemma SavedAdvancesByOne(base: Store, calls: seq<Call>, b: nat, g: Group)
    requires Fresh(base) && b < |DoAll(base, calls).batches| && g in DoAll(base, calls).batches[b].outcomes
    requires DoAll(base, calls).batches[b].outcomes[g].status.Saved?
    ensures var s := DoAll(base, calls); var batch := s.batches[b];
      batch.token in s.previews &&
      exists item <- s.previews[batch.token].items ::
        item.group == g && item.eligibility.Eligible? && batch.outcomes[g].revision == item.revision + 1
  {
    CallsAreSound(base, base, calls);
    var s := DoAll(base, calls);
    assert SoundBatch(s, s.batches[b]);
    assert Recorded(s.previews[s.batches[b].token], g, s.batches[b].outcomes[g]);
  }

  lemma {:induction false} ConsecutiveIs(lo: nat, hi: nat)
    requires lo <= hi
    ensures |Consecutive(lo, hi)| == hi - lo
    ensures forall i :: 0 <= i < hi - lo ==> Consecutive(lo, hi)[i] == lo + 1 + i
    decreases hi
  {
    if lo < hi { ConsecutiveIs(lo, hi - 1); }
  }

  /** No lost updates: across both writers the saves of a group carry every revision after the
      first database exactly once, in order, up to the current one. */
  lemma NoLostUpdates(base: Store, calls: seq<Call>, g: Group)
    requires Fresh(base)
    ensures var s := DoAll(base, calls); var saved := SavedRevisions(s.audit, g);
      && |saved| == Revision(s, g) - Revision(base, g)
      && forall i :: 0 <= i < |saved| ==> saved[i] == Revision(base, g) + 1 + i
  {
    CallsAreSound(base, base, calls);
    ConsecutiveIs(Revision(base, g), Revision(DoAll(base, calls), g));
  }

  /******* The strict history reader *******/

  /** What ListGovernanceBatches and validateHistoryMembership demand of one batch. */
  predicate Accepts(s: Store, b: Batch) {
    && 1 <= b.requested <= 100 && |b.outcomes| <= b.requested
    && (b.complete ==> |b.outcomes| == b.requested)
    && b.token in s.previews && |s.previews[b.token].items| == b.requested
    && DistinctGroups(s.previews[b.token].items)
    && (forall g <- b.outcomes :: g in Groups(s.previews[b.token].items) && !b.outcomes[g].code.NotCommitted?)
  }

  lemma HistoryAcceptsEveryState(base: Store, calls: seq<Call>)
    requires Fresh(base)
    ensures forall b <- DoAll(base, calls).batches :: Accepts(DoAll(base, calls), b)
  {
    var s := DoAll(base, calls);
    CallsAreSound(base, base, calls);
    forall b | b in s.batches ensures Accepts(s, b) {
      var i :| 0 <= i < |s.batches| && s.batches[i] == b;
      AtMostRequested(s, base, i);
      assert WellFormed(s.previews[b.token]);
      forall g | g in b.outcomes ensures !b.outcomes[g].code.NotCommitted? {
        assert Recorded(s.previews[b.token], g, b.outcomes[g]);
      }
    }
  }

  /******* The program's loops *******/

  datatype Counts = Counts(saved: nat, kept: nat, conflict: nat, blocked: nat, failed: nat, total: nat)

  function Result(b: Batch, items: seq<PreviewItem>): seq<Outcome> {
    if items == [] then []
    else
      var g := items[0].group;
      [if g in b.outcomes then b.outcomes[g] else Outcome(Failed, NotCommitted, 0)] + Result(b, items[1..])
  }

  function Count(os: seq<Outcome>, status: Status): nat {
    if os == [] then 0 else (if os[|os| - 1].status == status then 1 else 0) + Count(os[..|os| - 1], status)
  }

  lemma CountOneMore(os: seq<Outcome>, o: Outcome, status: Status)
    ensures Count(os + [o], status) == Count(os, status) + if o.status == status then 1 else 0
  {
    assert (os + [o])[..|os|] == os;
  }

  lemma ResultOneMore(b: Batch, items: seq<PreviewItem>, i: nat, os: seq<Outcome>)
    requires i < |items| && os + Result(b, items[i..]) == Result(b, items)
    ensures os + Result(b, items[i..])[..1] + Result(b, items[i + 1..]) == Result(b, items)
    ensures |Result(b, items[i..])| > 0
  {
    assert items[i..][1..] == items[i + 1..];
  }

  /** GetBatchDecisionResult: one line per previewed item, and counts that add up. */
  method GetBatchDecisionResult(b: Batch, p: Preview) returns (items: seq<Outcome>, counts: Counts)
    ensures items == Result(b, p.items) && |items| == |p.items|
    ensures counts.total == |p.items| == counts.saved + counts.kept + counts.conflict + counts.blocked + counts.failed
    ensures counts.saved == Count(items, Saved) && counts.kept == Count(items, Unchanged)
    ensures counts.conflict == Count(items, Conflict) && counts.blocked == Count(items, Blocked)
  {
    items, counts := [], Counts(0, 0, 0, 0, 0, 0);
    assert p.items[0..] == p.items;
    for i := 0 to |p.items|
      invariant |items| == i && items + Result(b, p.items[i..]) == Result(b, p.items)
      invariant counts.total == i == counts.saved + counts.kept + counts.conflict + counts.blocked + counts.failed
      invariant counts.saved == Count(items, Saved) && counts.kept == Count(items, Unchanged)
      invariant counts.conflict == Count(items, Conflict) && counts.blocked == Count(items, Blocked)
    {
      var g := p.items[i].group;
      var o := if g in b.outcomes then b.outcomes[g] else Outcome(Failed, NotCommitted, 0);
      ResultOneMore(b, p.items, i, items);
      forall status ensures Count(items + [o], status) == Count(items, status) + if o.status == status then 1 else 0 {
        CountOneMore(items, o, status);
      }
      items := items + [o];
      counts := Tally(counts, o.status);
    }
  }

  function Tally(c: Counts, status: Status): Counts {
    var c' := match status
      case Saved => c.(saved := c.saved + 1)
      case Unchanged => c.(kept := c.kept + 1)
      case Conflict => c.(conflict := c.conflict + 1)
      case Blocked => c.(blocked := c.blocked + 1)
      case Failed => c.(failed := c.failed + 1);
    c'.(total := c.total + 1)
  }

  /** The items committed one after the other. */
  function Done(s: Store, w: World, b: nat, p: Preview, items: seq<PreviewItem>): (s': Store)
    requires b < |s.batches|
    ensures |s'.batches| == |s.batches|
  {
    if items == [] then s
    else CommitItem(Done(s, w, b, p, items[..|items| - 1]), w, b, p, Checked(w, items[|items| - 1]))
  }

  lemma {:induction false} DoneFromTheFront(s: Store, w: World, b: nat, p: Preview, items: seq<PreviewItem>)
    requires b < |s.batches| && items != []
    ensures Done(s, w, b, p, items) == Done(CommitItem(s, w, b, p, Checked(w, items[0])), w, b, p, items[1..])
    decreases |items|
  {
    if |items| > 1 {
      DoneFromTheFront(s, w, b, p, items[..|items| - 1]);
      assert items[..|items| - 1][1..] == items[1..][..|items| - 2];
    }
  }

  lemma {:induction false} DoneThenMarked(s: Store, w: World, b: nat, p: Preview, items: seq<PreviewItem>)
    requires b < |s.batches|
    ensures Items(s, w, b, p, items, None) == MarkComplete(Done(s, w, b, p, items), b)
    decreases |items|
  {
    if items != [] {
      DoneFromTheFront(s, w, b, p, items);
      DoneThenMarked(CommitItem(s, w, b, p, Checked(w, items[0])), w, b, p, items[1..]);
    }
  }

  /** Having committed the first i items is having died after some number of transactions. */
  lemma {:induction false} DoneSoFar(s: Store, w: World, b: nat, p: Preview, items: seq<PreviewItem>, i: nat)
        returns (n: nat)
    requires b < |s.batches| && i <= |items|
    ensures Items(s, w, b, p, items, Some(n)) == Done(s, w, b, p, items[..i])
    decreases i
  {
    if i == 0 {
      n := 0;
      StopsHere(s, w, b, p, items);
    } else {
      DoneFromTheFront(s, w, b, p, items[..i]);
      assert items[..i][1..] == items[1..][..i - 1];
      n := DoneSoFar(CommitItem(s, w, b, p, Checked(w, items[0])), w, b, p, items[1..], i - 1);
      if items[0].group !in s.batches[b].outcomes { n := n + 1; }
    }
  }

  lemma {:induction false} StopsHere(s: Store, w: World, b: nat, p: Preview, items: seq<PreviewItem>)
    requires b < |s.batches|
    ensures Items(s, w, b, p, items, Some(0)) == s
    decreases |items|
  {
    if items != [] && items[0].group in s.batches[b].outcomes { StopsHere(s, w, b, p, items[1..]); }
  }

  class GovernanceStore {
    var store: Store

    constructor (store: Store)
      ensures this.store == store
    {
      this.store := store;
    }

    /** Commits the items of one preview in order. The call may be cancelled between items and any
        transaction may fail, which ends it; `n` tells how many transactions it got through. */
    method CommitItems(w: World, b: nat, p: Preview) returns (ghost n: Option<nat>)
      requires b < |store.batches|
      modifies this
      ensures store == Items(old(store), w, b, p, p.items, n)
    {
      for i := 0 to |p.items|
        invariant store == Done(old(store), w, b, p, p.items[..i])
      {
        var stopped := *;
        if stopped {
          ghost var made := DoneSoFar(old(store), w, b, p, p.items, i);
          return Some(made);
        }
        var item := p.items[i];
        assert p.items[..i + 1][..i] == p.items[..i];
        store := CommitItem(store, w, b, p, Checked(w, item));
      }
      assert p.items[..|p.items|] == p.items;
      var closed := *;
      if closed {
        DoneThenMarked(old(store), w, b, p, p.items);
        store := MarkComplete(store, b);
        return None;
      }
      ghost var made := DoneSoFar(old(store), w, b, p, p.items, |p.items|);
      return Some(made);
    }

    /** One call of the batch writer. */
    method CommitBatchDecisions(w: World, r: Request) returns (ghost n: Option<nat>)
      modifies this
      ensures store == Commit(old(store), w, r, n)
    {
      n := None;
      if !w.allowed { return; }
      var found := Find(store.batches, r.key);
      if found.Some? && (store.batches[found.value].token != r.token || store.batches[found.value].complete) { return; }
      if r.token !in store.previews || !w.unexpired { return; }
      var p := store.previews[r.token];
      if found.Some? {
        n := CommitItems(w, found.value, p);
        return;
      }
      var inserted := *;
      if !inserted { return Some(0); }
      var b := |store.batches|;
      store := store.(batches := store.batches + [Batch(r.key, r.token, |p.items|, false, map[])]);
      ghost var m := CommitItems(w, b, p);
      n := if m.None? then None else Some(m.value + 1);
    }
  }
}
