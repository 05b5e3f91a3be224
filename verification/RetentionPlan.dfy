/** Which copy of a duplicate group a plan retains, and what carrying the plan out leaves of it. */
module RetentionPlan {
  import opened Collections
  import opened Files
  import opened ExecutionMachine
  import opened ExecutionRestore
  import opened ExecutionInvariant
  import DirectoryRules
  import ExecutionTheorems
  import PathOrder

  /** One copy with what its path says about it: the directory's context, the business anchor, and
      whether the file is a project source, a sidecar or a cache others depend on. */
  datatype Member = Member(path: Path, modified: int, context: DirectoryRules.Context, anchor: string, dependency: bool)

  /** `hashLength` is the length of the hash string. */
  datatype Group = Group(digest: Digest, hashLength: nat, size: nat, files: seq<Member>)

  datatype Risk = Critical | High | Medium

  datatype Decision = Reviewed(risk: Risk, suggested: Option<Member>) | Retained(member: Member)

  datatype Proposal = Proposal(risk: Risk, retain: Option<Path>, score: int, actions: Plan)

  /******* Scores *******/

  const NANOS_PER_WEEK: int := 7 * 24 * 3600 * 1_000_000_000

  function Min(a: int, b: int): int { if a < b then a else b }

  function Slashes(s: string): nat {
    if s == "" then 0 else (if s[0] == '/' then 1 else 0) + Slashes(s[1..])
  }

  /** The directory of a clean path. */
  function Dir(path: string): string {
    if '/' !in path then "."
    else if path[|path| - 1] == '/' then (if |path| == 1 then "/" else path[..|path| - 1])
    else if '/' !in path[..|path| - 1] then "." else Dir(path[..|path| - 1])
  }

  function Bonus(role: DirectoryRules.Role): int {
    if role.Raw? || role.FormalArchive? then 20 else if role.Temporary? || role.Cache? then -20 else 0
  }

  function Score(m: Member, now: int): int {
    m.context.authority
    + (if now < m.modified then 0 else Min((now - m.modified) / NANOS_PER_WEEK, 30))
    + Min(Slashes(Dir(m.path)), 10)
    + Bonus(m.context.role)
  }

  /** The copy `a` is preferred to `b`: higher score, then older, then lesser path. */
  predicate Preferred(a: Member, b: Member, now: int) {
    if Score(a, now) != Score(b, now) then Score(a, now) > Score(b, now)
    else if a.modified != b.modified then a.modified < b.modified
    else PathOrder.Less(a.path, b.path)
  }

  lemma PreferredIsTotal(a: Member, b: Member, now: int)
    requires a.path != b.path
    ensures Preferred(a, b, now) != Preferred(b, a, now)
  {
    PathOrder.Total(a.path, b.path);
    if PathOrder.Less(a.path, b.path) { PathOrder.Asymmetric(a.path, b.path); }
    if PathOrder.Less(b.path, a.path) { PathOrder.Asymmetric(b.path, a.path); }
  }

  lemma PreferredIsTransitive(a: Member, b: Member, c: Member, now: int)
    requires Preferred(a, b, now) && Preferred(b, c, now)
    ensures Preferred(a, c, now)
  {
    if PathOrder.Less(a.path, b.path) && PathOrder.Less(b.path, c.path) {
      PathOrder.Transitive(a.path, b.path, c.path);
    }
  }

  /******* The stable sort *******/

  function Insert(m: Member, sorted: seq<Member>, now: int): (r: seq<Member>)
    ensures multiset(r) == multiset{m} + multiset(sorted)
  {
    if sorted == [] || !Preferred(sorted[0], m, now) then [m] + sorted
    else
      assert sorted == [sorted[0]] + sorted[1..];
      [sorted[0]] + Insert(m, sorted[1..], now)
  }

  function SortStable(files: seq<Member>, now: int): (r: seq<Member>)
    ensures multiset(r) == multiset(files) && (files != [] ==> r != [])
  {
    if files == [] then []
    else
      assert files == [files[0]] + files[1..];
      assert multiset(files) == multiset{files[0]} + multiset(files[1..]);
      Insert(files[0], SortStable(files[1..], now), now)
  }

  predicate DistinctPaths(files: seq<Member>) {
    forall i, k :: 0 <= i < k < |files| ==> files[i].path != files[k].path
  }

  ghost predicate Best(w: Member, files: seq<Member>, now: int) {
    w in files && forall m <- files :: m != w ==> Preferred(w, m, now)
  }

  function Winner(files: seq<Member>, now: int): (w: Member)
    requires files != []
    ensures w in files
  {
    var sorted := SortStable(files, now);
    assert sorted[0] in multiset(sorted);
    sorted[0]
  }

  /** The winner of distinct copies is preferred to every other one. */
  lemma {:induction false} WinnerIsBest(files: seq<Member>, now: int)
    requires files != [] && DistinctPaths(files)
    ensures Best(Winner(files, now), files, now)
    decreases |files|
  {
    var m, rest := files[0], files[1..];
    if rest != [] {
      WinnerIsBest(rest, now);
      var w := Winner(rest, now);
      var k :| 0 <= k < |rest| && rest[k] == w;
      assert files[k + 1] == w;
      PreferredIsTotal(m, w, now);
      forall x | x in files && x != Winner(files, now) ensures Preferred(Winner(files, now), x, now) {
        if Preferred(m, w, now) && x in rest && x != w { PreferredIsTransitive(m, w, x, now); }
      }
    }
  }

  lemma OnlyOneIsBest(a: Member, b: Member, files: seq<Member>, now: int)
    requires DistinctPaths(files) && Best(a, files, now) && Best(b, files, now)
    ensures a == b
  {
    if a != b {
      var i :| 0 <= i < |files| && files[i] == a;
      var k :| 0 <= k < |files| && files[k] == b;
      PreferredIsTotal(a, b, now);
    }
  }

  /******* The decision *******/

  predicate SameRole(files: seq<Member>)
    requires files != []
  {
    forall m <- files :: m.context.role == files[0].context.role
  }

  predicate AnchorsDiverge(files: seq<Member>) {
    exists a <- files, b <- files :: a.anchor != "" && b.anchor != "" && a.anchor != b.anchor
  }

  predicate HasDependency(files: seq<Member>) {
    exists m <- files :: m.dependency
  }

  predicate HasGuarded(files: seq<Member>) {
    exists m <- files :: m.context.guarded
  }

  function Decide(g: Group, now: int): Decision
    requires g.files != []
  {
    if g.hashLength != 64 || HasDependency(g.files) || HasGuarded(g.files) then Reviewed(Critical, None)
    else if !SameRole(g.files) || AnchorsDiverge(g.files) then Reviewed(High, None)
    else
      var w := Winner(g.files, now);
      if w.context.role.Temporary? || w.context.role.Cache? then Retained(w) else Reviewed(High, Some(w))
  }

  /******* Clean paths *******/

  function Split(path: string): (r: seq<string>)
    ensures r != []
  {
    if path == "" then [""]
    else
      var rest := Split(path[1..]);
      if path[0] == '/' then [""] + rest else [[path[0]] + rest[0]] + rest[1..]
  }

  /** The parts that remain when empty parts, dots and double dots are resolved. */
  function Resolve(stack: seq<string>, parts: seq<string>, rooted: bool): seq<string>
    decreases |parts|
  {
    if parts == [] then stack
    else
      var stack' :=
        if parts[0] == "" || parts[0] == "." then stack
        else if parts[0] != ".." then stack + [parts[0]]
        else if stack != [] && stack[|stack| - 1] != ".." then stack[..|stack| - 1]
        else if rooted then stack
        else stack + [".."];
      Resolve(stack', parts[1..], rooted)
  }

  function Join(parts: seq<string>): string {
    if parts == [] then "" else if |parts| == 1 then parts[0] else parts[0] + "/" + Join(parts[1..])
  }

  function Clean(path: string): string {
    var rooted := path != "" && path[0] == '/';
    var body := Join(Resolve([], Split(path), rooted));
    if rooted then "/" + body else if body == "" then "." else body
  }

  /******* The plan *******/

  function KindOf(m: Member, d: Decision): Kind {
    if d.Reviewed? then Review
    else if Clean(m.path) == Clean(d.member.path) then Keep
    else Quarantine
  }

  function ActionOf(m: Member, d: Decision, g: Group): Action {
    Action(KindOf(m, d), m.path, "", m.path, g.digest, g.size)
  }

  function ActionsOf(files: seq<Member>, d: Decision, g: Group): (r: Plan)
    ensures |r| == |files| && forall i :: 0 <= i < |files| ==> r[i] == ActionOf(files[i], d, g)
  {
    seq(|files|, i requires 0 <= i < |files| => ActionOf(files[i], d, g))
  }

  function ProposalFor(g: Group, now: int): Proposal
    requires g.files != []
  {
    var d := Decide(g, now);
    var actions := ActionsOf(g.files, d, g);
    match d
    case Reviewed(risk, None) => Proposal(risk, None, 0, actions)
    case Reviewed(risk, Some(m)) => Proposal(risk, Some(m.path), Score(m, now), actions)
    case Retained(m) => Proposal(Medium, Some(m.path), Score(m, now), actions)
  }

  /** Two different non-empty anchors are seen if and only if the anchors diverge. */
  method CountAnchors(files: seq<Member>) returns (diverge: bool)
    ensures diverge == AnchorsDiverge(files)
  {
    var seen: set<string> := {};
    var count := 0;
    for i := 0 to |files|
      invariant seen == set k | 0 <= k < i && files[k].anchor != "" :: files[k].anchor
      invariant count >= |seen|
    {
      if files[i].anchor == "" { continue; }
      seen := seen + {files[i].anchor};
      count := count + 1;
    }
    TwoSeen(files, seen);
    diverge := count >= 2 && |seen| > 1;
  }

  lemma TwoSeen(files: seq<Member>, seen: set<string>)
    requires seen == set k | 0 <= k < |files| && files[k].anchor != "" :: files[k].anchor
    ensures |seen| > 1 <==> AnchorsDiverge(files)
  {
    if |seen| > 1 {
      var x :| x in seen;
      assert |seen - {x}| > 0;
      var y :| y in seen - {x};
      var i :| 0 <= i < |files| && files[i].anchor != "" && files[i].anchor == x;
      var k :| 0 <= k < |files| && files[k].anchor != "" && files[k].anchor == y;
      assert files[i] in files && files[k] in files;
    }
    if AnchorsDiverge(files) {
      var a, b :| a in files && b in files && a.anchor != "" && b.anchor != "" && a.anchor != b.anchor;
      assert {a.anchor, b.anchor} <= seen;
      assert |seen - {a.anchor, b.anchor}| == |seen| - |{a.anchor, b.anchor}|;
    }
  }

  /** The actions of every copy, in the order of the group. */
  method MakeActions(g: Group, d: Decision) returns (actions: Plan)
    ensures actions == ActionsOf(g.files, d, g)
  {
    actions := [];
    for i := 0 to |g.files|
      invariant |actions| == i && forall k :: 0 <= k < i ==> actions[k] == ActionOf(g.files[k], d, g)
    {
      actions := actions + [ActionOf(g.files[i], d, g)];
    }
  }

  /** The whole decision, for any group that has a copy. */
  method BuildGroup(g: Group, now: int) returns (plan: Proposal)
    requires g.files != []
    ensures plan == ProposalFor(g, now)
  {
    plan := Proposal(High, None, 0, []);
    var d := Reviewed(High, None);
    if g.hashLength != 64 {
      d := Reviewed(Critical, None);
    } else if HasDependency(g.files) {
      d := Reviewed(Critical, None);
    } else if HasGuarded(g.files) {
      d := Reviewed(Critical, None);
    } else if SameRole(g.files) {
      var diverge := CountAnchors(g.files);
      if !diverge {
        var retain := SortStable(g.files, now)[0];
        assert retain == Winner(g.files, now);
        plan := plan.(retain := Some(retain.path), score := Score(retain, now));
        var role := g.files[0].context.role;
        if role.Temporary? || role.Cache? {
          plan := plan.(risk := Medium);
          d := Retained(retain);
        } else {
          d := Reviewed(High, Some(retain));
        }
      }
    }
    if d.Reviewed? { plan := plan.(risk := d.risk); }
    var actions := MakeActions(g, d);
    plan := plan.(actions := actions);
  }

  /******* What a plan promises *******/

  lemma SameWinner(g: Group, files: seq<Member>, now: int)
    requires g.files != [] && files != [] && DistinctPaths(g.files) && DistinctPaths(files)
    requires forall m :: m in files <==> m in g.files
    ensures Winner(files, now) == Winner(g.files, now)
  {
    WinnerIsBest(files, now);
    WinnerIsBest(g.files, now);
    assert Best(Winner(files, now), g.files, now);
    OnlyOneIsBest(Winner(files, now), Winner(g.files, now), g.files, now);
  }

  lemma SameGuards(a: seq<Member>, b: seq<Member>)
    requires a != [] && b != [] && forall m :: m in a <==> m in b
    ensures SameRole(a) == SameRole(b) && AnchorsDiverge(a) == AnchorsDiverge(b)
    ensures HasDependency(a) == HasDependency(b) && HasGuarded(a) == HasGuarded(b)
  {
    assert a[0] in b && b[0] in a;
  }

  lemma SameDecision(g: Group, files: seq<Member>, now: int)
    requires g.files != [] && files != [] && DistinctPaths(g.files) && DistinctPaths(files)
    requires forall m :: m in files <==> m in g.files
    ensures Decide(g.(files := files), now) == Decide(g, now)
  {
    SameGuards(files, g.files);
    SameWinner(g, files, now);
  }

  /** The decision, the retained path, its score and every copy's action depend on which copies there
      are, not on the order they are listed in. */
  lemma OrderDoesNotMatter(g: Group, files: seq<Member>, now: int)
    requires g.files != [] && DistinctPaths(g.files) && DistinctPaths(files) && multiset(files) == multiset(g.files)
    ensures files != [] && Decide(g.(files := files), now) == Decide(g, now)
    ensures var (a, b) := (ProposalFor(g, now), ProposalFor(g.(files := files), now));
            a.(actions := []) == b.(actions := []) &&
            forall i, k :: 0 <= i < |files| && 0 <= k < |g.files| && files[i] == g.files[k] ==>
                b.actions[i] == a.actions[k]
  {
    SameMembers(files, g.files);
    assert g.files[0] in files;
    SameDecision(g, files, now);
  }

  lemma SameMembers(a: seq<Member>, b: seq<Member>)
    requires multiset(a) == multiset(b)
    ensures forall m :: m in a <==> m in b
  {
    forall m ensures m in a <==> m in b {
      assert m in a <==> m in multiset(a);
      assert m in b <==> m in multiset(b);
    }
  }

  ghost predicate KeepsOne(plan: Plan) {
    exists i :: 0 <= i < |plan| && plan[i].kind.Keep? && forall k :: 0 <= k < |plan| && plan[k].kind.Keep? ==> k == i
  }

  lemma RetainedIsTheWinner(g: Group, now: int)
    requires g.files != [] && Decide(g, now).Retained?
    ensures Decide(g, now).member == Winner(g.files, now) && Decide(g, now).member in g.files
  {
  }

  lemma RetainedIsKept(files: seq<Member>, d: Decision, g: Group)
    requires d.Retained? && d.member in files
    ensures exists i :: 0 <= i < |files| && ActionsOf(files, d, g)[i].path == d.member.path &&
                        ActionsOf(files, d, g)[i].kind.Keep?
  {
    var w :| 0 <= w < |files| && files[w] == d.member;
    assert ActionsOf(files, d, g)[w] == ActionOf(files[w], d, g);
  }

  /** A plan only asks for review, or it keeps the unique best copy and quarantines others. */
  lemma KeepsTheBest(g: Group, now: int)
    requires g.files != [] && DistinctPaths(g.files)
    ensures var (d, plan) := (Decide(g, now), ProposalFor(g, now).actions);
            if d.Reviewed? then forall i :: 0 <= i < |plan| ==> plan[i].kind.Review?
            else
              && Best(d.member, g.files, now)
              && (exists i :: 0 <= i < |plan| && plan[i].path == d.member.path && plan[i].kind.Keep?)
              && (forall i :: 0 <= i < |plan| ==> plan[i].kind.Keep? || plan[i].kind.Quarantine?)
  {
    var d := Decide(g, now);
    if d.Retained? {
      RetainedIsTheWinner(g, now);
      WinnerIsBest(g.files, now);
      RetainedIsKept(g.files, d, g);
    }
  }

  lemma OneKept(plan: Plan, w: nat)
    requires w < |plan| && plan[w].kind.Keep?
    ensures KeepsOne(plan) <==> forall k :: 0 <= k < |plan| && plan[k].kind.Keep? ==> k == w
  {
  }

  lemma KeptByPath(files: seq<Member>, d: Decision, g: Group)
    requires DistinctPaths(files) && d.Retained? && d.member in files
    ensures KeepsOne(ActionsOf(files, d, g)) <==>
            forall k :: 0 <= k < |files| && Clean(files[k].path) == Clean(d.member.path) ==> files[k] == d.member
  {
    var plan := ActionsOf(files, d, g);
    var w :| 0 <= w < |files| && files[w] == d.member;
    OneKept(plan, w);
    forall k | 0 <= k < |plan|
      ensures plan[k].kind.Keep? <==> Clean(files[k].path) == Clean(d.member.path)
      ensures k == w <==> files[k] == d.member
    {
    }
  }

  /** It keeps no second copy if and only if no other path cleans to the retained one. */
  lemma KeepsExactlyOne(g: Group, now: int)
    requires g.files != [] && DistinctPaths(g.files) && Decide(g, now).Retained?
    ensures var best := Decide(g, now).member;
            KeepsOne(ProposalFor(g, now).actions) <==>
              forall k :: 0 <= k < |g.files| && Clean(g.files[k].path) == Clean(best.path) ==> g.files[k] == best
  {
    RetainedIsTheWinner(g, now);
    KeptByPath(g.files, Decide(g, now), g);
  }

  /** Two such spellings. */
  lemma SpellingsAgree()
    ensures "/b" != "//b" && Clean("/b") == Clean("//b")
  {
    assert "/b"[1] != "//b"[1];
    assert "b"[1..] == "" && "/b"[1..] == "b" && "//b"[1..] == "/b";
    assert Split("") == [""] && [""][1..] == [] && ['b'] + "" == "b";
    assert Split("b") == ["b"] && Split("/b") == ["", "b"] && Split("//b") == ["", "", "b"];
    assert ["b"][1..] == [] && ["", "b"][1..] == ["b"] && ["", "", "b"][1..] == ["", "b"];
    assert Resolve([], ["b"], true) == ["b"];
    assert Resolve([], ["", "b"], true) == ["b"] && Resolve([], ["", "", "b"], true) == ["b"];
  }

  /** A copy in a temporary directory that nothing guards or depends on. */
  predicate Disposable(m: Member) {
    m.context.role.Temporary? && !m.context.guarded && m.anchor == "" && !m.dependency
  }

  lemma DisposablesAreRetained(g: Group, now: int)
    requires g.hashLength == 64 && g.files != [] && forall m <- g.files :: Disposable(m)
    ensures Decide(g, now).Retained? && Decide(g, now).member in g.files
  {
    assert Disposable(g.files[0]) && Disposable(Winner(g.files, now));
  }

  lemma BothKept(files: seq<Member>, d: Decision, g: Group)
    requires |files| == 2 && d.Retained? && d.member in files && Clean(files[0].path) == Clean(files[1].path)
    ensures !KeepsOne(ActionsOf(files, d, g))
  {
    var plan := ActionsOf(files, d, g);
    assert plan[0].kind.Keep? && plan[1].kind.Keep?;
  }

  /** The other side: of two disposable copies with two spellings of one path both are kept. */
  lemma TwoSpellingsAreBothKept(g: Group, now: int)
    requires g.hashLength == 64 && |g.files| == 2 && forall m <- g.files :: Disposable(m)
    requires var (a, b) := (g.files[0].path, g.files[1].path); a != b && Clean(a) == Clean(b)
    ensures DistinctPaths(g.files) && Decide(g, now).Retained? && !KeepsOne(ProposalFor(g, now).actions)
  {
    assert DistinctPaths(g.files);
    DisposablesAreRetained(g, now);
    BothKept(g.files, Decide(g, now), g);
  }

  /** Nothing a plan does, however it fails, changes an existing file that it names as no source. */
  lemma BystanderIsUntouched(plan: Plan, orig: FileMap, choices: seq<Choice>, p: Path)
    requires SourcesApart(plan) && NoTwinCopy(plan) && p in orig && p !in Sources(plan)
    ensures SameAt(Run(plan, Initial(plan, orig), choices).files, orig, p)
  {
    ExecutionTheorems.RunFromApproval(plan, orig, choices);
  }

  lemma QuarantinesAreApart(files: seq<Member>, d: Decision, g: Group, i: nat)
    requires DistinctPaths(files) && i < |files|
    ensures var plan := ActionsOf(files, d, g);
            SourcesApart(plan) && NoTwinCopy(plan) && (!plan[i].kind.Quarantine? ==> files[i].path !in Sources(plan))
  {
    var plan := ActionsOf(files, d, g);
    assert forall k :: 0 <= k < |plan| ==> plan[k] == ActionOf(files[k], d, g);
  }

  /** However the plan's execution, rollback or recovery goes, every kept copy is where it was with what it held. */
  lemma KeptCopyIsUntouched(g: Group, now: int, orig: FileMap, choices: seq<Choice>, i: nat)
    requires g.files != [] && DistinctPaths(g.files) && i < |g.files| && g.files[i].path in orig
    requires !ProposalFor(g, now).actions[i].kind.Quarantine?
    ensures var plan := ProposalFor(g, now).actions;
            SameAt(Run(plan, Initial(plan, orig), choices).files, orig, g.files[i].path)
  {
    QuarantinesAreApart(g.files, Decide(g, now), g, i);
    BystanderIsUntouched(ProposalFor(g, now).actions, orig, choices, g.files[i].path);
  }

  /** A retained copy shares its role with every other copy, and that role is temporary or cache. */
  lemma OneProtectedMeansReview(g: Group, now: int, i: nat)
    requires i < |g.files|
    requires var c := g.files[i].context; c.guarded || !(c.role.Temporary? || c.role.Cache?)
    ensures Decide(g, now).Reviewed?
  {
    assert g.files[i] in g.files;
    if SameRole(g.files) { assert Winner(g.files, now).context.role == g.files[i].context.role; }
  }

  /** No learned rule makes a plan quarantine anything in a group one of whose copies the built-in table
      protects, or calls an archive or part of a project. */
  lemma LearnedRulesNeverQuarantine(g: Group, now: int, i: nat, sensitive: seq<string>,
                                    builtin: seq<DirectoryRules.Signal>, learned: seq<DirectoryRules.Signal>,
                                    segments: seq<string>)
    requires i < |g.files| && DirectoryRules.IsBuiltin(builtin)
    requires forall s <- learned :: s.authority <= DirectoryRules.MAX_LEARNED
    requires g.files[i].context == DirectoryRules.Classify(sensitive, builtin + learned, segments)
    requires var plain := DirectoryRules.Classify(sensitive, builtin, segments);
             plain.guarded || plain.role.FormalArchive? || plain.role.ProjectWork?
    ensures forall a <- ProposalFor(g, now).actions :: a.kind.Review?
  {
    DirectoryRules.LearnedRulesNeverUnprotect(sensitive, builtin, learned, segments);
    OneProtectedMeansReview(g, now, i);
  }
}
