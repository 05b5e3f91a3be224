/** Runs in which nothing fails: what a plan does to the files when every action succeeds, which plans
    can be carried out, and the choices that carry them out. */
module ExecutionForward {
  import opened Files
  import opened ExecutionMachine
  import opened ExecutionRestore

  /******* The effect of an action *******/

  predicate NamesItsTarget(a: Action) {
    a.kind.Move? || a.kind.Rename? || a.kind.Copy?
  }

  /** The action's file is there as planned and its destination is free. */
  predicate Lands(a: Action, files: FileMap, dst: Path) {
    && (a.kind.PicksQuarantinePath() || (NamesItsTarget(a) && dst == a.target && dst != ""))
    && a.path in files && Sha256(files[a.path]) == a.digest && dst !in files
  }

  function Effect(a: Action, files: FileMap, dst: Path): FileMap
    requires a.path in files
  {
    if a.kind.Relocates() then files[dst := files[a.path]] - {a.path} else files[dst := files[a.path]]
  }

  /** The files when the first i actions have been carried out, landing at `dsts`. */
  function After(plan: Plan, orig: FileMap, dsts: seq<Path>, i: nat): FileMap
    requires i <= |plan| == |dsts|
  {
    if i == 0 then orig
    else
      var files := After(plan, orig, dsts, i - 1);
      if plan[i - 1].kind.TouchesFiles() && Lands(plan[i - 1], files, dsts[i - 1])
      then Effect(plan[i - 1], files, dsts[i - 1])
      else files
  }

  predicate Succeeds(plan: Plan, orig: FileMap, dsts: seq<Path>, i: nat)
    requires i < |plan| == |dsts|
  {
    plan[i].kind.TouchesFiles() ==> Lands(plan[i], After(plan, orig, dsts, i), dsts[i])
  }

  /** The plan passes the checks at its start, and its first n actions succeed one after the other. */
  predicate Feasible(plan: Plan, orig: FileMap, dsts: seq<Path>, n: nat) {
    && n <= |plan| == |dsts| && InScope(plan) && Fresh(plan, orig)
    && forall i :: 0 <= i < n ==> Succeeds(plan, orig, dsts, i)
  }

  function UndoOf(plan: Plan, dsts: seq<Path>, i: nat): (undo: seq<Undo>)
    requires i <= |plan| == |dsts|
    ensures UndoInRange(plan, undo)
  {
    if i == 0 then []
    else UndoOf(plan, dsts, i - 1) + (if plan[i - 1].kind.TouchesFiles() then [Undo(i - 1, dsts[i - 1])] else [])
  }

  /******* The choices that carry an action out *******/

  function Carry(a: Action, dst: Path): seq<Choice> {
    [if a.kind.PicksQuarantinePath() then Place(dst) else Proceed, Create(""), Proceed, Proceed] +
    if a.kind.Relocates() then [Proceed] else []
  }

  lemma OneStep(plan: Plan, c: Config, x: Choice)
    requires IndexesInRange(plan, c)
    ensures Run(plan, c, [x]) == Step(plan, c, x)
  {
    RunOneMore(plan, c, [], x);
    assert [] + [x] == [x];
  }

  lemma FourSteps(plan: Plan, c: Config, x1: Choice, x2: Choice, x3: Choice, x4: Choice)
    requires IndexesInRange(plan, c)
    ensures Run(plan, c, [x1, x2, x3, x4]) == Step(plan, Step(plan, Step(plan, Step(plan, c, x1), x2), x3), x4)
  {
    OneStep(plan, c, x1);
    RunOneMore(plan, c, [x1], x2);
    RunOneMore(plan, c, [x1, x2], x3);
    RunOneMore(plan, c, [x1, x2, x3], x4);
    assert [x1] + [x2] == [x1, x2] && [x1, x2] + [x3] == [x1, x2, x3] && [x1, x2, x3] + [x4] == [x1, x2, x3, x4];
  }

  /** A job whose source stays as it is gets its destination verified. */
  lemma JobFills(plan: Plan, c: Config, job: Job)
    requires IndexesInRange(plan, c) && c.process == Working(job) && job.stage.Opening? && job.owner.Forward?
    requires job.from in c.files && job.to !in c.files && Sha256(c.files[job.from]) == job.digest
    ensures var c1 := Step(plan, Step(plan, c, Create("")), Proceed);
      && c1.process == Working(job.(stage := Verifying)) && c1.files == c.files[job.to := c.files[job.from]]
      && c1.rows == c.rows && c1.state == c.state
  {
    var c1 := c.(files := c.files[job.to := ""], process := Working(job.(stage := Filling)),
                 progress := c.progress[job.owner.i := Spilt(job.to)]);
    assert Step(plan, c, Create("")) == c1;
    assert c1.files[job.to := c1.files[job.from]] == c.files[job.to := c.files[job.from]];
  }

  lemma LoopOpens(plan: Plan, c: Config, i: nat, undo: seq<Undo>, dst: Path)
    requires IndexesInRange(plan, c) && c.process == Looping(i, undo) && i < |plan|
    requires plan[i].kind.TouchesFiles() && Lands(plan[i], c.files, dst)
    ensures Step(plan, c, Carry(plan[i], dst)[0]) ==
            c.(process := Working(Job(Opening, plan[i].path, dst, plan[i].digest, plan[i].kind.Relocates(),
                Forward(i, undo))))
  {
  }

  lemma ActionRuns(plan: Plan, c: Config, i: nat, undo: seq<Undo>, dst: Path)
    requires IndexesInRange(plan, c) && c.process == Looping(i, undo) && i < |plan|
    requires plan[i].kind.TouchesFiles() && Lands(plan[i], c.files, dst)
    ensures var c' := Run(plan, c, Carry(plan[i], dst));
      && c'.process == MarkingDone(i, dst, undo + [Undo(i, dst)])
      && c'.files == Effect(plan[i], c.files, dst) && c'.rows == c.rows && c'.state == c.state
  {
    var choices := Carry(plan[i], dst);
    LoopOpens(plan, c, i, undo, dst);
    var c1 := Step(plan, c, choices[0]);
    JobFills(plan, c1, c1.process.job);
    var c3 := Step(plan, Step(plan, c1, Create("")), Proceed);
    FourSteps(plan, c, choices[0], Create(""), Proceed, Proceed);
    assert choices[..4] == [choices[0], Create(""), Proceed, Proceed];
    if plan[i].kind.Relocates() {
      RunOneMore(plan, c, choices[..4], Proceed);
      assert choices[..4] + [Proceed] == choices;
    } else {
      assert choices[..4] == choices;
    }
  }

  /******* Reaching an action *******/

  /** The journal when the first i actions have been carried out. */
  function RowsAt(plan: Plan, dsts: seq<Path>, i: nat): (rows: Journal)
    requires i <= |plan| == |dsts|
    ensures |rows| == |plan| && forall k :: 0 <= k < |plan| ==> rows[k] == RowAt(plan[k], dsts[k], k < i)
  {
    seq(|plan|, k requires 0 <= k < |plan| => RowAt(plan[k], dsts[k], k < i))
  }

  function RowAt(a: Action, dst: Path, done: bool): Row {
    if !a.kind.TouchesFiles() then NoRow
    else Row(a.kind, a.path, if done then dst else a.target, a.digest, a.size, if done then Done else Pending, NotTried)
  }

  lemma Launches(plan: Plan, orig: FileMap, dsts: seq<Path>)
    requires InScope(plan) && Fresh(plan, orig) && |dsts| == |plan|
    ensures var c := Run(plan, Initial(plan, orig), [Start(true), Proceed, Proceed, Proceed]);
      c.process == Looping(0, []) && c.files == orig && c.rows == RowsAt(plan, dsts, 0) && c.state.Executing?
  {
    var c0 := Initial(plan, orig);
    FourSteps(plan, c0, Start(true), Proceed, Proceed, Proceed);
    assert Step(plan, c0, Start(true)) == c0.(process := Reserving);
    Reserves(plan, c0.(process := Reserving), dsts);
  }

  lemma Reserves(plan: Plan, c: Config, dsts: seq<Path>)
    requires IndexesInRange(plan, c) && c.process.Reserving? && c.state.Approved? && NoRows(c.rows) && |dsts| == |plan|
    ensures Step(plan, Step(plan, Step(plan, c, Proceed), Proceed), Proceed) ==
            c.(state := Executing, rows := RowsAt(plan, dsts, 0), process := Looping(0, []))
  {
    assert BeginJournal(plan, c.rows) == RowsAt(plan, dsts, 0) by {
      assert forall k :: 0 <= k < |plan| ==> c.rows[k] in c.rows;
    }
  }

  ghost predicate At(plan: Plan, orig: FileMap, dsts: seq<Path>, i: nat, c: Config)
    requires i <= |plan| == |dsts|
  {
    && IndexesInRange(plan, c) && c.process == Looping(i, UndoOf(plan, dsts, i))
    && c.files == After(plan, orig, dsts, i) && c.rows == RowsAt(plan, dsts, i) && c.state.Executing?
  }

  lemma MarksDone(plan: Plan, dsts: seq<Path>, i: nat)
    requires i < |plan| == |dsts| && plan[i].kind.TouchesFiles()
    ensures MarkDoneAt(RowsAt(plan, dsts, i), i, dsts[i]) == RowsAt(plan, dsts, i + 1)
  {
  }

  lemma ActsNext(plan: Plan, orig: FileMap, dsts: seq<Path>, i: nat, c: Config)
    requires Feasible(plan, orig, dsts, i + 1) && At(plan, orig, dsts, i, c) && plan[i].kind.TouchesFiles()
    ensures At(plan, orig, dsts, i + 1, Run(plan, c, Carry(plan[i], dsts[i]) + [Proceed]))
  {
    var carry := Carry(plan[i], dsts[i]);
    assert Succeeds(plan, orig, dsts, i);
    ActionRuns(plan, c, i, UndoOf(plan, dsts, i), dsts[i]);
    RunOneMore(plan, c, carry, Proceed);
    var d := Run(plan, c, carry);
    MarksDone(plan, dsts, i);
    assert Step(plan, d, Proceed) ==
        d.(rows := RowsAt(plan, dsts, i + 1), process := Looping(i + 1, UndoOf(plan, dsts, i + 1)));
  }

  lemma SkipsNext(plan: Plan, orig: FileMap, dsts: seq<Path>, i: nat, c: Config)
    requires Feasible(plan, orig, dsts, i + 1) && At(plan, orig, dsts, i, c) && !plan[i].kind.TouchesFiles()
    ensures At(plan, orig, dsts, i + 1, Run(plan, c, [Proceed]))
  {
    OneStep(plan, c, Proceed);
    assert UndoOf(plan, dsts, i + 1) == UndoOf(plan, dsts, i);
    assert Step(plan, c, Proceed) == c.(process := Looping(i + 1, UndoOf(plan, dsts, i)));
    assert RowsAt(plan, dsts, i) == RowsAt(plan, dsts, i + 1);
  }

  /** A feasible plan gets as far as it is feasible. */
  lemma {:induction false} ReachesAction(plan: Plan, orig: FileMap, dsts: seq<Path>, i: nat)
        returns (choices: seq<Choice>)
    requires Feasible(plan, orig, dsts, i)
    ensures At(plan, orig, dsts, i, Run(plan, Initial(plan, orig), choices))
  {
    if i == 0 {
      Launches(plan, orig, dsts);
      choices := [Start(true), Proceed, Proceed, Proceed];
    } else {
      var before := ReachesAction(plan, orig, dsts, i - 1);
      var c := Run(plan, Initial(plan, orig), before);
      var next := if plan[i - 1].kind.TouchesFiles() then Carry(plan[i - 1], dsts[i - 1]) + [Proceed] else [Proceed];
      if plan[i - 1].kind.TouchesFiles() {
        ActsNext(plan, orig, dsts, i - 1, c);
      } else {
        SkipsNext(plan, orig, dsts, i - 1, c);
      }
      choices := before + next;
      RunThen(plan, Initial(plan, orig), before, next);
    }
  }

  /** ... and if that is to the end, it is verified. */
  lemma FeasibleVerifies(plan: Plan, orig: FileMap, dsts: seq<Path>) returns (choices: seq<Choice>)
    requires Feasible(plan, orig, dsts, |plan|)
    ensures Run(plan, Initial(plan, orig), choices).state.Verified?
  {
    var c0 := Initial(plan, orig);
    var before := ReachesAction(plan, orig, dsts, |plan|);
    var c := Run(plan, c0, before);
    assert ProvesSuccess(plan, c.rows);
    RunOneMore(plan, c0, before, Proceed);
    RunOneMore(plan, c0, before + [Proceed], Proceed);
    choices := before + [Proceed] + [Proceed];
  }

  /******* What is where *******/

  lemma {:induction false} SourceStays(plan: Plan, orig: FileMap, dsts: seq<Path>, i: nat, p: Path)
    requires i <= |plan| == |dsts| && p in orig
    requires forall j :: 0 <= j < i && plan[j].kind.Relocates() ==> plan[j].path != p
    ensures SameAt(After(plan, orig, dsts, i), orig, p)
  {
    if i > 0 { SourceStays(plan, orig, dsts, i - 1, p); }
  }

  /** Where nothing has landed there is only what was there, unless it was taken away. */
  lemma {:induction false} NothingLanded(plan: Plan, orig: FileMap, dsts: seq<Path>, i: nat, p: Path)
    requires Feasible(plan, orig, dsts, i) && p in After(plan, orig, dsts, i)
    requires forall j :: 0 <= j < i && plan[j].kind.TouchesFiles() ==> dsts[j] != p
    ensures p in orig && forall j :: 0 <= j < i && plan[j].kind.Relocates() ==> plan[j].path != p
  {
    if i > 0 {
      assert Succeeds(plan, orig, dsts, i - 1);
      NothingLanded(plan, orig, dsts, i - 1, p);
    }
  }

  /** What landed stays unless it is taken away. */
  lemma {:induction false} LandedStays(plan: Plan, orig: FileMap, dsts: seq<Path>, k: nat, i: nat)
    requires k < i <= |plan| && Feasible(plan, orig, dsts, i) && plan[k].kind.TouchesFiles()
    requires forall j :: k < j < i && plan[j].kind.Relocates() ==> plan[j].path != dsts[k]
    ensures dsts[k] in After(plan, orig, dsts, i)
  {
    assert Succeeds(plan, orig, dsts, i - 1);
    if i > k + 1 {
      LandedStays(plan, orig, dsts, k, i - 1);
    }
  }

  lemma {:induction false} ContentsAreOld(plan: Plan, orig: FileMap, dsts: seq<Path>, i: nat, p: Path)
    requires i <= |plan| == |dsts| && p in After(plan, orig, dsts, i)
    ensures exists q <- orig :: orig[q] == After(plan, orig, dsts, i)[p]
  {
    if i > 0 {
      var files := After(plan, orig, dsts, i - 1);
      var a := plan[i - 1];
      var from := if p in files && (dsts[i - 1] != p || !Lands(a, files, p)) then p else a.path;
      ContentsAreOld(plan, orig, dsts, i - 1, from);
    }
  }

  /******* Plans that can be carried out *******/

  /** The k-th action is one that can succeed, and its target is free when it is reached: taken away
      before if a file stood there, and given to no earlier action. */
  predicate CanLand(plan: Plan, orig: FileMap, k: nat)
    requires k < |plan|
  {
    var a := plan[k];
    a.kind.PicksQuarantinePath() ||
    (&& NamesItsTarget(a) && a.target != ""
     && (a.target in orig ==> exists i :: 0 <= i < k && plan[i].kind.Relocates() && plan[i].path == a.target)
     && forall i :: 0 <= i < k && NamesItsTarget(plan[i]) ==> plan[i].target != a.target)
  }

  predicate CanRun(plan: Plan, orig: FileMap) {
    && InScope(plan) && Fresh(plan, orig)
    && forall k :: 0 <= k < |plan| && plan[k].kind.TouchesFiles() ==> CanLand(plan, orig, k)
  }

  function Filler(n: nat): (s: Path)
    ensures |s| == n
  {
    if n == 0 then "" else Filler(n - 1) + "q"
  }

  /** Every action's destination, with quarantine paths longer than any other path. */
  function Destinations(plan: Plan, above: nat): (dsts: seq<Path>)
    ensures |dsts| == |plan|
    ensures forall k :: 0 <= k < |plan| ==>
              dsts[k] == if plan[k].kind.PicksQuarantinePath() then Filler(above + k) else plan[k].target
  {
    seq(|plan|, k requires 0 <= k < |plan| =>
                  if plan[k].kind.PicksQuarantinePath() then Filler(above + k) else plan[k].target)
  }

  ghost predicate LongerThanAll(plan: Plan, orig: FileMap, above: nat) {
    && (forall p <- orig :: |p| < above)
    && (forall a <- plan :: |a.path| < above && |a.target| < above)
  }

  lemma {:induction false} SomeLength(paths: set<Path>) returns (n: nat)
    ensures forall p <- paths :: |p| < n
    decreases |paths|
  {
    if paths == {} {
      n := 0;
    } else {
      var p :| p in paths;
      n := SomeLength(paths - {p});
      if n <= |p| { n := |p| + 1; }
    }
  }

  lemma SomeLongerThanAll(plan: Plan, orig: FileMap) returns (above: nat)
    ensures LongerThanAll(plan, orig, above)
  {
    var paths := orig.Keys + (set a | a in plan :: a.path) + (set a | a in plan :: a.target);
    above := SomeLength(paths);
    assert forall p <- orig :: p in paths;
    assert forall a <- plan :: a.path in paths && a.target in paths;
  }

  /** No earlier destination is that of action k. */
  lemma DestinationsDiffer(plan: Plan, orig: FileMap, above: nat, j: nat, k: nat)
    requires LongerThanAll(plan, orig, above) && j < k < |plan| && CanLand(plan, orig, k)
    requires plan[j].kind.PicksQuarantinePath() || NamesItsTarget(plan[j])
    ensures Destinations(plan, above)[j] != Destinations(plan, above)[k]
  {
    assert plan[j] in plan && plan[k] in plan;
  }

  lemma {:induction false} CanRunIsFeasible(plan: Plan, orig: FileMap, above: nat, n: nat)
    requires SourcesApart(plan) && CanRun(plan, orig) && LongerThanAll(plan, orig, above) && n <= |plan|
    ensures Feasible(plan, orig, Destinations(plan, above), n)
  {
    if n > 0 {
      CanRunIsFeasible(plan, orig, above, n - 1);
      if plan[n - 1].kind.TouchesFiles() { NextLands(plan, orig, above, n - 1); }
    }
  }

  lemma NextLands(plan: Plan, orig: FileMap, above: nat, k: nat)
    requires SourcesApart(plan) && CanRun(plan, orig) && LongerThanAll(plan, orig, above)
    requires k < |plan| && plan[k].kind.TouchesFiles() && Feasible(plan, orig, Destinations(plan, above), k)
    ensures Lands(plan[k], After(plan, orig, Destinations(plan, above), k), Destinations(plan, above)[k])
  {
    var dsts := Destinations(plan, above);
    assert plan[k] in plan && CanLand(plan, orig, k);
    SourceStays(plan, orig, dsts, k, plan[k].path);
    if dsts[k] in After(plan, orig, dsts, k) {
      forall j | 0 <= j < k && plan[j].kind.TouchesFiles() ensures dsts[j] != dsts[k] {
        assert CanLand(plan, orig, j);
        DestinationsDiffer(plan, orig, above, j, k);
      }
      NothingLanded(plan, orig, dsts, k, dsts[k]);
    }
  }

  /** A plan that can be carried out has destinations for it. */
  lemma SomeDestinations(plan: Plan, orig: FileMap) returns (dsts: seq<Path>)
    requires SourcesApart(plan) && CanRun(plan, orig)
    ensures Feasible(plan, orig, dsts, |plan|)
  {
    var above := SomeLongerThanAll(plan, orig);
    CanRunIsFeasible(plan, orig, above, |plan|);
    dsts := Destinations(plan, above);
  }
}
