/** Why no action may take away a file that another one acts on: the in-process undo of a copy removes
    whatever lies at its target, and rollback goes on past an undo that failed. */
module ExecutionRepeatedSource {
  import opened Files
  import opened ExecutionMachine
  import opened ExecutionRestore
  import opened ExecutionForward

  /******* A rollback whose undos fail *******/

  lemma UndoFails(plan: Plan, c: Config, undo: seq<Undo>, u: Undo, ok: bool) returns (choices: seq<Choice>)
    requires IndexesInRange(plan, c) && c.process == Reverting(undo + [u], ok)
    ensures Run(plan, c, choices) == c.(process := Reverting(undo, false))
  {
    assert (undo + [u])[..|undo|] == undo && u in undo + [u];
    if plan[u.index].kind.Copy? {
      choices := [Refuse, Refuse];
      RunOneMore(plan, c, [Refuse], Refuse);
      OneStep(plan, c, Refuse);
      assert [Refuse] + [Refuse] == choices;
    } else {
      choices := [Proceed, Refuse, Refuse];
      MoveBackFails(plan, c, undo, u, ok);
      RunOneMore(plan, c, [Proceed, Refuse], Refuse);
      assert [Proceed, Refuse] + [Refuse] == choices;
    }
  }

  lemma MoveBackFails(plan: Plan, c: Config, undo: seq<Undo>, u: Undo, ok: bool)
    requires IndexesInRange(plan, c) && c.process == Reverting(undo + [u], ok)
    requires u.index < |plan| && !plan[u.index].kind.Copy?
    ensures Run(plan, c, [Proceed, Refuse]) == c.(process := MarkingUndo(u.index, true, undo, ok))
  {
    var job := Job(Opening, u.dst, plan[u.index].path, plan[u.index].digest, true, Backward(u.index, undo, ok));
    assert (undo + [u])[..|undo|] == undo;
    assert Step(plan, c, Proceed) == c.(process := Working(job));
    OneStep(plan, c, Proceed);
    RunOneMore(plan, c, [Proceed], Refuse);
    assert [Proceed] + [Refuse] == [Proceed, Refuse];
  }

  /** The undos of all actions from i on fail. */
  lemma {:induction false} UndosFail(plan: Plan, dsts: seq<Path>, c: Config, i: nat, n: nat, ok: bool)
        returns (choices: seq<Choice>)
    requires IndexesInRange(plan, c) && i <= n <= |plan| == |dsts| && c.process == Reverting(UndoOf(plan, dsts, n), ok)
    ensures var c' := Run(plan, c, choices);
      c'.process.Reverting? && c'.process.undo == UndoOf(plan, dsts, i) && c'.files == c.files
    decreases n
  {
    if i == n {
      choices := [];
    } else if plan[n - 1].kind.TouchesFiles() {
      var first := UndoFails(plan, c, UndoOf(plan, dsts, n - 1), Undo(n - 1, dsts[n - 1]), ok);
      var c1 := c.(process := Reverting(UndoOf(plan, dsts, n - 1), false));
      var rest := UndosFail(plan, dsts, c1, i, n - 1, false);
      choices := first + rest;
      RunThen(plan, c, first, rest);
    } else {
      assert UndoOf(plan, dsts, n) == UndoOf(plan, dsts, n - 1);
      choices := UndosFail(plan, dsts, c, i, n - 1, ok);
    }
  }

  lemma CopyTargetRemoved(plan: Plan, dsts: seq<Path>, c: Config, k: nat)
    requires IndexesInRange(plan, c) && k < |plan| == |dsts| && plan[k].kind.Copy? && dsts[k] in c.files
    requires c.process.Reverting? && c.process.undo == UndoOf(plan, dsts, k + 1)
    ensures Run(plan, c, [Proceed]).files == c.files - {dsts[k]}
  {
    OneStep(plan, c, Proceed);
    var undo := c.process.undo;
    assert undo[|undo| - 1] == Undo(k, dsts[k]);
  }

  /** The m-th action lands and its journal mark fails. */
  lemma TurnsBack(plan: Plan, orig: FileMap, dsts: seq<Path>, m: nat) returns (choices: seq<Choice>)
    requires m < |plan| && Feasible(plan, orig, dsts, m + 1) && plan[m].kind.TouchesFiles()
    ensures var c := Run(plan, Initial(plan, orig), choices);
      c.process == Reverting(UndoOf(plan, dsts, m + 1), true) && c.files == After(plan, orig, dsts, m + 1)
  {
    var c0 := Initial(plan, orig);
    var before := ReachesAction(plan, orig, dsts, m);
    var carry := Carry(plan[m], dsts[m]);
    assert Succeeds(plan, orig, dsts, m);
    ActionRuns(plan, Run(plan, c0, before), m, UndoOf(plan, dsts, m), dsts[m]);
    RunThen(plan, c0, before, carry);
    RunOneMore(plan, c0, before + carry, Refuse);
    choices := before + carry + [Refuse];
  }

  /** Then every undo down to the copy's fails, and the undo of copy k removes what the m-th action has
      put at the copy's target. */
  lemma RemovesTheWrongFile(plan: Plan, orig: FileMap, dsts: seq<Path>, k: nat, m: nat) returns (choices: seq<Choice>)
    requires k < m < |plan| && Feasible(plan, orig, dsts, m + 1)
    requires plan[k].kind.Copy? && plan[m].kind.TouchesFiles() && dsts[m] == dsts[k]
    ensures Run(plan, Initial(plan, orig), choices).files == After(plan, orig, dsts, m + 1) - {dsts[k]}
  {
    var c0 := Initial(plan, orig);
    var turn := TurnsBack(plan, orig, dsts, m);
    var c := Run(plan, c0, turn);
    var failing := UndosFail(plan, dsts, c, k + 1, m + 1, true);
    RunThen(plan, c0, turn, failing);
    assert dsts[k] in After(plan, orig, dsts, m + 1) by { LandedStays(plan, orig, dsts, m, m + 1); }
    CopyTargetRemoved(plan, dsts, Run(plan, c, failing), k);
    RunThen(plan, c0, turn + failing, [Proceed]);
    choices := turn + failing + [Proceed];
  }

  /******* What is lost *******/

  ghost predicate AtMostOne(files: FileMap, digest: Digest) {
    forall p, q :: p in files && q in files && Sha256(files[p]) == digest && Sha256(files[q]) == digest ==> p == q
  }

  lemma {:induction false} StaysAtMostOne(plan: Plan, orig: FileMap, dsts: seq<Path>, i: nat, digest: Digest)
    requires i <= |plan| == |dsts| && AtMostOne(orig, digest)
    requires forall j :: 0 <= j < i && plan[j].kind.Copy? ==> plan[j].digest != digest
    ensures AtMostOne(After(plan, orig, dsts, i), digest)
  {
    if i > 0 { StaysAtMostOne(plan, orig, dsts, i - 1, digest); }
  }

  /** Landing where a copy landed before takes two relocations of the file at that path. */
  lemma LandingTwiceRepeatsASource(plan: Plan, orig: FileMap, dsts: seq<Path>, k: nat, m: nat) returns (i: nat, j: nat)
    requires k < m < |plan| && Feasible(plan, orig, dsts, m + 1)
    requires plan[k].kind.TouchesFiles() && plan[m].kind.TouchesFiles() && dsts[m] == dsts[k]
    ensures i < k < j < m && plan[i].kind.Relocates() && plan[j].kind.Relocates() &&
            plan[i].path == plan[j].path == dsts[k]
  {
    var p := dsts[k];
    assert Succeeds(plan, orig, dsts, k) && Succeeds(plan, orig, dsts, m);
    if forall j :: k < j < m && plan[j].kind.Relocates() ==> plan[j].path != p {
      LandedStays(plan, orig, dsts, k, m);
    }
    j :| k < j < m && plan[j].kind.Relocates() && plan[j].path == p;
    assert plan[j] in plan;
    if forall i :: 0 <= i < k && plan[i].kind.Relocates() ==> plan[i].path != p {
      SourceStays(plan, orig, dsts, k, p);
    }
    i :| 0 <= i < k && plan[i].kind.Relocates() && plan[i].path == p;
  }

  /** The content that landed last was at that path alone. */
  lemma ContentIsGone(plan: Plan, orig: FileMap, dsts: seq<Path>, m: nat)
    requires m < |plan| && Feasible(plan, orig, dsts, m + 1) && plan[m].kind.TouchesFiles()
    requires AtMostOne(After(plan, orig, dsts, m + 1), plan[m].digest)
    ensures !ContentKept(orig, After(plan, orig, dsts, m + 1) - {dsts[m]})
  {
    var files := After(plan, orig, dsts, m + 1);
    assert Succeeds(plan, orig, dsts, m);
    ContentsAreOld(plan, orig, dsts, m + 1, dsts[m]);
    var p :| p in orig && orig[p] == files[dsts[m]];
    assert forall q <- files - {dsts[m]} :: files[q] != orig[p];
  }

  /** In every plan that gets as far, some run loses a content: an action relocates it to the target of
      an earlier copy of another content, which takes a file moved away from that path before the copy
      and once more after it. */
  lemma RepeatedSourceLosesContent(plan: Plan, orig: FileMap, dsts: seq<Path>, k: nat, m: nat)
        returns (choices: seq<Choice>)
    requires k < m < |plan| && Feasible(plan, orig, dsts, m + 1)
    requires plan[k].kind.Copy? && plan[m].kind.Relocates() && dsts[m] == dsts[k]
    requires AtMostOne(orig, plan[m].digest)
    requires forall j :: 0 <= j < m && plan[j].kind.Copy? ==> plan[j].digest != plan[m].digest
    ensures !SourcesApart(plan)
    ensures !ContentKept(orig, Run(plan, Initial(plan, orig), choices).files)
  {
    var i, j := LandingTwiceRepeatsASource(plan, orig, dsts, k, m);
    assert plan[i].path == plan[j].path;
    StaysAtMostOne(plan, orig, dsts, m + 1, plan[m].digest);
    ContentIsGone(plan, orig, dsts, m);
    choices := RemovesTheWrongFile(plan, orig, dsts, k, m);
  }

  /** A plan of that kind: b is moved away, a copied to b, b moved again, x moved to b. */
  const PLAN: Plan := [
    Action(Move, "b", "c", "b", Sha256("1"), 1), Action(Copy, "a", "b", "a", Sha256("1"), 1),
    Action(Move, "b", "d", "b", Sha256("1"), 1), Action(Move, "x", "b", "x", Sha256("2"), 1)]
  const FILES: FileMap := map["a" := "1", "b" := "1", "x" := "2"]
  const TARGETS: seq<Path> := ["c", "b", "d", "b"]

  lemma PlanAfter()
    ensures After(PLAN, FILES, TARGETS, 1) == map["a" := "1", "c" := "1", "x" := "2"]
    ensures After(PLAN, FILES, TARGETS, 2) == map["a" := "1", "b" := "1", "c" := "1", "x" := "2"]
    ensures After(PLAN, FILES, TARGETS, 3) == map["a" := "1", "c" := "1", "d" := "1", "x" := "2"]
  {
    var f1: FileMap := map["a" := "1", "c" := "1", "x" := "2"];
    var f2: FileMap := f1["b" := "1"];
    assert Effect(PLAN[0], FILES, "c") == f1;
    assert Effect(PLAN[1], f1, "b") == f2;
    assert Effect(PLAN[2], f2, "d") == f2["d" := "1"] - {"b"};
  }

  lemma PlanIsFeasible()
    ensures Feasible(PLAN, FILES, TARGETS, 4)
  {
    PlanAfter();
    assert InScope(PLAN) && Fresh(PLAN, FILES);
    assert Succeeds(PLAN, FILES, TARGETS, 0) && Succeeds(PLAN, FILES, TARGETS, 1);
    assert Succeeds(PLAN, FILES, TARGETS, 2) && Succeeds(PLAN, FILES, TARGETS, 3);
  }

  lemma SuchAPlanLosesContent()
    ensures exists choices :: !ContentKept(FILES, Run(PLAN, Initial(PLAN, FILES), choices).files)
  {
    PlanIsFeasible();
    var choices := RepeatedSourceLosesContent(PLAN, FILES, TARGETS, 1, 3);
  }
}
