/** A durable ROLLED_BACK can be wrong: recovery re-checks a copy by its content alone, so when an
    undone copy whose undo was not journaled lies on a path that an earlier action has given back
    with the very same content, recovery removes the original. This module shows that such twin
    copies are exactly the plans for which that can happen. */
module ExecutionTwinCopy {
  import opened Files
  import opened ExecutionMachine
  import opened ExecutionRestore
  import opened ExecutionInvariant
  import opened ExecutionTheorems
  import opened ExecutionForward

  /******* To the end of the plan *******/

  /** Everything has been done and the next step would leave the last action behind. */
  predicate AtTheEnd(plan: Plan, c: Config) {
    |plan| > 0 &&
    ((c.process.MarkingDone? && c.process.i == |plan| - 1) ||
     (c.process.Looping? && c.process.i == |plan| - 1 && !plan[|plan| - 1].kind.TouchesFiles()))
  }

  /** A feasible plan gets there. */
  lemma ReachesTheEnd(plan: Plan, orig: FileMap, dsts: seq<Path>) returns (choices: seq<Choice>)
    requires |plan| > 0 && Feasible(plan, orig, dsts, |plan|)
    ensures AtTheEnd(plan, Run(plan, Initial(plan, orig), choices))
  {
    var last := |plan| - 1;
    var c0 := Initial(plan, orig);
    choices := ReachesAction(plan, orig, dsts, last);
    if plan[last].kind.TouchesFiles() {
      assert Succeeds(plan, orig, dsts, last);
      ActionRuns(plan, Run(plan, c0, choices), last, UndoOf(plan, dsts, last), dsts[last]);
      RunThen(plan, c0, choices, Carry(plan[last], dsts[last]));
      choices := choices + Carry(plan[last], dsts[last]);
    }
  }

  ghost predicate Listed(undo: seq<Undo>, j: int) {
    exists a :: 0 <= a < |undo| && undo[a].index == j
  }

  ghost predicate Complete(plan: Plan, undo: seq<Undo>, i: nat)
    requires i <= |plan|
  {
    forall j :: 0 <= j < i && plan[j].kind.TouchesFiles() ==> Listed(undo, j)
  }

  ghost predicate Remembers(plan: Plan, c: Config)
    requires IndexesInRange(plan, c)
  {
    match c.process
    case Looping(i, undo) => Complete(plan, undo, i)
    case Working(job) => job.owner.Forward? ==> Complete(plan, job.owner.undo, job.owner.i)
    case MarkingDone(i, _, undo) => Complete(plan, undo, i + 1)
    case _ => true
  }

  lemma CompleteThen(plan: Plan, undo: seq<Undo>, i: nat, dst: Path)
    requires i < |plan| && Complete(plan, undo, i)
    ensures Complete(plan, undo + [Undo(i, dst)], i + 1)
  {
    var more := undo + [Undo(i, dst)];
    forall j | 0 <= j < i + 1 && plan[j].kind.TouchesFiles() ensures Listed(more, j) {
      if j < i {
        var a :| 0 <= a < |undo| && undo[a].index == j;
        assert more[a].index == j;
      } else {
        assert more[|undo|].index == j;
      }
    }
  }

  lemma JobRemembers(plan: Plan, c: Config, choice: Choice, job: Job)
    requires IndexesInRange(plan, c) && c.process == Working(job) && Remembers(plan, c)
    ensures Remembers(plan, StepJob(plan, c, choice, job))
  {
    var c' := StepJob(plan, c, choice, job);
    if job.owner.Forward? { CompleteThen(plan, job.owner.undo, job.owner.i, job.to); }
    if c'.process.Working? {
      assert c'.process.job.owner == job.owner;
    } else if c'.process.MarkingDone? {
      assert c'.process == MarkingDone(job.owner.i, job.to, job.owner.undo + [Undo(job.owner.i, job.to)]);
    }
  }

  lemma LoopRemembers(plan: Plan, c: Config, choice: Choice, i: nat, undo: seq<Undo>)
    requires IndexesInRange(plan, c) && c.process == Looping(i, undo) && Remembers(plan, c)
    ensures Remembers(plan, StepLoop(plan, c, choice, i, undo))
  {
  }

  lemma StepRemembers(plan: Plan, c: Config, choice: Choice)
    requires IndexesInRange(plan, c) && Remembers(plan, c)
    ensures Remembers(plan, Step(plan, c, choice))
  {
    if choice.Crash? {
    } else if c.process.Working? {
      JobRemembers(plan, c, choice, c.process.job);
      assert Step(plan, c, choice) == StepJob(plan, c, choice, c.process.job);
    } else if c.process.Looping? {
      LoopRemembers(plan, c, choice, c.process.i, c.process.undo);
      assert Step(plan, c, choice) == StepLoop(plan, c, choice, c.process.i, c.process.undo);
    } else {
      OthersRemember(plan, c, choice);
    }
  }

  lemma OthersRemember(plan: Plan, c: Config, choice: Choice)
    requires IndexesInRange(plan, c) && Remembers(plan, c)
    requires !choice.Crash? && !c.process.Working? && !c.process.Looping?
    ensures Remembers(plan, Step(plan, c, choice))
  {
    if Marking(c.process) {
      MarkRemembers(plan, c, choice);
      assert Step(plan, c, choice) == StepMark(plan, c, choice);
    } else if ChangesState(c.process) {
      StateRemembers(plan, c, choice);
      assert Step(plan, c, choice) == StepState(plan, c, choice);
    } else {
      RestRemembers(plan, c, choice);
    }
  }

  lemma MarkRemembers(plan: Plan, c: Config, choice: Choice)
    requires IndexesInRange(plan, c) && Remembers(plan, c) && Marking(c.process)
    ensures Remembers(plan, StepMark(plan, c, choice))
  {
  }

  lemma StateRemembers(plan: Plan, c: Config, choice: Choice)
    requires IndexesInRange(plan, c) && ChangesState(c.process)
    ensures Remembers(plan, StepState(plan, c, choice))
  {
  }

  lemma RestRemembers(plan: Plan, c: Config, choice: Choice)
    requires IndexesInRange(plan, c) && !choice.Crash?
    requires c.process.Stopped? || c.process.Reverting? || c.process.Recovering?
    ensures Remembers(plan, Step(plan, c, choice))
  {
    match c.process
    case Stopped(_) =>
    case Reverting(_, _) =>
    case Recovering(_) =>
  }

  lemma {:induction false} RunRemembers(plan: Plan, c: Config, choices: seq<Choice>)
    requires IndexesInRange(plan, c) && Remembers(plan, c)
    ensures Remembers(plan, Run(plan, c, choices))
    decreases |choices|
  {
    if choices != [] {
      StepRemembers(plan, c, choices[0]);
      RunRemembers(plan, Step(plan, c, choices[0]), choices[1..]);
    }
  }

  /******* An in-process rollback that forgets to journal the undo of copy `k` *******/

  ghost predicate RowLeft(plan: Plan, row: Row, j: nat, k: nat, undo: seq<Undo>)
    requires j < |plan|
  {
    plan[j].kind.TouchesFiles() ==>
      && row.Row?
      && (j == k ==> row.status.Done? && row.undo.NotTried?)
      && (j != k && !Listed(undo, j) ==> row.undo.UndoDone?)
  }

  /** The undos on the list are all that is left to do. */
  ghost predicate Forgetting(plan: Plan, orig: FileMap, c: Config, undo: seq<Undo>, k: nat) {
    && Inv(plan, orig, c)
    && c.process.Reverting? && c.process.undo == undo && c.state.Executing?
    && (forall j :: 0 <= j < |plan| ==> RowLeft(plan, c.rows[j], j, k, undo))
    && NothingElseApplied(c.progress, undo)
  }

  lemma TopOfTheList(plan: Plan, undo: seq<Undo>, ws: seq<Progress>, j: nat)
    requires UndoList(ws, undo, |plan|) && undo != [] && Listed(undo, j)
    ensures j == undo[|undo| - 1].index || (j < undo[|undo| - 1].index && Listed(undo[..|undo| - 1], j))
  {
    var a :| 0 <= a < |undo| && undo[a].index == j;
    if a < |undo| - 1 { assert undo[..|undo| - 1][a].index == j; }
  }

  lemma RevertingHasAList(plan: Plan, orig: FileMap, c: Config)
    requires Bookkeeping(plan, orig, c) && c.process.Reverting?
    ensures UndoList(c.progress, c.process.undo, |plan|) && |c.progress| == |plan| == |c.rows|
  {
    assert ProcessTells(plan, c);
  }

  lemma SourceIsFree(plan: Plan, orig: FileMap, c: Config, undo: seq<Undo>, k: nat)
    requires Forgetting(plan, orig, c, undo, k) && SourcesApart(plan) && undo != []
    requires var u := undo[|undo| - 1]; u.index < |plan| && plan[u.index].kind.Relocates()
    ensures var u := undo[|undo| - 1]; plan[u.index].path !in c.files
  {
    var u := undo[|undo| - 1];
    RevertingHasAList(plan, orig, c);
    UndoTaken(plan, c.progress, undo, |plan|);
    forall j | 0 <= j < |plan| && Occupies(c.progress[j]) ensures c.progress[j].dst != plan[u.index].path {
      assert Ordered(plan[u.index], u.index, c.progress[u.index], j, c.progress[j]);
      TopOfTheList(plan, undo, c.progress, j);
    }
  }

  /** Undoing a relocation succeeds when its file is there, its source free and nothing interferes. */
  lemma MovingBack(plan: Plan, c1: Config, c2: Config, c3: Config, c4: Config, job: Job)
    requires IndexesInRange(plan, c1) && c1.process == Working(job) && job.stage.Opening? && !job.owner.Forward?
    requires job.removes && job.from in c1.files && job.to !in c1.files && Sha256(c1.files[job.from]) == job.digest
    requires c2 == c1.(files := c1.files[job.to := ""], process := Working(job.(stage := Filling)),
                       progress := c1.progress[Subject(job.owner) := Jammed(job.from)])
    requires c3 == c2.(files := c2.files[job.to := c1.files[job.from]], process := Working(job.(stage := Verifying)))
    requires c4 == c3.(process := Working(job.(stage := Removing)))
    ensures Step(plan, c1, Create("")) == c2 && Step(plan, c2, Proceed) == c3 && Step(plan, c3, Proceed) == c4
  {
  }

  lemma MovedBack(plan: Plan, c: Config, job: Job, k: nat, rest: seq<Undo>, ok: bool)
    requires IndexesInRange(plan, c) && c.process == Working(job.(stage := Removing))
    requires job.owner == Backward(k, rest, ok)
    ensures Step(plan, c, Proceed) ==
            c.(files := c.files - {job.from}, process := MarkingUndo(k, false, rest, ok),
               progress := c.progress[k := Undone(job.from)])
  {
  }

  lemma MoveBackSteps(plan: Plan, c: Config, undo: seq<Undo>, ok: bool)
    requires IndexesInRange(plan, c) && undo != [] && c.process == Reverting(undo, ok)
    requires var u := undo[|undo| - 1];
      && u.index < |plan| && !plan[u.index].kind.Copy?
      && u.dst in c.files && plan[u.index].path !in c.files && Sha256(c.files[u.dst]) == plan[u.index].digest
    ensures var u := undo[|undo| - 1]; var c' := Run(plan, c, MOVE_BACK);
      && c'.process == MarkingUndo(u.index, false, undo[..|undo| - 1], ok)
      && c'.rows == c.rows && c'.state == c.state && c'.progress == c.progress[u.index := Undone(u.dst)]
  {
    var u, rest := undo[|undo| - 1], undo[..|undo| - 1];
    var a := plan[u.index];
    var job := Job(Opening, u.dst, a.path, a.digest, true, Backward(u.index, rest, ok));
    var c1 := c.(process := Working(job));
    var c2 := c1.(files := c.files[a.path := ""], process := Working(job.(stage := Filling)),
                  progress := c.progress[u.index := Jammed(u.dst)]);
    var c3 := c2.(files := c2.files[a.path := c.files[u.dst]], process := Working(job.(stage := Verifying)));
    var c4 := c3.(process := Working(job.(stage := Removing)));
    assert Step(plan, c, Proceed) == c1;
    MovingBack(plan, c1, c2, c3, c4, job);
    assert c.progress[u.index := Jammed(u.dst)][u.index := Undone(u.dst)] == c.progress[u.index := Undone(u.dst)];
    MovedBack(plan, c4, job, u.index, rest, ok);
    FiveSteps(plan, c, Proceed, Create(""), Proceed, Proceed, Proceed);
  }

  const MOVE_BACK: seq<Choice> := [Proceed, Create(""), Proceed, Proceed, Proceed]

  lemma MoveBackRun(plan: Plan, orig: FileMap, c: Config, undo: seq<Undo>, k: nat)
    requires Forgetting(plan, orig, c, undo, k) && SourcesApart(plan) && undo != []
    requires var u := undo[|undo| - 1]; u.index < |plan| && plan[u.index].kind.Relocates()
    ensures var u := undo[|undo| - 1]; var c' := Run(plan, c, MOVE_BACK);
      && Inv(plan, orig, c')
      && c'.process == MarkingUndo(u.index, false, undo[..|undo| - 1], c.process.ok)
      && c'.rows == c.rows && c'.state == c.state && c'.progress == c.progress[u.index := Undone(u.dst)]
  {
    var u := undo[|undo| - 1];
    UndoTaken(plan, c.progress, undo, |plan|);
    SourceIsFree(plan, orig, c, undo, k);
    assert HeldAt(plan[u.index], c.progress[u.index], c.files);
    MoveBackSteps(plan, c, undo, c.process.ok);
    RunFaithful(plan, orig, c, MOVE_BACK);
  }

  lemma CopyBackRun(plan: Plan, orig: FileMap, c: Config, undo: seq<Undo>, k: nat) returns (choices: seq<Choice>)
    requires Forgetting(plan, orig, c, undo, k) && SourcesApart(plan) && undo != []
    requires var u := undo[|undo| - 1]; u.index < |plan| && plan[u.index].kind.Copy?
    ensures var u := undo[|undo| - 1]; var c' := Run(plan, c, choices);
      && Inv(plan, orig, c')
      && c'.process == MarkingUndo(u.index, false, undo[..|undo| - 1], c.process.ok)
      && c'.rows == c.rows && c'.state == c.state && c'.progress == c.progress[u.index := Undone(u.dst)]
  {
    var u := undo[|undo| - 1];
    UndoTaken(plan, c.progress, undo, |plan|);
    assert HeldAt(plan[u.index], c.progress[u.index], c.files);
    StepInv(plan, orig, c, Proceed);
    choices := [Proceed];
    RunOneMore(plan, c, [], Proceed);
    assert [] + [Proceed] == [Proceed];
  }

  lemma RowsAfterMark(plan: Plan, rows: Journal, ws: seq<Progress>, undo: seq<Undo>, k: nat)
    requires |rows| == |plan| == |ws| && undo != [] && UndoList(ws, undo, |plan|)
    requires forall j :: 0 <= j < |plan| ==> RowLeft(plan, rows[j], j, k, undo)
    ensures var index := undo[|undo| - 1].index;
      var rows' := if index == k then rows else MarkUndo(rows, index, false);
      forall j :: 0 <= j < |plan| ==> RowLeft(plan, rows'[j], j, k, undo[..|undo| - 1])
  {
    var index := undo[|undo| - 1].index;
    var rows' := if index == k then rows else MarkUndo(rows, index, false);
    forall j | 0 <= j < |plan| ensures RowLeft(plan, rows'[j], j, k, undo[..|undo| - 1]) {
      assert RowLeft(plan, rows[j], j, k, undo);
      if Listed(undo, j) { TopOfTheList(plan, undo, ws, j); }
    }
  }

  ghost predicate NothingElseApplied(ws: seq<Progress>, undo: seq<Undo>) {
    forall j :: 0 <= j < |ws| ==> ws[j].Idle? || ws[j].Undone? || (ws[j].Applied? && Listed(undo, j))
  }

  lemma ProgressAfterUndo(plan: Plan, ws: seq<Progress>, undo: seq<Undo>, dst: Path)
    requires |plan| == |ws| && undo != [] && UndoList(ws, undo, |plan|) && NothingElseApplied(ws, undo)
    ensures NothingElseApplied(ws[undo[|undo| - 1].index := Undone(dst)], undo[..|undo| - 1])
  {
    var index := undo[|undo| - 1].index;
    forall j | 0 <= j < |ws| && j != index && ws[j].Applied? ensures Listed(undo[..|undo| - 1], j) {
      TopOfTheList(plan, undo, ws, j);
    }
  }

  /** The undo of copy `k`, and only that one, stays out of the journal. */
  lemma MarkOne(plan: Plan, orig: FileMap, c: Config, c1: Config, undo: seq<Undo>, k: nat)
    requires Forgetting(plan, orig, c, undo, k) && SourcesApart(plan) && undo != []
    requires var u := undo[|undo| - 1];
      && u.index < |plan| && Inv(plan, orig, c1) &&
          c1.process == MarkingUndo(u.index, false, undo[..|undo| - 1], c.process.ok)
      && c1.rows == c.rows && c1.state == c.state && c1.progress == c.progress[u.index := Undone(u.dst)]
    ensures Forgetting(plan, orig, StepMark(plan, c1, if undo[|undo| - 1].index == k then Refuse else Proceed),
            undo[..|undo| - 1], k)
  {
    var u := undo[|undo| - 1];
    var mark := if u.index == k then Refuse else Proceed;
    MarkUndoInv(plan, orig, c1, mark);
    RevertingHasAList(plan, orig, c);
    RowsAfterMark(plan, c.rows, c.progress, undo, k);
    ProgressAfterUndo(plan, c.progress, undo, u.dst);
    var c2 := StepMark(plan, c1, mark);
    assert c2 == c1.(rows := if u.index == k then c.rows else MarkUndo(c.rows, u.index, false), process := c2.process);
  }

  lemma UndoOne(plan: Plan, orig: FileMap, c: Config, undo: seq<Undo>, k: nat) returns (choices: seq<Choice>)
    requires Forgetting(plan, orig, c, undo, k) && SourcesApart(plan) && undo != []
    ensures var u := undo[|undo| - 1]; var c' := Run(plan, c, choices);
      && u.index < |plan| && Inv(plan, orig, c')
      && c'.process == MarkingUndo(u.index, false, undo[..|undo| - 1], c.process.ok)
      && c'.rows == c.rows && c'.state == c.state && c'.progress == c.progress[u.index := Undone(u.dst)]
  {
    var u := undo[|undo| - 1];
    UndoTaken(plan, c.progress, undo, |plan|);
    assert Single(plan[u.index], c.progress[u.index], orig, Sources(plan));
    if plan[u.index].kind.Copy? {
      choices := CopyBackRun(plan, orig, c, undo, k);
    } else {
      choices := MOVE_BACK;
      MoveBackRun(plan, orig, c, undo, k);
    }
  }

  lemma RevertOne(plan: Plan, orig: FileMap, c: Config, undo: seq<Undo>, k: nat) returns (choices: seq<Choice>)
    requires Forgetting(plan, orig, c, undo, k) && SourcesApart(plan) && undo != []
    ensures Forgetting(plan, orig, Run(plan, c, choices), undo[..|undo| - 1], k)
  {
    var undone := UndoOne(plan, orig, c, undo, k);
    var mark := if undo[|undo| - 1].index == k then Refuse else Proceed;
    choices := undone + [mark];
    RunOneMore(plan, c, undone, mark);
    MarkOne(plan, orig, c, Run(plan, c, undone), undo, k);
    assert Run(plan, c, choices) == StepMark(plan, Run(plan, c, undone), mark);
  }

  lemma {:induction false} RevertAll(plan: Plan, orig: FileMap, c: Config, undo: seq<Undo>, k: nat)
        returns (choices: seq<Choice>)
    requires Forgetting(plan, orig, c, undo, k) && SourcesApart(plan)
    ensures Forgetting(plan, orig, Run(plan, c, choices), [], k)
    decreases |undo|
  {
    if undo == [] {
      choices := [];
    } else {
      var one := RevertOne(plan, orig, c, undo, k);
      var more := RevertAll(plan, orig, Run(plan, c, one), undo[..|undo| - 1], k);
      choices := one + more;
      RunThen(plan, c, one, more);
    }
  }

  /******* The recovery that follows *******/

  ghost predicate LeftUndone(plan: Plan, row: Row, j: nat, k: nat, stillOpen: bool) {
    row.Row? ==> if j == k && stillOpen then row.status.Done? && row.undo.NotTried? else row.undo.UndoDone?
  }

  /** Recovery steps over settled rows. */
  lemma {:induction false} StepOver(plan: Plan, c: Config, from: nat, to: nat) returns (choices: seq<Choice>)
    requires IndexesInRange(plan, c) && c.process == Recovering(from) && to <= from <= |plan|
    requires forall j :: to <= j < from ==> Settled(c.rows[j])
    ensures Run(plan, c, choices) == c.(process := Recovering(to))
    decreases from
  {
    if from == to {
      choices := [];
    } else {
      var c1 := c.(process := Recovering(from - 1));
      assert Step(plan, c, Proceed) == c1;
      var rest := StepOver(plan, c1, from - 1, to);
      choices := [Proceed] + rest;
      assert choices[1..] == rest;
      assert c1.(process := Recovering(to)) == c.(process := Recovering(to));
    }
  }

  /** Recovery takes the file at the copy's target for the copy and removes it. */
  lemma RemovesTheTwin(plan: Plan, c: Config, k: nat)
    requires IndexesInRange(plan, c) && k < |plan| && c.process == Recovering(k + 1)
    requires var row := c.rows[k];
      && row.Row? && row.kind.Copy? && row.undo.NotTried? && row.target != "" && row.target in c.files
      && Sha256(c.files[row.target]) == row.digest && |c.files[row.target]| == row.size
    ensures var c' := Run(plan, c, [Proceed, Proceed]);
      && c'.process == Recovering(k) && c'.state == c.state && c'.files == c.files - {c.rows[k].target}
      && c'.rows == c.rows[k := c.rows[k].(undo := UndoDone)]
  {
    RunOneMore(plan, c, [Proceed], Proceed);
    RunOneMore(plan, c, [], Proceed);
    assert [] + [Proceed] == [Proceed] && [Proceed] + [Proceed] == [Proceed, Proceed];
    var c1 := c.(files := c.files - {c.rows[k].target}, process := MarkingRecovery(k, false),
                 progress := Step(plan, c, Proceed).progress);
    assert Step(plan, c, Proceed) == c1;
  }

  lemma RunFour(plan: Plan, c: Config, a: seq<Choice>, b: seq<Choice>, d: seq<Choice>, e: seq<Choice>)
    requires IndexesInRange(plan, c)
    ensures Run(plan, c, a + b + d + e) == Run(plan, Run(plan, Run(plan, Run(plan, c, a), b), d), e)
  {
    RunThen(plan, c, a + b + d, e);
    RunThen(plan, c, a + b, d);
    RunThen(plan, c, a, b);
  }

  /** What recovery finds: every row settled but the one of copy `k`, and at its target a file
      that looks like the copy. */
  ghost predicate Mistakable(plan: Plan, c: Config, k: nat) {
    && IndexesInRange(plan, c) && c.state.Executing? && k < |plan|
    && (forall j :: 0 <= j < |plan| ==> LeftUndone(plan, c.rows[j], j, k, true))
    && var row := c.rows[k];
       && row.Row? && row.kind.Copy? && row.undo.NotTried? && row.target != "" && row.target in c.files
       && Sha256(c.files[row.target]) == row.digest && |c.files[row.target]| == row.size
  }

  lemma LooksLikeTheCopy(plan: Plan, orig: FileMap, c: Config, i: nat, k: nat)
    requires Forgetting(plan, orig, c, [], k) && c.files == orig && Fresh(plan, orig) && InScope(plan)
    requires i < k < |plan| && IsTwin(plan, i, k)
    ensures Mistakable(plan, c, k) && c.rows[k].target == plan[i].path
  {
    forall j | 0 <= j < |plan| ensures LeftUndone(plan, c.rows[j], j, k, true) {
      assert RowLeft(plan, c.rows[j], j, k, []) && RowTells(plan[j], c.rows[j], c.progress[j]);
    }
    assert RowLeft(plan, c.rows[k], k, k, []) && RowTells(plan[k], c.rows[k], c.progress[k]);
    assert Single(plan[k], c.progress[k], orig, Sources(plan));
    assert plan[i] in plan && plan[k] in plan;
  }

  lemma ThenAllUndone(plan: Plan, c: Config, k: nat)
    requires Mistakable(plan, c, k)
    ensures AllUndone(c.rows[k := c.rows[k].(undo := UndoDone)])
  {
    var rows := c.rows[k := c.rows[k].(undo := UndoDone)];
    forall j | 0 <= j < |rows| ensures Settled(rows[j]) { assert LeftUndone(plan, c.rows[j], j, k, true); }
  }

  lemma RecoversWrongly(plan: Plan, c: Config, k: nat) returns (choices: seq<Choice>)
    requires Mistakable(plan, c, k)
    ensures var c' := Run(plan, c, choices);
      c'.state.RolledBack? && c'.process == Stopped(RecoveredRollback) && c'.files == c.files - {c.rows[k].target}
  {
    StartsRecovery(plan, c, k);
    var c1 := c.(process := Recovering(|plan|));
    var down := StepOver(plan, c1, |plan|, k + 1);
    var c2 := c.(process := Recovering(k + 1));
    assert c1.(process := Recovering(k + 1)) == c2;
    RemovesTheTwin(plan, c2, k);
    var c3 := Run(plan, c2, [Proceed, Proceed]);
    ThenAllUndone(plan, c, k);
    var onward := FinishesRecovery(plan, c3, k);
    choices := [Crash, StartRecovery] + down + [Proceed, Proceed] + onward;
    RunFour(plan, c, [Crash, StartRecovery], down, [Proceed, Proceed], onward);
  }

  lemma FinishesRecovery(plan: Plan, c: Config, k: nat) returns (choices: seq<Choice>)
    requires IndexesInRange(plan, c) && c.process == Recovering(k) && k <= |plan| && c.state.Executing? &&
             AllUndone(c.rows)
    ensures Run(plan, c, choices) == c.(state := RolledBack, process := Stopped(RecoveredRollback))
  {
    var over := StepOver(plan, c, k, 0);
    Closes(plan, c.(process := Recovering(0)));
    choices := over + [Proceed, Proceed];
    RunThen(plan, c, over, [Proceed, Proceed]);
  }

  lemma StartsRecovery(plan: Plan, c: Config, k: nat)
    requires IndexesInRange(plan, c) && c.state.Executing? && k < |plan| && c.rows[k].Row?
    requires forall j :: 0 <= j < |plan| ==> LeftUndone(plan, c.rows[j], j, k, true)
    ensures Run(plan, c, [Crash, StartRecovery]) == c.(process := Recovering(|plan|))
  {
    RunOneMore(plan, c, [Crash], StartRecovery);
    RunOneMore(plan, c, [], Crash);
    assert [] + [Crash] == [Crash] && [Crash] + [StartRecovery] == [Crash, StartRecovery];
    assert c.rows[k] in c.rows;
    forall r | r in c.rows ensures Certain(r) {
      var j :| 0 <= j < |c.rows| && c.rows[j] == r;
      assert LeftUndone(plan, c.rows[j], j, k, true);
    }
  }

  lemma Closes(plan: Plan, c: Config)
    requires IndexesInRange(plan, c) && c.process == Recovering(0) && c.state.Executing? && AllUndone(c.rows)
    ensures Run(plan, c, [Proceed, Proceed]) == c.(state := RolledBack, process := Stopped(RecoveredRollback))
  {
    RunOneMore(plan, c, [Proceed], Proceed);
    RunOneMore(plan, c, [], Proceed);
    assert [] + [Proceed] == [Proceed] && [Proceed] + [Proceed] == [Proceed, Proceed];
  }

  /******* Exactly the plans with a twin copy *******/

  predicate RestoresWhenRolledBack(plan: Plan, orig: FileMap, choices: seq<Choice>) {
    var c := Run(plan, Initial(plan, orig), choices);
    c.state.RolledBack? ==> c.files == orig
  }

  lemma EndOfRow(plan: Plan, orig: FileMap, c: Config, j: nat, k: nat)
    requires Inv(plan, orig, c) && Remembers(plan, c) && AtTheEnd(plan, c) && j < |plan|
    requires k < |plan| - 1 && plan[k].kind.TouchesFiles()
    ensures var undo := c.process.undo;
      && RowLeft(plan, c.rows[j], j, k, undo)
      && (c.progress[j].Idle? || c.progress[j].Undone? || (c.progress[j].Applied? && Listed(undo, j)))
  {
    assert RowTells(plan[j], c.rows[j], c.progress[j]);
    ListedAtTheEnd(plan, c, j);
    if j < |plan| - 1 { assert Ran(plan[j], c.rows[j], c.progress[j]); }
  }

  lemma ListedAtTheEnd(plan: Plan, c: Config, j: nat)
    requires IndexesInRange(plan, c) && Remembers(plan, c) && AtTheEnd(plan, c) && j < |plan|
    ensures plan[j].kind.TouchesFiles() ==> Listed(c.process.undo, j)
  {
  }

  lemma StartsForgetting(plan: Plan, orig: FileMap, c: Config, k: nat) returns (choice: Choice)
    requires Inv(plan, orig, c) && Remembers(plan, c) && AtTheEnd(plan, c) && SourcesApart(plan)
    requires k < |plan| - 1 && plan[k].kind.TouchesFiles()
    ensures var c' := Step(plan, c, choice); c'.process.Reverting? && Forgetting(plan, orig, c', c'.process.undo, k)
  {
    choice := if c.process.MarkingDone? then Refuse else Cancel;
    StepInv(plan, orig, c, choice);
    var undo := c.process.undo;
    assert Step(plan, c, choice) == c.(process := Reverting(undo, true));
    forall j | 0 <= j < |plan|
      ensures RowLeft(plan, c.rows[j], j, k, undo)
      ensures c.progress[j].Idle? || c.progress[j].Undone? || (c.progress[j].Applied? && Listed(undo, j))
    {
      EndOfRow(plan, orig, c, j, k);
    }
  }

  lemma ReachesRollback(plan: Plan, orig: FileMap, k: nat) returns (choices: seq<Choice>)
    requires SourcesApart(plan) && CanRun(plan, orig) && k < |plan| - 1 && plan[k].kind.TouchesFiles()
    ensures var c := Run(plan, Initial(plan, orig), choices);
      c.process.Reverting? && Forgetting(plan, orig, c, c.process.undo, k)
  {
    var c0 := Initial(plan, orig);
    var dsts := SomeDestinations(plan, orig);
    var prefix := ReachesTheEnd(plan, orig, dsts);
    RunFromApproval(plan, orig, prefix);
    RunRemembers(plan, c0, prefix);
    var turn := StartsForgetting(plan, orig, Run(plan, c0, prefix), k);
    choices := prefix + [turn];
    RunOneMore(plan, c0, prefix, turn);
  }

  lemma ReachesMistake(plan: Plan, orig: FileMap, k: nat) returns (choices: seq<Choice>)
    requires SourcesApart(plan) && CanRun(plan, orig) && k < |plan| - 1 && plan[k].kind.TouchesFiles()
    ensures var c := Run(plan, Initial(plan, orig), choices);
      Forgetting(plan, orig, c, [], k) && c.files == orig
  {
    var c0 := Initial(plan, orig);
    var first := ReachesRollback(plan, orig, k);
    var c1 := Run(plan, c0, first);
    var undoing := RevertAll(plan, orig, c1, c1.process.undo, k);
    choices := first + undoing;
    RunThen(plan, c0, first, undoing);
    var c := Run(plan, c0, choices);
    NothingStarted(plan, orig, c.progress, c.files);
  }

  /** The run that removes a file of the original map and still reports success. */
  lemma TwinLosesAFile(plan: Plan, orig: FileMap, i: nat, k: nat) returns (choices: seq<Choice>)
    requires SourcesApart(plan) && CanRun(plan, orig) && i < k < |plan| - 1 && IsTwin(plan, i, k)
    ensures var c := Run(plan, Initial(plan, orig), choices);
      c.state.RolledBack? && c.process == Stopped(RecoveredRollback) &&
      plan[i].path in orig && c.files == orig - {plan[i].path}
  {
    var first := ReachesMistake(plan, orig, k);
    var c := Run(plan, Initial(plan, orig), first);
    assert Underway(c) && plan[i] in plan;
    LooksLikeTheCopy(plan, orig, c, i, k);
    var recovering := RecoversWrongly(plan, c, k);
    choices := first + recovering;
    RunThen(plan, Initial(plan, orig), first, recovering);
  }

  /******* Plans that cannot be carried out *******/

  ghost predicate Tried(plan: Plan, orig: FileMap, ws: seq<Progress>)
    requires |ws| == |plan|
  {
    forall k :: 0 <= k < |plan| && !ws[k].Idle? && !ws[k].Spilt? ==> CanLand(plan, orig, k)
  }

  predicate ShowsSuccess(row: Row) {
    row.Row? && (row.status.Done? || row.undo.UndoDone?)
  }

  ghost predicate Recorded(plan: Plan, orig: FileMap, rows: Journal)
    requires |rows| == |plan|
  {
    && (!NoRows(rows) ==> InScope(plan) && Fresh(plan, orig))
    && forall k :: 0 <= k < |plan| && ShowsSuccess(rows[k]) ==> CanLand(plan, orig, k)
  }

  /** Whatever the journal shows to have succeeded could succeed. */
  ghost predicate Possible(plan: Plan, orig: FileMap, c: Config) {
    && IndexesInRange(plan, c) && Recorded(plan, orig, c.rows)
    && ((Inv(plan, orig, c) && Tried(plan, orig, c.progress)) || Retired(plan, orig, c))
  }

  lemma TargetIsVacated(plan: Plan, orig: FileMap, ws: seq<Progress>, k: nat)
    requires Consistent(plan, ws, orig) && k < |plan| && !ws[k].Idle? && ws[k].dst in orig
    ensures exists i :: 0 <= i < k && plan[i].kind.Relocates() && plan[i].path == ws[k].dst
  {
    assert Single(plan[k], ws[k], orig, Sources(plan));
    var i :| 0 <= i < |plan| && plan[i].kind.TouchesFiles() && plan[i].path == ws[k].dst;
    assert Ordered(plan[i], i, ws[i], k, ws[k]);
  }

  lemma ActionCanLand(plan: Plan, orig: FileMap, c: Config, job: Job)
    requires Inv(plan, orig, c) && JobOf(c, job) && job.owner.Forward? && !job.stage.Opening?
    ensures CanLand(plan, orig, job.owner.i)
  {
    var k, ws := job.owner.i, c.progress;
    var a := plan[k];
    assert ws[k] == Spilt(job.to) && Single(a, ws[k], orig, Sources(plan));
    if !a.kind.PicksQuarantinePath() {
      if a.target in orig { TargetIsVacated(plan, orig, ws, k); }
      forall i | 0 <= i < k && NamesItsTarget(plan[i]) ensures plan[i].target != a.target {
        assert Ran(plan[i], c.rows[i], ws[i]) && Single(plan[i], ws[i], orig, Sources(plan));
      }
    }
  }

  /** A job writes the progress of one action, and opening its destination lands nothing yet. */
  lemma JobChangesOne(plan: Plan, c: Config, choice: Choice, job: Job)
    requires IndexesInRange(plan, c) && JobOf(c, job)
    ensures var (ws, k) := (StepJob(plan, c, choice, job).progress, Subject(job.owner));
      && |ws| == |plan| && (forall i :: 0 <= i < |plan| && i != k ==> ws[i] == c.progress[i])
      && (job.owner.Forward? && job.stage.Opening? ==> ws[k] == c.progress[k] || ws[k].Spilt?)
  {
  }

  lemma JobTried(plan: Plan, orig: FileMap, c: Config, choice: Choice, job: Job)
    requires Possible(plan, orig, c) && Inv(plan, orig, c) && Tried(plan, orig, c.progress) && JobOf(c, job)
    ensures Tried(plan, orig, StepJob(plan, c, choice, job).progress)
  {
    JobChangesOne(plan, c, choice, job);
    SubjectCanLand(plan, orig, c, job);
  }

  lemma SubjectCanLand(plan: Plan, orig: FileMap, c: Config, job: Job)
    requires Possible(plan, orig, c) && Inv(plan, orig, c) && Tried(plan, orig, c.progress) && JobOf(c, job)
    ensures CanLand(plan, orig, Subject(job.owner)) || (job.owner.Forward? && job.stage.Opening?)
  {
    assert JobTells(plan, c, job);
    if job.owner.Forward? {
      if !job.stage.Opening? { ActionCanLand(plan, orig, c, job); }
    } else if job.owner.Recovery? {
      assert Certain(c.rows[job.owner.j]) && ShowsSuccess(c.rows[job.owner.j]);
    }
  }

  lemma SameTried(plan: Plan, c: Config, choice: Choice)
    requires IndexesInRange(plan, c)
    requires choice.Crash? || !(c.process.Working? || c.process.Reverting? || c.process.Recovering?)
    ensures Step(plan, c, choice).progress == c.progress
  {
    if Marking(c.process) || choice.Crash? {
    } else if ChangesState(c.process) {
    } else {
      assert c.process.Stopped? || c.process.Looping?;
    }
  }

  lemma RecoveryTried(plan: Plan, orig: FileMap, c: Config, choice: Choice)
    requires Possible(plan, orig, c) && Inv(plan, orig, c) && Tried(plan, orig, c.progress) && c.process.Recovering?
    ensures Tried(plan, orig, StepRecover(plan, c, choice, c.process.j).progress)
  {
    if c.process.j > 0 && !Settled(c.rows[c.process.j - 1]) {
      assert Certain(c.rows[c.process.j - 1]) && ShowsSuccess(c.rows[c.process.j - 1]);
    }
  }

  lemma ActTried(plan: Plan, orig: FileMap, c: Config, choice: Choice)
    requires Possible(plan, orig, c) && Inv(plan, orig, c) && Tried(plan, orig, c.progress) && !choice.Crash?
    requires c.process.Reverting? || c.process.Recovering?
    ensures Tried(plan, orig, Step(plan, c, choice).progress)
  {
    if c.process.Recovering? {
      RecoveryTried(plan, orig, c, choice);
      assert Step(plan, c, choice) == StepRecover(plan, c, choice, c.process.j);
    } else if c.process.undo != [] {
      UndoTaken(plan, c.progress, c.process.undo, |plan|);
    }
  }

  lemma StepTried(plan: Plan, orig: FileMap, c: Config, choice: Choice)
    requires Possible(plan, orig, c) && Inv(plan, orig, c) && Tried(plan, orig, c.progress)
    ensures Tried(plan, orig, Step(plan, c, choice).progress)
  {
    if choice.Crash? || !(c.process.Working? || c.process.Reverting? || c.process.Recovering?) {
      SameTried(plan, c, choice);
    } else if c.process.Working? {
      JobTried(plan, orig, c, choice, c.process.job);
    } else {
      ActTried(plan, orig, c, choice);
    }
  }

  lemma MarkRecorded(plan: Plan, orig: FileMap, c: Config, choice: Choice)
    requires Possible(plan, orig, c) && Marking(c.process)
    ensures Recorded(plan, orig, StepMark(plan, c, choice).rows)
  {
    MarkKeepsNoRows(plan, c, choice);
    MarkShowsOne(plan, c, choice);
    if c.process.MarkingRecovery? { assert Certain(c.rows[c.process.k]); }
  }

  /** A mark shows the success of one action, and only of one that has had it. */
  lemma MarkShowsOne(plan: Plan, c: Config, choice: Choice)
    requires IndexesInRange(plan, c) && Marking(c.process)
    ensures var rows := StepMark(plan, c, choice).rows;
      forall k :: 0 <= k < |plan| && ShowsSuccess(rows[k]) && !ShowsSuccess(c.rows[k]) ==>
        k == Marked(c.process) && c.rows[k].Row? &&
        (c.process.MarkingDone? ||
         ((c.process.MarkingUndo? || c.process.MarkingRecovery?) && !c.process.failed))
  {
  }

  lemma MarkKeepsNoRows(plan: Plan, c: Config, choice: Choice)
    requires IndexesInRange(plan, c) && Marking(c.process)
    ensures NoRows(c.rows) ==> NoRows(StepMark(plan, c, choice).rows)
  {
    assert NoRows(c.rows) ==> forall k :: 0 <= k < |plan| ==> c.rows[k] in c.rows;
  }

  lemma StateRecorded(plan: Plan, orig: FileMap, c: Config, choice: Choice)
    requires Possible(plan, orig, c) && ChangesState(c.process)
    ensures Recorded(plan, orig, StepState(plan, c, choice).rows)
  {
  }

  lemma JobKeepsRows(plan: Plan, c: Config, choice: Choice, job: Job)
    requires IndexesInRange(plan, c) && JobOf(c, job)
    ensures StepJob(plan, c, choice, job).rows == c.rows
  {
  }

  lemma OthersKeepRows(plan: Plan, c: Config, choice: Choice)
    requires IndexesInRange(plan, c) && !c.process.Working? && !Marking(c.process) && !ChangesState(c.process)
    ensures Step(plan, c, choice).rows == c.rows
  {
    match c.process
    case Stopped(_) =>
    case Looping(_, _) =>
    case Reverting(_, _) =>
    case Recovering(_) =>
  }

  lemma StepRecorded(plan: Plan, orig: FileMap, c: Config, choice: Choice)
    requires Possible(plan, orig, c)
    ensures Recorded(plan, orig, Step(plan, c, choice).rows)
  {
    if choice.Crash? {
    } else if Marking(c.process) {
      MarkRecorded(plan, orig, c, choice);
    } else if ChangesState(c.process) {
      StateRecorded(plan, orig, c, choice);
    } else if c.process.Working? {
      JobKeepsRows(plan, c, choice, c.process.job);
    } else {
      OthersKeepRows(plan, c, choice);
    }
  }

  lemma {:induction false} RunPossible(plan: Plan, orig: FileMap, c: Config, choices: seq<Choice>)
    requires Possible(plan, orig, c) && SourcesApart(plan)
    ensures Possible(plan, orig, Run(plan, c, choices))
    decreases |choices|
  {
    if choices != [] {
      var choice := choices[0];
      StepRecorded(plan, orig, c, choice);
      if Retired(plan, orig, c) {
        RetiredStep(plan, orig, c, choice);
      } else {
        StepFaithful(plan, orig, c, choice);
        StepTried(plan, orig, c, choice);
      }
      RunPossible(plan, orig, Step(plan, c, choice), choices[1..]);
    }
  }

  /** A plan that cannot be carried out has restored every file whenever it is rolled back, twin copies or not. */
  lemma UnrunnableIsRestored(plan: Plan, orig: FileMap, choices: seq<Choice>)
    requires SourcesApart(plan) && !CanRun(plan, orig)
    ensures RestoresWhenRolledBack(plan, orig, choices)
  {
    RestoredOrRunnable(plan, orig, choices);
  }

  lemma RestoredOrRunnable(plan: Plan, orig: FileMap, choices: seq<Choice>)
    requires SourcesApart(plan)
    ensures RestoresWhenRolledBack(plan, orig, choices) || CanRun(plan, orig)
  {
    var c := Run(plan, Initial(plan, orig), choices);
    InitialInv(plan, orig);
    RunPossible(plan, orig, Initial(plan, orig), choices);
    if c.state.RolledBack? {
      if Inv(plan, orig, c) {
        AllUndoneRestored(plan, orig, c);
      } else {
        RetiredCanRun(plan, orig, c);
      }
    }
  }

  lemma RetiredCanRun(plan: Plan, orig: FileMap, c: Config)
    requires Retired(plan, orig, c) && c.state.RolledBack? && Recorded(plan, orig, c.rows)
    ensures CanRun(plan, orig)
  {
    forall k | 0 <= k < |plan| && plan[k].kind.TouchesFiles() ensures CanLand(plan, orig, k) {
      assert Settled(c.rows[k]) && ShowsSuccess(c.rows[k]);
    }
  }

  /** The plans whose durable ROLLED_BACK always means that every file is back are those without a twin
      copy and those that cannot be carried out. */
  lemma RolledBackMeansRestored(plan: Plan, orig: FileMap)
    requires SourcesApart(plan)
    ensures (forall choices :: RestoresWhenRolledBack(plan, orig, choices)) <==> NoTwinCopy(plan) || !CanRun(plan, orig)
  {
    if NoTwinCopy(plan) {
      forall choices ensures RestoresWhenRolledBack(plan, orig, choices) { RecoveryTellsTruth(plan, orig, choices); }
    } else if !CanRun(plan, orig) {
      forall choices ensures RestoresWhenRolledBack(plan, orig, choices) { UnrunnableIsRestored(plan, orig, choices); }
    } else {
      var i, k :| 0 <= i < k < |plan| - 1 && IsTwin(plan, i, k);
      var choices := TwinLosesAFile(plan, orig, i, k);
      assert !RestoresWhenRolledBack(plan, orig, choices);
    }
  }

  /** CanRun is what it says: some run verifies the plan. */
  lemma CanRunMeansCanVerify(plan: Plan, orig: FileMap)
    requires SourcesApart(plan)
    ensures CanRun(plan, orig) <==> exists choices :: Run(plan, Initial(plan, orig), choices).state.Verified?
  {
    if CanRun(plan, orig) {
      var dsts := SomeDestinations(plan, orig);
      var choices := FeasibleVerifies(plan, orig, dsts);
    }
    if choices :| Run(plan, Initial(plan, orig), choices).state.Verified? {
      VerifiedCanRun(plan, orig, choices);
    }
  }

  lemma VerifiedCanRun(plan: Plan, orig: FileMap, choices: seq<Choice>)
    requires SourcesApart(plan) && Run(plan, Initial(plan, orig), choices).state.Verified?
    ensures CanRun(plan, orig)
  {
    var c := Run(plan, Initial(plan, orig), choices);
    InitialInv(plan, orig);
    RunPossible(plan, orig, Initial(plan, orig), choices);
    forall k | 0 <= k < |plan| && plan[k].kind.TouchesFiles() ensures CanLand(plan, orig, k) {
      assert ProvesAction(plan[k], c.rows[k]) && ShowsSuccess(c.rows[k]);
    }
    if NoRows(c.rows) {
      forall a | a in plan ensures !a.kind.TouchesFiles() {
        var k :| 0 <= k < |plan| && plan[k] == a;
        assert ProvesAction(plan[k], c.rows[k]) && c.rows[k] in c.rows;
      }
    }
  }

  /** A plan with a twin copy that can be carried out: b is moved away, a copied to b, x moved. */
  const TWINS: Plan := [
    Action(Move, "b", "c", "b", Sha256("1"), 1), Action(Copy, "a", "b", "a", Sha256("1"), 1),
    Action(Move, "x", "y", "x", Sha256("2"), 1)]
  const THREE: FileMap := map["a" := "1", "b" := "1", "x" := "2"]

  lemma TwinsCanRun()
    ensures SourcesApart(TWINS) && CanRun(TWINS, THREE) && IsTwin(TWINS, 0, 1)
  {
    assert TWINS[0].kind.Relocates() && TWINS[0].path == TWINS[1].target;
  }

  lemma ATwinLosesAFile()
    ensures SourcesApart(TWINS) && CanRun(TWINS, THREE) && !NoTwinCopy(TWINS)
    ensures exists choices :: Run(TWINS, Initial(TWINS, THREE), choices).state.RolledBack? &&
              Run(TWINS, Initial(TWINS, THREE), choices).files == map["a" := "1", "x" := "2"]
  {
    TwinsCanRun();
    var choices := TwinLosesAFile(TWINS, THREE, 0, 1);
    assert THREE - {"b"} == map["a" := "1", "x" := "2"];
  }
}
