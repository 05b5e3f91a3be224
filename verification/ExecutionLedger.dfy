/** What holds of any plan at all, even one whose sources repeat: a journaled plan is never
    approved or started again, and only paths the plan names are ever written. */
module ExecutionLedger {
  import opened Files
  import opened ExecutionMachine

  /******* A journaled plan is spent *******/

  predicate Spendable(c: Config) {
    && (c.state.Draft? || c.state.Approved? ==> NoRows(c.rows))
    && (c.process.Journaling? ==> c.state.StaleChecked?)
  }

  /** Nothing but recovery works on this plan any more. */
  predicate Spent(c: Config) {
    && !NoRows(c.rows) && !c.state.Draft? && !c.state.Approved?
    && (c.process.Stopped? || c.process.Recovering? || c.process.MarkingRecovery? || c.process.ClosingRecovery?
        || (c.process.Working? && c.process.job.owner.Recovery?))
  }

  lemma RowsStay(rows: Journal, rows': Journal)
    requires |rows'| == |rows| && forall k :: 0 <= k < |rows| ==> rows'[k].NoRow? == rows[k].NoRow?
    ensures NoRows(rows') == NoRows(rows)
  {
    if !NoRows(rows) {
      var k :| 0 <= k < |rows| && !rows[k].NoRow?;
      assert rows'[k] in rows';
    }
  }

  lemma MarksKeepRows(rows: Journal, k: nat)
    requires k < |rows|
    ensures forall s :: NoRows(MarkStatus(rows, k, s)) == NoRows(rows)
    ensures forall dst :: NoRows(MarkDoneAt(rows, k, dst)) == NoRows(rows)
    ensures forall failed :: NoRows(MarkUndo(rows, k, failed)) == NoRows(rows)
  {
    forall s ensures NoRows(MarkStatus(rows, k, s)) == NoRows(rows) { RowsStay(rows, MarkStatus(rows, k, s)); }
    forall dst ensures NoRows(MarkDoneAt(rows, k, dst)) == NoRows(rows) { RowsStay(rows, MarkDoneAt(rows, k, dst)); }
    forall failed ensures NoRows(MarkUndo(rows, k, failed)) == NoRows(rows) {
      RowsStay(rows, MarkUndo(rows, k, failed));
    }
  }

  lemma JobKeepsLedger(plan: Plan, c: Config, choice: Choice, job: Job)
    requires IndexesInRange(plan, c) && c.process == Working(job)
    ensures var c' := StepJob(plan, c, choice, job);
      && c'.rows == c.rows && c'.state == c.state && !c'.process.Journaling?
      && (job.owner.Recovery? ==>
          c'.process.MarkingRecovery? || (c'.process.Working? && c'.process.job.owner.Recovery?))
  {
  }

  lemma MarkKeepsLedger(plan: Plan, c: Config, choice: Choice)
    requires IndexesInRange(plan, c) && Spendable(c) && Marking(c.process)
    ensures Spendable(StepMark(plan, c, choice))
    ensures Spent(c) ==> Spent(StepMark(plan, c, choice))
  {
    MarksKeepRows(c.rows, Marked(c.process));
  }

  lemma StateKeepsLedger(plan: Plan, c: Config, choice: Choice)
    requires IndexesInRange(plan, c) && Spendable(c) && ChangesState(c.process)
    ensures Spendable(StepState(plan, c, choice))
    ensures Spent(c) ==> Spent(StepState(plan, c, choice))
  {
  }

  lemma OthersKeepLedger(plan: Plan, c: Config, choice: Choice)
    requires IndexesInRange(plan, c) && Spendable(c) && !choice.Crash?
    requires c.process.Stopped? || c.process.Looping? || c.process.Reverting? || c.process.Recovering?
    ensures Spendable(Step(plan, c, choice))
    ensures Spent(c) ==> Spent(Step(plan, c, choice))
  {
    match c.process
    case Stopped(_) =>
    case Looping(_, _) =>
    case Reverting(_, _) =>
    case Recovering(_) =>
  }

  lemma StepKeepsLedger(plan: Plan, c: Config, choice: Choice)
    requires IndexesInRange(plan, c) && Spendable(c)
    ensures Spendable(Step(plan, c, choice))
    ensures Spent(c) ==> Spent(Step(plan, c, choice))
  {
    if choice.Crash? {
    } else if Marking(c.process) {
      MarkKeepsLedger(plan, c, choice);
      assert Step(plan, c, choice) == StepMark(plan, c, choice);
    } else if c.process.Working? {
      JobKeepsLedger(plan, c, choice, c.process.job);
      assert Step(plan, c, choice) == StepJob(plan, c, choice, c.process.job);
    } else if ChangesState(c.process) {
      StateKeepsLedger(plan, c, choice);
      assert Step(plan, c, choice) == StepState(plan, c, choice);
    } else {
      OthersKeepLedger(plan, c, choice);
    }
  }

  lemma {:induction false} RunKeepsLedger(plan: Plan, c: Config, choices: seq<Choice>)
    requires IndexesInRange(plan, c) && Spendable(c)
    ensures Spendable(Run(plan, c, choices))
    ensures Spent(c) ==> Spent(Run(plan, c, choices))
    decreases |choices|
  {
    if choices != [] {
      StepKeepsLedger(plan, c, choices[0]);
      RunKeepsLedger(plan, Step(plan, c, choices[0]), choices[1..]);
    }
  }

  /** Once a process has stopped over a journal, whatever is tried afterwards only ever recovers:
      the plan returns to neither DRAFT nor APPROVED and none of its actions starts again. */
  lemma JournaledNeverRunsAgain(plan: Plan, orig: FileMap, before: seq<Choice>, after: seq<Choice>)
    ensures var c := Run(plan, Initial(plan, orig), before);
      c.process.Stopped? && !NoRows(c.rows) ==> Spent(Run(plan, c, after))
  {
    var c := Run(plan, Initial(plan, orig), before);
    RunKeepsLedger(plan, Initial(plan, orig), before);
    if c.process.Stopped? && !NoRows(c.rows) { RunKeepsLedger(plan, c, after); }
  }

  /******* Only named paths are written *******/

  /** Every path the plan names, and every quarantine path its collision resolution picked. */
  ghost function Named(plan: Plan, choices: seq<Choice>): set<Path> {
    (set a | a in plan && a.kind.TouchesFiles() :: a.path) +
    (set a | a in plan && a.kind.TouchesFiles() :: a.target) +
    (set choice | choice in choices && choice.Place? :: choice.path)
  }

  ghost predicate Names(plan: Plan, named: set<Path>) {
    forall a <- plan :: a.kind.TouchesFiles() ==> a.path in named && a.target in named
  }

  ghost predicate RowNamed(row: Row, named: set<Path>) {
    row.Row? ==> row.source in named && row.target in named
  }

  ghost predicate UndoNamed(plan: Plan, undo: seq<Undo>, named: set<Path>) {
    forall u <- undo :: u.index < |plan| && plan[u.index].kind.TouchesFiles() && u.dst in named
  }

  ghost predicate Within(plan: Plan, orig: FileMap, c: Config, named: set<Path>) {
    && IndexesInRange(plan, c)
    && (forall p :: p !in named ==> SameAt(c.files, orig, p))
    && (forall r <- c.rows :: RowNamed(r, named))
    && match c.process
       case Looping(_, undo) => UndoNamed(plan, undo, named)
       case Working(job) => job.from in named && job.to in named && UndoNamed(plan, Rest(job.owner), named)
         && (job.owner.Forward? ==> plan[job.owner.i].kind.TouchesFiles())
       case MarkingDone(_, dst, undo) => dst in named && UndoNamed(plan, undo, named)
       case MarkingFailed(_, undo) => UndoNamed(plan, undo, named)
       case Reverting(undo, _) => UndoNamed(plan, undo, named)
       case MarkingUndo(_, _, undo, _) => UndoNamed(plan, undo, named)
       case _ => true
  }

  lemma StepWithin(plan: Plan, orig: FileMap, c: Config, choice: Choice, named: set<Path>)
    requires Within(plan, orig, c, named) && Names(plan, named) && (choice.Place? ==> choice.path in named)
    ensures Within(plan, orig, Step(plan, c, choice), named)
  {
    if choice.Crash? {
    } else if c.process.Looping? {
      LoopWithin(plan, orig, c, choice, named);
    } else if c.process.Working? {
      JobWithin(plan, orig, c, choice, named, c.process.job);
    } else if c.process.Reverting? {
      RevertWithin(plan, orig, c, choice, named);
    } else if c.process.Recovering? {
      RecoverWithin(plan, orig, c, choice, named);
    } else {
      RestWithin(plan, orig, c, choice, named);
    }
  }

  lemma LoopWithin(plan: Plan, orig: FileMap, c: Config, choice: Choice, named: set<Path>)
    requires Within(plan, orig, c, named) && Names(plan, named) && (choice.Place? ==> choice.path in named)
    requires c.process.Looping?
    ensures Within(plan, orig, StepLoop(plan, c, choice, c.process.i, c.process.undo), named)
  {
    if c.process.i < |plan| { assert plan[c.process.i] in plan; }
  }

  lemma JobFiles(plan: Plan, c: Config, choice: Choice, job: Job)
    requires IndexesInRange(plan, c) && c.process == Working(job)
    ensures forall p :: p != job.from && p != job.to ==> SameAt(StepJob(plan, c, choice, job).files, c.files, p)
  {
  }

  lemma JobWithin(plan: Plan, orig: FileMap, c: Config, choice: Choice, named: set<Path>, job: Job)
    requires Within(plan, orig, c, named) && c.process == Working(job)
    ensures Within(plan, orig, StepJob(plan, c, choice, job), named)
  {
    var c' := StepJob(plan, c, choice, job);
    JobFiles(plan, c, choice, job);
    EndWithin(plan, orig, c, c', named, job);
  }

  /** However a job ends, it names only what it named. */
  lemma EndWithin(plan: Plan, orig: FileMap, c: Config, c': Config, named: set<Path>, job: Job)
    requires Within(plan, orig, c, named) && c.process == Working(job) && IndexesInRange(plan, c') && c'.rows == c.rows
    requires forall p :: p !in named ==> SameAt(c'.files, c.files, p)
    requires c'.process == Fail(c', job).process || c'.process == Succeed(c', job).process ||
             (c'.process.Working? && c'.process.job == job.(stage := c'.process.job.stage))
    ensures Within(plan, orig, c', named)
  {
    if job.owner.Forward? { assert UndoNamed(plan, job.owner.undo + [Undo(job.owner.i, job.to)], named); }
  }

  lemma RevertWithin(plan: Plan, orig: FileMap, c: Config, choice: Choice, named: set<Path>)
    requires Within(plan, orig, c, named) && Names(plan, named) && c.process.Reverting?
    ensures Within(plan, orig, StepRevert(plan, c, choice, c.process.undo, c.process.ok), named)
  {
    var undo := c.process.undo;
    if undo != [] {
      assert undo[|undo| - 1] in undo;
      assert plan[undo[|undo| - 1].index] in plan;
    }
  }

  lemma RecoverWithin(plan: Plan, orig: FileMap, c: Config, choice: Choice, named: set<Path>)
    requires Within(plan, orig, c, named) && c.process.Recovering?
    ensures Within(plan, orig, StepRecover(plan, c, choice, c.process.j), named)
  {
    if c.process.j > 0 { assert c.rows[c.process.j - 1] in c.rows; }
  }

  lemma RestWithin(plan: Plan, orig: FileMap, c: Config, choice: Choice, named: set<Path>)
    requires Within(plan, orig, c, named) && Names(plan, named)
    requires !c.process.Looping? && !c.process.Working? && !c.process.Reverting? && !c.process.Recovering? &&
             !choice.Crash?
    ensures Within(plan, orig, Step(plan, c, choice), named)
  {
    var c' := Step(plan, c, choice);
    assert c'.files == c.files;
    forall r | r in c'.rows ensures RowNamed(r, named) {
      var k :| 0 <= k < |c'.rows| && c'.rows[k] == r;
      assert RowNamed(c.rows[k], named) && plan[k] in plan;
    }
  }

  lemma {:induction false} RunWithin(plan: Plan, orig: FileMap, c: Config, choices: seq<Choice>, named: set<Path>)
    requires Within(plan, orig, c, named) && Names(plan, named)
    requires forall choice <- choices :: choice.Place? ==> choice.path in named
    ensures Within(plan, orig, Run(plan, c, choices), named)
    decreases |choices|
  {
    if choices != [] {
      StepWithin(plan, orig, c, choices[0], named);
      RunWithin(plan, orig, Step(plan, c, choices[0]), choices[1..], named);
    }
  }

  lemma OnlyNamedPathsChange(plan: Plan, orig: FileMap, choices: seq<Choice>, p: Path)
    requires p !in Named(plan, choices)
    ensures SameAt(Run(plan, Initial(plan, orig), choices).files, orig, p)
  {
    RunWithin(plan, orig, Initial(plan, orig), choices, Named(plan, choices));
  }
}
