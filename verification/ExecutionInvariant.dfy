/** The invariant of every run of one plan, and what a durable ROLLED_BACK, VERIFIED or DRAFT
    therefore says about the files and the journal. */
module ExecutionInvariant {
  import opened Files
  import opened ExecutionMachine
  import opened ExecutionRestore

  /** Copy k lands on the path that action i vacated of the very same content. */
  predicate IsTwin(plan: Plan, i: nat, k: nat)
    requires i < |plan| && k < |plan|
  {
    plan[i].kind.Relocates() && plan[k].kind.Copy? && plan[k].target == plan[i].path && plan[k].digest == plan[i].digest
  }

  /** No copy is the twin of an earlier action, unless nothing comes after the copy. */
  predicate NoTwinCopy(plan: Plan) {
    forall i, k :: 0 <= i < k < |plan| - 1 ==> !IsTwin(plan, i, k)
  }

  ghost predicate RowTells(a: Action, row: Row, w: Progress) {
    if row.NoRow? then w.Idle?
    else
      && a.kind.TouchesFiles()
      && row.kind == a.kind && row.source == a.path && row.digest == a.digest && row.size == a.size
      && (row.status.Done? ==> (Holds(w) || w.Undone?) && row.target == w.dst)
      && (row.undo.UndoDone? ==> w.Undone?)
  }

  ghost predicate Begun(plan: Plan, rows: Journal)
    requires |rows| == |plan|
  {
    forall k :: 0 <= k < |plan| && plan[k].kind.TouchesFiles() ==> rows[k].Row?
  }

  predicate LastDone(rows: Journal) {
    |rows| > 0 && rows[|rows| - 1].Row? && rows[|rows| - 1].status.Done?
  }

  ghost predicate JournalTells(plan: Plan, rows: Journal, ws: seq<Progress>)
    requires |rows| == |plan| == |ws|
  {
    && (NoRows(rows) || Begun(plan, rows))
    && (forall k :: 0 <= k < |plan| ==> RowTells(plan[k], rows[k], ws[k]))
    // Once the last action is journaled done, nothing is undone before its row is settled.
    && (LastDone(rows) && rows[|plan| - 1].undo.NotTried? ==>
          forall k :: 0 <= k < |plan| - 1 ==> !ws[k].Undone?)
  }

  ghost predicate AllApplied(plan: Plan, ws: seq<Progress>)
    requires |ws| == |plan|
  {
    forall k :: 0 <= k < |plan| && plan[k].kind.TouchesFiles() ==> ws[k].Applied?
  }

  ghost predicate StateTells(plan: Plan, state: PlanState, rows: Journal, ws: seq<Progress>)
    requires |rows| == |plan| == |ws|
  {
    && (state.Draft? || state.Approved? ==> NoRows(rows))
    && (state.RolledBack? ==> AllUndone(rows))
    && (state.Verified? ==> ProvesSuccess(plan, rows) && AllApplied(plan, ws))
  }

  ghost predicate Ran(a: Action, row: Row, w: Progress) {
    a.kind.TouchesFiles() ==> w.Applied? && row.Row? && row.status.Done? && row.undo.NotTried?
  }

  ghost predicate Waits(row: Row) {
    row.Row? ==> row.status.Pending? && row.undo.NotTried?
  }

  ghost predicate Before(plan: Plan, rows: Journal, ws: seq<Progress>, i: nat)
    requires |rows| == |plan| == |ws| && i <= |plan|
  {
    && Begun(plan, rows)
    && (forall k :: 0 <= k < i ==> Ran(plan[k], rows[k], ws[k]))
    && (forall k :: i <= k < |plan| ==> Waits(rows[k]))
    && (forall k :: i < k < |plan| ==> ws[k].Idle?)
  }

  ghost predicate UndoList(ws: seq<Progress>, undo: seq<Undo>, below: nat) {
    && (forall a :: 0 <= a < |undo| ==>
          undo[a].index < below && undo[a].index < |ws| && ws[undo[a].index] == Applied(undo[a].dst))
    && (forall a, b :: 0 <= a < b < |undo| ==> undo[a].index < undo[b].index)
  }

  ghost predicate Reversing(plan: Plan, rows: Journal)
    requires |rows| == |plan|
  {
    Begun(plan, rows) && !LastDone(rows)
  }

  predicate Reserved(state: PlanState) {
    state.Executing? || state.StaleChecked?
  }

  ghost predicate RecoveringTo(plan: Plan, rows: Journal, j: nat)
    requires |rows| == |plan|
  {
    && Begun(plan, rows)
    && (forall k :: 0 <= k < |plan| ==> Certain(rows[k]) && (k >= j ==> Settled(rows[k])))
  }

  ghost predicate JobTells(plan: Plan, c: Config, job: Job)
    requires IndexesInRange(plan, c) && Subject(job.owner) < |plan|
  {
    var k := Subject(job.owner);
    var w := c.progress[k];
    && job.digest == plan[k].digest
    && (job.stage.Removing? ==> job.removes && job.to in c.files && Sha256(c.files[job.to]) == job.digest)
    && match job.owner
       case Forward(i, undo) =>
         && c.state.Executing? && Before(plan, c.rows, c.progress, i) && UndoList(c.progress, undo, i)
         && job.from == plan[i].path
         && (if job.removes then plan[i].kind.Relocates() else plan[i].kind.Copy?)
         && (plan[i].kind.PicksQuarantinePath() || (job.to == plan[i].target && job.to != ""))
         && w == (if job.stage.Opening? then Idle else Spilt(job.to))
       case Backward(_, rest, _) =>
         && c.state.Executing? && Reversing(plan, c.rows) && UndoList(c.progress, rest, k)
         && job.to == plan[k].path && job.removes && plan[k].kind.Relocates()
         && w == (if job.stage.Opening? then Applied(job.from) else Jammed(job.from))
       case Recovery(_) =>
         && Reserved(c.state) && RecoveringTo(plan, c.rows, k + 1) && !Settled(c.rows[k])
         && job.to == plan[k].path && job.removes && plan[k].kind.Relocates()
         && job.from == c.rows[k].target
         && (!job.stage.Opening? ==> w == Jammed(job.from))
  }

  predicate ReportTells(state: PlanState, report: Report) {
    match report
    case Success => state.Verified?
    case UndoneInProcess => state.RolledBack?
    case RecoveredRollback => state.RolledBack?
    case BackToDraft => state.Draft?
    case RecoveredToDraft => state.Draft?
    case RecoveryLocked => Reserved(state)
    case _ => true
  }

  ghost predicate ProcessTells(plan: Plan, c: Config)
    requires IndexesInRange(plan, c)
  {
    match c.process
    case Stopped(report) => ReportTells(c.state, report)
    case Journaling => c.state.StaleChecked? && NoRows(c.rows)
    case Launching => Begun(plan, c.rows) && forall k :: 0 <= k < |plan| ==> c.progress[k].Idle? && Waits(c.rows[k])
    case Looping(i, undo) =>
      && c.state.Executing? && Before(plan, c.rows, c.progress, i) && UndoList(c.progress, undo, i)
      && (i < |plan| ==> c.progress[i].Idle?)
    case Working(job) => JobTells(plan, c, job)
    case MarkingDone(i, dst, undo) =>
      && c.state.Executing? && Before(plan, c.rows, c.progress, i) && UndoList(c.progress, undo, i + 1)
      && c.progress[i] == Applied(dst)
    case MarkingFailed(i, undo) =>
      c.state.Executing? && Before(plan, c.rows, c.progress, i) && UndoList(c.progress, undo, i)
    case Reverting(undo, _) =>
      c.state.Executing? && Reversing(plan, c.rows) && UndoList(c.progress, undo, |plan|)
    case MarkingUndo(k, failed, undo, _) =>
      && c.state.Executing? && Reversing(plan, c.rows) && UndoList(c.progress, undo, k)
      && (failed || c.progress[k].Undone?)
    case Recovering(j) => Reserved(c.state) && RecoveringTo(plan, c.rows, j)
    case MarkingRecovery(k, failed) =>
      && Reserved(c.state) && RecoveringTo(plan, c.rows, k + 1) && !Settled(c.rows[k])
      && (failed || c.progress[k].Undone?)
    case Finishing(final) => final.Verified? ==> AllApplied(plan, c.progress)
    case Resetting => Reserved(c.state) && NoRows(c.rows)
    case ClosingRecovery => Reserved(c.state)
    case _ => true
  }

  predicate Underway(c: Config) {
    !NoRows(c.rows) || !(c.process.Stopped? || c.process.Invalidating? || c.process.Resetting?)
  }

  ghost predicate Inv(plan: Plan, orig: FileMap, c: Config) {
    Bookkeeping(plan, orig, c) && Explains(plan, orig, c.progress, c.files)
  }

  lemma InitialInv(plan: Plan, orig: FileMap)
    ensures Inv(plan, orig, Initial(plan, orig))
  {
    var c := Initial(plan, orig);
    assert Consistent(plan, c.progress, orig);
  }

  lemma NothingStarted(plan: Plan, orig: FileMap, ws: seq<Progress>, files: FileMap)
    requires Explains(plan, orig, ws, files)
    requires forall k :: 0 <= k < |plan| ==> ws[k].Idle? || ws[k].Undone?
    ensures files == orig
  {
    forall p ensures SameAt(files, orig, p) {}
    SameEverywhere(files, orig);
  }

  lemma StopInv(plan: Plan, orig: FileMap, c: Config, choice: Choice)
    requires Inv(plan, orig, c) && (choice.Crash? || c.process.Stopped?)
    ensures Inv(plan, orig, Step(plan, c, choice))
  {
    if !choice.Crash? && choice.Start? && c.state.Approved? {
      NothingStarted(plan, orig, c.progress, c.files);
    }
  }

  lemma PrepareInv(plan: Plan, orig: FileMap, c: Config, choice: Choice)
    requires Bookkeeping(plan, orig, c)
    requires c.process.Invalidating? || c.process.Reserving? || c.process.Journaling? ||
             c.process.Unreserving? || c.process.Launching? || c.process.Resetting?
    ensures Bookkeeping(plan, orig, StepState(plan, c, choice))
  {
  }

  lemma CloseInv(plan: Plan, orig: FileMap, c: Config, choice: Choice)
    requires Bookkeeping(plan, orig, c)
    requires c.process.Finishing? || c.process.ClosingRecovery?
    ensures Bookkeeping(plan, orig, StepState(plan, c, choice))
  {
  }

  /** Steps that leave the files, and so their explanation, alone. */
  ghost predicate Bookkeeping(plan: Plan, orig: FileMap, c: Config) {
    && IndexesInRange(plan, c)
    && JournalTells(plan, c.rows, c.progress)
    && StateTells(plan, c.state, c.rows, c.progress)
    && ProcessTells(plan, c)
    && (Underway(c) ==> Fresh(plan, orig) && InScope(plan))
  }

  lemma LoopInv(plan: Plan, orig: FileMap, c: Config, choice: Choice)
    requires Inv(plan, orig, c) && c.process.Looping?
    ensures Inv(plan, orig, StepLoop(plan, c, choice, c.process.i, c.process.undo))
  {
    var i, undo := c.process.i, c.process.undo;
    var c' := StepLoop(plan, c, choice, i, undo);
    assert c' == c.(process := c'.process);
    if c'.process.Working? {
      var job := c'.process.job;
      assert job == Job(Opening, plan[i].path, job.to, plan[i].digest, plan[i].kind.Relocates(), Forward(i, undo));
      assert JobTells(plan, c', job);
    }
  }

  lemma MarkDoneInv(plan: Plan, orig: FileMap, c: Config, choice: Choice)
    requires Bookkeeping(plan, orig, c) && c.process.MarkingDone?
    ensures Bookkeeping(plan, orig, StepMark(plan, c, choice))
  {
  }

  lemma MarkFailedInv(plan: Plan, orig: FileMap, c: Config, choice: Choice)
    requires Bookkeeping(plan, orig, c) && c.process.MarkingFailed?
    ensures Bookkeeping(plan, orig, StepMark(plan, c, choice))
  {
  }

  lemma MarkUndoInv(plan: Plan, orig: FileMap, c: Config, choice: Choice)
    requires Bookkeeping(plan, orig, c) && c.process.MarkingUndo?
    ensures Bookkeeping(plan, orig, StepMark(plan, c, choice))
  {
    var k := c.process.k;
    var rows := if choice.Proceed? then MarkUndo(c.rows, k, c.process.failed) else c.rows;
    assert JournalTells(plan, rows, c.progress);
    assert Reversing(plan, rows);
  }

  lemma MarkRecoveryInv(plan: Plan, orig: FileMap, c: Config, choice: Choice)
    requires Bookkeeping(plan, orig, c) && c.process.MarkingRecovery?
    ensures Bookkeeping(plan, orig, StepMark(plan, c, choice))
  {
    var k := c.process.k;
    var rows := if choice.Proceed? then MarkUndo(c.rows, k, c.process.failed) else c.rows;
    assert JournalTells(plan, rows, c.progress);
    assert choice.Proceed? && !c.process.failed ==> RecoveringTo(plan, rows, k);
  }

  lemma JournalNoted(plan: Plan, rows: Journal, ws: seq<Progress>, k: nat, w: Progress)
    requires |rows| == |plan| == |ws| && k < |plan|
    requires JournalTells(plan, rows, ws) && RowTells(plan[k], rows[k], w)
    requires w.Undone? && k < |plan| - 1 ==> !(LastDone(rows) && rows[|plan| - 1].undo.NotTried?)
    ensures JournalTells(plan, rows, ws[k := w])
  {
  }

  /** The undo just taken from the list stands above all that are left on it. */
  lemma UndoTaken(plan: Plan, ws: seq<Progress>, undo: seq<Undo>, below: nat)
    requires UndoList(ws, undo, below) && undo != []
    ensures var u := undo[|undo| - 1];
      u.index < |ws| && ws[u.index] == Applied(u.dst) && UndoList(ws, undo[..|undo| - 1], u.index)
  {
    assert undo[|undo| - 1].index < |ws|;
  }

  lemma UndoKept(ws: seq<Progress>, undo: seq<Undo>, k: nat, w: Progress)
    requires k < |ws| && UndoList(ws, undo, k)
    ensures UndoList(ws[k := w], undo, k)
  {
  }

  lemma RevertCopyInv(plan: Plan, orig: FileMap, c: Config, choice: Choice)
    requires Inv(plan, orig, c) && SourcesApart(plan) && c.process.Reverting? && c.process.undo != []
    requires plan[c.process.undo[|c.process.undo| - 1].index].kind.Copy?
    ensures Inv(plan, orig, StepRevert(plan, c, choice, c.process.undo, c.process.ok))
  {
    var undo, ok := c.process.undo, c.process.ok;
    var u, rest := undo[|undo| - 1], undo[..|undo| - 1];
    UndoTaken(plan, c.progress, undo, |plan|);
    var c' := StepRevert(plan, c, choice, undo, ok);
    if choice.Proceed? && u.dst in c.files {
      var ws := c.progress[u.index := Undone(u.dst)];
      assert RowTells(plan[u.index], c.rows[u.index], c.progress[u.index]);
      FinishBackward(plan, orig, c.progress, c.files, u.index);
      JournalNoted(plan, c.rows, c.progress, u.index, Undone(u.dst));
      UndoKept(c.progress, rest, u.index, Undone(u.dst));
      assert c' == c.(files := c.files - {u.dst}, progress := ws, process := MarkingUndo(u.index, false, rest, ok));
    } else {
      assert c' == c.(process := MarkingUndo(u.index, true, rest, ok));
    }
  }

  lemma RevertInv(plan: Plan, orig: FileMap, c: Config, choice: Choice)
    requires Inv(plan, orig, c) && SourcesApart(plan) && c.process.Reverting?
    ensures Inv(plan, orig, StepRevert(plan, c, choice, c.process.undo, c.process.ok))
  {
    var undo, ok := c.process.undo, c.process.ok;
    if undo != [] {
      var u, rest := undo[|undo| - 1], undo[..|undo| - 1];
      UndoTaken(plan, c.progress, undo, |plan|);
      if plan[u.index].kind.Copy? {
        RevertCopyInv(plan, orig, c, choice);
      } else {
        var job := Job(Opening, u.dst, plan[u.index].path, plan[u.index].digest, true, Backward(u.index, rest, ok));
        assert Single(plan[u.index], c.progress[u.index], orig, Sources(plan));
        assert StepRevert(plan, c, choice, undo, ok) == c.(process := Working(job));
        assert JobTells(plan, c.(process := Working(job)), job);
      }
    }
  }

  /** Without a twin copy, what a recorded copy target holds is that copy, or the remains of a
      jammed undo; recovery never removes a file the plan started from. */
  lemma CopyTargetIsCopy(plan: Plan, orig: FileMap, c: Config, k: nat)
    requires Inv(plan, orig, c) && Fresh(plan, orig) && NoTwinCopy(plan) && k < |plan|
    requires RecoveringTo(plan, c.rows, k + 1)
    requires c.rows[k].Row? && c.rows[k].kind.Copy? && c.rows[k].status.Done? && c.rows[k].undo.NotTried?
    requires c.rows[k].target in c.files && Sha256(c.files[c.rows[k].target]) == c.rows[k].digest
    ensures c.progress[k].dst == c.rows[k].target
    ensures c.progress[k].Applied? ||
            (c.progress[k].Undone? &&
             exists i :: 0 <= i < |plan| && c.progress[i].Jammed? && plan[i].path == c.rows[k].target)
  {
    var ws, target := c.progress, c.rows[k].target;
    assert RowTells(plan[k], c.rows[k], ws[k]);
    assert Single(plan[k], ws[k], orig, Sources(plan));
    forall i | 0 <= i < k < |plan| - 1 && plan[i].kind.Relocates() && plan[i].path == target
      ensures plan[i].digest != plan[k].digest
    {
      assert !IsTwin(plan, i, k);
    }
    if !ws[k].Applied? {
      assert target !in Occupied(ws);
      if target in Vacated(plan, ws) {
        var i :| 0 <= i < |ws| && Vacates(plan[i], ws[i]) && plan[i].path == target;
        assert ws[i].Jammed?;
      }
    }
  }

  predicate CopyIsThere(files: FileMap, row: Row)
    requires row.Row?
  {
    row.target in files && Sha256(files[row.target]) == row.digest
  }

  lemma CopyRemoved(plan: Plan, orig: FileMap, c: Config, k: nat)
    requires Inv(plan, orig, c) && Fresh(plan, orig) && NoTwinCopy(plan) && SourcesApart(plan) && k < |plan|
    requires RecoveringTo(plan, c.rows, k + 1)
    requires c.rows[k].Row? && c.rows[k].kind.Copy? && c.rows[k].status.Done? && c.rows[k].undo.NotTried?
    requires CopyIsThere(c.files, c.rows[k])
    ensures var w := AfterCopyRemoved(plan, c.progress, k, c.rows[k].target);
      w == Undone(c.rows[k].target) && Explains(plan, orig, c.progress[k := w], c.files - {c.rows[k].target})
  {
    var target := c.rows[k].target;
    CopyTargetIsCopy(plan, orig, c, k);
    assert RowTells(plan[k], c.rows[k], c.progress[k]);
    if c.progress[k].Applied? {
      FinishBackward(plan, orig, c.progress, c.files, k);
    } else {
      var i :| 0 <= i < |plan| && c.progress[i].Jammed? && plan[i].path == target;
      assert Single(plan[i], c.progress[i], orig, Sources(plan));
      OpenBackward(plan, orig, c.progress, c.files, i, c.files - {target});
      assert c.progress[i := Jammed(c.progress[i].dst)] == c.progress;
      assert c.progress[k := c.progress[k]] == c.progress;
    }
  }

  lemma CopyRemovedInv(plan: Plan, orig: FileMap, c: Config, c': Config, k: nat)
    requires Inv(plan, orig, c) && SourcesApart(plan) && NoTwinCopy(plan)
    requires c.process == Recovering(k + 1) && k < |plan|
    requires c.rows[k].Row? && c.rows[k].kind.Copy? && c.rows[k].status.Done? && c.rows[k].undo.NotTried?
    requires CopyIsThere(c.files, c.rows[k])
    requires c' == c.(files := c.files - {c.rows[k].target}, process := MarkingRecovery(k, false),
                      progress := c.progress[k := Undone(c.rows[k].target)])
    ensures Inv(plan, orig, c')
  {
    CopyRemoved(plan, orig, c, k);
    JournalNoted(plan, c.rows, c.progress, k, Undone(c.rows[k].target));
  }

  lemma RecoverCopyInv(plan: Plan, orig: FileMap, c: Config, choice: Choice)
    requires Inv(plan, orig, c) && SourcesApart(plan) && NoTwinCopy(plan)
    requires c.process.Recovering?
    requires c.process.j > 0 && !Settled(c.rows[c.process.j - 1]) && c.rows[c.process.j - 1].kind.Copy?
    ensures Inv(plan, orig, StepRecover(plan, c, choice, c.process.j))
  {
    var k := c.process.j - 1;
    var row := c.rows[k];
    var c' := StepRecover(plan, c, choice, k + 1);
    assert Certain(row) && RowTells(plan[k], row, c.progress[k]);
    if c'.process == MarkingRecovery(k, false) {
      CopyRemoved(plan, orig, c, k);
      CopyRemovedInv(plan, orig, c, c', k);
    } else {
      CopyLeftInv(plan, orig, c, c', k);
    }
  }

  lemma CopyLeftInv(plan: Plan, orig: FileMap, c: Config, c': Config, k: nat)
    requires Inv(plan, orig, c) && c.process == Recovering(k + 1) && k < |plan| && !Settled(c.rows[k])
    requires c' == c.(process := MarkingRecovery(k, true))
    ensures Inv(plan, orig, c')
  {
  }

  lemma RecoverOtherInv(plan: Plan, orig: FileMap, c: Config, choice: Choice)
    requires Bookkeeping(plan, orig, c) && c.process.Recovering?
    requires c.process.j > 0 ==> Settled(c.rows[c.process.j - 1]) || !c.rows[c.process.j - 1].kind.Copy?
    ensures Bookkeeping(plan, orig, StepRecover(plan, c, choice, c.process.j))
  {
    var j := c.process.j;
    if j > 0 {
      var k := j - 1;
      assert Certain(c.rows[k]) && RowTells(plan[k], c.rows[k], c.progress[k]);
      if Settled(c.rows[k]) {
        assert StepRecover(plan, c, choice, j) == c.(process := Recovering(k));
      } else {
        assert RecoveringTo(plan, c.rows, k + 1);
        assert StepRecover(plan, c, choice, j) == c.(process := StepRecover(plan, c, choice, j).process);
      }
    }
  }

  /******* The copy and move pipelines *******/

  predicate JobOf(c: Config, job: Job) { c.process == Working(job) }

  lemma AbandonForwardInv(plan: Plan, orig: FileMap, c: Config, choice: Choice, job: Job)
    requires Inv(plan, orig, c) && SourcesApart(plan) && JobOf(c, job) && job.owner.Forward?
    requires !job.stage.Opening?
    ensures Inv(plan, orig, Abandon(plan, c, choice, job))
  {
    var i := job.owner.i;
    if !choice.Leave? {
      AbortForward(plan, orig, c.progress, c.files, i);
      JournalNoted(plan, c.rows, c.progress, i, Idle);
    }
  }

  lemma OpenForwardInv(plan: Plan, orig: FileMap, c: Config, choice: Choice, job: Job)
    requires Inv(plan, orig, c) && SourcesApart(plan) && JobOf(c, job) && job.owner.Forward?
    requires job.stage.Opening?
    ensures Inv(plan, orig, StepJob(plan, c, choice, job))
  {
    var i := job.owner.i;
    if choice.Create? && job.from in c.files && job.to !in c.files {
      OpenForward(plan, orig, c.progress, c.files, i, job.to, choice.junk);
      JournalNoted(plan, c.rows, c.progress, i, Spilt(job.to));
    }
  }

  lemma WorkForwardInv(plan: Plan, orig: FileMap, c: Config, choice: Choice, job: Job)
    requires Inv(plan, orig, c) && SourcesApart(plan) && JobOf(c, job) && job.owner.Forward?
    requires job.stage.Filling? || (job.stage.Verifying? && job.removes)
    ensures Inv(plan, orig, StepJob(plan, c, choice, job))
  {
    AbandonForwardInv(plan, orig, c, choice, job);
    if job.stage.Filling? && choice.Proceed? && job.from in c.files {
      FillForward(plan, orig, c.progress, c.files, job.owner.i, c.files[job.from]);
    }
  }

  lemma EndCopyInv(plan: Plan, orig: FileMap, c: Config, choice: Choice, job: Job)
    requires Inv(plan, orig, c) && SourcesApart(plan) && JobOf(c, job) && job.owner.Forward?
    requires job.stage.Verifying? && !job.removes
    ensures Inv(plan, orig, StepJob(plan, c, choice, job))
  {
    var i := job.owner.i;
    if choice.Proceed? && job.to in c.files && Sha256(c.files[job.to]) == job.digest {
      FinishForward(plan, orig, c.progress, c.files, i);
      JournalNoted(plan, c.rows, c.progress, i, Applied(job.to));
      UndoGrown(c.progress, job.owner.undo, i, job.to);
      assert StepJob(plan, c, choice, job) ==
             c.(progress := c.progress[i := Applied(job.to)],
                process := MarkingDone(i, job.to, job.owner.undo + [Undo(i, job.to)]));
    } else {
      AbandonForwardInv(plan, orig, c, choice, job);
    }
  }

  lemma UndoGrown(ws: seq<Progress>, undo: seq<Undo>, i: nat, dst: Path)
    requires i < |ws| && UndoList(ws, undo, i)
    ensures UndoList(ws[i := Applied(dst)], undo + [Undo(i, dst)], i + 1)
  {
  }

  lemma MovedInv(plan: Plan, orig: FileMap, c: Config, job: Job)
    requires Inv(plan, orig, c) && SourcesApart(plan) && JobOf(c, job) && job.owner.Forward?
    requires job.stage.Removing?
    ensures Inv(plan, orig,
                c.(files := c.files - {job.from}, progress := c.progress[job.owner.i := Applied(job.to)],
                   process := MarkingDone(job.owner.i, job.to, job.owner.undo + [Undo(job.owner.i, job.to)])))
  {
    var i := job.owner.i;
    FinishForward(plan, orig, c.progress, c.files, i);
    JournalNoted(plan, c.rows, c.progress, i, Applied(job.to));
    UndoGrown(c.progress, job.owner.undo, i, job.to);
  }

  lemma EndMoveInv(plan: Plan, orig: FileMap, c: Config, choice: Choice, job: Job)
    requires Inv(plan, orig, c) && SourcesApart(plan) && JobOf(c, job) && job.owner.Forward?
    requires job.stage.Removing?
    ensures Inv(plan, orig, StepJob(plan, c, choice, job))
  {
    var i := job.owner.i;
    if choice.Proceed? {
      MovedInv(plan, orig, c, job);
      assert StepJob(plan, c, choice, job) ==
             c.(files := c.files - {job.from}, progress := c.progress[i := Applied(job.to)],
                process := MarkingDone(i, job.to, job.owner.undo + [Undo(i, job.to)]));
    } else {
      AbandonForwardInv(plan, orig, c, choice, job);
    }
  }

  lemma OpenedBackInv(plan: Plan, orig: FileMap, c: Config, junk: Bytes, job: Job)
    requires Inv(plan, orig, c) && SourcesApart(plan) && JobOf(c, job) && !job.owner.Forward?
    requires job.stage.Opening? && job.from in c.files && job.to !in c.files
    ensures Inv(plan, orig, c.(files := c.files[job.to := junk], process := Working(job.(stage := Filling)),
                               progress := c.progress[Subject(job.owner) := Jammed(job.from)]))
  {
    var k := Subject(job.owner);
    assert RowTells(plan[k], c.rows[k], c.progress[k]);
    assert job.to in Occupied(c.progress) || job.to in Vacated(plan, c.progress) || SameAt(c.files, orig, job.to);
    if c.progress[k].Undone? { assert false; }
    OpenBackward(plan, orig, c.progress, c.files, k, c.files[job.to := junk]);
    JournalNoted(plan, c.rows, c.progress, k, Jammed(job.from));
  }

  lemma OpenBackInv(plan: Plan, orig: FileMap, c: Config, choice: Choice, job: Job)
    requires Inv(plan, orig, c) && SourcesApart(plan) && JobOf(c, job) && !job.owner.Forward?
    requires job.stage.Opening?
    ensures Inv(plan, orig, StepJob(plan, c, choice, job))
  {
    if choice.Create? && job.from in c.files && job.to !in c.files {
      OpenedBackInv(plan, orig, c, choice.junk, job);
      assert StepJob(plan, c, choice, job) ==
             c.(files := c.files[job.to := choice.junk], process := Working(job.(stage := Filling)),
                progress := c.progress[Subject(job.owner) := Jammed(job.from)]);
    }
  }

  /** A jammed undo stays explained whatever happens at the path it is restoring. */
  lemma StillJammed(plan: Plan, orig: FileMap, ws: seq<Progress>, files: FileMap, k: nat, files': FileMap)
    requires Explains(plan, orig, ws, files) && SourcesApart(plan)
    requires k < |plan| && ws[k].Jammed? && plan[k].kind.Relocates()
    requires forall p :: p == plan[k].path || SameAt(files', files, p)
    ensures Explains(plan, orig, ws, files')
  {
    OpenBackward(plan, orig, ws, files, k, files');
    assert ws[k := Jammed(ws[k].dst)] == ws;
  }

  lemma AbandonBackInv(plan: Plan, orig: FileMap, c: Config, choice: Choice, job: Job)
    requires Inv(plan, orig, c) && SourcesApart(plan) && JobOf(c, job) && !job.owner.Forward?
    requires !job.stage.Opening?
    ensures Inv(plan, orig, Abandon(plan, c, choice, job))
  {
    StillJammed(plan, orig, c.progress, c.files, Subject(job.owner), c.files - {job.to});
  }

  lemma WorkBackInv(plan: Plan, orig: FileMap, c: Config, choice: Choice, job: Job)
    requires Inv(plan, orig, c) && SourcesApart(plan) && JobOf(c, job) && !job.owner.Forward?
    requires job.stage.Filling? || job.stage.Verifying?
    ensures Inv(plan, orig, StepJob(plan, c, choice, job))
  {
    AbandonBackInv(plan, orig, c, choice, job);
    if job.stage.Filling? && choice.Proceed? && job.from in c.files {
      StillJammed(plan, orig, c.progress, c.files, Subject(job.owner), c.files[job.to := c.files[job.from]]);
    }
  }

  lemma MovedBackBooks(plan: Plan, orig: FileMap, c: Config, c': Config, job: Job)
    requires Bookkeeping(plan, orig, c) && JobOf(c, job) && !job.owner.Forward? && job.stage.Removing?
    requires c' == Succeed(c.(files := c.files - {job.from},
                              progress := c.progress[Subject(job.owner) := Undone(job.from)]), job)
    ensures Bookkeeping(plan, orig, c')
  {
    var k := Subject(job.owner);
    assert RowTells(plan[k], c.rows[k], c.progress[k]);
    JournalNoted(plan, c.rows, c.progress, k, Undone(job.from));
    if job.owner.Backward? { UndoKept(c.progress, job.owner.rest, k, Undone(job.from)); }
  }

  lemma MovedBackInv(plan: Plan, orig: FileMap, c: Config, c': Config, job: Job)
    requires Inv(plan, orig, c) && SourcesApart(plan) && JobOf(c, job) && !job.owner.Forward?
    requires job.stage.Removing?
    requires c' == Succeed(c.(files := c.files - {job.from},
                              progress := c.progress[Subject(job.owner) := Undone(job.from)]), job)
    ensures Inv(plan, orig, c')
  {
    MovedBackBooks(plan, orig, c, c', job);
    FinishBackward(plan, orig, c.progress, c.files, Subject(job.owner));
  }

  lemma EndBackInv(plan: Plan, orig: FileMap, c: Config, choice: Choice, job: Job)
    requires Inv(plan, orig, c) && SourcesApart(plan) && JobOf(c, job) && !job.owner.Forward?
    requires job.stage.Removing?
    ensures Inv(plan, orig, StepJob(plan, c, choice, job))
  {
    if choice.Proceed? {
      MovedBackInv(plan, orig, c, StepJob(plan, c, choice, job), job);
    } else {
      AbandonBackInv(plan, orig, c, choice, job);
      assert StepJob(plan, c, choice, job) == Abandon(plan, c, choice, job);
    }
  }

  lemma RecoverInv(plan: Plan, orig: FileMap, c: Config, choice: Choice)
    requires Inv(plan, orig, c) && SourcesApart(plan) && NoTwinCopy(plan) && c.process.Recovering?
    ensures Inv(plan, orig, StepRecover(plan, c, choice, c.process.j))
  {
    var j := c.process.j;
    if j == 0 || Settled(c.rows[j - 1]) || !c.rows[j - 1].kind.Copy? {
      RecoverOtherInv(plan, orig, c, choice);
    } else {
      RecoverCopyInv(plan, orig, c, choice);
    }
  }

  lemma MarkInv(plan: Plan, orig: FileMap, c: Config, choice: Choice)
    requires Inv(plan, orig, c) && Marking(c.process)
    ensures Inv(plan, orig, StepMark(plan, c, choice))
  {
    match c.process
    case MarkingDone(_, _, _) => MarkDoneInv(plan, orig, c, choice);
    case MarkingFailed(_, _) => MarkFailedInv(plan, orig, c, choice);
    case MarkingUndo(_, _, _, _) => MarkUndoInv(plan, orig, c, choice);
    case MarkingRecovery(_, _) => MarkRecoveryInv(plan, orig, c, choice);
  }

  lemma StateInv(plan: Plan, orig: FileMap, c: Config, choice: Choice)
    requires Inv(plan, orig, c) && ChangesState(c.process)
    ensures Inv(plan, orig, StepState(plan, c, choice))
  {
    if c.process.Finishing? || c.process.ClosingRecovery? {
      CloseInv(plan, orig, c, choice);
    } else {
      PrepareInv(plan, orig, c, choice);
    }
  }

  lemma ActInv(plan: Plan, orig: FileMap, c: Config, choice: Choice)
    requires Inv(plan, orig, c) && SourcesApart(plan) && !choice.Crash?
    requires c.process.Looping? || c.process.Working? || c.process.Reverting?
    ensures Inv(plan, orig, Step(plan, c, choice))
  {
    if c.process.Looping? {
      LoopInv(plan, orig, c, choice);
    } else if c.process.Working? {
      JobInv(plan, orig, c, choice, c.process.job);
    } else {
      RevertInv(plan, orig, c, choice);
    }
  }

  lemma NoteInv(plan: Plan, orig: FileMap, c: Config, choice: Choice)
    requires Inv(plan, orig, c) && !choice.Crash? && (Marking(c.process) || ChangesState(c.process))
    ensures Inv(plan, orig, Step(plan, c, choice))
  {
    if Marking(c.process) {
      MarkInv(plan, orig, c, choice);
      assert Step(plan, c, choice) == StepMark(plan, c, choice);
    } else {
      StateInv(plan, orig, c, choice);
      assert Step(plan, c, choice) == StepState(plan, c, choice);
    }
  }

  /** Every step keeps the invariant; only recovery needs the plan to be without twin copies. */
  lemma StepInv(plan: Plan, orig: FileMap, c: Config, choice: Choice)
    requires Inv(plan, orig, c) && SourcesApart(plan) && (NoTwinCopy(plan) || choice.Crash? || !c.process.Recovering?)
    ensures Inv(plan, orig, Step(plan, c, choice))
  {
    if choice.Crash? || c.process.Stopped? {
      StopInv(plan, orig, c, choice);
    } else if c.process.Looping? || c.process.Working? || c.process.Reverting? {
      ActInv(plan, orig, c, choice);
    } else if c.process.Recovering? {
      RecoverInv(plan, orig, c, choice);
    } else {
      NoteInv(plan, orig, c, choice);
    }
  }

  lemma JobInv(plan: Plan, orig: FileMap, c: Config, choice: Choice, job: Job)
    requires Inv(plan, orig, c) && SourcesApart(plan) && JobOf(c, job)
    ensures Inv(plan, orig, StepJob(plan, c, choice, job))
  {
    if job.owner.Forward? {
      match job.stage
      case Opening => OpenForwardInv(plan, orig, c, choice, job);
      case Filling => WorkForwardInv(plan, orig, c, choice, job);
      case Verifying =>
        if job.removes { WorkForwardInv(plan, orig, c, choice, job); } else { EndCopyInv(plan, orig, c, choice, job); }
      case Removing => EndMoveInv(plan, orig, c, choice, job);
    } else {
      match job.stage
      case Opening => OpenBackInv(plan, orig, c, choice, job);
      case Filling => WorkBackInv(plan, orig, c, choice, job);
      case Verifying => WorkBackInv(plan, orig, c, choice, job);
      case Removing => EndBackInv(plan, orig, c, choice, job);
    }
  }

  lemma {:induction false} RunInv(plan: Plan, orig: FileMap, c: Config, choices: seq<Choice>)
    requires Inv(plan, orig, c) && SourcesApart(plan) && NoTwinCopy(plan)
    ensures Inv(plan, orig, Run(plan, c, choices))
    decreases |choices|
  {
    if choices != [] {
      StepInv(plan, orig, c, choices[0]);
      RunInv(plan, orig, Step(plan, c, choices[0]), choices[1..]);
    }
  }
}
