/** Journaled execution of one approved plan, its in-process rollback and its crash recovery,
    as a machine that makes one write at a time. A `Choice` is what the environment does with
    the next write; `Crash` may take the place of any of them. */
module ExecutionMachine {
  import opened Files

  /******* Plans and durable rows *******/

  datatype Kind = Keep | Skip | Review | Quarantine | Move | Copy | Delete | Rename | Unknown {
    predicate TouchesFiles() { !(Keep? || Skip? || Review?) }
    /** The file leaves its path: these run the copy, verify, remove pipeline. */
    predicate Relocates() { Quarantine? || Move? || Delete? || Rename? }
    predicate PicksQuarantinePath() { Quarantine? || Delete? }
  }

  datatype Action = Action(kind: Kind, path: Path, target: Path, filePath: Path, digest: Digest, size: nat)

  type Plan = seq<Action>

  datatype PlanState = Draft | Approved | StaleChecked | Executing | Verified | RolledBack

  datatype Status = Pending | Done | Failed
  datatype UndoStatus = NotTried | UndoDone | UndoFailed

  /** The journal row of one action index; `NoRow` until BeginJournal writes it. */
  datatype Row =
    | NoRow
    | Row(kind: Kind, source: Path, target: Path, digest: Digest, size: nat, status: Status, undo: UndoStatus)

  type Journal = seq<Row>

  /** History variable, read by no step: what action k has really done to the files. */
  datatype Progress =
    | Idle
    | Applied(dst: Path)  // effect in place
    | Undone(dst: Path)   // effect taken back
    | Spilt(dst: Path)    // destination created, source still whole
    | Jammed(dst: Path)   // undo created the source path again, destination still whole
    | Lost(dst: Path)     // recovery removed a file that was not this action's copy

  /******* Process memory *******/

  datatype Undo = Undo(index: nat, dst: Path)

  datatype Owner =
    | Forward(i: nat, undo: seq<Undo>)
    | Backward(k: nat, rest: seq<Undo>, ok: bool)
    | Recovery(j: nat)

  datatype Stage = Opening | Filling | Verifying | Removing

  /** One run of the copy pipeline, and of the move pipeline when `removes` is set. */
  datatype Job = Job(stage: Stage, from: Path, to: Path, digest: Digest, removes: bool, owner: Owner)

  datatype Report = Nothing | Success | UndoneInProcess | BackToDraft | ReadyToRetry | Unresolved
                  | RecoveredRollback | RecoveredToDraft | RecoveryLocked

  datatype Process =
    | Stopped(report: Report)
    | Invalidating
    | Reserving
    | Journaling
    | Unreserving
    | Launching
    | Looping(i: nat, undo: seq<Undo>)
    | Working(job: Job)
    | MarkingDone(i: nat, dst: Path, undo: seq<Undo>)
    | MarkingFailed(i: nat, undo: seq<Undo>)
    | Reverting(undo: seq<Undo>, ok: bool)
    | MarkingUndo(k: nat, failed: bool, undo: seq<Undo>, ok: bool)
    | Finishing(final: PlanState)
    | Resetting
    | Recovering(j: nat)
    | MarkingRecovery(k: nat, failed: bool)
    | ClosingRecovery

  datatype Config = Config(files: FileMap, rows: Journal, state: PlanState, process: Process, progress: seq<Progress>)

  datatype Choice =
    | Proceed               // the next operation succeeds
    | Refuse                // it fails and its cleanup succeeds
    | Leave                 // it fails and its cleanup fails too
    | Create(junk: Bytes)   // an exclusive create leaves these bytes so far
    | Place(path: Path)     // the quarantine name collision resolution settled on
    | Cancel
    | Crash
    | Start(sameStamps: bool) // time, inode and device of every source are those of the plan
    | StartRecovery
    | Approve

  /******* Guards *******/

  /** What validatePlanScope asks of the action itself; roots and symlinks are not modelled. */
  predicate InScope(plan: Plan) {
    forall a <- plan :: a.kind.TouchesFiles() ==>
      a.path != "" && a.filePath == a.path && a.digest.Sha256?
  }

  /** The content part of the stale check of every file-touching action. */
  predicate Fresh(plan: Plan, files: FileMap) {
    forall a <- plan :: a.kind.TouchesFiles() ==>
      a.path in files && Sha256(files[a.path]) == a.digest && |files[a.path]| == a.size
  }

  predicate NoRows(rows: Journal) {
    forall r <- rows :: r.NoRow?
  }

  function PendingRow(a: Action, was: Row): Row {
    if a.kind.TouchesFiles() && was.NoRow?
    then Row(a.kind, a.path, a.target, a.digest, a.size, Pending, NotTried)
    else was
  }

  function BeginJournal(plan: Plan, rows: Journal): (r: Journal)
    requires |rows| == |plan|
    ensures |r| == |plan| && forall k :: 0 <= k < |plan| ==> r[k] == PendingRow(plan[k], rows[k])
  {
    seq(|plan|, k requires 0 <= k < |plan| => PendingRow(plan[k], rows[k]))
  }

  /** The evidence for one action that CompletePlanExecution demands before it writes VERIFIED. */
  predicate ProvesAction(a: Action, row: Row) {
    if a.kind.TouchesFiles() then
      && row.Row?
      && row.kind == a.kind && row.source == a.path && row.digest == a.digest && row.size == a.size
      && row.status.Done? && row.undo.NotTried?
    else row.NoRow?
  }

  predicate ProvesSuccess(plan: Plan, rows: Journal)
    requires |rows| == |plan|
  {
    forall k :: 0 <= k < |plan| ==> ProvesAction(plan[k], rows[k])
  }

  predicate Settled(row: Row) {
    row.Row? ==> row.undo.UndoDone?
  }

  predicate AllUndone(rows: Journal) {
    forall k :: 0 <= k < |rows| ==> Settled(rows[k])
  }

  /** Recovery goes on only when no row leaves the outcome of its action open. */
  predicate Certain(row: Row) {
    row.Row? ==> row.undo.UndoDone? || (row.status.Done? && row.undo.NotTried?)
  }

  predicate Marking(process: Process) {
    process.MarkingDone? || process.MarkingFailed? || process.MarkingUndo? || process.MarkingRecovery?
  }

  function Marked(process: Process): nat
    requires Marking(process)
  {
    match process
    case MarkingDone(i, _, _) => i
    case MarkingFailed(i, _) => i
    case MarkingUndo(k, _, _, _) => k
    case MarkingRecovery(k, _) => k
  }

  predicate IndexesInRange(plan: Plan, c: Config) {
    |c.progress| == |plan| && |c.rows| == |plan| && ProcessInRange(plan, c.process)
  }

  predicate ProcessInRange(plan: Plan, process: Process) {
    match process
    case Looping(i, undo) => i <= |plan| && UndoInRange(plan, undo)
    case Working(job) => Subject(job.owner) < |plan| && UndoInRange(plan, Rest(job.owner))
    case MarkingDone(i, _, undo) => i < |plan| && UndoInRange(plan, undo)
    case MarkingFailed(i, undo) => i < |plan| && UndoInRange(plan, undo)
    case Reverting(undo, _) => UndoInRange(plan, undo)
    case MarkingUndo(k, _, undo, _) => k < |plan| && UndoInRange(plan, undo)
    case Recovering(j) => j <= |plan|
    case MarkingRecovery(k, _) => k < |plan|
    case _ => true
  }

  predicate UndoInRange(plan: Plan, undo: seq<Undo>) {
    forall u <- undo :: u.index < |plan|
  }

  /******* Steps *******/

  function Initial(plan: Plan, files: FileMap): Config {
    Config(files, seq(|plan|, _ => NoRow), Approved, Stopped(Nothing), seq(|plan|, _ => Idle))
  }

  function MarkStatus(rows: Journal, k: nat, status: Status): (r: Journal)
    requires k < |rows|
    ensures |r| == |rows|
  {
    if rows[k].Row? then rows[k := rows[k].(status := status)] else rows
  }

  function MarkDoneAt(rows: Journal, k: nat, dst: Path): (r: Journal)
    requires k < |rows|
    ensures |r| == |rows|
  {
    if rows[k].Row? then rows[k := rows[k].(status := Done, target := dst)] else rows
  }

  function MarkUndo(rows: Journal, k: nat, failed: bool): (r: Journal)
    requires k < |rows|
    ensures |r| == |rows|
  {
    if rows[k].Row? then rows[k := rows[k].(undo := if failed then UndoFailed else UndoDone)] else rows
  }

  function Step(plan: Plan, c: Config, choice: Choice): (c': Config)
    requires IndexesInRange(plan, c)
    ensures IndexesInRange(plan, c')
  {
    if choice.Crash? then c.(process := Stopped(Nothing)) else
    match c.process
    case Stopped(_) => StepStopped(plan, c, choice)
    case Looping(i, undo) => StepLoop(plan, c, choice, i, undo)
    case Working(job) => StepJob(plan, c, choice, job)
    case Reverting(undo, ok) => StepRevert(plan, c, choice, undo, ok)
    case Recovering(j) => StepRecover(plan, c, choice, j)
    case MarkingDone(_, _, _) => StepMark(plan, c, choice)
    case MarkingFailed(_, _) => StepMark(plan, c, choice)
    case MarkingUndo(_, _, _, _) => StepMark(plan, c, choice)
    case MarkingRecovery(_, _) => StepMark(plan, c, choice)
    case _ => StepState(plan, c, choice)
  }

  predicate ChangesState(process: Process) {
    process.Invalidating? || process.Reserving? || process.Journaling? || process.Unreserving? || process.Launching? ||
    process.Finishing? || process.Resetting? || process.ClosingRecovery?
  }

  /** The conditional updates of the plan row, and BeginJournal between two of them. */
  function StepState(plan: Plan, c: Config, choice: Choice): (c': Config)
    requires IndexesInRange(plan, c) && ChangesState(c.process)
    ensures IndexesInRange(plan, c')
  {
    match c.process
    case Invalidating =>
      if choice.Proceed? && c.state.Approved?
      then c.(state := Draft, process := Stopped(BackToDraft))
      else c.(process := Stopped(Unresolved))
    case Reserving =>
      if choice.Proceed? && c.state.Approved? && NoRows(c.rows)
      then c.(state := StaleChecked, process := Journaling)
      else c.(process := Stopped(Unresolved))
    case Journaling =>
      if choice.Proceed? then c.(rows := BeginJournal(plan, c.rows), process := Launching)
      else c.(process := Unreserving)
    case Unreserving =>
      if choice.Proceed? && c.state.StaleChecked? && NoRows(c.rows)
      then c.(state := Approved, process := Stopped(ReadyToRetry))
      else c.(process := Stopped(Unresolved))
    case Launching =>
      if choice.Proceed? && c.state.StaleChecked?
      then c.(state := Executing, process := Looping(0, []))
      else c.(process := Stopped(Unresolved))
    case Finishing(final) =>
      if choice.Proceed? && c.state.Executing? &&
         ((final.Verified? && ProvesSuccess(plan, c.rows)) || (final.RolledBack? && AllUndone(c.rows)))
      then c.(state := final, process := Stopped(if final.Verified? then Success else UndoneInProcess))
      else c.(process := Stopped(Unresolved))
    case Resetting =>
      if choice.Proceed? && NoRows(c.rows) && (c.state.Executing? || c.state.StaleChecked?)
      then c.(state := Draft, process := Stopped(RecoveredToDraft))
      else c.(process := Stopped(RecoveryLocked))
    case ClosingRecovery =>
      if choice.Proceed? && AllUndone(c.rows) && (c.state.Executing? || c.state.StaleChecked?)
      then c.(state := RolledBack, process := Stopped(RecoveredRollback))
      else c.(process := Stopped(RecoveryLocked))
  }

  /** One journal row is marked, or the mark fails. */
  function StepMark(plan: Plan, c: Config, choice: Choice): (c': Config)
    requires IndexesInRange(plan, c) && Marking(c.process)
    ensures IndexesInRange(plan, c')
  {
    match c.process
    case MarkingDone(i, dst, undo) =>
      if choice.Proceed? then c.(rows := MarkDoneAt(c.rows, i, dst), process := Looping(i + 1, undo))
      else c.(process := Reverting(undo, true))
    case MarkingFailed(i, undo) =>
      c.(rows := if choice.Proceed? then MarkStatus(c.rows, i, Failed) else c.rows,
         process := Reverting(undo, true))
    case MarkingUndo(k, failed, undo, ok) =>
      if choice.Proceed?
      then c.(rows := MarkUndo(c.rows, k, failed), process := Reverting(undo, ok && !failed))
      else c.(process := Reverting(undo, false))
    case MarkingRecovery(k, failed) =>
      var c' := if choice.Proceed? then c.(rows := MarkUndo(c.rows, k, failed)) else c;
      c'.(process := if failed || !choice.Proceed? then Stopped(RecoveryLocked) else Recovering(k))
  }

  function StepStopped(plan: Plan, c: Config, choice: Choice): (c': Config)
    requires IndexesInRange(plan, c) && c.process.Stopped?
    ensures IndexesInRange(plan, c')
  {
    match choice
    case Approve => c.(state := if c.state.Draft? then Approved else c.state, process := Stopped(Nothing))
    case Start(sameStamps) =>
      if !c.state.Approved? || !InScope(plan) then c.(process := Stopped(Nothing))
      else if sameStamps && Fresh(plan, c.files) then c.(process := Reserving)
      else c.(process := Invalidating)
    case StartRecovery =>
      if !(c.state.Executing? || c.state.StaleChecked?) then c.(process := Stopped(Nothing))
      else if NoRows(c.rows) then c.(process := Resetting)
      else if forall r <- c.rows :: Certain(r) then c.(process := Recovering(|plan|))
      else c.(process := Stopped(RecoveryLocked))
    case _ => c
  }

  function StepLoop(plan: Plan, c: Config, choice: Choice, i: nat, undo: seq<Undo>): (c': Config)
    requires IndexesInRange(plan, c) && i <= |plan| && UndoInRange(plan, undo)
    ensures IndexesInRange(plan, c')
  {
    if i == |plan| then c.(process := Finishing(Verified))
    else if choice.Cancel? then c.(process := Reverting(undo, true))
    else
      var a := plan[i];
      if !a.kind.TouchesFiles() then c.(process := Looping(i + 1, undo))
      else if a.kind.PicksQuarantinePath() && choice.Place?
        then c.(process := Working(Job(Opening, a.path, choice.path, a.digest, true, Forward(i, undo))))
      else if (a.kind.Move? || a.kind.Rename?) && a.target != ""
        then c.(process := Working(Job(Opening, a.path, a.target, a.digest, true, Forward(i, undo))))
      else if a.kind.Copy? && a.target != ""
        then c.(process := Working(Job(Opening, a.path, a.target, a.digest, false, Forward(i, undo))))
      else c.(process := MarkingFailed(i, undo))
  }

  function Subject(owner: Owner): nat {
    match owner
    case Forward(i, _) => i
    case Backward(k, _, _) => k
    case Recovery(j) => j
  }

  function Rest(owner: Owner): seq<Undo> {
    match owner
    case Forward(_, undo) => undo
    case Backward(_, rest, _) => rest
    case Recovery(_) => []
  }

  function Succeed(c: Config, job: Job): Config {
    c.(process :=
      match job.owner
      case Forward(i, undo) => MarkingDone(i, job.to, undo + [Undo(i, job.to)])
      case Backward(k, undo, ok) => MarkingUndo(k, false, undo, ok)
      case Recovery(j) => MarkingRecovery(j, false))
  }

  function Fail(c: Config, job: Job): Config {
    c.(process :=
      match job.owner
      case Forward(i, undo) => MarkingFailed(i, undo)
      case Backward(k, undo, ok) => MarkingUndo(k, true, undo, ok)
      case Recovery(j) => MarkingRecovery(j, true))
  }

  function Note(plan: Plan, c: Config, k: nat, what: Progress): Config
    requires |c.progress| == |plan| && k < |plan|
  {
    c.(progress := c.progress[k := what])
  }

  /** The failed pipeline removes the destination it created, unless that fails as well. */
  function Abandon(plan: Plan, c: Config, choice: Choice, job: Job): (c': Config)
    requires IndexesInRange(plan, c) && c.process == Working(job)
    ensures IndexesInRange(plan, c')
  {
    if choice.Leave? then Fail(c, job)
    else
      var cleaned := c.(files := c.files - {job.to});
      Fail(if job.owner.Forward? then Note(plan, cleaned, job.owner.i, Idle) else cleaned, job)
  }

  function StepJob(plan: Plan, c: Config, choice: Choice, job: Job): (c': Config)
    requires IndexesInRange(plan, c) && c.process == Working(job)
    ensures IndexesInRange(plan, c')
  {
    var k := Subject(job.owner);
    match job.stage
    case Opening =>
      if choice.Create? && job.from in c.files && job.to !in c.files then
        Note(plan, c.(files := c.files[job.to := choice.junk], process := Working(job.(stage := Filling))), k,
             if job.owner.Forward? then Spilt(job.to) else Jammed(job.from))
      else Fail(c, job)
    case Filling =>
      if choice.Proceed? && job.from in c.files then
        c.(files := c.files[job.to := c.files[job.from]], process := Working(job.(stage := Verifying)))
      else Abandon(plan, c, choice, job)
    case Verifying =>
      if choice.Proceed? && job.to in c.files && Sha256(c.files[job.to]) == job.digest then
        if job.removes then c.(process := Working(job.(stage := Removing)))
        else Succeed(Note(plan, c, k, Applied(job.to)), job)
      else Abandon(plan, c, choice, job)
    case Removing =>
      if choice.Proceed? then
        Succeed(Note(plan, c.(files := c.files - {job.from}), k,
                     if job.owner.Forward? then Applied(job.to) else Undone(job.from)), job)
      else Abandon(plan, c, choice, job)
  }

  /** rollbackAll: the newest undo first, and on past a failed one. */
  function StepRevert(plan: Plan, c: Config, choice: Choice, undo: seq<Undo>, ok: bool): (c': Config)
    requires IndexesInRange(plan, c) && UndoInRange(plan, undo)
    ensures IndexesInRange(plan, c')
  {
    if undo == [] then
      c.(process := if ok then Finishing(RolledBack) else Stopped(Unresolved))
    else
      var u, rest := undo[|undo| - 1], undo[..|undo| - 1];
      assert u in undo;
      var a := plan[u.index];
      if a.kind.Copy? then
        if choice.Proceed? && u.dst in c.files then
          Note(plan, c.(files := c.files - {u.dst}, process := MarkingUndo(u.index, false, rest, ok)),
               u.index, Undone(u.dst))
        else c.(process := MarkingUndo(u.index, true, rest, ok))
      else c.(process := Working(Job(Opening, u.dst, a.path, a.digest, true, Backward(u.index, rest, ok))))
  }

  /** recoverPlan and rollbackJournalEntry, from the highest action index down. */
  function StepRecover(plan: Plan, c: Config, choice: Choice, j: nat): (c': Config)
    requires IndexesInRange(plan, c) && j <= |plan|
    ensures IndexesInRange(plan, c')
  {
    if j == 0 then c.(process := ClosingRecovery)
    else
      var k := j - 1;
      if Settled(c.rows[k]) then c.(process := Recovering(k))
      else
        var row := c.rows[k];
        if row.target == "" then c.(process := MarkingRecovery(k, true))
        else if row.kind.Relocates() then
          c.(process := Working(Job(Opening, row.target, row.source, row.digest, true, Recovery(k))))
        else if row.kind.Copy? && choice.Proceed? && row.target in c.files &&
                Sha256(c.files[row.target]) == row.digest && |c.files[row.target]| == row.size then
          Note(plan, c.(files := c.files - {row.target}, process := MarkingRecovery(k, false)), k,
               AfterCopyRemoved(plan, c.progress, k, row.target))
        else c.(process := MarkingRecovery(k, true))
  }

  function AfterCopyRemoved(plan: Plan, progress: seq<Progress>, k: nat, target: Path): Progress
    requires |progress| == |plan| && k < |plan|
  {
    if progress[k].Applied? then Undone(target)
    else if exists i :: 0 <= i < |plan| && progress[i].Jammed? && plan[i].path == target then progress[k]
    else Lost(target)
  }

  function Run(plan: Plan, c: Config, choices: seq<Choice>): (c': Config)
    requires IndexesInRange(plan, c)
    ensures IndexesInRange(plan, c')
    decreases |choices|
  {
    if choices == [] then c
    else Run(plan, Step(plan, c, choices[0]), choices[1..])
  }

  lemma {:induction false} RunThen(plan: Plan, c: Config, xs: seq<Choice>, ys: seq<Choice>)
    requires IndexesInRange(plan, c)
    ensures Run(plan, c, xs + ys) == Run(plan, Run(plan, c, xs), ys)
    decreases |xs|
  {
    if xs == [] {
      assert xs + ys == ys;
    } else {
      assert (xs + ys)[1..] == xs[1..] + ys;
      RunThen(plan, Step(plan, c, xs[0]), xs[1..], ys);
    }
  }

  lemma RunOneMore(plan: Plan, c: Config, xs: seq<Choice>, x: Choice)
    requires IndexesInRange(plan, c)
    ensures Run(plan, c, xs + [x]) == Step(plan, Run(plan, c, xs), x)
  {
    RunThen(plan, c, xs, [x]);
    var d := Run(plan, c, xs);
    assert [x][1..] == [];
    assert Run(plan, d, [x]) == Run(plan, Step(plan, d, x), []);
  }

  lemma ThreeSteps(plan: Plan, c: Config, x1: Choice, x2: Choice, x3: Choice)
    requires IndexesInRange(plan, c)
    ensures Run(plan, c, [x1, x2, x3]) == Step(plan, Step(plan, Step(plan, c, x1), x2), x3)
  {
    RunOneMore(plan, c, [], x1);
    RunOneMore(plan, c, [x1], x2);
    RunOneMore(plan, c, [x1, x2], x3);
    assert [] + [x1] == [x1] && [x1] + [x2] == [x1, x2] && [x1, x2] + [x3] == [x1, x2, x3];
  }

  lemma FiveSteps(plan: Plan, c: Config, x1: Choice, x2: Choice, x3: Choice, x4: Choice, x5: Choice)
    requires IndexesInRange(plan, c)
    ensures Run(plan, c, [x1, x2, x3, x4, x5]) ==
      Step(plan, Step(plan, Step(plan, Step(plan, Step(plan, c, x1), x2), x3), x4), x5)
  {
    ThreeSteps(plan, c, x1, x2, x3);
    RunOneMore(plan, c, [x1, x2, x3], x4);
    RunOneMore(plan, c, [x1, x2, x3, x4], x5);
    assert [x1, x2, x3] + [x4] == [x1, x2, x3, x4] && [x1, x2, x3, x4] + [x5] == [x1, x2, x3, x4, x5];
  }
}
