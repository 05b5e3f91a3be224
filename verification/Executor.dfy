/** The executor as the program writes it: one object over the files, the journal and the plan
    state, with the execution loop, the rollback loop and the recovery loop. Its ghost `config`
    follows the step machine, so every single write below is one step of it, and whatever holds
    of all runs of the machine holds whenever the process dies. */
module Executor {
  import opened Files
  import opened ExecutionMachine
  import opened ExecutionRestore
  import opened ExecutionInvariant
  import opened ExecutionTheorems

  /** Nothing has changed, but for what a failed pipeline may leave at the destination it created. */
  predicate OnlyLeftover(before: FileMap, after: FileMap, dst: Path) {
    after == before || (dst !in before && after - {dst} == before)
  }

  /** A whole, verified file has been moved or copied from one path to a free one. */
  predicate Transferred(before: FileMap, after: FileMap, src: Path, dst: Path, digest: Digest, removes: bool) {
    && src in before && dst !in before && Sha256(before[src]) == digest
    && after == if removes then before[dst := before[src]] - {src} else before[dst := before[src]]
  }

  ghost predicate SameStamps(plan: Plan, stamps: seq<bool>)
    requires |stamps| == |plan|
  {
    forall i :: 0 <= i < |plan| && plan[i].kind.TouchesFiles() ==> stamps[i]
  }

  /** Some action's outcome is not known. */
  predicate LeftOpen(rows: Journal) {
    exists r <- rows :: !Certain(r)
  }

  lemma RecoveredTruth(plan: Plan, orig: FileMap, log: seq<Choice>, c: Config, report: Report)
    requires SourcesApart(plan) && c == Run(plan, Initial(plan, orig), log) && c.process == Stopped(report)
    ensures ContentKept(orig, c.files)
    ensures report.RecoveredRollback? && NoTwinCopy(plan) ==> c.state.RolledBack? && c.files == orig
    ensures c.state.Draft? ==> NoRows(c.rows) && c.files == orig
  {
    NoContentLost(plan, orig, log);
    UnjournaledMeansUntouched(plan, orig, log);
    if NoTwinCopy(plan) { RecoveryTellsTruth(plan, orig, log); }
  }

  lemma ExecutedTruth(plan: Plan, orig: FileMap, log: seq<Choice>, c: Config, report: Report)
    requires SourcesApart(plan) && c == Run(plan, Initial(plan, orig), log) && c.process == Stopped(report)
    ensures ContentKept(orig, c.files)
    ensures report.Success? ==>
            c.state.Verified? && ProvesSuccess(plan, c.rows) && CarriedOut(plan, c.rows, orig, c.files)
    ensures report.UndoneInProcess? ==> c.state.RolledBack? && AllUndone(c.rows) && c.files == orig
  {
    RunFromApproval(plan, orig, log);
    VerifiedTellsTruth(plan, orig, log);
    RollbackRestores(plan, orig, log);
    NoContentLost(plan, orig, log);
  }

  class PlanExecutor {
    const plan: Plan
    ghost const orig: FileMap
    var files: FileMap
    var rows: Journal
    var state: PlanState
    ghost var config: Config
    ghost var log: seq<Choice>

    ghost predicate Valid()
      reads this
    {
      && IndexesInRange(plan, config) && config == Run(plan, Initial(plan, orig), log)
      && config.files == files && config.rows == rows && config.state == state
    }

    ghost predicate At(process: Process)
      reads this
    {
      Valid() && config.process == process
    }

    constructor (plan: Plan, files: FileMap)
      ensures Valid() && this.plan == plan && orig == files && this.files == files && state == Approved
      ensures At(Stopped(Nothing))
    {
      this.plan := plan;
      this.orig := files;
      this.files := files;
      rows := seq(|plan|, _ => NoRow);
      state := Approved;
      config := Initial(plan, files);
      log := [];
    }

    /** One step of the machine; the statements beside each call make the same change for real. */
    ghost method Follow(choice: Choice)
      requires IndexesInRange(plan, config) && config == Run(plan, Initial(plan, orig), log)
      modifies this`config, this`log
      ensures config == Step(plan, old(config), choice) && log == old(log) + [choice]
      ensures IndexesInRange(plan, config) && config == Run(plan, Initial(plan, orig), log)
    {
      RunOneMore(plan, Initial(plan, orig), log, choice);
      config := Step(plan, config, choice);
      log := log + [choice];
    }

    /** The same for a step that creates the destination of a job, and for one that fills it. */
    ghost method FollowCreate(job: Job, junk: Bytes)
      requires IndexesInRange(plan, config) && config == Run(plan, Initial(plan, orig), log)
      requires config.process == Working(job) && job.stage.Opening?
      requires job.from in config.files && job.to !in config.files
      modifies this`config, this`log
      ensures IndexesInRange(plan, config) && config == Run(plan, Initial(plan, orig), log)
      ensures config.process == Working(job.(stage := Filling)) && config.files == old(config.files)[job.to := junk]
      ensures config.rows == old(config.rows) && config.state == old(config.state)
    {
      Follow(Create(junk));
    }

    ghost method FollowFill(job: Job)
      requires IndexesInRange(plan, config) && config == Run(plan, Initial(plan, orig), log)
      requires config.process == Working(job.(stage := Filling)) && job.from in config.files
      modifies this`config, this`log
      ensures IndexesInRange(plan, config) && config == Run(plan, Initial(plan, orig), log)
      ensures config.process == Working(job.(stage := Verifying))
      ensures config.files == old(config.files)[job.to := old(config.files)[job.from]]
      ensures config.rows == old(config.rows) && config.state == old(config.state)
    {
      Follow(Proceed);
    }

    ghost method FollowRefusal(job: Job)
      requires IndexesInRange(plan, config) && config == Run(plan, Initial(plan, orig), log)
      requires config.process == Working(job) && job.stage.Opening?
      modifies this`config, this`log
      ensures IndexesInRange(plan, config) && config == Run(plan, Initial(plan, orig), log)
      ensures config.process == Fail(old(config), job).process && config.files == old(config.files)
      ensures config.rows == old(config.rows) && config.state == old(config.state)
    {
      Follow(Refuse);
    }

    /******* Copy, verify, remove *******/

    method CopyFile(src: Path, dst: Path, ghost job: Job) returns (ok: bool)
      requires At(Working(job)) && job.stage.Opening? && src == job.from && dst == job.to
      modifies this
      ensures ok ==> At(Working(job.(stage := Verifying)))
      ensures ok ==> src in old(files) && dst !in old(files) && files == old(files)[dst := old(files)[src]]
      ensures !ok ==> Valid() && config.process == Fail(config, job).process && OnlyLeftover(old(files), files, dst)
      ensures rows == old(rows) && state == old(state)
    {
      ok := CreateExclusive(src, dst, job);
      if !ok { return; }
      ok := FillCreated(src, dst, job);
    }

    /** Opens a source that is there and creates a destination that is not, with whatever it holds first. */
    method CreateExclusive(src: Path, dst: Path, ghost job: Job) returns (created: bool)
      requires At(Working(job)) && job.stage.Opening? && src == job.from && dst == job.to
      modifies this
      ensures created ==> At(Working(job.(stage := Filling))) && src in old(files) && dst !in old(files)
      ensures created ==> dst in files && files == old(files)[dst := files[dst]]
      ensures !created ==> Valid() && config.process == Fail(config, job).process && files == old(files)
      ensures rows == old(rows) && state == old(state)
    {
      var junk: Bytes := *;
      created := *;
      created := created && src in files && dst !in files;
      if created {
        files := files[dst := junk];
        FollowCreate(job, junk);
      } else {
        FollowRefusal(job);
      }
    }

    method FillCreated(src: Path, dst: Path, ghost job: Job) returns (ok: bool)
      requires At(Working(job.(stage := Filling))) && src == job.from && dst == job.to && src in files
      modifies this
      ensures ok ==> At(Working(job.(stage := Verifying))) && files == old(files)[dst := old(files)[src]]
      ensures !ok ==> Valid() && config.process == Fail(config, job).process
      ensures !ok ==> files == old(files) || files == old(files) - {dst}
      ensures rows == old(rows) && state == old(state)
    {
      ok := *;
      if ok {
        files := files[dst := files[src]];
        FollowFill(job);
      } else {
        RemoveCreated(dst, job.(stage := Filling));
      }
    }

    /** The clean-up of a failed pipeline, which may fail as well. */
    method RemoveCreated(dst: Path, ghost job: Job)
      requires At(Working(job)) && dst == job.to && !job.stage.Opening?
      modifies this
      ensures Valid() && config.process == Fail(config, job).process
      ensures rows == old(rows) && state == old(state) && (files == old(files) || files == old(files) - {dst})
    {
      var removed := *;
      if removed { files := files - {dst}; }
      Follow(if removed then Refuse else Leave);
    }

    method CopyAndVerify(src: Path, dst: Path, digest: Digest, ghost job: Job) returns (ok: bool)
      requires At(Working(job)) && job.stage.Opening? && src == job.from && dst == job.to && digest == job.digest
      modifies this
      ensures ok && job.removes ==> At(Working(job.(stage := Removing)))
      ensures ok && !job.removes ==> Valid() && config.process == Succeed(config, job).process
      ensures ok ==> Transferred(old(files), files, src, dst, digest, false)
      ensures !ok ==> Valid() && config.process == Fail(config, job).process && OnlyLeftover(old(files), files, dst)
      ensures rows == old(rows) && state == old(state)
    {
      ok := CopyFile(src, dst, job);
      if !ok { return; }
      var readable := *;
      if readable && Sha256(files[dst]) == digest {
        Follow(Proceed);
      } else {
        RemoveCreated(dst, job.(stage := Verifying));
        ok := false;
      }
    }

    method MoveFile(src: Path, dst: Path, digest: Digest, ghost job: Job) returns (ok: bool)
      requires At(Working(job)) && job == Job(Opening, src, dst, digest, true, job.owner)
      modifies this
      ensures Valid() && config.process == (if ok then Succeed(config, job) else Fail(config, job)).process
      ensures ok ==> Transferred(old(files), files, src, dst, digest, true)
      ensures !ok ==> OnlyLeftover(old(files), files, dst)
      ensures rows == old(rows) && state == old(state)
    {
      ok := CopyAndVerify(src, dst, digest, job);
      if !ok { return; }
      var removed := *;
      if removed {
        files := files - {src};
        Follow(Proceed);
      } else {
        RemoveCreated(dst, job.(stage := Removing));
        ok := false;
      }
    }

    /******* One action *******/

    method ExecuteAction(i: nat, ghost undo: seq<Undo>) returns (ok: bool, target: Path)
      requires At(Looping(i, undo)) && i < |plan| && plan[i].kind.TouchesFiles()
      modifies this
      ensures Valid() && rows == old(rows) && state == old(state)
      ensures config.process == if ok then MarkingDone(i, target, undo + [Undo(i, target)]) else MarkingFailed(i, undo)
      ensures ok ==> Transferred(old(files), files, plan[i].path, target, plan[i].digest, plan[i].kind.Relocates())
      ensures ok ==> plan[i].kind.PicksQuarantinePath() || target == plan[i].target
      ensures !ok ==> OnlyLeftover(old(files), files, target)
    {
      var a := plan[i];
      match a.kind
      case Quarantine => ok, target := ExecuteQuarantine(i, undo);
      case Delete => ok, target := ExecuteQuarantine(i, undo);
      case Move => ok, target := ExecuteMove(i, undo);
      case Rename => ok, target := ExecuteMove(i, undo);
      case Copy => ok, target := ExecuteCopy(i, undo);
      case Unknown =>
        Follow(Proceed);
        return false, "";
    }

    method ExecuteCopy(i: nat, ghost undo: seq<Undo>) returns (ok: bool, target: Path)
      requires At(Looping(i, undo)) && i < |plan| && plan[i].kind.Copy?
      modifies this
      ensures Valid() && rows == old(rows) && state == old(state)
      ensures config.process == if ok then MarkingDone(i, target, undo + [Undo(i, target)]) else MarkingFailed(i, undo)
      ensures ok ==> target == plan[i].target
      ensures ok ==> Transferred(old(files), files, plan[i].path, target, plan[i].digest, false)
      ensures !ok ==> OnlyLeftover(old(files), files, target)
    {
      var a := plan[i];
      target := a.target;
      Follow(Proceed);
      if target == "" { return false, ""; }
      ghost var job := Job(Opening, a.path, target, a.digest, false, Forward(i, undo));
      ok := CopyAndVerify(a.path, target, a.digest, job);
    }

    method ExecuteQuarantine(i: nat, ghost undo: seq<Undo>) returns (ok: bool, target: Path)
      requires At(Looping(i, undo)) && i < |plan| && plan[i].kind.PicksQuarantinePath()
      modifies this
      ensures Valid() && rows == old(rows) && state == old(state)
      ensures config.process == if ok then MarkingDone(i, target, undo + [Undo(i, target)]) else MarkingFailed(i, undo)
      ensures ok ==> Transferred(old(files), files, plan[i].path, target, plan[i].digest, true)
      ensures !ok ==> OnlyLeftover(old(files), files, target)
    {
      var a, resolved := plan[i], *;
      target := *;
      if !resolved {
        Follow(Refuse);
        return false, "";
      }
      Follow(Place(target));
      ok := MoveFile(a.path, target, a.digest, Job(Opening, a.path, target, a.digest, true, Forward(i, undo)));
    }

    method ExecuteMove(i: nat, ghost undo: seq<Undo>) returns (ok: bool, target: Path)
      requires At(Looping(i, undo)) && i < |plan| && (plan[i].kind.Move? || plan[i].kind.Rename?)
      modifies this
      ensures Valid() && rows == old(rows) && state == old(state)
      ensures config.process == if ok then MarkingDone(i, target, undo + [Undo(i, target)]) else MarkingFailed(i, undo)
      ensures ok ==> target == plan[i].target
      ensures ok ==> Transferred(old(files), files, plan[i].path, target, plan[i].digest, true)
      ensures !ok ==> OnlyLeftover(old(files), files, target)
    {
      var a := plan[i];
      target := a.target;
      Follow(Proceed);
      if target == "" { return false, ""; }
      ok := MoveFile(a.path, target, a.digest, Job(Opening, a.path, target, a.digest, true, Forward(i, undo)));
    }

    /******* Journal writes *******/

    method MarkJournalDone(i: nat, target: Path, ghost undo: seq<Undo>) returns (ok: bool)
      requires At(MarkingDone(i, target, undo))
      modifies this
      ensures Valid() && files == old(files) && state == old(state)
      ensures config.process == if ok then Looping(i + 1, undo) else Reverting(undo, true)
      ensures rows == if ok then MarkDoneAt(old(rows), i, target) else old(rows)
    {
      ok := *;
      if ok && rows[i].Row? { rows := rows[i := rows[i].(status := Done, target := target)]; }
      Follow(if ok then Proceed else Refuse);
    }

    method MarkJournalFailed(i: nat, ghost undo: seq<Undo>)
      requires At(MarkingFailed(i, undo))
      modifies this
      ensures At(Reverting(undo, true)) && files == old(files) && state == old(state)
      ensures i < |old(rows)| && (rows == old(rows) || rows == MarkStatus(old(rows), i, Failed))
    {
      var ok := *;
      if ok && rows[i].Row? { rows := rows[i := rows[i].(status := Failed)]; }
      Follow(if ok then Proceed else Refuse);
    }

    method MarkJournalRolledBack(k: nat, failed: bool) returns (ok: bool)
      requires Valid() && k < |plan|
      requires (config.process.MarkingUndo? || config.process.MarkingRecovery?) && config.process.k == k &&
               config.process.failed == failed
      modifies this
      ensures Valid() && files == old(files) && state == old(state)
      ensures old(config.process.MarkingUndo?) ==>
                config.process == Reverting(old(config.process).undo, old(config.process).ok && ok && !failed)
      ensures old(config.process.MarkingRecovery?) ==>
                config.process == if ok && !failed then Recovering(k) else Stopped(RecoveryLocked)
      ensures rows == if ok then MarkUndo(old(rows), k, failed) else old(rows)
    {
      ok := *;
      if ok && rows[k].Row? { rows := rows[k := rows[k].(undo := if failed then UndoFailed else UndoDone)]; }
      Follow(if ok then Proceed else Refuse);
    }

    /******* Rollback in process *******/

    /** Undoes the newest action first and goes on past an undo that failed. */
    method RollbackAll(undo: seq<Undo>) returns (report: Report)
      requires At(Reverting(undo, true))
      modifies this
      ensures At(Stopped(report))
      ensures report.UndoneInProcess? || report.Unresolved?
      ensures report.UndoneInProcess? ==> state.RolledBack? && AllUndone(rows)
      ensures report.Unresolved? ==> state == old(state)
    {
      var confirmed, i := true, |undo|;
      while i > 0
        invariant 0 <= i <= |undo| && At(Reverting(undo[..i], confirmed)) && state == old(state)
      {
        i := i - 1;
        var u := undo[i];
        assert undo[..i + 1][..i] == undo[..i] && u in undo[..i + 1];
        var ok := UndoAction(u, undo[..i], confirmed);
        var persisted := MarkJournalRolledBack(u.index, !ok);
        confirmed := confirmed && ok && persisted;
      }
      assert undo[..0] == [];
      FollowEnd(confirmed);
      report := Unresolved;
      if confirmed { report := CompletePlanExecution(RolledBack); }
    }

    /** No undo is left. */
    ghost method FollowEnd(confirmed: bool)
      requires At(Reverting([], confirmed))
      modifies this`config, this`log
      ensures At(if confirmed then Finishing(RolledBack) else Stopped(Unresolved))
    {
      Follow(Proceed);
    }

    method UndoAction(u: Undo, ghost rest: seq<Undo>, ghost confirmed: bool) returns (ok: bool)
      requires At(Reverting(rest + [u], confirmed)) && u.index < |plan|
      modifies this
      ensures At(MarkingUndo(u.index, !ok, rest, confirmed)) && rows == old(rows) && state == old(state)
      ensures ok && plan[u.index].kind.Copy? ==> u.dst in old(files) && files == old(files) - {u.dst}
      ensures ok && !plan[u.index].kind.Copy? ==>
                Transferred(old(files), files, u.dst, plan[u.index].path, plan[u.index].digest, true)
      ensures !ok ==> OnlyLeftover(old(files), files, plan[u.index].path)
    {
      var a := plan[u.index];
      assert (rest + [u])[..|rest|] == rest;
      if a.kind.Copy? {
        ok := *;
        ok := ok && u.dst in files;
        if ok { files := files - {u.dst}; }
        Follow(if ok then Proceed else Refuse);
      } else {
        Follow(Proceed);
        ok := MoveFile(u.dst, a.path, a.digest,
            Job(Opening, u.dst, a.path, a.digest, true, Backward(u.index, rest, confirmed)));
      }
    }

    /** One transaction: the terminal state and the evidence it needs, or nothing. */
    method CompletePlanExecution(final: PlanState) returns (report: Report)
      requires At(Finishing(final)) && (final.Verified? || final.RolledBack?)
      modifies this
      ensures At(Stopped(report))
      ensures files == old(files) && rows == old(rows)
      ensures report.Success? ==> final.Verified? && state.Verified? && ProvesSuccess(plan, rows)
      ensures report.UndoneInProcess? ==> final.RolledBack? && state.RolledBack? && AllUndone(rows)
      ensures !report.Success? && !report.UndoneInProcess? ==> report.Unresolved? && state == old(state)
    {
      var committed := *;
      if committed && state.Executing? && (if final.Verified? then ProvesSuccess(plan, rows) else AllUndone(rows)) {
        state := final;
        report := if final.Verified? then Success else UndoneInProcess;
        Follow(Proceed);
      } else {
        report := Unresolved;
        Follow(Refuse);
      }
    }

    /******* Execution *******/

    method CompareAndSwapPlanState(from: PlanState, to: PlanState) returns (ok: bool)
      modifies this`state
      ensures ok ==> old(state) == from && state == to
      ensures ok && to.RolledBack? ==> AllUndone(rows)
      ensures ok && ((from.Approved? && to.StaleChecked?) || (from.StaleChecked? && to.Approved?)) ==> NoRows(rows)
      ensures !ok ==> state == old(state)
    {
      ok := *;
      ok := ok && state == from;
      if (from.Approved? && to.StaleChecked?) || (from.StaleChecked? && to.Approved?) {
        ok := ok && NoRows(rows);
      }
      if to.RolledBack? { ok := ok && AllUndone(rows); }
      if ok { state := to; }
    }

    method ValidatePlanScope() returns (ok: bool)
      ensures ok == InScope(plan)
    {
      for i := 0 to |plan|
        invariant InScope(plan[..i])
      {
        var a := plan[i];
        assert plan[..i + 1] == plan[..i] + [a];
        if a.kind.TouchesFiles() && (a.path == "" || a.filePath != a.path || a.digest.NoDigest?) {
          assert a in plan;
          return false;
        }
      }
      assert plan[..|plan|] == plan;
      return true;
    }

    /** `stamps` says of every action whether modification time, inode and device of its file are those
        of the plan. */
    method StaleCheckAll(stamps: seq<bool>) returns (stale: nat)
      requires |stamps| == |plan|
      ensures stale == 0 <==> Fresh(plan, files) && SameStamps(plan, stamps)
    {
      stale := 0;
      for i := 0 to |plan|
        invariant stale == 0 <==> Fresh(plan[..i], files) && SameStamps(plan[..i], stamps[..i])
      {
        var a := plan[i];
        assert plan[..i + 1] == plan[..i] + [a] && stamps[..i + 1] == stamps[..i] + [stamps[i]];
        if a.kind.TouchesFiles() {
          if !stamps[i] || !(a.path in files && Sha256(files[a.path]) == a.digest && |files[a.path]| == a.size) {
            assert a in plan[..i + 1] && plan[..i + 1][i] == a;
            stale := stale + 1;
          }
        }
      }
      assert plan[..|plan|] == plan && stamps[..|plan|] == stamps;
    }

    method PerformActions() returns (report: Report)
      requires At(Looping(0, []))
      modifies this
      ensures At(Stopped(report))
      ensures report.Success? || report.UndoneInProcess? || report.Unresolved?
      ensures report.Success? ==> state.Verified? && ProvesSuccess(plan, rows)
      ensures report.UndoneInProcess? ==> state.RolledBack? && AllUndone(rows)
      ensures report.Unresolved? ==> state == old(state)
    {
      var i, undo: seq<Undo> := 0, [];
      while i < |plan|
        invariant 0 <= i <= |plan| && At(Looping(i, undo)) && state == old(state)
      {
        var cancelled := *;
        if cancelled {
          FollowCancel(i, undo);
          report := RollbackAll(undo);
          return;
        }
        var ok;
        ok, undo := PerformAction(i, undo);
        if !ok {
          report := RollbackAll(undo);
          return;
        }
        i := i + 1;
      }
      FollowNext(i, undo);
      report := CompletePlanExecution(Verified);
    }

    /** One turn of the loop; the undo list grows by an action that has changed a file, even if that could
        not be journaled. */
    method PerformAction(i: nat, undo: seq<Undo>) returns (ok: bool, more: seq<Undo>)
      requires At(Looping(i, undo)) && i < |plan|
      modifies this
      ensures At(if ok then Looping(i + 1, more) else Reverting(more, true)) && state == old(state)
    {
      more := undo;
      if !plan[i].kind.TouchesFiles() {
        FollowNext(i, undo);
        return true, undo;
      }
      var done, target := ExecuteAction(i, undo);
      if !done {
        MarkJournalFailed(i, undo);
        return false, undo;
      }
      more := undo + [Undo(i, target)];
      ok := MarkJournalDone(i, target, more);
    }

    /** The loop passes an action that touches no file, or its end. */
    ghost method FollowNext(i: nat, undo: seq<Undo>)
      requires At(Looping(i, undo)) && i <= |plan| && (i < |plan| ==> !plan[i].kind.TouchesFiles())
      modifies this`config, this`log
      ensures At(if i < |plan| then Looping(i + 1, undo) else Finishing(Verified))
    {
      Follow(Proceed);
    }

    ghost method FollowCancel(i: nat, undo: seq<Undo>)
      requires At(Looping(i, undo)) && i < |plan|
      modifies this`config, this`log
      ensures At(Reverting(undo, true))
    {
      Follow(Cancel);
    }

    method Pipeline(stamps: seq<bool>) returns (report: Report)
      requires Valid() && config.process.Stopped? && |stamps| == |plan|
      modifies this
      ensures At(Stopped(report))
      ensures !old(state.Approved?) ==>
              report == Nothing && files == old(files) && rows == old(rows) && state == old(state)
      ensures report.Nothing? <==> !old(state.Approved?) || !InScope(plan)
    {
      var inScope := ValidatePlanScope();
      var stale := StaleCheckAll(stamps);
      Follow(Start(SameStamps(plan, stamps)));
      if !state.Approved? || !inScope { return Nothing; }
      if stale > 0 {
        var reset := CompareAndSwapPlanState(Approved, Draft);
        Follow(if reset then Proceed else Refuse);
        return if reset then BackToDraft else Unresolved;
      }
      report := Reserve();
    }

    /** From here on the plan holds the durable reservation or has given it back. */
    method Reserve() returns (report: Report)
      requires At(Reserving)
      modifies this
      ensures At(Stopped(report))
      ensures report.Success? || report.UndoneInProcess? || report.Unresolved? || report.ReadyToRetry?
    {
      var reserved := CompareAndSwapPlanState(Approved, StaleChecked);
      Follow(if reserved then Proceed else Refuse);
      if !reserved { return Unresolved; }
      var begun := *;
      if begun { rows := BeginJournal(plan, rows); }
      Follow(if begun then Proceed else Refuse);
      if begun { report := Launch(); } else { report := Release(); }
    }

    /** Gives the reservation back when the journal could not be begun. */
    method Release() returns (report: Report)
      requires At(Unreserving)
      modifies this
      ensures At(Stopped(report)) && files == old(files) && rows == old(rows)
      ensures report == (if state.Approved? && old(state) == StaleChecked then ReadyToRetry else Unresolved)
    {
      var released := CompareAndSwapPlanState(StaleChecked, Approved);
      Follow(if released then Proceed else Refuse);
      report := if released then ReadyToRetry else Unresolved;
    }

    method Launch() returns (report: Report)
      requires At(Launching)
      modifies this
      ensures At(Stopped(report))
      ensures report.Success? || report.UndoneInProcess? || report.Unresolved?
    {
      var launched := CompareAndSwapPlanState(StaleChecked, Executing);
      Follow(if launched then Proceed else Refuse);
      if !launched { return Unresolved; }
      report := PerformActions();
    }

    method Execute(stamps: seq<bool>) returns (report: Report)
      requires Valid() && config.process.Stopped? && |stamps| == |plan|
      modifies this
      ensures At(Stopped(report))
      ensures !old(state.Approved?) ==>
              report == Nothing && files == old(files) && rows == old(rows) && state == old(state)
      ensures report.Success? && SourcesApart(plan) ==>
                state.Verified? && ProvesSuccess(plan, rows) && CarriedOut(plan, rows, orig, files)
      ensures report.UndoneInProcess? && SourcesApart(plan) ==> state.RolledBack? && AllUndone(rows) && files == orig
      ensures SourcesApart(plan) ==> ContentKept(orig, files)
      ensures report.Nothing? <==> !old(state.Approved?) || !InScope(plan)
    {
      report := Pipeline(stamps);
      if SourcesApart(plan) { ExecutedTruth(plan, orig, log, config, report); }
    }

    /******* Recovery *******/

    method RollbackJournalEntry(k: nat) returns (ok: bool)
      requires At(Recovering(k + 1)) && k < |plan| && rows[k].Row? && !Settled(rows[k])
      modifies this
      ensures At(MarkingRecovery(k, !ok)) && rows == old(rows) && state == old(state)
      ensures ok && rows[k].kind.Copy? ==>
                var row := old(rows)[k];
                row.target in old(files) && Sha256(old(files)[row.target]) == row.digest &&
                    files == old(files) - {row.target}
      ensures ok && !rows[k].kind.Copy? ==>
                Transferred(old(files), files, rows[k].target, rows[k].source, rows[k].digest, true)
      ensures !ok ==> OnlyLeftover(old(files), files, rows[k].source)
    {
      var row := rows[k];
      if row.target == "" {
        Follow(Proceed);
        return false;
      }
      if row.kind.Relocates() {
        Follow(Proceed);
        ok := MoveFile(row.target, row.source, row.digest,
            Job(Opening, row.target, row.source, row.digest, true, Recovery(k)));
      } else {
        ok := RemoveRecordedCopy(k);
      }
    }

    /** Removes what the row of a copy points to, if it has the recorded content and size. */
    method RemoveRecordedCopy(k: nat) returns (ok: bool)
      requires At(Recovering(k + 1)) && k < |plan| && rows[k].Row? && !Settled(rows[k])
      requires rows[k].target != "" && !rows[k].kind.Relocates()
      modifies this
      ensures At(MarkingRecovery(k, !ok)) && rows == old(rows) && state == old(state)
      ensures ok ==>
                var row := old(rows)[k];
                row.kind.Copy? && row.target in old(files) && Sha256(old(files)[row.target]) == row.digest &&
                files == old(files) - {row.target}
      ensures !ok ==> files == old(files)
    {
      var row := rows[k];
      ok := *;
      ok := ok && row.kind.Copy? && row.target in files && Sha256(files[row.target]) == row.digest &&
            |files[row.target]| == row.size;
      if ok { files := files - {row.target}; }
      Follow(if ok then Proceed else Refuse);
    }

    method RecoverPlan() returns (report: Report)
      requires Valid() && config.process.Stopped?
      modifies this
      ensures At(Stopped(report))
      ensures report.RecoveredToDraft? ==> state.Draft?
      ensures report.RecoveryLocked? ==> Reserved(state)
      ensures report.Nothing? <==> !Reserved(old(state))
      ensures report.Nothing? || report.RecoveredRollback? || report.RecoveredToDraft? || report.RecoveryLocked?
      ensures Reserved(old(state)) && LeftOpen(old(rows)) ==>
              report.RecoveryLocked? && files == old(files)
    {
      Follow(StartRecovery);
      if !state.Executing? && !state.StaleChecked? { return Nothing; }
      if NoRows(rows) {
        var reset := CompareAndSwapPlanState(state, Draft);
        Follow(if reset then Proceed else Refuse);
        return if reset then RecoveredToDraft else RecoveryLocked;
      }
      if LeftOpen(rows) { return RecoveryLocked; }
      report := UndoJournal();
    }

    method UndoJournal() returns (report: Report)
      requires At(Recovering(|plan|)) && Reserved(state)
      modifies this
      ensures At(Stopped(report)) && !report.RecoveredToDraft?
      ensures report.RecoveryLocked? ==> Reserved(state)
      ensures report.RecoveredRollback? || report.RecoveryLocked?
    {
      var j := |rows|;
      while j > 0
        invariant 0 <= j <= |plan| && At(Recovering(j)) && Reserved(state)
      {
        j := j - 1;
        var ok := UndoEntry(j);
        if !ok { return RecoveryLocked; }
      }
      report := CloseRecovery();
    }

    /** Every row is settled: one conditional update ends the recovery. */
    method CloseRecovery() returns (report: Report)
      requires At(Recovering(0)) && Reserved(state)
      modifies this
      ensures At(Stopped(report)) && files == old(files) && rows == old(rows)
      ensures report.RecoveryLocked? ==> state == old(state)
      ensures report.RecoveredRollback? ==> state.RolledBack? && AllUndone(rows)
      ensures report.RecoveredRollback? || report.RecoveryLocked?
    {
      Follow(Proceed);
      var closed := CompareAndSwapPlanState(state, RolledBack);
      Follow(if closed then Proceed else Refuse);
      report := if closed then RecoveredRollback else RecoveryLocked;
    }

    method UndoEntry(k: nat) returns (ok: bool)
      requires At(Recovering(k + 1)) && k < |plan|
      modifies this
      ensures At(if ok then Recovering(k) else Stopped(RecoveryLocked)) && state == old(state)
    {
      if Settled(rows[k]) {
        Follow(Proceed);
        return true;
      }
      var undone := RollbackJournalEntry(k);
      var persisted := MarkJournalRolledBack(k, !undone);
      ok := undone && persisted;
    }

    method Recover() returns (report: Report)
      requires Valid() && config.process.Stopped?
      modifies this
      ensures At(Stopped(report))
      ensures SourcesApart(plan) ==> ContentKept(orig, files)
      ensures report.RecoveredRollback? && SourcesApart(plan) && NoTwinCopy(plan) ==> state.RolledBack? && files == orig
      ensures report.RecoveredToDraft? && SourcesApart(plan) ==> state.Draft? && NoRows(rows) && files == orig
      ensures report.RecoveryLocked? ==> Reserved(state)
      ensures report.Nothing? <==> !Reserved(old(state))
      ensures report.Nothing? || report.RecoveredRollback? || report.RecoveredToDraft? || report.RecoveryLocked?
      ensures Reserved(old(state)) && LeftOpen(old(rows)) ==>
              report.RecoveryLocked? && files == old(files)
    {
      report := RecoverPlan();
      if SourcesApart(plan) { RecoveredTruth(plan, orig, log, config, report); }
    }
  }
}
