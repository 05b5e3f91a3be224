/** What holds in every run of one plan, whatever fails and wherever the process dies:
    the terminal states tell the truth, a journaled plan never runs again, no content is lost. */
module ExecutionTheorems {
  import opened Files
  import opened ExecutionMachine
  import opened ExecutionRestore
  import opened ExecutionInvariant

  /******* Recovery without any promise about copies *******/

  ghost predicate CopySourcesHeld(plan: Plan, files: FileMap) {
    forall k :: 0 <= k < |plan| && plan[k].kind.Copy? ==>
      plan[k].path in files && Sha256(files[plan[k].path]) == plan[k].digest
  }

  ghost predicate RowFaithful(plan: Plan, a: Action, row: Row) {
    row.Row? ==>
      && a.kind.TouchesFiles() && row.kind == a.kind && row.source == a.path && row.digest == a.digest
      && (row.status.Done? ==> forall i :: 0 <= i < |plan| && plan[i].kind.Copy? ==> plan[i].path != row.target)
  }

  ghost predicate RowsFaithful(plan: Plan, rows: Journal)
    requires |rows| == |plan|
  {
    forall k :: 0 <= k < |plan| ==> RowFaithful(plan, plan[k], rows[k])
  }

  ghost predicate MovesBack(plan: Plan, orig: FileMap, c: Config, job: Job)
    requires IndexesInRange(plan, c) && Subject(job.owner) < |plan|
  {
    var k := Subject(job.owner);
    && job.owner.Recovery? && job.removes && plan[k].kind.Relocates() && job.to == plan[k].path
    && c.rows[k].Row? && c.rows[k].status.Done? && job.from == c.rows[k].target
    && (!job.stage.Opening? ==> job.from != job.to && ContentKept(orig, c.files - {job.to}))
    && (job.stage.Verifying? || job.stage.Removing? ==>
          job.from in c.files && job.to in c.files && c.files[job.to] == c.files[job.from])
  }

  /** A journaled plan in the hands of recovery. */
  ghost predicate Retired(plan: Plan, orig: FileMap, c: Config) {
    && IndexesInRange(plan, c)
    && !NoRows(c.rows) && Begun(plan, c.rows) && RowsFaithful(plan, c.rows)
    && CopySourcesHeld(plan, c.files) && ContentKept(orig, c.files)
    && (Reserved(c.state) || (c.state.RolledBack? && AllUndone(c.rows) && c.process.Stopped?))
    && match c.process
       case Stopped(report) => !report.Success? && !report.UndoneInProcess? &&
           (report.RecoveredRollback? ==> c.state.RolledBack?)
       case Recovering(j) => RecoveringTo(plan, c.rows, j)
       case MarkingRecovery(k, _) => RecoveringTo(plan, c.rows, k + 1)
       case Working(job) => RecoveringTo(plan, c.rows, Subject(job.owner) + 1) && MovesBack(plan, orig, c, job)
       case ClosingRecovery => true
       case _ => false
  }

  lemma KeptAnyway(orig: FileMap, files: FileMap, files': FileMap, gone: Path)
    requires ContentKept(orig, files - {gone})
    requires forall p :: p in files && p != gone ==> p in files' && files'[p] == files[p]
    ensures ContentKept(orig, files')
  {
    forall p | p in orig ensures exists q <- files' :: files'[q] == orig[p] {
      var q :| q in files - {gone} && (files - {gone})[q] == orig[p];
      assert files'[q] == orig[p];
    }
  }

  lemma KeptElsewhere(orig: FileMap, files: FileMap, gone: Path, other: Path)
    requires ContentKept(orig, files) && other in files && other != gone
    requires gone in files ==> files[gone] == files[other]
    ensures ContentKept(orig, files - {gone})
  {
    forall p | p in orig ensures exists q <- files - {gone} :: (files - {gone})[q] == orig[p] {
      var q :| q in files && files[q] == orig[p];
      var q' := if q == gone then other else q;
      assert (files - {gone})[q'] == orig[p];
    }
  }

  lemma RetiredCopyStep(plan: Plan, orig: FileMap, c: Config, choice: Choice)
    requires Retired(plan, orig, c) && c.process.Recovering?
    ensures Retired(plan, orig, StepRecover(plan, c, choice, c.process.j))
  {
    var j := c.process.j;
    if j > 0 && !Settled(c.rows[j - 1]) {
      var k := j - 1;
      var row := c.rows[k];
      var c' := StepRecover(plan, c, choice, j);
      assert Certain(row) && RowFaithful(plan, plan[k], row);
      if row.target != "" && row.kind.Copy? && c'.files != c.files {
        assert c'.files == c.files - {row.target};
        KeptElsewhere(orig, c.files, row.target, plan[k].path);
      }
    }
  }

  lemma RetiredJobStep(plan: Plan, orig: FileMap, c: Config, choice: Choice, job: Job)
    requires Retired(plan, orig, c) && JobOf(c, job) && SourcesApart(plan)
    ensures Retired(plan, orig, StepJob(plan, c, choice, job))
  {
    var k := Subject(job.owner);
    var c' := StepJob(plan, c, choice, job);
    assert RowFaithful(plan, plan[k], c.rows[k]);
    match job.stage
    case Opening =>
      if job.from in c.files && job.to !in c.files {
        assert c.files - {job.to} == c.files;
        if choice.Create? {
          var laid := c.files[job.to := choice.junk];
          assert laid - {job.to} == c.files;
          KeptAnyway(orig, c.files, laid, job.to);
        }
      }
    case Filling =>
      if choice.Proceed? && job.from in c.files {
        var filled := c.files[job.to := c.files[job.from]];
        assert filled - {job.to} == c.files - {job.to};
        KeptAnyway(orig, c.files, filled, job.to);
      }
    case Verifying =>
    case Removing =>
      if choice.Proceed? { KeptElsewhere(orig, c.files, job.from, job.to); }
  }

  /** Before recovery touches a copy, its progress explains the files; from then on this much does. */
  lemma RecoveryRetires(plan: Plan, orig: FileMap, c: Config)
    requires Inv(plan, orig, c) && SourcesApart(plan) && c.process.Recovering? && c.process.j > 0
    requires !Settled(c.rows[c.process.j - 1])
    ensures Retired(plan, orig, c)
  {
    InvKeepsContent(plan, orig, c);
    assert c.rows[c.process.j - 1] in c.rows;
    forall k | 0 <= k < |plan| ensures RowFaithful(plan, plan[k], c.rows[k]) {
      var w := c.progress[k];
      assert RowTells(plan[k], c.rows[k], w);
      forall i | 0 <= i < |plan| && plan[i].kind.Copy? && c.rows[k].Row? && c.rows[k].status.Done?
        ensures plan[i].path != c.rows[k].target
      {
        assert Ordered(plan[i], i, c.progress[i], k, w);
      }
    }
    forall k | 0 <= k < |plan| && plan[k].kind.Copy?
      ensures plan[k].path in c.files && Sha256(c.files[plan[k].path]) == plan[k].digest
    {
      SourceFree(plan, orig, c.progress, c.files, k);
      CopyKeepsSource(plan, orig, c.progress, k);
      assert SameAt(c.files, orig, plan[k].path);
      assert plan[k] in plan;
    }
  }

  /** What a vacated path held is at the destination of the action that vacated it. */
  lemma VacatedContentKept(plan: Plan, orig: FileMap, c: Config, p: Path)
    requires Inv(plan, orig, c) && SourcesApart(plan)
    requires p in orig && p in Vacated(plan, c.progress)
    ensures exists q <- c.files :: c.files[q] == orig[p]
  {
    var ws := c.progress;
    var k :| 0 <= k < |ws| && Vacates(plan[k], ws[k]) && plan[k].path == p;
    assert HeldAt(plan[k], ws[k], c.files);
    assert RowTells(plan[k], c.rows[k], ws[k]);
    assert c.rows[k] in c.rows && plan[k] in plan;
    assert c.files[ws[k].dst] == orig[p];
  }

  lemma InvKeepsContent(plan: Plan, orig: FileMap, c: Config)
    requires Inv(plan, orig, c) && SourcesApart(plan)
    ensures ContentKept(orig, c.files)
  {
    forall p | p in orig ensures exists q <- c.files :: c.files[q] == orig[p] {
      if p in Occupied(c.progress) {
        var k :| 0 <= k < |plan| && Occupies(c.progress[k]) && c.progress[k].dst == p;
        DestinationVacated(plan, orig, c.progress, k);
      }
      if p in Vacated(plan, c.progress) {
        VacatedContentKept(plan, orig, c, p);
      } else {
        assert SameAt(c.files, orig, p);
        assert c.files[p] == orig[p];
      }
    }
  }

  lemma StepFaithful(plan: Plan, orig: FileMap, c: Config, choice: Choice)
    requires Inv(plan, orig, c) || Retired(plan, orig, c)
    requires SourcesApart(plan)
    ensures var c' := Step(plan, c, choice); Inv(plan, orig, c') || Retired(plan, orig, c')
  {
    if Inv(plan, orig, c) && (choice.Crash? || !c.process.Recovering?) {
      StepInv(plan, orig, c, choice);
    } else if Inv(plan, orig, c) && (c.process.j == 0 || Settled(c.rows[c.process.j - 1])) {
      RecoverOtherInv(plan, orig, c, choice);
    } else {
      if !Retired(plan, orig, c) { RecoveryRetires(plan, orig, c); }
      RetiredStep(plan, orig, c, choice);
    }
  }

  lemma RetiredStep(plan: Plan, orig: FileMap, c: Config, choice: Choice)
    requires Retired(plan, orig, c) && SourcesApart(plan)
    ensures Retired(plan, orig, Step(plan, c, choice))
  {
    if choice.Crash? {
    } else if c.process.Recovering? {
      RetiredCopyStep(plan, orig, c, choice);
    } else if c.process.Working? {
      RetiredJobStep(plan, orig, c, choice, c.process.job);
    } else {
      RetiredCloseStep(plan, orig, c, choice);
    }
  }

  lemma RetiredCloseStep(plan: Plan, orig: FileMap, c: Config, choice: Choice)
    requires Retired(plan, orig, c) && !choice.Crash? && !c.process.Recovering? && !c.process.Working?
    ensures Retired(plan, orig, Step(plan, c, choice))
  {
    if c.process.MarkingRecovery? {
      var k := c.process.k;
      var rows := MarkUndo(c.rows, k, c.process.failed);
      var j :| 0 <= j < |c.rows| && c.rows[j].Row?;
      assert rows[j] in rows;
      assert RowsFaithful(plan, rows) by {
        forall i | 0 <= i < |plan| ensures RowFaithful(plan, plan[i], rows[i]) {
          assert RowFaithful(plan, plan[i], c.rows[i]);
        }
      }
    }
  }

  lemma {:induction false} RunFaithful(plan: Plan, orig: FileMap, c: Config, choices: seq<Choice>)
    requires Inv(plan, orig, c) || Retired(plan, orig, c)
    requires SourcesApart(plan)
    ensures var c' := Run(plan, c, choices); Inv(plan, orig, c') || Retired(plan, orig, c')
    decreases |choices|
  {
    if choices != [] {
      StepFaithful(plan, orig, c, choices[0]);
      RunFaithful(plan, orig, Step(plan, c, choices[0]), choices[1..]);
    }
  }

  /******* The terminal states tell the truth *******/

  lemma RunFromApproval(plan: Plan, orig: FileMap, choices: seq<Choice>)
    requires SourcesApart(plan)
    ensures var c := Run(plan, Initial(plan, orig), choices);
      (Inv(plan, orig, c) || Retired(plan, orig, c)) && (NoTwinCopy(plan) ==> Inv(plan, orig, c))
  {
    InitialInv(plan, orig);
    RunFaithful(plan, orig, Initial(plan, orig), choices);
    if NoTwinCopy(plan) { RunInv(plan, orig, Initial(plan, orig), choices); }
  }

  /** No content the plan started from is ever lost, not even halfway through a move. */
  lemma NoContentLost(plan: Plan, orig: FileMap, choices: seq<Choice>)
    requires SourcesApart(plan)
    ensures ContentKept(orig, Run(plan, Initial(plan, orig), choices).files)
  {
    var c := Run(plan, Initial(plan, orig), choices);
    RunFromApproval(plan, orig, choices);
    if Inv(plan, orig, c) { InvKeepsContent(plan, orig, c); }
  }

  predicate LandedAt(plan: Plan, rows: Journal, k: int, p: Path)
    requires |rows| == |plan| && ProvesSuccess(plan, rows)
  {
    0 <= k < |plan| && plan[k].kind.TouchesFiles() && ProvesAction(plan[k], rows[k]) && rows[k].target == p
  }

  predicate LeftFrom(plan: Plan, k: int, p: Path) {
    0 <= k < |plan| && plan[k].kind.Relocates() && plan[k].path == p
  }

  /** The files are what the journal says the plan has done to the original ones: each action's
      file is, alone, at its recorded target, relocated files are gone from where they were, and
      nothing else changed. */
  ghost predicate CarriedOut(plan: Plan, rows: Journal, orig: FileMap, files: FileMap)
    requires |rows| == |plan| && ProvesSuccess(plan, rows)
  {
    && (forall i, k, p :: LandedAt(plan, rows, i, p) && LandedAt(plan, rows, k, p) ==> i == k)
    && (forall k, p :: LandedAt(plan, rows, k, p) ==>
          && plan[k].path in orig && p in files && files[p] == orig[plan[k].path]
          && (plan[k].kind.PicksQuarantinePath() || p == plan[k].target))
    && (forall p :: (exists k :: LandedAt(plan, rows, k, p)) ||
          (if exists k :: LeftFrom(plan, k, p) then p !in files else SameAt(files, orig, p)))
  }

  lemma VerifiedTellsTruth(plan: Plan, orig: FileMap, choices: seq<Choice>)
    requires SourcesApart(plan)
    ensures var c := Run(plan, Initial(plan, orig), choices);
      c.state.Verified? ==> ProvesSuccess(plan, c.rows) && CarriedOut(plan, c.rows, orig, c.files)
  {
    var c := Run(plan, Initial(plan, orig), choices);
    RunFromApproval(plan, orig, choices);
    if c.state.Verified? {
      forall k, p | LandedAt(plan, c.rows, k, p)
        ensures c.progress[k] == Applied(p) && plan[k].path in orig && p in c.files
        ensures c.files[p] == orig[plan[k].path] && (plan[k].kind.PicksQuarantinePath() || p == plan[k].target)
      {
        LandedContent(plan, orig, c, k);
      }
      forall p ensures (exists k :: LandedAt(plan, c.rows, k, p)) ||
        (if exists k :: LeftFrom(plan, k, p) then p !in c.files else SameAt(c.files, orig, p))
      {
        RestOfTheFiles(plan, orig, c, p);
      }
    }
  }

  lemma LandedContent(plan: Plan, orig: FileMap, c: Config, k: nat)
    requires Inv(plan, orig, c) && c.state.Verified? && k < |plan| && plan[k].kind.TouchesFiles()
    ensures c.rows[k].Row? && c.progress[k] == Applied(c.rows[k].target) && plan[k].path in orig
    ensures c.rows[k].target in c.files && c.files[c.rows[k].target] == orig[plan[k].path]
    ensures plan[k].kind.PicksQuarantinePath() || c.rows[k].target == plan[k].target
  {
    assert ProvesAction(plan[k], c.rows[k]);
    assert RowTells(plan[k], c.rows[k], c.progress[k]);
    assert Single(plan[k], c.progress[k], orig, Sources(plan));
    assert HeldAt(plan[k], c.progress[k], c.files);
    assert c.rows[k] in c.rows && plan[k] in plan;
  }

  lemma RestOfTheFiles(plan: Plan, orig: FileMap, c: Config, p: Path)
    requires Inv(plan, orig, c) && c.state.Verified?
    ensures (exists k :: LandedAt(plan, c.rows, k, p)) ||
      (if exists k :: LeftFrom(plan, k, p) then p !in c.files else SameAt(c.files, orig, p))
  {
    var ws := c.progress;
    if p in Occupied(ws) {
      var k :| 0 <= k < |ws| && Occupies(ws[k]) && ws[k].dst == p;
      assert RowTells(plan[k], c.rows[k], ws[k]) && ProvesAction(plan[k], c.rows[k]);
      assert LandedAt(plan, c.rows, k, p);
    } else if k :| LeftFrom(plan, k, p) {
      assert ws[k].Applied?;
    } else {
      assert p !in Vacated(plan, ws) by {
        if p in Vacated(plan, ws) {
          var k :| 0 <= k < |ws| && Vacates(plan[k], ws[k]) && plan[k].path == p;
          assert RowTells(plan[k], c.rows[k], ws[k]);
          assert LeftFrom(plan, k, p);
        }
      }
    }
  }

  lemma AllUndoneRestored(plan: Plan, orig: FileMap, c: Config)
    requires Inv(plan, orig, c) && AllUndone(c.rows)
    ensures c.files == orig
  {
    forall k | 0 <= k < |plan| ensures c.progress[k].Idle? || c.progress[k].Undone? {
      assert Settled(c.rows[k]) && RowTells(plan[k], c.rows[k], c.progress[k]);
    }
    NothingStarted(plan, orig, c.progress, c.files);
  }

  /** A plan that stops after its own rollback has restored every file. */
  lemma RollbackRestores(plan: Plan, orig: FileMap, choices: seq<Choice>)
    requires SourcesApart(plan)
    ensures var c := Run(plan, Initial(plan, orig), choices);
      c.process == Stopped(UndoneInProcess) ==> c.state.RolledBack? && AllUndone(c.rows) && c.files == orig
  {
    var c := Run(plan, Initial(plan, orig), choices);
    RunFromApproval(plan, orig, choices);
    if c.process == Stopped(UndoneInProcess) { AllUndoneRestored(plan, orig, c); }
  }

  /** A plan in DRAFT or APPROVED has no journal, and none of its files was written. */
  lemma UnjournaledMeansUntouched(plan: Plan, orig: FileMap, choices: seq<Choice>)
    requires SourcesApart(plan)
    ensures var c := Run(plan, Initial(plan, orig), choices);
      c.state.Draft? || c.state.Approved? ==> NoRows(c.rows) && c.files == orig
  {
    var c := Run(plan, Initial(plan, orig), choices);
    RunFromApproval(plan, orig, choices);
    if c.state.Draft? || c.state.Approved? {
      assert AllUndone(c.rows) by {
        forall k | 0 <= k < |plan| ensures Settled(c.rows[k]) { assert c.rows[k] in c.rows; }
      }
      AllUndoneRestored(plan, orig, c);
    }
  }

  /** Without a twin copy each durable state and each report of Recover means what it says. */
  lemma RecoveryTellsTruth(plan: Plan, orig: FileMap, choices: seq<Choice>)
    requires SourcesApart(plan) && NoTwinCopy(plan)
    ensures var c := Run(plan, Initial(plan, orig), choices);
      && (c.state.RolledBack? ==> AllUndone(c.rows) && c.files == orig)
      && (c.process == Stopped(RecoveredRollback) ==> c.state.RolledBack? && c.files == orig)
      && (c.process == Stopped(RecoveredToDraft) ==> c.state.Draft? && NoRows(c.rows) && c.files == orig)
      && (c.process == Stopped(RecoveryLocked) ==> Reserved(c.state))
  {
    var c := Run(plan, Initial(plan, orig), choices);
    RunFromApproval(plan, orig, choices);
    UnjournaledMeansUntouched(plan, orig, choices);
    if c.state.RolledBack? { AllUndoneRestored(plan, orig, c); }
  }
}
