/** Restoring one quarantined item: validation, the journaled move back, and recovery after a
    crash. `history` keeps every state a crash could have left behind. */
module RestoreExecutor {
  import opened Files
  import opened Collections
  import opened Lifecycle

  datatype Evidence = Evidence(quarantine: Path, destination: Path, digest: Digest, size: nat)

  datatype Snapshot = Snapshot(files: FileMap, plan: RestoreState, item: ItemStatus, row: Option<RestoreRow>)

  predicate Matches(files: FileMap, p: Path, e: Evidence) {
    p in files && Sha256(files[p]) == e.digest && |files[p]| == e.size
  }

  /** The item's content is whole at its quarantine path or at its destination. */
  predicate Kept(files: FileMap, e: Evidence) {
    Matches(files, e.quarantine, e) || Matches(files, e.destination, e)
  }

  predicate CanRestore(status: ItemStatus) {
    status.Quarantined? || status.OnHold? || status.PurgeEligible?
  }

  ghost predicate Elsewhere(files: FileMap, start: FileMap, e: Evidence) {
    forall p :: p == e.quarantine || p == e.destination || SameAt(files, start, p)
  }

  lemma ElsewhereStays(files: FileMap, files': FileMap, start: FileMap, e: Evidence, changed: Path)
    requires Elsewhere(files, start, e) && (changed == e.quarantine || changed == e.destination)
    requires files - {changed} == files' - {changed}
    ensures Elsewhere(files', start, e)
  {
    forall p | p != e.quarantine && p != e.destination ensures SameAt(files', start, p) {
      assert SameAt(files, start, p);
      assert p in files - {changed} <==> p in files' - {changed};
      if p in files { assert (files - {changed})[p] == (files' - {changed})[p]; }
    }
  }

  /** What a restore that has not ended may have done: only its two paths differ, a destination that
      was there before is as it was, and a terminal journal row tells where the content is. */
  ghost predicate Sound(start: FileMap, s: Snapshot, e: Evidence) {
    && Kept(s.files, e)
    && Elsewhere(s.files, start, e)
    && (e.destination in start ==> SameAt(s.files, start, e.destination))
    && (s.row == Some(RestoreRolledBack) ==>
        Matches(s.files, e.quarantine, e) && e.destination !in s.files && s.plan.RestoreUndone?)
    && (s.row == Some(RestoreClosed) ==>
          Matches(s.files, e.destination, e) && e.quarantine !in s.files && s.plan.RestoreDone? && s.item.Restored?)
  }

  class Executor {
    const evidence: Evidence
    /** What the restore plan has recorded of the item, and whether both paths lie below their roots. */
    const planned: Evidence
    const inScope: bool
    ghost const start: FileMap
    var files: FileMap
    var plan: RestoreState
    var item: ItemStatus
    var row: Option<RestoreRow>
    ghost var history: seq<Snapshot>

    ghost predicate Valid()
      reads this
    {
      && Sound(start, Snapshot(files, plan, item, row), evidence)
      && (forall s <- history :: Sound(start, s, evidence))
      && evidence.quarantine != evidence.destination
      && (row == Some(RestorePending) ==> plan.RestoreApproved? && CanRestore(item))
    }

    constructor (evidence: Evidence, planned: Evidence, inScope: bool, files: FileMap, plan: RestoreState,
          item: ItemStatus)
      requires evidence.quarantine != evidence.destination && Matches(files, evidence.quarantine, evidence)
      ensures Valid() && row == None && history == [] && start == files && this.files == files
      ensures this.evidence == evidence && this.plan == plan && this.item == item
      ensures this.planned == planned && this.inScope == inScope
    {
      this.planned, this.inScope := planned, inScope;
      this.evidence, this.files, this.plan, this.item, this.row := evidence, files, plan, item, None;
      start := files;
      history := [];
    }

    /** Records the state a crash right here would leave. */
    ghost method Note()
      requires Valid()
      modifies this`history
      ensures Valid() && history == old(history) + [Snapshot(files, plan, item, row)]
    {
      history := history + [Snapshot(files, plan, item, row)];
    }

    method ValidateRestore() returns (ok: bool)
      ensures ok == (plan.RestoreApproved? && CanRestore(item) && planned == evidence && inScope &&
                     evidence.destination !in files && Matches(files, evidence.quarantine, evidence))
    {
      if !plan.RestoreApproved? || !CanRestore(item) { return false; }
      if planned != evidence || !inScope { return false; }
      if evidence.destination in files { return false; }
      return evidence.quarantine in files && Sha256(files[evidence.quarantine]) == evidence.digest &&
             |files[evidence.quarantine]| == evidence.size;
    }

    /** Copy, verify, remove: at every write the content is whole at one end. */
    method MoveFile() returns (ok: bool)
      requires Valid() && row == Some(RestorePending) && Matches(files, evidence.quarantine, evidence) &&
               evidence.destination !in start
      modifies this`files, this`history
      ensures Valid() && old(history) <= history
      ensures ok ==> Matches(files, evidence.destination, evidence) && evidence.quarantine !in files
      ensures !ok ==> Matches(files, evidence.quarantine, evidence)
    {
      var src, dst := evidence.quarantine, evidence.destination;
      var created, junk: Bytes := *, *;
      if !created || dst in files { return false; }
      ghost var before := files;
      files := files[dst := junk];
      assert before - {dst} == files - {dst};
      ElsewhereStays(before, files, start, evidence, dst);
      Note();
      var copied := *;
      if copied {
        before := files;
        files := files[dst := files[src]];
        assert before - {dst} == files - {dst};
        ElsewhereStays(before, files, start, evidence, dst);
        Note();
        if Sha256(files[dst]) == evidence.digest {
          var removed := *;
          if removed {
            before := files;
            files := files - {src};
            assert before - {src} == files - {src};
            ElsewhereStays(before, files, start, evidence, src);
            Note();
            return true;
          }
        }
      }
      var cleaned := *;
      if cleaned {
        before := files;
        files := files - {dst};
        assert before - {dst} == files - {dst};
        ElsewhereStays(before, files, start, evidence, dst);
        Note();
      }
      return false;
    }

    /** One transaction over journal, plan and item; it consumes exactly one pending row. */
    method MarkRestoreCompleted() returns (ok: bool)
      requires Valid() && (row == Some(RestorePending) ==>
               Matches(files, evidence.destination, evidence) && evidence.quarantine !in files)
      modifies this`row, this`plan, this`item, this`history
      ensures Valid() && old(history) <= history
      ensures ok ==> old(row) == Some(RestorePending) && row == Some(RestoreClosed)
      ensures ok ==> plan.RestoreDone? && item.Restored?
      ensures !ok ==> row == old(row) && plan == old(plan) && item == old(item)
    {
      ok := *;
      ok := ok && row == Some(RestorePending) && plan.RestoreApproved? && CanRestore(item);
      if ok {
        row, plan, item := Some(RestoreClosed), RestoreDone, Restored;
        Note();
      }
    }

    method MarkRestoreRolledBack() returns (ok: bool)
      requires Valid() && (row == Some(RestorePending) ==>
               Matches(files, evidence.quarantine, evidence) && evidence.destination !in files)
      modifies this`row, this`plan, this`history
      ensures Valid() && old(history) <= history
      ensures ok ==> old(row) == Some(RestorePending) && row == Some(RestoreRolledBack) && plan.RestoreUndone?
      ensures !ok ==> row == old(row) && plan == old(plan)
    {
      ok := *;
      ok := ok && row == Some(RestorePending) && plan.RestoreApproved? && CanRestore(item);
      if ok {
        row, plan := Some(RestoreRolledBack), RestoreUndone;
        Note();
      }
    }

    /** Only a proven unchanged state is rolled back; every other one is left for a human. */
    method ReconcileRestore() returns (ok: bool)
      requires Valid() && row == Some(RestorePending)
      modifies this`row, this`plan, this`history
      ensures Valid() && old(history) <= history && files == old(files)
      ensures ok ==> row == Some(RestoreRolledBack)
      ensures ok ==> Matches(files, evidence.quarantine, evidence) && evidence.destination !in files
      ensures !ok ==> row == Some(RestorePending) && plan == old(plan)
    {
      var readable := *;
      if !readable { return false; }
      var intact := evidence.quarantine in files && Sha256(files[evidence.quarantine]) == evidence.digest &&
                    |files[evidence.quarantine]| == evidence.size;
      if !intact || evidence.destination in files { return false; }
      ok := MarkRestoreRolledBack();
    }

    method ExecuteRestore() returns (ok: bool)
      requires Valid() && row == None && (forall p :: SameAt(files, start, p))
      modifies this
      ensures Valid() && old(history) <= history
      ensures ok <==> row == Some(RestoreClosed)
      ensures row == None ==> files == old(files) && plan == old(plan) && item == old(item)
      ensures evidence.destination in old(files) ==> files == old(files) && row == None
    {
      ok := ValidateRestore();
      if !ok { return; }
      var begun := *;
      if !begun { return false; }
      row := Some(RestorePending);
      Note();
      assert SameAt(files, start, evidence.destination);
      ok := MoveFile();
      if !ok {
        var undone := ReconcileRestore();
        return false;
      }
      ok := MarkRestoreCompleted();
    }
  }
}
