/** Source execution, restore and purge over one project: a process lock that dies with its process,
    a durable gate that does not, and the life of a quarantined item between them. */
module Lifecycle {
  import opened Collections
  import opened ExecutionMachine

  type Id = string

  datatype ItemStatus = Quarantined | OnHold | Restored | PurgeEligible | Purged
  datatype Item = Item(status: ItemStatus, held: bool, retainUntil: nat)

  datatype Source = Source(state: PlanState, journaled: bool)

  datatype RestoreState = RestoreDraft | RestoreApproved | RestoreDone | RestoreUndone
  datatype Restore = Restore(item: Id, state: RestoreState)
  datatype RestoreRow = RestorePending | RestoreClosed | RestoreRolledBack

  datatype PurgeState = PurgeDraft | PurgeApproved | PurgeStaged | PurgeCommitted | PurgeUndone
  datatype Purge = Purge(item: Id, state: PurgeState, dryRun: bool)
  datatype PurgeRow = PurgePending | StagedRow | CommitPending | CommittedRow

  datatype Db = Db(sources: map<Id, Source>, items: map<Id, Item>,
                   restores: map<Id, Restore>, restoreRows: map<Id, RestoreRow>,
                   purges: map<Id, Purge>, purgeRows: map<Id, PurgeRow>)

  /** What the holder of the process lock is doing. */
  datatype Work =
    | Nobody
    | Batch(todo: seq<Id>)
    | Running(plan: Id, todo: seq<Id>)
    | Undoing(plan: Id)
    | Restoring(plan: Id, begun: bool)
    | Reconciling
    | Purging(plan: Id, begun: bool)

  datatype State = State(db: Db, work: Work, now: nat)

  datatype Choice =
    | Crash
    | Tick
    // without the lock
    | PlanSource(id: Id)
    | ApproveSource(id: Id)
    | PlanRestore(id: Id, item: Id)
    | ApproveRestore(id: Id)
    | PlanPurge(id: Id, item: Id)
    | ApprovePurge(id: Id)
    | VerifyPurge(id: Id)
    // taking it
    | StartBatch(plans: seq<Id>)
    | StartRecovery(id: Id)
    | StartRestore(id: Id)
    | StartReconcile
    | StartPurge(id: Id)
    // under it
    | Pick
    | SetSource(to: PlanState)
    | WriteJournal
    | VerifySource(registered: map<Id, Item>)
    | Leave
    | Begin
    | MarkDone
    | MarkUndone(id: Id)
    | Advance

  /******* Unresolved work *******/

  predicate Reserved(s: Source) {
    s.state.StaleChecked? || s.state.Executing? || (s.state.Approved? && s.journaled)
  }

  predicate OpenPurge(r: PurgeRow) { !r.CommittedRow? }

  datatype Claim = SourceClaim(id: Id) | RestoreClaim(id: Id) | PurgeClaim(id: Id)

  function Unresolved(db: Db): set<Claim> {
    (set id | id in db.sources && Reserved(db.sources[id]) :: SourceClaim(id)) +
    (set id | id in db.restoreRows && db.restoreRows[id].RestorePending? :: RestoreClaim(id)) +
    (set id | id in db.purgeRows && OpenPurge(db.purgeRows[id]) :: PurgeClaim(id))
  }

  /** requireNoRecovery. */
  predicate GateOpen(db: Db) {
    && (forall id <- db.sources :: !Reserved(db.sources[id]))
    && (forall id <- db.restoreRows :: !db.restoreRows[id].RestorePending?)
    && (forall id <- db.purgeRows :: !OpenPurge(db.purgeRows[id]))
  }

  /******* Transactions *******/

  predicate Restorable(i: Item) { i.status.Quarantined? || i.status.OnHold? || i.status.PurgeEligible? }

  predicate Purgeable(i: Item, now: nat) {
    (i.status.Quarantined? || i.status.PurgeEligible?) && !i.held && i.retainUntil <= now
  }

  predicate Active(p: Purge) { p.state.PurgeDraft? || p.state.PurgeApproved? || p.state.PurgeStaged? }

  function SavePurgePlan(db: Db, id: Id, item: Id, now: nat): Db {
    if id in db.purges || item !in db.items || !Purgeable(db.items[item], now) ||
       exists p <- db.purges :: db.purges[p].item == item && Active(db.purges[p]) then db
    else db.(items := db.items[item := db.items[item].(status := PurgeEligible)],
             purges := db.purges[id := Purge(item, PurgeDraft, false)])
  }

  predicate CanBeginRestore(db: Db, id: Id) {
    && id in db.restores && db.restores[id].state.RestoreApproved? && id !in db.restoreRows
    && db.restores[id].item in db.items && Restorable(db.items[db.restores[id].item])
    && (forall r <- db.restoreRows :: db.restoreRows[r].RestorePending? ==>
          r in db.restores ==> db.restores[r].item != db.restores[id].item)
    && (forall p <- db.purges :: db.purges[p].item == db.restores[id].item ==>
          !db.purges[p].state.PurgeApproved? && !db.purges[p].state.PurgeStaged?)
  }

  /** The pending row, its approved plan and its restorable item, all three. */
  predicate Reservation(db: Db, id: Id) {
    && id in db.restoreRows && db.restoreRows[id].RestorePending?
    && id in db.restores && db.restores[id].state.RestoreApproved?
    && db.restores[id].item in db.items && Restorable(db.items[db.restores[id].item])
  }

  function MarkRestoreCompleted(db: Db, id: Id): Db {
    if !Reservation(db, id) then db
    else
      var item := db.restores[id].item;
      db.(restoreRows := db.restoreRows[id := RestoreClosed],
          restores := db.restores[id := Restore(item, RestoreDone)],
          items := db.items[item := db.items[item].(status := Restored)],
          purges := map p | p in db.purges ::
            if db.purges[p].item == item && db.purges[p].state.PurgeDraft?
            then db.purges[p].(state := PurgeUndone)
            else db.purges[p])
  }

  function MarkRestoreRolledBack(db: Db, id: Id): Db {
    if !Reservation(db, id) then db
    else db.(restoreRows := db.restoreRows[id := RestoreRolledBack],
             restores := db.restores[id := db.restores[id].(state := RestoreUndone)])
  }

  predicate CanBeginPurge(db: Db, id: Id, now: nat) {
    && id in db.purges && db.purges[id].state.PurgeApproved? && db.purges[id].dryRun && id !in db.purgeRows
    && db.purges[id].item in db.items
    && var i := db.items[db.purges[id].item]; i.status.PurgeEligible? && !i.held && i.retainUntil <= now
  }

  function MarkPurgeCommitted(db: Db, id: Id): Db
    requires id in db.purges
  {
    var item := db.purges[id].item;
    db.(purgeRows := if id in db.purgeRows then db.purgeRows[id := CommittedRow] else db.purgeRows,
        purges := db.purges[id := db.purges[id].(state := PurgeCommitted)],
        items := if item in db.items then db.items[item := db.items[item].(status := Purged)] else db.items)
  }

  /******* Steps *******/

  function Step(s: State, c: Choice): State {
    if Unlocked(c) then StepUnlocked(s, c)
    else if s.work.Nobody? then StepStart(s, c)
    else StepWork(s, c)
  }

  predicate Unlocked(c: Choice) {
    c.Crash? || c.Tick? || c.PlanSource? || c.ApproveSource? || c.PlanRestore? || c.ApproveRestore? ||
    c.PlanPurge? || c.ApprovePurge? || c.VerifyPurge?
  }

  function StepUnlocked(s: State, c: Choice): State
    requires Unlocked(c)
  {
    match c
    case Crash => s.(work := Nobody)
    case Tick => s.(now := s.now + 1)
    case PlanSource(id) =>
      if id in s.db.sources then s else s.(db := s.db.(sources := s.db.sources[id := Source(Draft, false)]))
    case ApproveSource(id) =>
      s.(db := if id in s.db.sources && s.db.sources[id].state.Draft?
               then s.db.(sources := s.db.sources[id := s.db.sources[id].(state := Approved)]) else s.db)
    case PlanRestore(id, item) =>
      s.(db := if id !in s.db.restores && item in s.db.items && Restorable(s.db.items[item])
               then s.db.(restores := s.db.restores[id := Restore(item, RestoreDraft)]) else s.db)
    case ApproveRestore(id) =>
      s.(db := if id in s.db.restores && s.db.restores[id].state.RestoreDraft?
               then s.db.(restores := s.db.restores[id := s.db.restores[id].(state := RestoreApproved)]) else s.db)
    case PlanPurge(id, item) => s.(db := SavePurgePlan(s.db, id, item, s.now))
    case ApprovePurge(id) =>
      s.(db := if id in s.db.purges && s.db.purges[id].state.PurgeDraft?
               then s.db.(purges := s.db.purges[id := s.db.purges[id].(state := PurgeApproved)]) else s.db)
    case VerifyPurge(id) =>
      s.(db := if id in s.db.purges && s.db.purges[id].state.PurgeApproved?
               then s.db.(purges := s.db.purges[id := s.db.purges[id].(dryRun := true)]) else s.db)
  }

  function StepStart(s: State, c: Choice): State {
    match c
    case StartBatch(plans) => if GateOpen(s.db) then s.(work := Batch(plans)) else s
    case StartRestore(id) => if GateOpen(s.db) then s.(work := Restoring(id, false)) else s
    case StartPurge(id) => if GateOpen(s.db) then s.(work := Purging(id, false)) else s
    case StartRecovery(id) => s.(work := Undoing(id))
    case StartReconcile => s.(work := Reconciling)
    case _ => s
  }

  function StepWork(s: State, c: Choice): State
    requires !s.work.Nobody?
  {
    match s.work
    case Batch(todo) =>
      if c.Leave? || todo == [] then s.(work := Nobody)
      else if !c.Pick? then s
      else if todo[0] in s.db.sources && s.db.sources[todo[0]].state.Approved? then
        s.(work := Running(todo[0], todo[1..]))
      else s.(work := Batch(todo[1..]))
    case Running(id, todo) => StepRunning(s, c, id, todo)
    case Undoing(id) =>
      if c.Leave? then s.(work := Nobody)
      else if c.SetSource? && id in s.db.sources &&
              (s.db.sources[id].state.StaleChecked? || s.db.sources[id].state.Executing?) &&
              (c.to.RolledBack? || (c.to.Draft? && !s.db.sources[id].journaled))
      then SetState(s, id, c.to)
      else s
    case Restoring(id, begun) => StepRestoring(s, c, id, begun)
    case Reconciling =>
      if c.Leave? then s.(work := Nobody)
      else if c.MarkUndone? then s.(db := MarkRestoreRolledBack(s.db, c.id))
      else s
    case Purging(id, begun) => StepPurging(s, c, id, begun)
  }

  function StepRestoring(s: State, c: Choice, id: Id, begun: bool): State {
    if c.Leave? then s.(work := Nobody)
    else if c.Begin? && !begun && CanBeginRestore(s.db, id) then
      s.(db := s.db.(restoreRows := s.db.restoreRows[id := RestorePending]), work := Restoring(id, true))
    else if c.MarkDone? && begun then s.(db := MarkRestoreCompleted(s.db, id), work := Nobody)
    else if c.MarkUndone? && begun then s.(db := MarkRestoreRolledBack(s.db, id), work := Nobody)
    else s
  }

  function StepPurging(s: State, c: Choice, id: Id, begun: bool): State {
    if c.Leave? then s.(work := Nobody)
    else if c.Begin? && !begun && CanBeginPurge(s.db, id, s.now) then
      s.(db := s.db.(purgeRows := s.db.purgeRows[id := PurgePending]), work := Purging(id, true))
    else if c.Advance? && begun && id in s.db.purgeRows && id in s.db.purges then StepPurge(s, id)
    else s
  }

  function SetState(s: State, id: Id, to: PlanState): State
    requires id in s.db.sources
  {
    s.(db := s.db.(sources := s.db.sources[id := s.db.sources[id].(state := to)]))
  }

  /** One plan of the batch, by its conditional updates; it ends the batch when it is left unresolved. */
  function StepRunning(s: State, c: Choice, id: Id, todo: seq<Id>): State {
    if id !in s.db.sources then s.(work := Batch(todo))
    else
      var p := s.db.sources[id];
      match c
      case SetSource(to) =>
        if (p.state.Approved? && (to.Draft? || (to.StaleChecked? && !p.journaled))) ||
           (p.state.StaleChecked? && ((to.Approved? && !p.journaled) || (to.Executing? && p.journaled))) ||
           (p.state.Executing? && to.RolledBack?)
        then SetState(s, id, to) else s
      case WriteJournal =>
        if p.state.StaleChecked? then s.(db := s.db.(sources := s.db.sources[id := p.(journaled := true)])) else s
      case VerifySource(registered) =>
        if p.state.Executing? then
          var s' := SetState(s, id, Verified);
          s'.(db := s'.db.(items := Register(s'.db.items, registered)))
        else s
      case Leave => s.(work := if Reserved(p) then Nobody else Batch(todo))
      case _ => s
  }

  /** New items enter quarantined, or on hold when their context is protected; known ones are ignored. */
  function Register(items: map<Id, Item>, registered: map<Id, Item>): map<Id, Item> {
    map id | id in items.Keys + registered.Keys ::
      if id in items then items[id] else registered[id].(status := if registered[id].held then OnHold else Quarantined)
  }

  function StepPurge(s: State, id: Id): State
    requires id in s.db.purgeRows && id in s.db.purges
  {
    match s.db.purgeRows[id]
    case PurgePending => s.(db := s.db.(purgeRows := s.db.purgeRows[id := StagedRow]))
    case StagedRow => s.(db := s.db.(purgeRows := s.db.purgeRows[id := CommitPending]))
    case CommitPending => s.(db := MarkPurgeCommitted(s.db, id), work := Nobody)
    case CommittedRow => s
  }

  function Run(s: State, cs: seq<Choice>): State
    decreases |cs|
  {
    if cs == [] then s else Run(Step(s, cs[0]), cs[1..])
  }

  /******* At most one reservation *******/

  ghost predicate Single(db: Db) {
    forall a <- Unresolved(db), b <- Unresolved(db) :: a == b
  }

  ghost predicate Only(db: Db, claims: set<Claim>) {
    Unresolved(db) <= claims
  }

  ghost predicate WorkTells(s: State) {
    match s.work
    case Batch(_) => Only(s.db, {})
    case Running(id, _) => Only(s.db, {SourceClaim(id)})
    case Restoring(id, begun) => Only(s.db, if begun then {RestoreClaim(id)} else {})
    case Purging(id, begun) => Only(s.db, if begun then {PurgeClaim(id)} else {})
    case _ => true
  }

  ghost predicate SourcesSound(db: Db) {
    forall id <- db.sources :: db.sources[id].journaled ==>
        !db.sources[id].state.Draft? && !db.sources[id].state.Approved?
  }

  ghost predicate Exclusive(s: State) {
    Single(s.db) && WorkTells(s) && SourcesSound(s.db)
  }

  ghost predicate IsOpen(db: Db, claim: Claim) {
    match claim
    case SourceClaim(id) => id in db.sources && Reserved(db.sources[id])
    case RestoreClaim(id) => id in db.restoreRows && db.restoreRows[id].RestorePending?
    case PurgeClaim(id) => id in db.purgeRows && OpenPurge(db.purgeRows[id])
  }

  lemma Claims(db: Db)
    ensures forall claim :: claim in Unresolved(db) <==> IsOpen(db, claim)
  {
    forall claim ensures claim in Unresolved(db) <==> IsOpen(db, claim) {
      match claim
      case SourceClaim(id) =>
      case RestoreClaim(id) =>
      case PurgeClaim(id) =>
    }
  }

  lemma GateMeansNothingOpen(db: Db)
    ensures GateOpen(db) <==> Unresolved(db) == {}
  {
    Claims(db);
    assert GateOpen(db) <==> forall claim :: !IsOpen(db, claim) by {
      if forall claim :: !IsOpen(db, claim) {
        forall id | id in db.sources ensures !Reserved(db.sources[id]) { assert !IsOpen(db, SourceClaim(id)); }
        forall id | id in db.restoreRows ensures !db.restoreRows[id].RestorePending? {
          assert !IsOpen(db, RestoreClaim(id));
        }
        forall id | id in db.purgeRows ensures !OpenPurge(db.purgeRows[id]) { assert !IsOpen(db, PurgeClaim(id)); }
      }
    }
  }

  lemma UnlockedIsExclusive(s: State, c: Choice)
    requires Exclusive(s) && Unlocked(c)
    ensures Exclusive(Step(s, c)) && Unresolved(Step(s, c).db) == Unresolved(s.db)
  {
    var s' := Step(s, c);
    Claims(s.db);
    Claims(s'.db);
    forall claim ensures IsOpen(s'.db, claim) == IsOpen(s.db, claim) {}
  }

  lemma RunningIsExclusive(s: State, c: Choice)
    requires Exclusive(s) && s.work.Running?
    ensures Exclusive(StepRunning(s, c, s.work.plan, s.work.todo))
    ensures Unresolved(s.db) != {} ==> Unresolved(StepRunning(s, c, s.work.plan, s.work.todo).db) <= Unresolved(s.db)
  {
    var s' := StepRunning(s, c, s.work.plan, s.work.todo);
    Claims(s.db);
    Claims(s'.db);
    forall claim | IsOpen(s'.db, claim) ensures claim == SourceClaim(s.work.plan) {
      assert claim == SourceClaim(s.work.plan) || IsOpen(s.db, claim);
    }
  }

  lemma RestoringIsExclusive(s: State, c: Choice)
    requires Exclusive(s) && s.work.Restoring?
    ensures Exclusive(StepRestoring(s, c, s.work.plan, s.work.begun))
    ensures Unresolved(s.db) != {} ==> Unresolved(StepRestoring(s, c, s.work.plan, s.work.begun).db) <= Unresolved(s.db)
  {
    var s' := StepRestoring(s, c, s.work.plan, s.work.begun);
    Claims(s.db);
    Claims(s'.db);
    forall claim | IsOpen(s'.db, claim) ensures claim == RestoreClaim(s.work.plan) {
      assert claim == RestoreClaim(s.work.plan) || IsOpen(s.db, claim);
    }
  }

  lemma PurgingFrame(s: State, c: Choice, id: Id, begun: bool)
    ensures var s' := StepPurging(s, c, id, begun);
      && s'.db.sources == s.db.sources && s'.db.restoreRows == s.db.restoreRows && s'.now == s.now
      && (forall p <- s'.db.purgeRows :: p != id ==> p in s.db.purgeRows && s'.db.purgeRows[p] == s.db.purgeRows[p])
      && (s'.work == s.work || s'.work.Nobody? || (s'.work == Purging(id, true) && !begun))
  {
  }

  lemma PurgingIsExclusive(s: State, c: Choice)
    requires Exclusive(s) && s.work.Purging?
    ensures Exclusive(StepPurging(s, c, s.work.plan, s.work.begun))
    ensures Unresolved(s.db) != {} ==> Unresolved(StepPurging(s, c, s.work.plan, s.work.begun).db) <= Unresolved(s.db)
  {
    var id := s.work.plan;
    var s' := StepPurging(s, c, id, s.work.begun);
    Claims(s.db);
    Claims(s'.db);
    PurgingFrame(s, c, id, s.work.begun);
    forall claim | IsOpen(s'.db, claim) ensures claim == PurgeClaim(id) {
      assert claim == PurgeClaim(id) || IsOpen(s.db, claim);
    }
  }

  lemma HolderIsExclusive(s: State, c: Choice)
    requires Exclusive(s) && (s.work.Batch? || s.work.Undoing? || s.work.Reconciling?)
    ensures Exclusive(StepWork(s, c))
    ensures Unresolved(s.db) != {} ==> Unresolved(StepWork(s, c).db) <= Unresolved(s.db)
  {
    var s' := StepWork(s, c);
    Claims(s.db);
    Claims(s'.db);
    forall claim | IsOpen(s'.db, claim) ensures IsOpen(s.db, claim) {}
  }

  /** Every step keeps at most one reservation, and while one is unresolved no step adds another:
      a later plan of a batch, a restore or a purge has to wait, even after the lock has died. */
  lemma StepIsExclusive(s: State, c: Choice)
    requires Exclusive(s)
    ensures Exclusive(Step(s, c))
    ensures Unresolved(s.db) != {} ==> Unresolved(Step(s, c).db) <= Unresolved(s.db)
  {
    GateMeansNothingOpen(s.db);
    if Unlocked(c) {
      UnlockedIsExclusive(s, c);
    } else if s.work.Running? {
      RunningIsExclusive(s, c);
    } else if s.work.Restoring? {
      RestoringIsExclusive(s, c);
    } else if s.work.Purging? {
      PurgingIsExclusive(s, c);
    } else if !s.work.Nobody? {
      HolderIsExclusive(s, c);
    }
  }

  /******* The life of an item *******/

  ghost predicate ItemSound(i: Item, now: nat) {
    && (i.held ==> i.status.OnHold? || i.status.Restored?)
    && (i.status.OnHold? ==> i.held)
    && (i.status.PurgeEligible? || i.status.Purged? ==> !i.held && i.retainUntil <= now)
  }

  ghost predicate PurgeSound(db: Db, p: Id)
    requires p in db.purges
  {
    && db.purges[p].item in db.items
    && (db.purges[p].state.PurgeDraft? ==> !db.items[db.purges[p].item].status.Restored?)
    && (db.purges[p].state.PurgeCommitted? ==> p in db.purgeRows && db.purgeRows[p].CommittedRow?)
  }

  ghost predicate PurgeRowSound(db: Db, p: Id)
    requires p in db.purgeRows
  {
    && p in db.purges && db.purges[p].item in db.items
    && (if OpenPurge(db.purgeRows[p]) then db.purges[p].state.PurgeApproved? &&
        db.items[db.purges[p].item].status.PurgeEligible?
        else db.purges[p].state.PurgeCommitted? && db.items[db.purges[p].item].status.Purged?)
  }

  ghost predicate PurgedBy(db: Db, id: Id, p: Id) {
    p in db.purges && db.purges[p].item == id && db.purges[p].state.PurgeCommitted?
  }

  ghost predicate Alive(s: State) {
    && (forall id <- s.db.items :: ItemSound(s.db.items[id], s.now))
    && (forall id <- s.db.items :: s.db.items[id].status.Purged? ==> exists p :: PurgedBy(s.db, id, p))
    && (forall p <- s.db.purges :: PurgeSound(s.db, p))
    && (forall p <- s.db.purgeRows :: PurgeRowSound(s.db, p))
    && (forall r <- s.db.restoreRows :: s.db.restoreRows[r].RestorePending? ==> Reservation(s.db, r))
  }

  lemma PurgedStays(s: State, s': State)
    requires forall id <- s.db.items :: s.db.items[id].status.Purged? ==> exists p :: PurgedBy(s.db, id, p)
    requires forall id <- s'.db.items :: s'.db.items[id].status.Purged? ==>
             id in s.db.items && s.db.items[id].status.Purged?
    requires forall p <- s.db.purges :: s.db.purges[p].state.PurgeCommitted? ==>
               p in s'.db.purges && s'.db.purges[p].state.PurgeCommitted? && s'.db.purges[p].item == s.db.purges[p].item
    ensures forall id <- s'.db.items :: s'.db.items[id].status.Purged? ==> exists p :: PurgedBy(s'.db, id, p)
  {
    forall id | id in s'.db.items && s'.db.items[id].status.Purged? ensures exists p :: PurgedBy(s'.db, id, p) {
      var p :| PurgedBy(s.db, id, p);
      assert PurgedBy(s'.db, id, p);
    }
  }

  /** A new draft purge makes its item eligible. */
  lemma PlannedPurgeIsAlive(s: State, id: Id, item: Id)
    requires Alive(s)
    ensures Alive(s.(db := SavePurgePlan(s.db, id, item, s.now)))
  {
    var s' := s.(db := SavePurgePlan(s.db, id, item, s.now));
    if s'.db == s.db { return; }
    PurgedStays(s, s');
    assert forall i <- s'.db.items :: ItemSound(s'.db.items[i], s'.now);
    forall p | p in s'.db.purges ensures PurgeSound(s'.db, p) { assert p in s.db.purges ==> PurgeSound(s.db, p); }
    PlannedPurgeKeepsRows(s, id, item);
  }

  lemma PlannedPurgeKeepsRows(s: State, id: Id, item: Id)
    requires Alive(s)
    ensures var db := SavePurgePlan(s.db, id, item, s.now);
      && (forall p <- db.purgeRows :: PurgeRowSound(db, p))
      && forall r <- db.restoreRows :: db.restoreRows[r].RestorePending? ==> Reservation(db, r)
  {
    var db := SavePurgePlan(s.db, id, item, s.now);
    forall p | p in db.purgeRows ensures PurgeRowSound(db, p) { assert PurgeRowSound(s.db, p); }
    forall r | r in db.restoreRows && db.restoreRows[r].RestorePending? ensures Reservation(db, r) {
      assert Reservation(s.db, r);
    }
  }

  /** Approving a draft purge, or noting its dry run. */
  lemma MarkedPurgeIsAlive(s: State, id: Id, p': Purge)
    requires Alive(s) && id in s.db.purges && p'.item == s.db.purges[id].item
    requires p'.state.PurgeApproved? && (s.db.purges[id].state.PurgeDraft? || s.db.purges[id].state.PurgeApproved?)
    ensures Alive(s.(db := s.db.(purges := s.db.purges[id := p'])))
  {
    var s' := s.(db := s.db.(purges := s.db.purges[id := p']));
    PurgedStays(s, s');
    forall p | p in s'.db.purges ensures PurgeSound(s'.db, p) { assert PurgeSound(s.db, p); }
    forall p | p in s'.db.purgeRows ensures PurgeRowSound(s'.db, p) { assert PurgeRowSound(s.db, p); }
    forall r | r in s'.db.restoreRows && s'.db.restoreRows[r].RestorePending? ensures Reservation(s'.db, r) {
      assert Reservation(s.db, r);
    }
  }

  lemma PlannedRestoreIsAlive(s: State, s': State)
    requires Alive(s) && s'.db.items == s.db.items && s'.db.purges == s.db.purges && s'.db.purgeRows == s.db.purgeRows
    requires s'.db.restoreRows == s.db.restoreRows && s'.now >= s.now
    requires forall r <- s.db.restores :: s.db.restores[r].state.RestoreApproved? ==>
             r in s'.db.restores && s'.db.restores[r] == s.db.restores[r]
    ensures Alive(s')
  {
    PurgedStays(s, s');
    forall p | p in s'.db.purges ensures PurgeSound(s'.db, p) { assert PurgeSound(s.db, p); }
    forall p | p in s'.db.purgeRows ensures PurgeRowSound(s'.db, p) { assert PurgeRowSound(s.db, p); }
    forall r | r in s'.db.restoreRows && s'.db.restoreRows[r].RestorePending? ensures Reservation(s'.db, r) {
      assert Reservation(s.db, r);
    }
  }

  lemma UnlockedIsAlive(s: State, c: Choice)
    requires Alive(s) && Unlocked(c)
    ensures Alive(Step(s, c))
  {
    match c
    case PlanPurge(id, item) => PlannedPurgeIsAlive(s, id, item);
    case ApprovePurge(id) =>
      if id in s.db.purges && s.db.purges[id].state.PurgeDraft? {
        MarkedPurgeIsAlive(s, id, s.db.purges[id].(state := PurgeApproved));
      }
    case VerifyPurge(id) =>
      if id in s.db.purges && s.db.purges[id].state.PurgeApproved? {
        MarkedPurgeIsAlive(s, id, s.db.purges[id].(dryRun := true));
      }
    case Crash => PlannedRestoreIsAlive(s, Step(s, c));
    case Tick => PlannedRestoreIsAlive(s, Step(s, c));
    case PlanSource(_) => PlannedRestoreIsAlive(s, Step(s, c));
    case ApproveSource(_) => PlannedRestoreIsAlive(s, Step(s, c));
    case PlanRestore(_, _) => PlannedRestoreIsAlive(s, Step(s, c));
    case ApproveRestore(_) => PlannedRestoreIsAlive(s, Step(s, c));
  }

  lemma RunningIsAlive(s: State, c: Choice)
    requires Alive(s) && Exclusive(s) && s.work.Running?
    ensures Alive(StepRunning(s, c, s.work.plan, s.work.todo))
  {
    var s' := StepRunning(s, c, s.work.plan, s.work.todo);
    forall id | id in s'.db.items && s'.db.items[id].status.Purged? ensures exists p :: PurgedBy(s'.db, id, p) {
      var p :| PurgedBy(s.db, id, p);
      assert PurgedBy(s'.db, id, p);
    }
    forall p | p in s'.db.purges ensures PurgeSound(s'.db, p) { assert PurgeSound(s.db, p); }
    forall p | p in s'.db.purgeRows ensures PurgeRowSound(s'.db, p) { assert PurgeRowSound(s.db, p); }
    forall r | r in s'.db.restoreRows && s'.db.restoreRows[r].RestorePending? ensures Reservation(s'.db, r) {
      assert Reservation(s.db, r);
    }
  }

  /** Completing a restore touches one item, its pending row and the draft purges of the item. */
  lemma CompletedIsAlive(s: State, id: Id, s': State)
    requires Alive(s) && Exclusive(s) && s.work == Restoring(id, true)
    requires s' == s.(db := MarkRestoreCompleted(s.db, id), work := Nobody)
    ensures Alive(s')
  {
    Claims(s.db);
    if Reservation(s.db, id) {
      var item := s.db.restores[id].item;
      forall p | p in s'.db.purgeRows ensures PurgeRowSound(s'.db, p) {
        assert PurgeRowSound(s.db, p) && !IsOpen(s.db, PurgeClaim(p));
      }
      forall p | p in s'.db.purges ensures PurgeSound(s'.db, p) { assert PurgeSound(s.db, p); }
      forall r | r in s'.db.restoreRows ensures !s'.db.restoreRows[r].RestorePending? {
        assert r == id || !IsOpen(s.db, RestoreClaim(r));
      }
      forall i | i in s'.db.items && s'.db.items[i].status.Purged? ensures exists p :: PurgedBy(s'.db, i, p) {
        var p :| PurgedBy(s.db, i, p);
        assert PurgedBy(s'.db, i, p);
      }
    }
  }

  lemma RolledBackIsAlive(s: State, id: Id, s': State)
    requires Alive(s) && Exclusive(s) && s'.db == MarkRestoreRolledBack(s.db, id) && s'.now == s.now
    ensures Alive(s')
  {
    Claims(s.db);
    if Reservation(s.db, id) {
      assert IsOpen(s.db, RestoreClaim(id));
      forall r | r in s'.db.restoreRows ensures !s'.db.restoreRows[r].RestorePending? {
        assert r == id || !IsOpen(s.db, RestoreClaim(r));
      }
      forall p | p in s'.db.purgeRows ensures PurgeRowSound(s'.db, p) { assert PurgeRowSound(s.db, p); }
      forall p | p in s'.db.purges ensures PurgeSound(s'.db, p) { assert PurgeSound(s.db, p); }
      forall i | i in s'.db.items && s'.db.items[i].status.Purged? ensures exists p :: PurgedBy(s'.db, i, p) {
        var p :| PurgedBy(s.db, i, p);
        assert PurgedBy(s'.db, i, p);
      }
    }
  }

  lemma CommittedIsAlive(s: State, id: Id)
    requires Alive(s) && Exclusive(s) && s.work == Purging(id, true)
    requires id in s.db.purgeRows && s.db.purgeRows[id].CommitPending? && id in s.db.purges
    ensures Alive(s.(db := MarkPurgeCommitted(s.db, id), work := Nobody))
  {
    var s' := s.(db := MarkPurgeCommitted(s.db, id), work := Nobody);
    var item := s.db.purges[id].item;
    Claims(s.db);
    assert PurgeRowSound(s.db, id);
    assert IsOpen(s.db, PurgeClaim(id));
    assert PurgedBy(s'.db, item, id);
    forall i | i in s'.db.items && s'.db.items[i].status.Purged? ensures exists p :: PurgedBy(s'.db, i, p) {
      if i != item {
        var p :| PurgedBy(s.db, i, p);
        assert PurgedBy(s'.db, i, p);
      }
    }
    forall p | p in s'.db.purgeRows ensures PurgeRowSound(s'.db, p) {
      assert PurgeRowSound(s.db, p) && (p != id ==> !IsOpen(s.db, PurgeClaim(p)));
    }
    forall p | p in s'.db.purges ensures PurgeSound(s'.db, p) { assert PurgeSound(s.db, p); }
    forall r | r in s'.db.restoreRows ensures !s'.db.restoreRows[r].RestorePending? {
      assert !IsOpen(s.db, RestoreClaim(r));
    }
  }

  lemma RestoringIsAlive(s: State, c: Choice)
    requires Alive(s) && Exclusive(s) && s.work.Restoring?
    ensures Alive(StepRestoring(s, c, s.work.plan, s.work.begun))
  {
    var s' := StepRestoring(s, c, s.work.plan, s.work.begun);
    if s.work.begun && c.MarkDone? {
      CompletedIsAlive(s, s.work.plan, s');
    } else if s.work.begun && c.MarkUndone? {
      RolledBackIsAlive(s, s.work.plan, s');
    } else {
      MinorIsAlive(s, s');
    }
  }

  lemma PurgingIsAlive(s: State, c: Choice)
    requires Alive(s) && Exclusive(s) && s.work.Purging?
    ensures Alive(StepPurging(s, c, s.work.plan, s.work.begun))
  {
    var s' := StepPurging(s, c, s.work.plan, s.work.begun);
    if c.Advance? && s'.work.Nobody? {
      CommittedIsAlive(s, s.work.plan);
    } else {
      PurgingIsMinor(s, c, s.work.plan, s.work.begun);
      MinorIsAlive(s, s');
    }
  }

  /** Short of the commit only the purge's own row moves. */
  lemma PurgingIsMinor(s: State, c: Choice, id: Id, begun: bool)
    requires !(c.Advance? && StepPurging(s, c, id, begun).work.Nobody?)
    ensures var s' := StepPurging(s, c, id, begun);
      && s'.now == s.now && s'.db == s.db.(purgeRows := s'.db.purgeRows) && s.db.purgeRows.Keys <= s'.db.purgeRows.Keys
      && forall p <- s'.db.purgeRows ::
           (p in s.db.purgeRows && OpenPurge(s'.db.purgeRows[p]) == OpenPurge(s.db.purgeRows[p])) ||
           (OpenPurge(s'.db.purgeRows[p]) && CanBeginPurge(s.db, p, s.now))
  {
  }

  lemma HolderIsAlive(s: State, c: Choice)
    requires Alive(s) && Exclusive(s) && (s.work.Batch? || s.work.Undoing? || s.work.Reconciling?)
    ensures Alive(StepWork(s, c))
  {
    var s' := StepWork(s, c);
    if s.work.Reconciling? && c.MarkUndone? {
      RolledBackIsAlive(s, c.id, s');
    } else {
      MinorIsAlive(s, s');
    }
  }

  /** Beginning a restore or a purge, moving a purge row on, and undoing a source plan. */
  lemma MinorIsAlive(s: State, s': State)
    requires Alive(s) && s'.now == s.now && s'.db.items == s.db.items && s'.db.purges == s.db.purges &&
             s'.db.restores == s.db.restores
    requires forall r <- s'.db.restoreRows ::
               ((r in s.db.restoreRows && s'.db.restoreRows[r] == s.db.restoreRows[r]) || CanBeginRestore(s.db, r))
    requires forall p <- s'.db.purgeRows ::
               ((p in s.db.purgeRows && OpenPurge(s'.db.purgeRows[p]) == OpenPurge(s.db.purgeRows[p])) ||
                (OpenPurge(s'.db.purgeRows[p]) && CanBeginPurge(s.db, p, s.now)))
    requires s.db.purgeRows.Keys <= s'.db.purgeRows.Keys
    ensures Alive(s')
  {
    forall p | p in s'.db.purgeRows ensures PurgeRowSound(s'.db, p) {
      assert p in s.db.purgeRows ==> PurgeRowSound(s.db, p);
    }
    forall p | p in s'.db.purges ensures PurgeSound(s'.db, p) {
      assert PurgeSound(s.db, p);
      if s.db.purges[p].state.PurgeCommitted? { assert PurgeRowSound(s.db, p); }
    }
    forall i | i in s'.db.items && s'.db.items[i].status.Purged? ensures exists p :: PurgedBy(s'.db, i, p) {
      var p :| PurgedBy(s.db, i, p);
      assert PurgedBy(s'.db, i, p);
    }
    forall r | r in s'.db.restoreRows && s'.db.restoreRows[r].RestorePending? ensures Reservation(s'.db, r) {
      assert r in s.db.restoreRows && s.db.restoreRows[r].RestorePending? ==> Reservation(s.db, r);
    }
  }

  lemma StepIsAlive(s: State, c: Choice)
    requires Alive(s) && Exclusive(s)
    ensures Alive(Step(s, c))
  {
    if Unlocked(c) {
      UnlockedIsAlive(s, c);
    } else if s.work.Running? {
      RunningIsAlive(s, c);
    } else if s.work.Restoring? {
      RestoringIsAlive(s, c);
    } else if s.work.Purging? {
      PurgingIsAlive(s, c);
    } else if !s.work.Nobody? {
      HolderIsAlive(s, c);
    }
  }

  const EMPTY: State := State(Db(map[], map[], map[], map[], map[], map[]), Nobody, 0)

  lemma {:induction false} RunIsSound(s: State, cs: seq<Choice>)
    requires Exclusive(s) && Alive(s)
    ensures Exclusive(Run(s, cs)) && Alive(Run(s, cs))
    decreases |cs|
  {
    if cs != [] {
      StepIsExclusive(s, cs[0]);
      StepIsAlive(s, cs[0]);
      RunIsSound(Step(s, cs[0]), cs[1..]);
    }
  }

  /******* What holds in every run *******/

  /** In every reachable state at most one of all source plans, restores and purges is unresolved. */
  lemma AtMostOneUnresolved(cs: seq<Choice>)
    ensures forall a <- Unresolved(Run(EMPTY, cs).db), b <- Unresolved(Run(EMPTY, cs).db) :: a == b
  {
    RunIsSound(EMPTY, cs);
  }

  /** While anything is unresolved, nothing else begins: no step adds a reservation, and no other
      source plan is touched, except that a human may still draft or approve one. */
  lemma NothingStartsBehindAReservation(before: seq<Choice>, c: Choice, id: Id)
    ensures var s := Run(EMPTY, before); var s' := Step(s, c);
      Unresolved(s.db) != {} ==>
        && Unresolved(s'.db) <= Unresolved(s.db)
        && (id in s.db.sources && SourceClaim(id) !in Unresolved(s.db) ==>
              id in s'.db.sources && (s'.db.sources[id] == s.db.sources[id] || c == ApproveSource(id)))
  {
    RunIsSound(EMPTY, before);
    var s := Run(EMPTY, before);
    StepIsExclusive(s, c);
    if Unresolved(s.db) != {} && id in s.db.sources && SourceClaim(id) !in Unresolved(s.db) {
      var claim :| claim in Unresolved(s.db);
      Claims(s.db);
      assert s.work.Running? ==> claim == SourceClaim(s.work.plan);
      OthersUntouched(s, c, id);
    }
  }

  lemma OthersUntouched(s: State, c: Choice, id: Id)
    requires id in s.db.sources && !Reserved(s.db.sources[id]) && (s.work.Running? ==> s.work.plan != id)
    ensures id in Step(s, c).db.sources && (Step(s, c).db.sources[id] == s.db.sources[id] || c == ApproveSource(id))
  {
    if !Unlocked(c) && !s.work.Nobody? { HolderTouchesNoOther(s, c, id); }
  }

  lemma HolderTouchesNoOther(s: State, c: Choice, id: Id)
    requires id in s.db.sources && !Reserved(s.db.sources[id]) && (s.work.Running? ==> s.work.plan != id) &&
             !s.work.Nobody?
    ensures id in StepWork(s, c).db.sources && StepWork(s, c).db.sources[id] == s.db.sources[id]
  {
    if s.work.Running? {
      RunningTouchesNoOther(s, c, s.work.plan, s.work.todo, id);
    } else if s.work.Purging? {
      PurgingFrame(s, c, s.work.plan, s.work.begun);
    } else if s.work.Restoring? {
      RestoringTouchesNoSource(s, c, s.work.plan, s.work.begun);
    }
  }

  lemma RestoringTouchesNoSource(s: State, c: Choice, plan: Id, begun: bool)
    ensures StepRestoring(s, c, plan, begun).db.sources == s.db.sources
  {
  }

  lemma RunningTouchesNoOther(s: State, c: Choice, plan: Id, todo: seq<Id>, id: Id)
    requires id in s.db.sources && plan != id
    ensures var db := StepRunning(s, c, plan, todo).db; id in db.sources && db.sources[id] == s.db.sources[id]
  {
  }

  /** An item with a hold reason is only ever on hold or restored, and a restored item has no draft
      purge, whatever is interleaved. */
  lemma HoldsAndRestoresAreFinal(cs: seq<Choice>, id: Id)
    ensures var db := Run(EMPTY, cs).db;
      id in db.items ==>
        && (db.items[id].held ==> db.items[id].status.OnHold? || db.items[id].status.Restored?)
        && (db.items[id].status.Restored? ==>
              forall p <- db.purges :: db.purges[p].item == id ==> !db.purges[p].state.PurgeDraft?)
  {
    RunIsSound(EMPTY, cs);
    var db := Run(EMPTY, cs).db;
    forall p | p in db.purges && db.purges[p].item == id && id in db.items && db.items[id].status.Restored?
      ensures !db.purges[p].state.PurgeDraft?
    {
      assert PurgeSound(db, p);
    }
  }

  /** An item becomes PURGED only from PURGE_ELIGIBLE, unprotected, after its retention has expired, by
      the purge that holds the lock and whose journal row stands at commit_pending. */
  lemma PurgedOnlyInOrder(before: seq<Choice>, c: Choice, id: Id)
    ensures var s := Run(EMPTY, before); var s' := Step(s, c);
      id in s'.db.items && s'.db.items[id].status.Purged? && !(id in s.db.items && s.db.items[id].status.Purged?) ==>
        && id in s.db.items && s.db.items[id].status.PurgeEligible? && !s.db.items[id].held &&
            s.db.items[id].retainUntil <= s.now
        && s.work.Purging? && s.work.plan in s.db.purges && s.db.purges[s.work.plan].item == id
        && s.work.plan in s.db.purgeRows && s.db.purgeRows[s.work.plan].CommitPending?
  {
    RunIsSound(EMPTY, before);
    var s := Run(EMPTY, before);
    var items, items' := s.db.items, Step(s, c).db.items;
    if id in items' && items'[id].status.Purged? && !(id in items && items[id].status.Purged?) {
      OnlyPurgingPurges(s, c, id);
      assert PurgeRowSound(s.db, s.work.plan);
      assert ItemSound(s.db.items[id], s.now);
    }
  }

  lemma OnlyPurgingPurges(s: State, c: Choice, id: Id)
    requires id in Step(s, c).db.items && Step(s, c).db.items[id].status.Purged?
    requires !(id in s.db.items && s.db.items[id].status.Purged?)
    ensures s.work.Purging? && s.work.plan in s.db.purges && s.db.purges[s.work.plan].item == id
    ensures s.work.plan in s.db.purgeRows && s.db.purgeRows[s.work.plan].CommitPending?
  {
    if !Unlocked(c) && !s.work.Nobody? {
      if s.work.Purging? {
        PurgingPurges(s, c, s.work.plan, s.work.begun, id);
      } else {
        OthersPurgeNothing(s, c, id);
      }
    }
  }

  lemma PurgingPurges(s: State, c: Choice, plan: Id, begun: bool, id: Id)
    requires id in StepPurging(s, c, plan, begun).db.items && StepPurging(s, c, plan, begun).db.items[id].status.Purged?
    requires !(id in s.db.items && s.db.items[id].status.Purged?)
    ensures plan in s.db.purges && s.db.purges[plan].item == id
    ensures plan in s.db.purgeRows && s.db.purgeRows[plan].CommitPending?
  {
  }

  lemma OthersPurgeNothing(s: State, c: Choice, id: Id)
    requires !s.work.Nobody? && !s.work.Purging?
    requires id in StepWork(s, c).db.items && StepWork(s, c).db.items[id].status.Purged?
    ensures id in s.db.items && s.db.items[id].status.Purged?
  {
  }

  predicate InOrder(db: Db, db': Db, p: Id)
    requires p in db'.purgeRows
  {
    var row' := db'.purgeRows[p];
    if p !in db.purgeRows then row'.PurgePending?
    else
      || row' == db.purgeRows[p] || (db.purgeRows[p].PurgePending? && row'.StagedRow?)
      || (db.purgeRows[p].StagedRow? && row'.CommitPending?) || (db.purgeRows[p].CommitPending? && row'.CommittedRow?)
  }

  lemma PurgingMovesInOrder(s: State, c: Choice, id: Id, begun: bool, p: Id)
    requires p in StepPurging(s, c, id, begun).db.purgeRows
    ensures InOrder(s.db, StepPurging(s, c, id, begun).db, p)
  {
  }

  lemma OthersKeepPurgeRows(s: State, c: Choice)
    requires Unlocked(c) || !s.work.Purging?
    ensures Step(s, c).db.purgeRows == s.db.purgeRows
  {
  }

  lemma PurgeRowStep(s: State, c: Choice, p: Id)
    requires p in Step(s, c).db.purgeRows
    ensures InOrder(s.db, Step(s, c).db, p)
  {
    if Unlocked(c) || !s.work.Purging? {
      OthersKeepPurgeRows(s, c);
    } else {
      PurgingMovesInOrder(s, c, s.work.plan, s.work.begun, p);
    }
  }

  lemma {:induction false} RunThen(s: State, cs: seq<Choice>, more: seq<Choice>)
    ensures Run(s, cs + more) == Run(Run(s, cs), more)
    decreases |cs|
  {
    if cs == [] {
      assert cs + more == more;
    } else {
      assert (cs + more)[1..] == cs[1..] + more;
      RunThen(Step(s, cs[0]), cs[1..], more);
    }
  }

  lemma RunLast(s: State, cs: seq<Choice>)
    requires cs != []
    ensures Run(s, cs) == Step(Run(s, cs[..|cs| - 1]), cs[|cs| - 1])
  {
    var last := [cs[|cs| - 1]];
    assert cs == cs[..|cs| - 1] + last;
    RunThen(s, cs[..|cs| - 1], last);
    assert last[1..] == [];
    assert Run(Run(s, cs[..|cs| - 1]), last) == Run(Step(Run(s, cs[..|cs| - 1]), last[0]), []);
  }

  /** After the first n steps of the run, the purge row stands so. */
  ghost predicate RowAt(cs: seq<Choice>, n: nat, p: Id, row: PurgeRow) {
    n <= |cs| && p in Run(EMPTY, cs[..n]).db.purgeRows && Run(EMPTY, cs[..n]).db.purgeRows[p] == row
  }

  /** How far the row has come, at which steps. */
  ghost predicate Came(cs: seq<Choice>, p: Id, i: nat, j: nat, k: nat, row: PurgeRow) {
    && RowAt(cs, i, p, PurgePending)
    && (!row.PurgePending? ==> i < j && RowAt(cs, j, p, StagedRow))
    && (row.CommitPending? || row.CommittedRow? ==> j < k && RowAt(cs, k, p, CommitPending))
    && (row.CommittedRow? ==> k < |cs|)
  }

  lemma {:induction false} History(cs: seq<Choice>, p: Id) returns (i: nat, j: nat, k: nat)
    requires p in Run(EMPTY, cs).db.purgeRows
    ensures Came(cs, p, i, j, k, Run(EMPTY, cs).db.purgeRows[p])
    decreases |cs|
  {
    var n := |cs| - 1;
    RunLast(EMPTY, cs);
    PurgeRowStep(Run(EMPTY, cs[..n]), cs[n], p);
    assert cs[..|cs|] == cs;
    if p in Run(EMPTY, cs[..n]).db.purgeRows {
      i, j, k := History(cs[..n], p);
      assert forall m :: 0 <= m <= n ==> cs[..n][..m] == cs[..m];
      var row := Run(EMPTY, cs).db.purgeRows[p];
      if row != Run(EMPTY, cs[..n]).db.purgeRows[p] {
        if row.StagedRow? { j := |cs|; } else if row.CommitPending? { k := |cs|; }
      }
    } else {
      i, j, k := |cs|, 0, 0;
    }
  }

  /** A committed purge row was pending, then staged, then at commit_pending earlier in its run. */
  lemma PurgeRowsMoveInOrder(cs: seq<Choice>, p: Id)
    requires p in Run(EMPTY, cs).db.purgeRows && Run(EMPTY, cs).db.purgeRows[p].CommittedRow?
    ensures exists i: nat, j: nat, k: nat :: i < j < k < |cs| &&
              RowAt(cs, i, p, PurgePending) && RowAt(cs, j, p, StagedRow) && RowAt(cs, k, p, CommitPending)
  {
    var i, j, k := History(cs, p);
  }

  /******* A restore ends once *******/

  predicate Ended(db: Db, r: Id) {
    r in db.restores && (db.restores[r].state.RestoreDone? || db.restores[r].state.RestoreUndone?)
  }

  /** A restore plan has ended exactly when its row is closed or rolled back. */
  ghost predicate RestoresTell(db: Db) {
    && (forall r <- db.restoreRows :: r in db.restores)
    && forall r <- db.restores ::
         && (db.restores[r].state.RestoreDone? <==> r in db.restoreRows && db.restoreRows[r].RestoreClosed?)
         && (db.restores[r].state.RestoreUndone? <==> r in db.restoreRows && db.restoreRows[r].RestoreRolledBack?)
  }

  lemma RestoringTells(s: State, c: Choice)
    requires RestoresTell(s.db) && s.work.Restoring?
    ensures RestoresTell(StepRestoring(s, c, s.work.plan, s.work.begun).db)
  {
  }

  lemma UnlockedTells(s: State, c: Choice)
    requires RestoresTell(s.db) && Unlocked(c)
    ensures RestoresTell(StepUnlocked(s, c).db)
  {
    if c.PlanRestore? && c.id !in s.db.restores { assert c.id !in s.db.restoreRows; }
  }

  lemma HolderTells(s: State, c: Choice)
    requires RestoresTell(s.db) && !Unlocked(c) && !s.work.Restoring?
    ensures RestoresTell(Step(s, c).db)
  {
    if !s.work.Reconciling? { OthersKeepRestores(s, c); }
  }

  /** Source batches, recoveries and purges leave the restores alone. */
  lemma OthersKeepRestores(s: State, c: Choice)
    requires !Unlocked(c) && !s.work.Restoring? && !s.work.Reconciling?
    ensures Step(s, c).db.restores == s.db.restores && Step(s, c).db.restoreRows == s.db.restoreRows
  {
    if s.work.Running? {
      RunningKeepsRestores(s, c, s.work.plan, s.work.todo);
    } else if s.work.Purging? {
      PurgingKeepsRestores(s, c, s.work.plan, s.work.begun);
    }
  }

  lemma RunningKeepsRestores(s: State, c: Choice, id: Id, todo: seq<Id>)
    ensures var db := StepRunning(s, c, id, todo).db; db.restores == s.db.restores && db.restoreRows == s.db.restoreRows
  {
  }

  lemma PurgingKeepsRestores(s: State, c: Choice, id: Id, begun: bool)
    ensures var db := StepPurging(s, c, id, begun).db;
            db.restores == s.db.restores && db.restoreRows == s.db.restoreRows
  {
  }

  lemma StepTells(s: State, c: Choice)
    requires RestoresTell(s.db)
    ensures RestoresTell(Step(s, c).db)
  {
    if Unlocked(c) {
      UnlockedTells(s, c);
    } else if s.work.Restoring? {
      RestoringTells(s, c);
    } else {
      HolderTells(s, c);
    }
  }

  lemma {:induction false} RunTells(s: State, cs: seq<Choice>)
    requires RestoresTell(s.db)
    ensures RestoresTell(Run(s, cs).db)
    decreases |cs|
  {
    if cs != [] {
      StepTells(s, cs[0]);
      RunTells(Step(s, cs[0]), cs[1..]);
    }
  }

  predicate SameRestore(db: Db, db': Db, r: Id) {
    && (r in db.restores <==> r in db'.restores) && (r in db.restores ==> db'.restores[r] == db.restores[r])
    && (r in db.restoreRows <==> r in db'.restoreRows) &&
        (r in db.restoreRows ==> db'.restoreRows[r] == db.restoreRows[r])
  }

  lemma MarksElsewhere(db: Db, id: Id, r: Id)
    requires !Reservation(db, r)
    ensures SameRestore(db, MarkRestoreCompleted(db, id), r) && SameRestore(db, MarkRestoreRolledBack(db, id), r)
  {
  }

  /** An ended restore keeps its plan and its row. */
  lemma StepKeepsEnded(s: State, c: Choice, r: Id)
    requires RestoresTell(s.db) && Ended(s.db, r)
    ensures SameRestore(s.db, Step(s, c).db, r)
  {
    if Unlocked(c) {
      UnlockedKeepsEnded(s, c, r);
    } else if s.work.Restoring? {
      MarksElsewhere(s.db, s.work.plan, r);
    } else if s.work.Reconciling? {
      if c.MarkUndone? { MarksElsewhere(s.db, c.id, r); }
    } else {
      OthersKeepRestores(s, c);
    }
  }

  lemma UnlockedKeepsEnded(s: State, c: Choice, r: Id)
    requires Ended(s.db, r) && Unlocked(c)
    ensures SameRestore(s.db, StepUnlocked(s, c).db, r)
  {
  }

  lemma {:induction false} RunKeepsEnded(s: State, cs: seq<Choice>, r: Id)
    requires RestoresTell(s.db) && Ended(s.db, r)
    ensures SameRestore(s.db, Run(s, cs).db, r)
    decreases |cs|
  {
    if cs != [] {
      StepKeepsEnded(s, cs[0], r);
      StepTells(s, cs[0]);
      RunKeepsEnded(Step(s, cs[0]), cs[1..], r);
    }
  }

  /** The step is a terminal mark of the plan. */
  predicate Marks(s: State, c: Choice, r: Id) {
    Ended(Step(s, c).db, r) && !(r in s.db.restores && s.db.restores[r] == Step(s, c).db.restores[r])
  }

  function MarkCount(s: State, cs: seq<Choice>, r: Id): nat
    decreases |cs|
  {
    if cs == [] then 0 else (if Marks(s, cs[0], r) then 1 else 0) + MarkCount(Step(s, cs[0]), cs[1..], r)
  }

  lemma {:induction false} CountMarks(s: State, cs: seq<Choice>, r: Id)
    requires RestoresTell(s.db)
    ensures MarkCount(s, cs, r) == if !Ended(s.db, r) && Ended(Run(s, cs).db, r) then 1 else 0
    decreases |cs|
  {
    if cs != [] {
      var s' := Step(s, cs[0]);
      StepTells(s, cs[0]);
      CountMarks(s', cs[1..], r);
      if Ended(s.db, r) { StepKeepsEnded(s, cs[0], r); }
      if Ended(s'.db, r) { RunKeepsEnded(s', cs[1..], r); }
    }
  }

  /** A mark consumes the plan's pending reservation. */
  lemma MarkConsumesTheReservation(s: State, c: Choice, r: Id)
    requires RestoresTell(s.db) && Marks(s, c, r)
    ensures Reservation(s.db, r) && !Reservation(Step(s, c).db, r)
  {
    NoReservationNoMark(s, c, r);
    StepTells(s, c);
  }

  lemma NoReservationNoMark(s: State, c: Choice, r: Id)
    requires RestoresTell(s.db)
    ensures !Reservation(s.db, r) ==> !Marks(s, c, r)
  {
    if !Reservation(s.db, r) {
      if Unlocked(c) {
        OnlyMarksEnd(s, c, r);
      } else if s.work.Restoring? {
        MarksElsewhere(s.db, s.work.plan, r);
      } else if s.work.Reconciling? {
        if c.MarkUndone? { MarksElsewhere(s.db, c.id, r); }
      } else {
        OthersKeepRestores(s, c);
      }
    }
  }

  lemma OnlyMarksEnd(s: State, c: Choice, r: Id)
    requires Unlocked(c)
    ensures !Marks(s, c, r)
  {
  }

  /** In every run a restore is marked completed or rolled back at most once, by consuming its pending
      reservation, and from then on neither its plan nor its row changes. */
  lemma RestoreEndsOnce(before: seq<Choice>, c: Choice, after: seq<Choice>, r: Id)
    ensures MarkCount(EMPTY, before + [c] + after, r) <= 1
    ensures var s := Run(EMPTY, before); Marks(s, c, r) ==> Reservation(s.db, r) && !Reservation(Step(s, c).db, r)
    ensures var (s, s') := (Run(EMPTY, before), Run(Run(EMPTY, before), after));
      Ended(s.db, r) ==> r in s.db.restoreRows && SameRestore(s.db, s'.db, r)
  {
    var s := Run(EMPTY, before);
    RunTells(EMPTY, before);
    CountMarks(EMPTY, before + [c] + after, r);
    if Marks(s, c, r) { MarkConsumesTheReservation(s, c, r); }
    if Ended(s.db, r) { RunKeepsEnded(s, after, r); }
  }
}
