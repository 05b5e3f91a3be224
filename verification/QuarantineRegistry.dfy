/** Which quarantined files a verified plan leaves managed: the rows it adds to the table of
    quarantine items, where a path may occur only once and a clash is ignored. */
module QuarantineRegistry {
  import opened Files
  import opened ExecutionMachine
  import opened ExecutionRestore
  import opened ExecutionTheorems

  datatype ItemStatus = Quarantined | OnHold

  datatype ItemRow = ItemRow(plan: string, index: nat, source: Path, path: Path, digest: Digest, size: nat,
      status: ItemStatus)

  type Table = seq<ItemRow>

  datatype Result<T> = Ok(value: T) | Incomplete

  /** The unique keys of the table: the quarantine path, and the plan with the action index. */
  predicate Clashes(a: ItemRow, b: ItemRow) {
    a.path == b.path || (a.plan == b.plan && a.index == b.index)
  }

  function InsertOrIgnore(t: Table, row: ItemRow): Table {
    if exists r <- t :: Clashes(r, row) then t else t + [row]
  }

  predicate IsQuarantine(a: Action) { a.kind.Quarantine? || a.kind.Delete? }

  function RowFor(id: string, k: nat, row: Row, held: bool): ItemRow
    requires row.Row?
  {
    ItemRow(id, k, row.source, row.target, row.digest, row.size, if held then OnHold else Quarantined)
  }

  function RegisterUpTo(id: string, plan: Plan, rows: Journal, held: seq<bool>, t: Table, k: nat): Result<Table>
    requires k <= |plan| == |rows| == |held|
  {
    if k == 0 then Ok(t)
    else
      var before := RegisterUpTo(id, plan, rows, held, t, k - 1);
      var row := rows[k - 1];
      if before.Incomplete? || !IsQuarantine(plan[k - 1]) || row.NoRow? then before
      else if row.target == "" || row.digest.NoDigest? then Incomplete
      else Ok(InsertOrIgnore(before.value, RowFor(id, k - 1, row, held[k - 1])))
  }

  /** registerQuarantinesTx, inside the transaction that writes VERIFIED. */
  method RegisterQuarantines(id: string, plan: Plan, rows: Journal, held: seq<bool>, t: Table)
        returns (r: Result<Table>)
    requires |plan| == |rows| == |held|
    ensures r == RegisterUpTo(id, plan, rows, held, t, |plan|)
  {
    var table := t;
    for k := 0 to |plan|
      invariant RegisterUpTo(id, plan, rows, held, t, k) == Ok(table)
    {
      if IsQuarantine(plan[k]) && rows[k].Row? {
        if rows[k].target == "" || rows[k].digest.NoDigest? {
          StaysIncomplete(id, plan, rows, held, t, k + 1, |plan|);
          return Incomplete;
        }
        table := InsertOrIgnore(table, RowFor(id, k, rows[k], held[k]));
      }
    }
    return Ok(table);
  }

  lemma {:induction false} StaysIncomplete(id: string, plan: Plan, rows: Journal, held: seq<bool>, t: Table, i: nat,
        k: nat)
    requires i <= k <= |plan| == |rows| == |held| && RegisterUpTo(id, plan, rows, held, t, i).Incomplete?
    ensures RegisterUpTo(id, plan, rows, held, t, k).Incomplete?
    decreases k
  {
    if i < k { StaysIncomplete(id, plan, rows, held, t, i, k - 1); }
  }

  predicate Managed(t: Table, id: string, k: nat) {
    exists r <- t :: r.plan == id && r.index == k
  }

  predicate PathTaken(t: Table, p: Path) {
    exists r <- t :: r.path == p
  }

  /** A plan is registered once, and its recorded targets differ. */
  predicate Registrable(id: string, plan: Plan, rows: Journal, t: Table)
    requires |rows| == |plan|
  {
    && (forall r <- t :: r.plan != id)
    && (forall k :: 0 <= k < |plan| && IsQuarantine(plan[k]) ==> rows[k].Row?)
    && (forall i, k :: 0 <= i < k < |plan| && IsQuarantine(plan[i]) && IsQuarantine(plan[k]) ==>
        rows[i].target != rows[k].target)
  }

  /** After the first k actions: old rows are kept, and each quarantine is managed exactly when its
      path was free, under the status its context asks for. */
  ghost predicate RegisteredSoFar(id: string, plan: Plan, rows: Journal, held: seq<bool>, t: Table, t': Table, k: nat)
    requires k <= |plan| == |rows| == |held| && Registrable(id, plan, rows, t)
  {
    && (forall r <- t :: r in t')
    && (forall r <- t' :: r in t || (r.plan == id && r.index < k && IsQuarantine(plan[r.index]) && !PathTaken(t, r.path)
                                     && r == RowFor(id, r.index, rows[r.index], held[r.index])))
    && (forall i :: 0 <= i < k && IsQuarantine(plan[i]) && !PathTaken(t, rows[i].target) ==>
        RowFor(id, i, rows[i], held[i]) in t')
  }

  lemma {:induction false} RegistersSoFar(id: string, plan: Plan, rows: Journal, held: seq<bool>, t: Table, k: nat)
    requires k <= |plan| == |rows| == |held| && Registrable(id, plan, rows, t)
    requires RegisterUpTo(id, plan, rows, held, t, k).Ok?
    ensures RegisteredSoFar(id, plan, rows, held, t, RegisterUpTo(id, plan, rows, held, t, k).value, k)
  {
    if k > 0 {
      RegistersSoFar(id, plan, rows, held, t, k - 1);
      var before := RegisterUpTo(id, plan, rows, held, t, k - 1).value;
      if IsQuarantine(plan[k - 1]) {
        var row := RowFor(id, k - 1, rows[k - 1], held[k - 1]);
        assert PathTaken(t, row.path) ==> exists r <- before :: Clashes(r, row);
        if !PathTaken(t, row.path) {
          forall r | r in before ensures !Clashes(r, row) { assert r in t ==> r.path != row.path; }
        }
      }
    }
  }

  /** A verified plan leaves a managed item for every file it quarantined or deleted if and only if
      no earlier item, restored ones included, already holds one of its quarantine paths. */
  lemma EveryQuarantineIsManaged(id: string, plan: Plan, rows: Journal, held: seq<bool>, t: Table)
    requires |plan| == |rows| == |held| && Registrable(id, plan, rows, t)
    requires RegisterUpTo(id, plan, rows, held, t, |plan|).Ok?
    ensures var t' := RegisterUpTo(id, plan, rows, held, t, |plan|).value;
      (forall k :: 0 <= k < |plan| && IsQuarantine(plan[k]) ==> Managed(t', id, k)) <==>
      (forall k :: 0 <= k < |plan| && IsQuarantine(plan[k]) ==> !PathTaken(t, rows[k].target))
  {
    RegistersSoFar(id, plan, rows, held, t, |plan|);
    var t' := RegisterUpTo(id, plan, rows, held, t, |plan|).value;
    forall k | 0 <= k < |plan| && IsQuarantine(plan[k]) ensures Managed(t', id, k) <==> !PathTaken(t, rows[k].target) {
      if !PathTaken(t, rows[k].target) { assert RowFor(id, k, rows[k], held[k]) in t'; }
    }
  }

  /** What a run that ends VERIFIED has recorded can be registered: each quarantine has its row, and no two
      the same target. */
  lemma VerifiedIsRegistrable(id: string, plan: Plan, orig: FileMap, choices: seq<Choice>, t: Table)
    requires SourcesApart(plan) && forall r <- t :: r.plan != id
    ensures var c := Run(plan, Initial(plan, orig), choices); c.state.Verified? ==> Registrable(id, plan, c.rows, t)
  {
    var c := Run(plan, Initial(plan, orig), choices);
    VerifiedTellsTruth(plan, orig, choices);
    if c.state.Verified? {
      forall i, k | 0 <= i < k < |plan| && IsQuarantine(plan[i]) && IsQuarantine(plan[k])
        ensures c.rows[i].Row? && c.rows[k].Row? && c.rows[i].target != c.rows[k].target
      {
        assert ProvesAction(plan[i], c.rows[i]) && ProvesAction(plan[k], c.rows[k]);
        assert LandedAt(plan, c.rows, i, c.rows[i].target) && LandedAt(plan, c.rows, k, c.rows[k].target);
      }
      forall k | 0 <= k < |plan| && IsQuarantine(plan[k]) ensures c.rows[k].Row? {
        assert ProvesAction(plan[k], c.rows[k]);
      }
    }
  }

  /** In every run, durable VERIFIED with its registration leaves a managed item per quarantine or delete if
      and only if no path the run quarantined to was taken in the table before. */
  lemma VerifiedQuarantinesAreManaged(id: string, plan: Plan, orig: FileMap, choices: seq<Choice>, held: seq<bool>,
        t: Table)
    requires SourcesApart(plan) && |held| == |plan| && forall r <- t :: r.plan != id
    ensures var c := Run(plan, Initial(plan, orig), choices);
      c.state.Verified? && RegisterUpTo(id, plan, c.rows, held, t, |plan|).Ok? ==>
        var t' := RegisterUpTo(id, plan, c.rows, held, t, |plan|).value;
        (forall k :: 0 <= k < |plan| && IsQuarantine(plan[k]) ==> Managed(t', id, k)) <==>
        (forall k :: 0 <= k < |plan| && IsQuarantine(plan[k]) ==> c.rows[k].Row? && !PathTaken(t, c.rows[k].target))
  {
    var c := Run(plan, Initial(plan, orig), choices);
    VerifiedIsRegistrable(id, plan, orig, choices, t);
    if c.state.Verified? && RegisterUpTo(id, plan, c.rows, held, t, |plan|).Ok? {
      EveryQuarantineIsManaged(id, plan, c.rows, held, t);
    }
  }

  /** The failing family is real: an item that was quarantined and restored keeps its path. */
  lemma RestoredPathIsNotManaged()
    ensures var plan := [Action(Quarantine, "s", "", "s", Sha256("1"), 1)];
      var rows := [Row(Quarantine, "s", "q/s", Sha256("1"), 1, Done, NotTried)];
      var t := [ItemRow("earlier", 0, "s", "q/s", Sha256("1"), 1, Quarantined)];
      ProvesSuccess(plan, rows) && RegisterUpTo("later", plan, rows, [false], t, 1) == Ok(t) && !Managed(t, "later", 0)
  {
    var rows := [Row(Quarantine, "s", "q/s", Sha256("1"), 1, Done, NotTried)];
    var t := [ItemRow("earlier", 0, "s", "q/s", Sha256("1"), 1, Quarantined)];
    assert t[0] in t && Clashes(t[0], RowFor("later", 0, rows[0], false));
  }
}
