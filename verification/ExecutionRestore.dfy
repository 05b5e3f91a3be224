/** What undoing restores: the file map is, at every crash point, explained by the original
    map and by how far each action got; once every action is undone nothing else is left. */
module ExecutionRestore {
  import opened Files
  import opened ExecutionMachine

  /******* Explaining the file map *******/

  /** No action takes away a file that another one acts on; several copies of one file are fine. */
  predicate SourcesApart(plan: Plan) {
    forall i, k :: 0 <= i < k < |plan| && plan[i].kind.TouchesFiles() && plan[k].kind.TouchesFiles() &&
                   (plan[i].kind.Relocates() || plan[k].kind.Relocates()) ==>
      plan[i].path != plan[k].path
  }

  ghost function Sources(plan: Plan): set<Path> {
    set k | 0 <= k < |plan| && plan[k].kind.TouchesFiles() :: plan[k].path
  }

  /** The file exists at `dst` and is this action's. */
  predicate Holds(w: Progress) { w.Applied? || w.Jammed? }
  predicate Occupies(w: Progress) { Holds(w) || w.Spilt? }
  predicate Vacates(a: Action, w: Progress) { (w.Applied? && a.kind.Relocates()) || w.Jammed? }

  ghost function Occupied(ws: seq<Progress>): set<Path> {
    set k | 0 <= k < |ws| && Occupies(ws[k]) :: ws[k].dst
  }

  ghost function Vacated(plan: Plan, ws: seq<Progress>): set<Path>
    requires |ws| == |plan|
  {
    set k | 0 <= k < |ws| && Vacates(plan[k], ws[k]) :: plan[k].path
  }

  ghost predicate Single(a: Action, w: Progress, orig: FileMap, sources: set<Path>) {
    w.Idle? ||
    (&& (a.kind.Relocates() || a.kind.Copy?)
     && (a.kind.PicksQuarantinePath() || w.dst == a.target)
     && !w.Lost?
     && (w.Jammed? ==> a.kind.Relocates())
     && (w.dst in orig ==> w.dst in sources))
  }

  /** Action k was given a destination that action i, if it is i's source, had vacated before,
      and while the destination is occupied i has not been taken back. */
  predicate Ordered(a: Action, i: int, wi: Progress, k: int, wk: Progress) {
    !wk.Idle? && a.kind.TouchesFiles() && wk.dst == a.path ==>
      i < k && a.kind.Relocates() && (Occupies(wk) ==> wi.Applied?)
  }

  ghost predicate Consistent(plan: Plan, ws: seq<Progress>, orig: FileMap) {
    && |ws| == |plan|
    && (forall k :: 0 <= k < |plan| ==> Single(plan[k], ws[k], orig, Sources(plan)))
    && (forall i, k :: 0 <= i < k < |plan| && !ws[i].Idle? && !ws[k].Idle? ==> ws[i].dst != ws[k].dst)
    && (forall i, k :: 0 <= i < |plan| && 0 <= k < |plan| ==> Ordered(plan[i], i, ws[i], k, ws[k]))
  }

  ghost predicate HeldAt(a: Action, w: Progress, files: FileMap) {
    Occupies(w) ==> w.dst in files && (Holds(w) ==> Sha256(files[w.dst]) == a.digest)
  }

  ghost predicate Explains(plan: Plan, orig: FileMap, ws: seq<Progress>, files: FileMap) {
    && Consistent(plan, ws, orig)
    && (forall k :: 0 <= k < |plan| ==> HeldAt(plan[k], ws[k], files))
    && (forall k :: 0 <= k < |plan| && ws[k].Applied? && plan[k].kind.Relocates() ==>
          plan[k].path in Occupied(ws) || plan[k].path !in files)
    && (forall p :: p in Occupied(ws) || p in Vacated(plan, ws) || SameAt(files, orig, p))
  }

  /******* One change at a time *******/

  lemma OccupiedAfter(ws: seq<Progress>, k: nat, w: Progress)
    requires k < |ws|
    requires forall i :: 0 <= i < |ws| && i != k && Occupies(ws[i]) && Occupies(ws[k]) ==> ws[i].dst != ws[k].dst
    ensures Occupied(ws[k := w]) ==
      (if Occupies(ws[k]) then Occupied(ws) - {ws[k].dst} else Occupied(ws)) + (if Occupies(w) then {w.dst} else {})
  {
    var ws' := ws[k := w];
    forall p ensures p in Occupied(ws') <==>
      p in (if Occupies(ws[k]) then Occupied(ws) - {ws[k].dst} else Occupied(ws)) +
          (if Occupies(w) then {w.dst} else {})
    {
      if p in Occupied(ws') {
        var i :| 0 <= i < |ws'| && Occupies(ws'[i]) && ws'[i].dst == p;
      }
      if p in Occupied(ws) && !(Occupies(ws[k]) && p == ws[k].dst) {
        var i :| 0 <= i < |ws| && Occupies(ws[i]) && ws[i].dst == p;
        assert ws'[i] == ws[i];
      }
      if Occupies(w) { assert ws'[k] == w; }
    }
  }

  lemma VacatedAfter(plan: Plan, ws: seq<Progress>, k: nat, w: Progress)
    requires |ws| == |plan| && k < |ws| && SourcesApart(plan)
    requires forall i :: 0 <= i < |plan| && Vacates(plan[i], ws[i]) ==> plan[i].kind.Relocates()
    requires plan[k].kind.TouchesFiles() && (Vacates(plan[k], w) ==> plan[k].kind.Relocates())
    ensures Vacated(plan, ws[k := w]) ==
      Vacated(plan, ws) - {plan[k].path} + (if Vacates(plan[k], w) then {plan[k].path} else {})
  {
    var ws' := ws[k := w];
    forall p ensures p in Vacated(plan, ws') <==>
      p in Vacated(plan, ws) - {plan[k].path} + (if Vacates(plan[k], w) then {plan[k].path} else {})
    {
      if p in Vacated(plan, ws') {
        var i :| 0 <= i < |ws'| && Vacates(plan[i], ws'[i]) && plan[i].path == p;
        if i != k { assert ws[i] == ws'[i]; }
      }
      if p in Vacated(plan, ws) && p != plan[k].path {
        var i :| 0 <= i < |ws| && Vacates(plan[i], ws[i]) && plan[i].path == p;
        assert ws'[i] == ws[i];
      }
      if Vacates(plan[k], w) { assert ws'[k] == w; }
    }
  }

  /** What the new progress of one action must satisfy beside the others. */
  ghost predicate Fits(plan: Plan, ws: seq<Progress>, orig: FileMap, k: nat, w: Progress)
    requires |ws| == |plan| && k < |plan|
  {
    && Single(plan[k], w, orig, Sources(plan))
    && Ordered(plan[k], k, w, k, w)
    && (forall i :: 0 <= i < |plan| && i != k ==>
          && (w.Idle? || ws[i].Idle? || ws[i].dst != w.dst)
          && Ordered(plan[i], i, ws[i], k, w)
          && Ordered(plan[k], k, w, i, ws[i]))
  }

  lemma ConsistentAfter(plan: Plan, ws: seq<Progress>, orig: FileMap, k: nat, w: Progress)
    requires Consistent(plan, ws, orig) && k < |plan| && Fits(plan, ws, orig, k, w)
    ensures Consistent(plan, ws[k := w], orig)
  {
    var ws' := ws[k := w];
    forall i, j | 0 <= i < |plan| && 0 <= j < |plan|
      ensures Ordered(plan[i], i, ws'[i], j, ws'[j])
      ensures i < j && !ws'[i].Idle? && !ws'[j].Idle? ==> ws'[i].dst != ws'[j].dst
    {
      assert Ordered(plan[i], i, ws[i], j, ws[j]);
    }
  }

  /** A file map that differs only at the source and the destination `d` of one action. */
  lemma ExplainsAfter(plan: Plan, orig: FileMap, ws: seq<Progress>, files: FileMap,
                      k: nat, w: Progress, d: Path, files': FileMap)
    requires Explains(plan, orig, ws, files) && SourcesApart(plan)
    requires k < |plan| && plan[k].kind.TouchesFiles() && Fits(plan, ws, orig, k, w)
    requires (w.Idle? || w.dst == d) && (ws[k].Idle? || ws[k].dst == d) && d != plan[k].path
    requires forall i :: 0 <= i < |plan| && i != k && Occupies(ws[i]) ==> ws[i].dst != d
    requires forall p :: p == plan[k].path || p == d || SameAt(files', files, p)
    requires HeldAt(plan[k], w, files')
    requires plan[k].path in Occupied(ws) ==> SameAt(files', files, plan[k].path)
    requires w.Applied? && plan[k].kind.Relocates() ==> plan[k].path in Occupied(ws) || plan[k].path !in files'
    requires !Vacates(plan[k], w) ==> plan[k].path in Occupied(ws) || SameAt(files', orig, plan[k].path)
    requires !Occupies(w) ==> d !in files' && (d in Vacated(plan, ws) || d !in orig)
    ensures Explains(plan, orig, ws[k := w], files')
  {
    var ws' := ws[k := w];
    ConsistentAfter(plan, ws, orig, k, w);
    OccupiedAfter(ws, k, w);
    VacatedAfter(plan, ws, k, w);
    forall i | 0 <= i < |plan| ensures HeldAt(plan[i], ws'[i], files') {
      if i != k && Occupies(ws[i]) {
        assert HeldAt(plan[i], ws[i], files);
        assert ws[i].dst in Occupied(ws);
        assert SameAt(files', files, ws[i].dst);
      }
    }
    forall i | 0 <= i < |plan| && ws'[i].Applied? && plan[i].kind.Relocates()
      ensures plan[i].path in Occupied(ws') || plan[i].path !in files'
    {
      if i != k {
        assert plan[i].path != plan[k].path;
        if plan[i].path != d { assert SameAt(files', files, plan[i].path); }
      }
    }
    forall p ensures p in Occupied(ws') || p in Vacated(plan, ws') || SameAt(files', orig, p) {
      if p != plan[k].path && p != d { assert SameAt(files', files, p); }
    }
  }

  /** A free destination is nobody's, and the source of the next action is still what it was. */
  lemma NextIsIntact(plan: Plan, orig: FileMap, ws: seq<Progress>, files: FileMap, k: nat, to: Path)
    requires Explains(plan, orig, ws, files) && SourcesApart(plan) && Fresh(plan, orig)
    requires k < |plan| && plan[k].kind.TouchesFiles()
    requires forall i :: k <= i < |plan| ==> ws[i].Idle?
    requires to !in files && plan[k].path in files
    ensures to !in Occupied(ws) && (to in orig ==> to in Vacated(plan, ws))
    ensures plan[k].path !in Vacated(plan, ws) && plan[k].path !in Occupied(ws)
    ensures SameAt(files, orig, plan[k].path)
  {
    assert to !in Vacated(plan, ws) ==> SameAt(files, orig, to);
  }

  lemma OpenForward(plan: Plan, orig: FileMap, ws: seq<Progress>, files: FileMap, k: nat, to: Path, junk: Bytes)
    requires Explains(plan, orig, ws, files) && SourcesApart(plan) && Fresh(plan, orig)
    requires k < |plan| && (plan[k].kind.Relocates() || plan[k].kind.Copy?)
    requires plan[k].kind.PicksQuarantinePath() || to == plan[k].target
    requires forall i :: k <= i < |plan| ==> ws[i].Idle?
    requires forall i :: 0 <= i < k && plan[i].kind.TouchesFiles() ==> ws[i].Applied?
    requires to !in files && plan[k].path in files
    ensures Explains(plan, orig, ws[k := Spilt(to)], files[to := junk])
  {
    NextIsIntact(plan, orig, ws, files, k, to);
    forall i | 0 <= i < |plan| && i != k ensures Ordered(plan[i], i, ws[i], k, Spilt(to)) {
      if plan[i].path == to && plan[i].kind.TouchesFiles() {
        assert to in orig;
        var j :| 0 <= j < |ws| && Vacates(plan[j], ws[j]) && plan[j].path == to;
      }
    }
    ExplainsAfter(plan, orig, ws, files, k, Spilt(to), to, files[to := junk]);
  }

  /** While its destination is only Spilt, an action's source path is as it was. */
  lemma SpiltSource(plan: Plan, orig: FileMap, ws: seq<Progress>, files: FileMap, k: nat)
    requires Explains(plan, orig, ws, files) && SourcesApart(plan)
    requires k < |plan| && ws[k].Spilt?
    ensures plan[k].path !in Occupied(ws) && plan[k].path !in Vacated(plan, ws)
    ensures SameAt(files, orig, plan[k].path) && ws[k].dst != plan[k].path
  {
    assert Ordered(plan[k], k, ws[k], k, ws[k]);
    assert Single(plan[k], ws[k], orig, Sources(plan));
  }

  lemma FillForward(plan: Plan, orig: FileMap, ws: seq<Progress>, files: FileMap, k: nat, bytes: Bytes)
    requires Explains(plan, orig, ws, files) && SourcesApart(plan)
    requires k < |plan| && ws[k].Spilt?
    ensures Explains(plan, orig, ws, files[ws[k].dst := bytes])
  {
    SpiltSource(plan, orig, ws, files, k);
    assert ws[k := ws[k]] == ws;
    assert Single(plan[k], ws[k], orig, Sources(plan));
    ExplainsAfter(plan, orig, ws, files, k, ws[k], ws[k].dst, files[ws[k].dst := bytes]);
  }

  lemma AbortForward(plan: Plan, orig: FileMap, ws: seq<Progress>, files: FileMap, k: nat)
    requires Explains(plan, orig, ws, files) && SourcesApart(plan) && Fresh(plan, orig)
    requires k < |plan| && ws[k].Spilt?
    ensures Explains(plan, orig, ws[k := Idle], files - {ws[k].dst})
  {
    SpiltSource(plan, orig, ws, files, k);
    var d := ws[k].dst;
    assert Single(plan[k], ws[k], orig, Sources(plan));
    assert d in orig ==> d in Vacated(plan, ws) by { DestinationVacated(plan, orig, ws, k); }
    forall i | 0 <= i < |plan| && i != k ensures Ordered(plan[k], k, Idle, i, ws[i]) {
      assert Ordered(plan[k], k, ws[k], i, ws[i]);
    }
    ExplainsAfter(plan, orig, ws, files, k, Idle, d, files - {d});
  }

  /** An occupied destination that the original map had is one an earlier action vacated. */
  lemma DestinationVacated(plan: Plan, orig: FileMap, ws: seq<Progress>, k: nat)
    requires Consistent(plan, ws, orig) && k < |plan| && Occupies(ws[k])
    ensures ws[k].dst in orig ==> ws[k].dst in Vacated(plan, ws)
    ensures ws[k].dst != plan[k].path
  {
    assert Single(plan[k], ws[k], orig, Sources(plan));
    assert Ordered(plan[k], k, ws[k], k, ws[k]);
    if ws[k].dst in orig {
      var i :| 0 <= i < |plan| && plan[i].kind.TouchesFiles() && plan[i].path == ws[k].dst;
      assert Ordered(plan[i], i, ws[i], k, ws[k]);
    }
  }

  lemma FinishForward(plan: Plan, orig: FileMap, ws: seq<Progress>, files: FileMap, k: nat)
    requires Explains(plan, orig, ws, files) && SourcesApart(plan)
    requires k < |plan| && ws[k].Spilt? && Sha256(files[ws[k].dst]) == plan[k].digest
    ensures plan[k].kind.Relocates() ==>
              Explains(plan, orig, ws[k := Applied(ws[k].dst)], files - {plan[k].path})
    ensures plan[k].kind.Copy? ==> Explains(plan, orig, ws[k := Applied(ws[k].dst)], files)
  {
    SpiltSource(plan, orig, ws, files, k);
    assert Single(plan[k], ws[k], orig, Sources(plan));
    assert HeldAt(plan[k], ws[k], files);
    var files' := if plan[k].kind.Relocates() then files - {plan[k].path} else files;
    ExplainsAfter(plan, orig, ws, files, k, Applied(ws[k].dst), ws[k].dst, files');
  }

  lemma OpenBackward(plan: Plan, orig: FileMap, ws: seq<Progress>, files: FileMap, k: nat, files': FileMap)
    requires Explains(plan, orig, ws, files) && SourcesApart(plan)
    requires k < |plan| && Holds(ws[k]) && plan[k].kind.Relocates()
    requires plan[k].path !in files || ws[k].Jammed?
    requires forall p :: p == plan[k].path || SameAt(files', files, p)
    ensures Explains(plan, orig, ws[k := Jammed(ws[k].dst)], files')
  {
    var w := Jammed(ws[k].dst);
    assert Single(plan[k], ws[k], orig, Sources(plan));
    DestinationVacated(plan, orig, ws, k);
    assert HeldAt(plan[k], ws[k], files);
    assert SameAt(files', files, ws[k].dst);
    assert plan[k].path !in Occupied(ws);
    forall i | 0 <= i < |plan| && i != k ensures Ordered(plan[k], k, w, i, ws[i]) {
      assert Ordered(plan[k], k, ws[k], i, ws[i]);
      if Occupies(ws[i]) { assert ws[i].dst in Occupied(ws); }
    }
    ExplainsAfter(plan, orig, ws, files, k, w, ws[k].dst, files');
  }

  /** No destination lies on the source of an action that is jammed or that copies. */
  lemma SourceFree(plan: Plan, orig: FileMap, ws: seq<Progress>, files: FileMap, k: nat)
    requires Consistent(plan, ws, orig) && k < |plan|
    requires ws[k].Jammed? || plan[k].kind.Copy?
    ensures plan[k].path !in Occupied(ws)
  {
    assert Single(plan[k], ws[k], orig, Sources(plan));
  }

  lemma CopyKeepsSource(plan: Plan, orig: FileMap, ws: seq<Progress>, k: nat)
    requires Consistent(plan, ws, orig) && SourcesApart(plan) && k < |plan|
    ensures plan[k].kind.Copy? ==> plan[k].path !in Vacated(plan, ws)
  {
    assert Single(plan[k], ws[k], orig, Sources(plan));
  }

  lemma FinishBackward(plan: Plan, orig: FileMap, ws: seq<Progress>, files: FileMap, k: nat)
    requires Explains(plan, orig, ws, files) && SourcesApart(plan) && Fresh(plan, orig)
    requires k < |plan|
    requires || (ws[k].Jammed? && plan[k].path in files && Sha256(files[plan[k].path]) == plan[k].digest)
             || (ws[k].Applied? && plan[k].kind.Copy?)
    ensures Explains(plan, orig, ws[k := Undone(ws[k].dst)], files - {ws[k].dst})
  {
    var d, w := ws[k].dst, Undone(ws[k].dst);
    assert Single(plan[k], ws[k], orig, Sources(plan));
    DestinationVacated(plan, orig, ws, k);
    assert Sha256(orig[plan[k].path]) == plan[k].digest;
    assert plan[k].path !in Occupied(ws) by { SourceFree(plan, orig, ws, files, k); }
    assert ws[k].Applied? ==> plan[k].path !in Vacated(plan, ws) by { CopyKeepsSource(plan, orig, ws, k); }
    assert SameAt(files - {d}, orig, plan[k].path);
    forall i | 0 <= i < |plan| && i != k ensures Ordered(plan[k], k, w, i, ws[i]) {
      assert Ordered(plan[k], k, ws[k], i, ws[i]);
      if Occupies(ws[i]) { assert ws[i].dst in Occupied(ws); }
    }
    ExplainsAfter(plan, orig, ws, files, k, w, d, files - {d});
  }
}
