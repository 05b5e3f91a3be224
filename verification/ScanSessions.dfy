/** Scan sessions over one unchanged tree: the file rows and the checkpoints they leave behind,
    however often a session crashes, is aborted, loses its network source or is resumed. */
module ScanSessions {
  import opened Collections
  import opened PathOrder
  import opened Scanner

  datatype RowStatus = Active | Missing | Unavailable
  type Rows = map<string, RowStatus>

  datatype CheckpointStatus = Running | Aborted | PausedNetwork | Completed
  datatype Checkpoint = Checkpoint(boundary: string, status: CheckpointStatus)

  datatype World = World(options: Options, root: string, tree: Node)

  datatype Session =
    | NoSession
    /** `cache` holds the rows active at the start, `done` counts the walk's events so far and
        `start`, a history variable, is what the rows were then. */
    | Walking(id: nat, resume: string, cache: set<string>, done: nat, start: Rows)
    | Closing(id: nat, outcome: CheckpointStatus)

  datatype State = State(rows: Rows, checkpoints: seq<Checkpoint>, session: Session)

  datatype Choice =
    | Begin(resume: bool, fullScan: bool)
    | Next   // the walk's next event; a completed directory moves the durable boundary
    | Save   // pending rows are written, and nothing else
    | Crash
    | Abort
    | Pause  // the network source is gone
    | Finish // reconciliation
    | Close  // the checkpoint's outcome

  function Events(w: World, resume: string): seq<Event> {
    Walk(Resumed(w.options, resume), w.root, w.tree)
  }

  function Files(w: World): seq<string> {
    Visits(Walk(w.options, w.root, w.tree))
  }

  /******* Store operations *******/

  /** The file status of a row that exists already is left alone. */
  function UpsertFiles(rows: Rows, paths: seq<string>): Rows {
    map p | p in rows.Keys + (set q | q in paths) :: if p in rows then rows[p] else Active
  }

  function MarkFilesMissing(rows: Rows, seen: set<string>): Rows {
    map p | p in rows :: if p !in seen && (rows[p].Active? || rows[p].Unavailable?) then Missing else rows[p]
  }

  function MarkFilesUnavailable(rows: Rows, seen: set<string>): Rows {
    map p | p in rows :: if p !in seen && rows[p].Active? then Unavailable else rows[p]
  }

  function ActiveRows(rows: Rows): set<string> {
    set p | p in rows && rows[p].Active?
  }

  predicate Resumable(cs: seq<Checkpoint>, i: nat)
    requires i < |cs|
  {
    !cs[i].status.Completed? && forall j :: i < j < |cs| ==> !cs[j].status.Completed?
  }

  /** LastCheckpoint: the latest that is not completed and that no completed one follows. */
  function LastCheckpoint(cs: seq<Checkpoint>): (r: Option<nat>)
    ensures r.Some? ==> r.value < |cs| && Resumable(cs, r.value) && r.value == |cs| - 1
    ensures r.None? ==> forall i :: 0 <= i < |cs| ==> !Resumable(cs, i)
  {
    if cs == [] || cs[|cs| - 1].status.Completed? then None else Some(|cs| - 1)
  }

  function Seen(w: World, resume: string, cache: set<string>, done: nat): set<string>
    requires done <= |Events(w, resume)|
  {
    (set p | p in cache && resume != "" && AtMost(p, resume)) +
    (set p | p in Visits(Events(w, resume)[..done]))
  }

  /******* Steps *******/

  predicate InRange(w: World, s: State) {
    match s.session
    case NoSession => true
    case Walking(id, resume, _, done, _) => id < |s.checkpoints| && done <= |Events(w, resume)|
    case Closing(id, _) => id < |s.checkpoints|
  }

  function SetStatus(cs: seq<Checkpoint>, id: nat, status: CheckpointStatus): (r: seq<Checkpoint>)
    requires id < |cs|
    ensures |r| == |cs|
  {
    cs[id := cs[id].(status := status)]
  }

  function Step(w: World, s: State, choice: Choice): (s': State)
    requires InRange(w, s)
    ensures InRange(w, s')
  {
    match s.session
    case NoSession =>
      if !choice.Begin? then s else StepBegin(s, choice.resume && !choice.fullScan, choice.fullScan)
    case Walking(id, resume, _, done, _) =>
      var events := Events(w, resume);
      (match choice
       case Crash => s.(session := NoSession)
       case Abort => s.(checkpoints := SetStatus(s.checkpoints, id, Aborted), session := NoSession)
       case Save => s.(rows := UpsertFiles(s.rows, Visits(events[..done])))
       case Next => if done < |events| then StepNext(w, s) else s
       case Pause => Reconcile(w, s, false, PausedNetwork)
       case Finish => if done < |events| then s else Reconcile(w, s, NoFailure(events), Completed)
       case _ => s)
    case Closing(id, outcome) =>
      if choice.Crash? then s.(session := NoSession)
      else if choice.Close? then s.(checkpoints := SetStatus(s.checkpoints, id, outcome), session := NoSession)
      else s
  }

  /** Pending rows are written, then the rows of unseen files are marked. */
  function Reconcile(w: World, s: State, complete: bool, outcome: CheckpointStatus): State
    requires InRange(w, s) && s.session.Walking?
  {
    var Walking(id, resume, cache, done, start) := s.session;
    var saved := UpsertFiles(s.rows, Visits(Events(w, resume)[..done]));
    var seen := Seen(w, resume, cache, done);
    s.(rows := if complete then MarkFilesMissing(saved, seen) else MarkFilesUnavailable(saved, seen),
       session := Closing(id, outcome))
  }

  function StepBegin(s: State, resume: bool, fullScan: bool): State {
    var cache := if fullScan then {} else ActiveRows(s.rows);
    var last := LastCheckpoint(s.checkpoints);
    if resume && last.Some? then
      s.(session := Walking(last.value, s.checkpoints[last.value].boundary, cache, 0, s.rows))
    else
      s.(checkpoints := s.checkpoints + [Checkpoint("", Running)],
         session := Walking(|s.checkpoints|, "", cache, 0, s.rows))
  }

  function StepNext(w: World, s: State): State
    requires InRange(w, s) && s.session.Walking? && s.session.done < |Events(w, s.session.resume)|
  {
    var Walking(id, resume, cache, done, start) := s.session;
    var events := Events(w, resume);
    var on := s.(session := s.session.(done := done + 1));
    if events[done].Leave? && OffersBoundary(events[..done]) then
      on.(rows := UpsertFiles(s.rows, Visits(events[..done])),
          checkpoints := s.checkpoints[id := s.checkpoints[id].(boundary := Boundary(events[..done]))])
    else on
  }

  function Run(w: World, s: State, choices: seq<Choice>): (s': State)
    requires InRange(w, s)
    ensures InRange(w, s')
    decreases |choices|
  {
    if choices == [] then s else Run(w, Step(w, s, choices[0]), choices[1..])
  }

  /******* Safe boundaries *******/

  predicate Sound(w: World) {
    Plain(w.options) && WellFormed(w.tree) && w.tree.Dir?
  }

  /** Every visible file at or below the boundary has a row, and no unreadable subtree lies below it. */
  ghost predicate SafeBoundary(w: World, rows: Rows, boundary: string) {
    && (forall p <- Files(w) :: Pruned(boundary, p, false) ==> p in rows)
    && (forall e <- Walk(w.options, w.root, w.tree) :: e.Fail? ==> !Covered(e, boundary))
  }

  ghost predicate Safe(w: World, s: State) {
    && InRange(w, s)
    && (forall c <- s.checkpoints :: SafeBoundary(w, s.rows, c.boundary))
    && (s.session.Walking? ==>
          var Walking(id, resume, cache, done, start) := s.session;
          && SafeBoundary(w, s.rows, resume)
          && (resume != "" ==> cache == ActiveRows(start) && SafeBoundary(w, start, resume))
          && start.Keys <= s.rows.Keys
          && (forall p <- s.rows :: if p in start then s.rows[p] == start[p]
                                    else s.rows[p].Active? && p in Visits(Events(w, resume)[..done])))
  }

  lemma MoreRows(w: World, rows: Rows, rows': Rows, boundary: string)
    requires SafeBoundary(w, rows, boundary) && rows.Keys <= rows'.Keys
    ensures SafeBoundary(w, rows', boundary)
  {
  }

  lemma NewBoundaryIsSafe(w: World, rows: Rows, resume: string, done: nat)
    requires Sound(w) && SafeBoundary(w, rows, resume) && done <= |Events(w, resume)|
    requires OffersBoundary(Events(w, resume)[..done])
    ensures SafeBoundary(w, UpsertFiles(rows, Visits(Events(w, resume)[..done])), Boundary(Events(w, resume)[..done]))
  {
    var made := Events(w, resume)[..done];
    var full := Walk(w.options, w.root, w.tree);
    forall e | e in full && !e.Leave? && Covered(e, Boundary(made))
        ensures Covered(e, resume) || (e.Visit? && e in made) {
      BoundaryIsSafe(w.options, resume, w.root, w.tree, done, e);
    }
    forall p | p in Files(w) && Pruned(Boundary(made), p, false) ensures p in rows || p in Visits(made) {
      VisitMembers(full, p);
      VisitMembers(made, p);
    }
  }

  lemma AllStaySafe(w: World, cs: seq<Checkpoint>, rows: Rows, rows': Rows)
    requires (forall c <- cs :: SafeBoundary(w, rows, c.boundary)) && rows.Keys <= rows'.Keys
    ensures forall c <- cs :: SafeBoundary(w, rows', c.boundary)
  {
    forall c | c in cs ensures SafeBoundary(w, rows', c.boundary) { MoreRows(w, rows, rows', c.boundary); }
  }

  lemma StatusIsNoBoundary(w: World, cs: seq<Checkpoint>, rows: Rows, id: nat, status: CheckpointStatus)
    requires id < |cs| && forall c <- cs :: SafeBoundary(w, rows, c.boundary)
    ensures forall c <- SetStatus(cs, id, status) :: SafeBoundary(w, rows, c.boundary)
  {
    forall c | c in SetStatus(cs, id, status) ensures SafeBoundary(w, rows, c.boundary) {
      var i :| 0 <= i < |cs| && SetStatus(cs, id, status)[i] == c;
      assert cs[i] in cs;
    }
  }

  lemma BeginIsSafe(w: World, s: State, choice: Choice)
    requires Safe(w, s) && s.session.NoSession?
    ensures Safe(w, Step(w, s, choice))
  {
    if choice.Begin? {
      var s' := Step(w, s, choice);
      assert SafeBoundary(w, s.rows, "");
      assert Events(w, s'.session.resume)[..0] == [];
      if |s'.checkpoints| == |s.checkpoints| {
        assert s.checkpoints[s'.session.id] in s.checkpoints;
      }
    }
  }

  lemma MovedBoundaryIsSafe(w: World, cs: seq<Checkpoint>, rows: Rows, id: nat, boundary: string)
    requires id < |cs| && (forall c <- cs :: SafeBoundary(w, rows, c.boundary)) && SafeBoundary(w, rows, boundary)
    ensures forall c <- cs[id := cs[id].(boundary := boundary)] :: SafeBoundary(w, rows, c.boundary)
  {
    var cs' := cs[id := cs[id].(boundary := boundary)];
    forall c | c in cs' ensures SafeBoundary(w, rows, c.boundary) {
      var i :| 0 <= i < |cs'| && cs'[i] == c;
      if i != id { assert cs[i] in cs; }
    }
  }

  lemma NextIsSafe(w: World, s: State)
    requires Safe(w, s) && Sound(w) && s.session.Walking? && s.session.done < |Events(w, s.session.resume)|
    ensures Safe(w, StepNext(w, s))
  {
    var Walking(id, resume, cache, done, start) := s.session;
    var events := Events(w, resume);
    var s' := StepNext(w, s);
    assert events[..done + 1] == events[..done] + [events[done]];
    VisitsOfBoth(events[..done], [events[done]]);
    MoreRows(w, s.rows, s'.rows, resume);
    if events[done].Leave? && OffersBoundary(events[..done]) {
      NewBoundaryIsSafe(w, s.rows, resume, done);
      AllStaySafe(w, s.checkpoints, s.rows, s'.rows);
      MovedBoundaryIsSafe(w, s.checkpoints, s'.rows, id, Boundary(events[..done]));
    }
  }

  lemma StepIsSafe(w: World, s: State, choice: Choice)
    requires Safe(w, s) && Sound(w)
    ensures Safe(w, Step(w, s, choice))
  {
    var s' := Step(w, s, choice);
    match s.session
    case NoSession => BeginIsSafe(w, s, choice);
    case Walking(id, resume, cache, done, start) =>
      if choice.Next? && done < |Events(w, resume)| {
        NextIsSafe(w, s);
      } else {
        AllStaySafe(w, s.checkpoints, s.rows, s'.rows);
        StatusIsNoBoundary(w, s.checkpoints, s'.rows, id, Aborted);
        MoreRows(w, s.rows, s'.rows, resume);
      }
    case Closing(id, outcome) => StatusIsNoBoundary(w, s.checkpoints, s.rows, id, outcome);
  }

  /** Over any number of sessions every durable boundary stays safe to resume from. */
  lemma {:induction false} RunIsSafe(w: World, s: State, choices: seq<Choice>)
    requires Safe(w, s) && Sound(w)
    ensures Safe(w, Run(w, s, choices))
    decreases |choices|
  {
    if choices != [] {
      StepIsSafe(w, s, choices[0]);
      RunIsSafe(w, Step(w, s, choices[0]), choices[1..]);
    }
  }

  /******* What a finishing session decides *******/

  /** The walk is over and met no unreadable directory or file. */
  predicate CompleteCoverage(w: World, s: State)
    requires InRange(w, s)
  {
    s.session.Walking? && s.session.done == |Events(w, s.session.resume)| && NoFailure(Events(w, s.session.resume))
  }

  lemma FilesAreSeen(w: World, resume: string, p: string)
    requires Sound(w)
    ensures p in Visits(Events(w, resume)) <==> p in Files(w) && !Pruned(resume, p, false)
  {
    ResumedMembers(w.options, resume, w.root, w.tree, Visit(p));
    VisitMembers(Events(w, resume), p);
    VisitMembers(Walk(w.options, w.root, w.tree), p);
  }

  /** A finishing scan turns the row of a present file to missing if and only if it resumed at or
      above that file while the file's row was unavailable. */
  lemma MissingThoughPresent(w: World, s: State, p: string)
    requires Safe(w, s) && Sound(w) && CompleteCoverage(w, s) && p in Files(w)
    ensures var s' := Step(w, s, Finish);
      && p in s'.rows
      && (s'.rows[p].Missing? && !(p in s.rows && s.rows[p].Missing?) <==>
          Pruned(s.session.resume, p, false) && s.session.start[p].Unavailable?)
  {
    var Walking(id, resume, cache, done, start) := s.session;
    assert Events(w, resume)[..done] == Events(w, resume);
    FilesAreSeen(w, resume, p);
    if Pruned(resume, p, false) { assert p in start && p in s.rows; }
  }

  /** A scan that finishes without resuming leaves exactly the present files active if and only if
      no present file had an inactive row when it began. */
  lemma CleanScanMatchesTheTree(w: World, s: State)
    requires Safe(w, s) && Sound(w) && CompleteCoverage(w, s) && s.session.resume == ""
    ensures var start := s.session.start;
      ActiveRows(Step(w, s, Finish).rows) == (set p | p in Files(w)) <==>
      forall p <- Files(w) :: p in start ==> start[p].Active?
  {
    var Walking(id, resume, cache, done, start) := s.session;
    var rows' := Step(w, s, Finish).rows;
    assert Events(w, resume)[..done] == Events(w, resume);
    forall p ensures p in ActiveRows(rows') <==> p in Files(w) && (p in start ==> start[p].Active?) {
      FilesAreSeen(w, resume, p);
    }
    if ActiveRows(rows') == set p | p in Files(w) {
      forall p | p in Files(w) ensures p in start ==> start[p].Active? { assert p in ActiveRows(rows'); }
    }
  }

  /******* Runs that never lose the network source *******/

  ghost predicate PresentStayActive(w: World, s: State) {
    && (forall p <- Files(w) :: p in s.rows ==> s.rows[p].Active?)
    && (s.session.Walking? ==> forall p <- Files(w) :: p in s.session.start ==> s.session.start[p].Active?)
    && (s.session.Closing? ==> !s.session.outcome.PausedNetwork?)
  }

  lemma ReconcileKeepsPresent(w: World, s: State)
    requires Safe(w, s) && Sound(w) && PresentStayActive(w, s)
    requires s.session.Walking? && s.session.done == |Events(w, s.session.resume)|
    ensures var rows' := Reconcile(w, s, NoFailure(Events(w, s.session.resume)), Completed).rows;
      forall p <- Files(w) :: p in rows' ==> rows'[p].Active?
  {
    var Walking(id, resume, cache, done, start) := s.session;
    assert Events(w, resume)[..done] == Events(w, resume);
    var rows' := Reconcile(w, s, NoFailure(Events(w, resume)), Completed).rows;
    forall p | p in Files(w) && p in rows' ensures rows'[p].Active? {
      FilesAreSeen(w, resume, p);
      if Pruned(resume, p, false) { assert p in start && p in cache; }
    }
  }

  lemma UpsertKeepsActive(rows: Rows, paths: seq<string>)
    ensures forall p <- UpsertFiles(rows, paths) :: UpsertFiles(rows, paths)[p] == if p in rows then rows[p] else Active
  {
  }

  lemma NextKeepsPresent(w: World, s: State)
    requires InRange(w, s) && PresentStayActive(w, s)
    requires s.session.Walking? && s.session.done < |Events(w, s.session.resume)|
    ensures PresentStayActive(w, StepNext(w, s))
  {
    UpsertKeepsActive(s.rows, Visits(Events(w, s.session.resume)[..s.session.done]));
  }

  lemma StepKeepsPresentActive(w: World, s: State, choice: Choice)
    requires Safe(w, s) && Sound(w) && PresentStayActive(w, s) && !choice.Pause?
    ensures PresentStayActive(w, Step(w, s, choice))
  {
    if s.session.Walking? {
      if choice.Finish? && s.session.done == |Events(w, s.session.resume)| {
        ReconcileKeepsPresent(w, s);
      } else if choice.Next? && s.session.done < |Events(w, s.session.resume)| {
        NextKeepsPresent(w, s);
      } else if choice.Save? {
        UpsertKeepsActive(s.rows, Visits(Events(w, s.session.resume)[..s.session.done]));
      }
    }
  }

  lemma {:induction false} RunKeepsPresentActive(w: World, s: State, choices: seq<Choice>)
    requires Safe(w, s) && Sound(w) && PresentStayActive(w, s) && Pause !in choices
    ensures PresentStayActive(w, Run(w, s, choices))
    decreases |choices|
  {
    if choices != [] {
      StepIsSafe(w, s, choices[0]);
      StepKeepsPresentActive(w, s, choices[0]);
      RunKeepsPresentActive(w, Step(w, s, choices[0]), choices[1..]);
    }
  }

  /** However often sessions crash, abort and resume, no present file is marked missing or
      unavailable as long as no session is paused by its network source. */
  lemma PresentFilesStayActive(w: World, rows: Rows, choices: seq<Choice>)
    requires Sound(w) && Pause !in choices
    requires forall p <- Files(w) :: p in rows ==> rows[p].Active?
    ensures forall p <- Files(w) :: p in Run(w, State(rows, [], NoSession), choices).rows ==>
              Run(w, State(rows, [], NoSession), choices).rows[p].Active?
  {
    RunKeepsPresentActive(w, State(rows, [], NoSession), choices);
  }

  /******* Why the pause matters *******/

  const SMALL: World := World(Options({}, "", Everything), "r", Dir([Entry("a", File)]))

  lemma SmallEvents(resume: string)
    requires resume == "" || resume == "r/a"
    ensures Events(SMALL, resume) == (if resume == "" then [Visit("r/a")] else []) + [Leave("r")]
  {
    var o, a := Resumed(SMALL.options, resume), Entry("a", File);
    assert [a][1..] == [] && Ordered([a]) == [a];
    assert "r" + "/" + "a" == "r/a";
    assert WalkEntry(o, "r/a", a) == if resume == "" then [Visit("r/a")] else [];
    assert WalkList(o, "r", [a]) == WalkEntry(o, "r/a", a) + WalkList(o, "r", []);
  }

  lemma SmallVisits()
    ensures Visits([Visit("r/a")]) == ["r/a"] && Visits([Visit("r/a"), Leave("r")]) == ["r/a"]
  {
    assert [Visit("r/a")][1..] == [] && [Visit("r/a"), Leave("r")][1..] == [Leave("r")] && [Leave("r")][1..] == [];
  }

  /** One file right below the root, as the walk sees it. */
  predicate OneFile(w: World) {
    Events(w, "") == [Visit("r/a"), Leave("r")] && Events(w, "r/a") == [Leave("r")]
  }

  ghost predicate Reached(w: World, s: State) {
    exists choices :: Run(w, State(map[], [], NoSession), choices) == s
  }

  lemma {:induction false} RunOneMore(w: World, s: State, xs: seq<Choice>, x: Choice)
    requires InRange(w, s)
    ensures Run(w, s, xs + [x]) == Step(w, Run(w, s, xs), x)
    decreases |xs|
  {
    if xs == [] {
      assert [] + [x] == [x] && [x][1..] == [];
      assert Run(w, s, [x]) == Run(w, Step(w, s, x), []);
    } else {
      assert (xs + [x])[1..] == xs[1..] + [x];
      RunOneMore(w, Step(w, s, xs[0]), xs[1..], x);
    }
  }

  lemma Onward(w: World, s: State, x: Choice)
    requires Reached(w, s) && InRange(w, s)
    ensures Reached(w, Step(w, s, x))
  {
    var choices :| Run(w, State(map[], [], NoSession), choices) == s;
    RunOneMore(w, State(map[], [], NoSession), choices, x);
  }

  /** One session that writes the row of the file, moves its boundary there and dies. */
  lemma DiesAtTheFile(w: World, s: State, id: nat, cache: set<string>)
    requires OneFile(w) && Reached(w, s)
    requires id < |s.checkpoints| && s.session == Walking(id, "", cache, 0, s.rows)
    ensures Reached(w, State(UpsertFiles(s.rows, ["r/a"]), s.checkpoints[id := s.checkpoints[id].(boundary := "r/a")],
            NoSession))
  {
    VisitsTheFile(w, s, id, cache);
    Onward(w, s, Next);
    var s1 := s.(session := Walking(id, "", cache, 1, s.rows));
    LeavesTheRoot(w, s1, id, cache);
    Onward(w, s1, Next);
    Onward(w, Step(w, s1, Next), Crash);
  }

  lemma VisitsTheFile(w: World, s: State, id: nat, cache: set<string>)
    requires OneFile(w) && id < |s.checkpoints| && s.session == Walking(id, "", cache, 0, s.rows)
    ensures Step(w, s, Next) == s.(session := Walking(id, "", cache, 1, s.rows))
  {
    assert Step(w, s, Next) == StepNext(w, s);
  }

  lemma LeavesTheRoot(w: World, s: State, id: nat, cache: set<string>)
    requires OneFile(w)
    requires id < |s.checkpoints| && s.session == Walking(id, "", cache, 1, s.rows) && InRange(w, s)
    ensures Step(w, s, Next) ==
            State(UpsertFiles(s.rows, ["r/a"]), s.checkpoints[id := s.checkpoints[id].(boundary := "r/a")],
                                          Walking(id, "", cache, 2, s.rows))
  {
    var events := Events(w, "");
    assert events[..1] == [Visit("r/a")] && Visits([Visit("r/a")]) == ["r/a"];
    assert OffersBoundary(events[..1]) && Boundary(events[..1]) == "r/a";
    assert Step(w, s, Next) == StepNext(w, s);
  }

  /** A new session whose source is gone before it sees anything. */
  lemma PausesAtOnce(w: World, rows: Rows, c: Checkpoint)
    requires OneFile(w) && Reached(w, State(rows, [c], NoSession)) && rows == map["r/a" := Active]
    ensures Reached(w, State(map["r/a" := Unavailable], [c, Checkpoint("", PausedNetwork)], NoSession))
  {
    var s := State(rows, [c], NoSession);
    var s1 := State(rows, [c, Checkpoint("", Running)], Walking(1, "", ActiveRows(rows), 0, rows));
    assert Step(w, s, Begin(false, false)) == s1;
    Onward(w, s, Begin(false, false));
    PauseMarksIt(w, s1);
    var s2 := s1.(rows := map["r/a" := Unavailable], session := Closing(1, PausedNetwork));
    Onward(w, s1, Pause);
    Onward(w, s2, Close);
    assert SetStatus(s2.checkpoints, 1, PausedNetwork) == [c, Checkpoint("", PausedNetwork)];
  }

  lemma PauseMarksIt(w: World, s: State)
    requires OneFile(w) && InRange(w, s) && s.rows == map["r/a" := Active] && s.session.Walking?
    requires s.session.id == 1 && s.session.resume == "" && s.session.done == 0
    ensures Step(w, s, Pause) == s.(rows := map["r/a" := Unavailable], session := Closing(1, PausedNetwork))
  {
    assert Events(w, "")[..0] == [] && Visits([]) == [];
    UnseenIsMarked(s.rows);
    assert Seen(w, "", s.session.cache, 0) == {};
    assert Step(w, s, Pause) == Reconcile(w, s, false, PausedNetwork);
  }

  lemma UnseenIsMarked(rows: Rows)
    requires rows.Keys == {"r/a"} && !rows["r/a"].Missing?
    ensures UpsertFiles(rows, []) == rows && MarkFilesMissing(rows, {}) == map["r/a" := Missing]
    ensures MarkFilesUnavailable(rows, {}) == map["r/a" := Unavailable]
  {
  }

  /** A session resumed at the file finishes without visiting it. */
  lemma FinishesAboveTheFile(w: World, c: Checkpoint)
    requires OneFile(w)
    requires Reached(w, State(map["r/a" := Unavailable], [c, Checkpoint("r/a", PausedNetwork)], NoSession))
    ensures exists s :: Reached(w, s) && s.rows == map["r/a" := Missing]
  {
    var rows: Rows := map["r/a" := Unavailable];
    var s := State(rows, [c, Checkpoint("r/a", PausedNetwork)], NoSession);
    var s1 := s.(session := Walking(1, "r/a", {}, 0, rows));
    assert Step(w, s, Begin(true, false)) == s1;
    Onward(w, s, Begin(true, false));
    assert Events(w, "r/a") == [Leave("r")] && Events(w, "r/a")[..0] == [];
    var s2 := s.(session := Walking(1, "r/a", {}, 1, rows));
    assert Visits([]) == [];
    assert Step(w, s1, Next) == s2;
    Onward(w, s1, Next);
    FinishMarksIt(w, s2);
    Onward(w, s2, Finish);
  }

  lemma FinishMarksIt(w: World, s: State)
    requires OneFile(w)
    requires InRange(w, s) && s.rows == map["r/a" := Unavailable] && s.session == Walking(1, "r/a", {}, 1, s.rows)
    ensures Step(w, s, Finish).rows == map["r/a" := Missing]
  {
    var events := Events(w, "r/a");
    assert events[..1] == events && Visits(events) == [] && NoFailure(events) && |events| == 1;
    NothingSeen(w, s, true, Completed);
    UnseenIsMarked(s.rows);
    FinishReconciles(w, s);
  }

  lemma FinishReconciles(w: World, s: State)
    requires InRange(w, s) && s.session.Walking? && s.session.done == |Events(w, s.session.resume)|
    ensures Step(w, s, Finish) == Reconcile(w, s, NoFailure(Events(w, s.session.resume)), Completed)
  {
  }

  lemma NothingSeen(w: World, s: State, complete: bool, outcome: CheckpointStatus)
    requires InRange(w, s) && s.session.Walking? && s.session.cache == {}
    requires Visits(Events(w, s.session.resume)[..s.session.done]) == []
    ensures var saved := UpsertFiles(s.rows, []);
      Reconcile(w, s, complete, outcome).rows ==
        if complete then MarkFilesMissing(saved, {}) else MarkFilesUnavailable(saved, {})
  {
    assert Seen(w, s.session.resume, {}, s.session.done) == {};
  }

  lemma BeginsAgain(w: World, rows: Rows, checkpoints: seq<Checkpoint>)
    requires |checkpoints| == 2 && checkpoints[1] == Checkpoint("", PausedNetwork) && ActiveRows(rows) == {}
    ensures Step(w, State(rows, checkpoints, NoSession), Begin(true, false)) ==
            State(rows, checkpoints, Walking(1, "", {}, 0, rows))
  {
  }

  lemma DiesAgain(w: World, c: Checkpoint)
    requires OneFile(w) && Reached(w, State(map["r/a" := Unavailable], [c, Checkpoint("", PausedNetwork)], NoSession))
    ensures Reached(w, State(map["r/a" := Unavailable], [c, Checkpoint("r/a", PausedNetwork)], NoSession))
  {
    var rows: Rows := map["r/a" := Unavailable];
    var s := State(rows, [c, Checkpoint("", PausedNetwork)], NoSession);
    var s1 := s.(session := Walking(1, "", {}, 0, rows));
    BeginsAgain(w, rows, [c, Checkpoint("", PausedNetwork)]);
    Onward(w, s, Begin(true, false));
    DiesAtTheFile(w, s1, 1, {});
    assert UpsertFiles(rows, ["r/a"]) == rows;
    assert s.checkpoints[1 := Checkpoint("r/a", PausedNetwork)] == [c, Checkpoint("r/a", PausedNetwork)];
  }

  lemma OneFileIsLost(w: World)
    requires OneFile(w)
    ensures exists s :: Reached(w, s) && s.rows == map["r/a" := Missing]
  {
    var s0 := State(map[], [], NoSession);
    assert Run(w, s0, []) == s0;
    var s1 := State(map[], [Checkpoint("", Running)], Walking(0, "", {}, 0, map[]));
    assert Step(w, s0, Begin(false, false)) == s1 by { assert ActiveRows(map[]) == {}; }
    Onward(w, s0, Begin(false, false));
    DiesAtTheFile(w, s1, 0, {});
    var c := Checkpoint("r/a", Running);
    assert UpsertFiles(map[], ["r/a"]) == map["r/a" := Active];
    assert [Checkpoint("", Running)][0 := c] == [c];
    PausesAtOnce(w, map["r/a" := Active], c);
    DiesAgain(w, c);
    FinishesAboveTheFile(w, c);
  }

  lemma SmallIsOneFile()
    ensures OneFile(SMALL) && Sound(SMALL) && Files(SMALL) == ["r/a"]
  {
    SmallEvents("");
    SmallEvents("r/a");
    SmallVisits();
    assert Resumed(SMALL.options, "") == SMALL.options;
    assert [Entry("a", File)][1..] == [];
    assert WellFormedList([Entry("a", File)]);
  }

  /** A pause makes the row of a file that is still there unavailable; no later scan makes it active
      again, and one that resumes above it marks it missing. */
  lemma PauseLosesAPresentFile()
    ensures Sound(SMALL) && Files(SMALL) == ["r/a"]
    ensures exists choices :: Run(SMALL, State(map[], [], NoSession), choices).rows == map["r/a" := Missing]
  {
    SmallIsOneFile();
    OneFileIsLost(SMALL);
    var s :| Reached(SMALL, s) && s.rows == map["r/a" := Missing];
    var choices :| Run(SMALL, State(map[], [], NoSession), choices) == s;
  }

  lemma StartsClean(w: World, rows: Rows)
    requires OneFile(w) && rows == map["r/a" := Missing]
    ensures Step(w, State(rows, [], NoSession), Begin(false, false)) ==
            State(rows, [Checkpoint("", Running)], Walking(0, "", {}, 0, rows))
  {
    assert ActiveRows(rows) == {};
  }

  lemma FileSeen(w: World, s: State, complete: bool)
    requires InRange(w, s) && s.rows == map["r/a" := Missing] && s.session == Walking(0, "", {}, 2, s.rows)
    requires Visits(Events(w, "")[..2]) == ["r/a"]
    ensures Reconcile(w, s, complete, Completed).rows == s.rows
  {
    assert UpsertFiles(s.rows, ["r/a"]) == s.rows;
    assert "r/a" in ["r/a"];
  }

  lemma FinishLeavesIt(w: World, s: State)
    requires OneFile(w) && InRange(w, s) && s.rows == map["r/a" := Missing] &&
             s.session == Walking(0, "", {}, 2, s.rows)
    ensures Step(w, s, Finish).rows == s.rows
  {
    var events := Events(w, "");
    assert events[1..] == [Leave("r")] && [Leave("r")][1..] == [];
    assert events[..2] == events && Visits(events) == ["r/a"] && |events| == 2;
    FileSeen(w, s, NoFailure(events));
    FinishReconciles(w, s);
  }

  /** A clean scan that visits the only file leaves its row missing if it was missing before. */
  lemma CleanScanKeepsAMissingRow()
    ensures Sound(SMALL) && Files(SMALL) == ["r/a"]
    ensures var rows := Run(SMALL, State(map["r/a" := Missing], [], NoSession),
            [Begin(false, false), Next, Next, Finish]).rows;
      rows == map["r/a" := Missing] && ActiveRows(rows) == {}
  {
    SmallIsOneFile();
    KeepsAMissingRow(SMALL);
  }

  lemma RunThree(w: World, s: State, a: Choice, b: Choice, c: Choice)
    requires InRange(w, s)
    ensures Run(w, s, [a, b, c]) == Step(w, Step(w, Step(w, s, a), b), c)
  {
    RunOneMore(w, s, [a, b], c);
    RunOneMore(w, s, [a], b);
    RunOneMore(w, s, [], a);
    assert [] + [a] == [a] && [a] + [b] == [a, b] && [a, b] + [c] == [a, b, c];
  }

  lemma SeesTheFile(w: World, rows: Rows)
    requires OneFile(w) && rows == map["r/a" := Missing]
    ensures Run(w, State(rows, [], NoSession), [Begin(false, false), Next, Next]) ==
            State(rows, [Checkpoint("r/a", Running)], Walking(0, "", {}, 2, rows))
  {
    RunThree(w, State(rows, [], NoSession), Begin(false, false), Next, Next);
    StartsClean(w, rows);
    var c := [Checkpoint("", Running)];
    VisitsTheFile(w, State(rows, c, Walking(0, "", {}, 0, rows)), 0, {});
    LeavesTheRoot(w, State(rows, c, Walking(0, "", {}, 1, rows)), 0, {});
    assert UpsertFiles(rows, ["r/a"]) == rows && c[0 := Checkpoint("r/a", Running)] == [Checkpoint("r/a", Running)];
  }

  lemma KeepsAMissingRow(w: World)
    requires OneFile(w)
    ensures Run(w, State(map["r/a" := Missing], [], NoSession), [Begin(false, false), Next, Next, Finish]).rows ==
            map["r/a" := Missing]
  {
    var rows: Rows := map["r/a" := Missing];
    var seen := [Begin(false, false), Next, Next];
    SeesTheFile(w, rows);
    RunOneMore(w, State(rows, [], NoSession), seen, Finish);
    assert seen + [Finish] == [Begin(false, false), Next, Next, Finish];
    FinishLeavesIt(w, State(rows, [Checkpoint("r/a", Running)], Walking(0, "", {}, 2, rows)));
  }
}
