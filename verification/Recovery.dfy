/**
 * Whatever was lost, the reapers settle: one pass ends every execution if nobody else moves, and
 * enough passes end it whatever else happens meanwhile.
 */
module Recovery {
  import opened Executions
  import opened Lifecycle
  import opened LifecycleInv
  import opened LifecycleTheorems
  import opened StatusBudget

  /** The updates of sweep `k`, in the given order. */
  function Marks(k: nat, ids: seq<Id>): seq<Step> {
    if ids == [] then [] else [SweepMark(k, ids[0])] + Marks(k, ids[1..])
  }

  /** Time passes, then both sweeps run up to the listing. */
  function Listed(s: State, d: nat, k: nat): State {
    Exec(Exec(Exec(s, Tick(d)), ReapRunning), SweepList(k))
  }

  lemma RunThree(s: State, a: Step, b: Step, c: Step)
    ensures Run(s, [a, b, c]) == Exec(Exec(Exec(s, a), b), c)
  {
    assert [a, b, c][1..] == [b, c] && [b, c][1..] == [c] && [c][1..] == [];
    var s2 := Exec(Exec(s, a), b);
    assert Run(Exec(s2, c), []) == Exec(s2, c);
    assert Run(s2, [c]) == Exec(s2, c);
    assert Run(Exec(s, a), [b, c]) == Run(s2, [c]);
  }

  /** No row is running, and every queued one is listed and still to be marked. */
  predicate Winding(s: State, k: nat, ids: seq<Id>) {
    && k in s.sweeps
    && forall id | id in s.cells && Active(s.cells[id].row.status) ::
         s.cells[id].row.status.Queued? && id in s.sweeps[k] && id in ids
  }

  lemma PassWinds(s: State, d: nat, k: nat, ids: seq<Id>)
    requires Inv(s) && s.cfg.staleSecs * SECOND < d && s.cfg.staleQueuedSecs * SECOND < d
    requires forall id | id in Listed(s, d, k).sweeps[k] :: id in ids
    ensures Winding(Listed(s, d, k), k, ids)
  {
    var s1 := Exec(s, Tick(d));
    var s2 := Exec(s1, ReapRunning);
    forall id | id in s2.cells
      ensures !s2.cells[id].row.status.Running?
      ensures s2.cells[id].row.status.Queued? ==> StaleQueued(s2.cells[id].row, s2.now, s.cfg.staleQueuedSecs)
    {
      assert CellOk(s.cfg, s.now, s.cells[id]);
      ReapChanges(s1, id);
    }
  }

  lemma MarkWinds(s: State, k: nat, ids: seq<Id>)
    requires ids != [] && Winding(s, k, ids)
    ensures Winding(Exec(s, SweepMark(k, ids[0])), k, ids[1..])
  {
    var s' := Exec(s, SweepMark(k, ids[0]));
    forall id | id in s'.cells && Active(s'.cells[id].row.status)
      ensures s'.cells[id].row.status.Queued? && id in s'.sweeps[k] && id in ids[1..]
    {
      ExecOnCell(s, SweepMark(k, ids[0]), id);
    }
  }

  lemma {:induction false} MarksFinish(s: State, k: nat, ids: seq<Id>)
    requires Winding(s, k, ids)
    ensures forall id | id in Run(s, Marks(k, ids)).cells :: !Active(Run(s, Marks(k, ids)).cells[id].row.status)
    decreases |ids|
  {
    if ids != [] {
      MarkWinds(s, k, ids);
      assert Marks(k, ids)[1..] == Marks(k, ids[1..]);
      MarksFinish(Exec(s, SweepMark(k, ids[0])), k, ids[1..]);
    }
  }

  /**
   * Wait longer than both thresholds, reap, list, and mark whatever was listed, in any order and with
   * any repetition: every execution there was is still there, and none is queued or running.
   */
  lemma OnePassSettles(cfg: Config, t0: Time, steps: seq<Step>, d: nat, k: nat, ids: seq<Id>)
    requires cfg.staleSecs * SECOND < d && cfg.staleQueuedSecs * SECOND < d
    requires forall id | id in Listed(After(cfg, t0, steps), d, k).sweeps[k] :: id in ids
    ensures var s := After(cfg, t0, steps);
            var s' := Run(s, [Tick(d), ReapRunning, SweepList(k)] + Marks(k, ids));
            && (forall id | id in s.cells :: id in s'.cells)
            && (forall id | id in s'.cells :: !Active(s'.cells[id].row.status))
  {
    var s := After(cfg, t0, steps);
    var pass := [Tick(d), ReapRunning, SweepList(k)];
    Reached(cfg, t0, steps);
    PassWinds(s, d, k, ids);
    MarksFinish(Listed(s, d, k), k, ids);
    RunConcat(s, pass, Marks(k, ids));
    RunThree(s, Tick(d), ReapRunning, SweepList(k));
    forall id | id in s.cells
      ensures id in Run(s, pass + Marks(k, ids)).cells
    {
      SubmissionIsForever(s, pass + Marks(k, ids), id);
    }
  }

  // ----- passes that everybody interferes with

  /** A pass of both sweeps over execution `id`, with any steps of anybody before, between and among its statements. */
  datatype Pass = Pass(k: nat, before: seq<Step>, between: seq<Step>, among: seq<Step>)

  function Elapsed(steps: seq<Step>): nat {
    if steps == [] then 0 else (if steps[0].Tick? then steps[0].d else 0) + Elapsed(steps[1..])
  }

  /** More time than both thresholds passes before it, and its listing is not overwritten. */
  predicate Proper(cfg: Config, p: Pass) {
    && cfg.staleSecs * SECOND < Elapsed(p.before) && cfg.staleQueuedSecs * SECOND < Elapsed(p.before)
    && forall i | 0 <= i < |p.among| :: p.among[i] != SweepList(p.k)
  }

  /** Up to the first sweep. */
  function Opening(p: Pass): seq<Step> {
    p.before + [ReapRunning]
  }

  function Listing(p: Pass): seq<Step> {
    p.between + [SweepList(p.k)]
  }

  function Marking(p: Pass, id: Id): seq<Step> {
    p.among + [SweepMark(p.k, id)]
  }

  function PassSteps(p: Pass, id: Id): seq<Step> {
    Opening(p) + Listing(p) + Marking(p, id)
  }

  function AllSteps(ps: seq<Pass>, id: Id): seq<Step> {
    if ps == [] then [] else PassSteps(ps[0], id) + AllSteps(ps[1..], id)
  }

  lemma {:induction false} ChangesConcat(s: State, a: seq<Step>, b: seq<Step>, id: Id)
    ensures StatusChanges(s, a + b, id) == StatusChanges(s, a, id) + StatusChanges(Run(s, a), b, id)
    decreases |a|
  {
    if a == [] {
      assert a + b == b;
    } else {
      assert (a + b)[1..] == a[1..] + b;
      ChangesConcat(Exec(s, a[0]), a[1..], b, id);
    }
  }

  /** Whatever changes a row changes its status. */
  lemma ClaimChangesStatus(now: Time, c: Cell, k: nat, st: CellStep)
    requires HasActor(st) && !IsResultStep(st) && k < |c.handlers|
    ensures ClaimExec(now, c, k, st).row.status == c.row.status ==> ClaimExec(now, c, k, st).row == c.row
  {
  }

  lemma ResultChangesStatus(now: Time, c: Cell, k: nat, st: CellStep)
    requires IsResultStep(st) && k < |c.handlers| && Coherent(c.handlers[k])
    ensures ResultExec(now, c, k, st).row.status == c.row.status ==> ResultExec(now, c, k, st).row == c.row
  {
  }

  lemma ChangesStatus(cfg: Config, now: Time, c: Cell, st: CellStep)
    requires CellOk(cfg, now, c)
    ensures CellExec(cfg, now, c, st).row.status == c.row.status ==> CellExec(cfg, now, c, st).row == c.row
  {
    if HasActor(st) && st.k < |c.handlers| {
      assert HandlerOk(cfg, c, st.k);
      if IsResultStep(st) {
        ResultChangesStatus(now, c, st.k, st);
      } else {
        ClaimChangesStatus(now, c, st.k, st);
      }
    }
  }

  /** A run without a change of status leaves the row as it was. */
  lemma {:induction false} RowStill(s: State, steps: seq<Step>, id: Id)
    requires Inv(s) && id in s.cells && StatusChanges(s, steps, id) == 0
    ensures id in Run(s, steps).cells && Run(s, steps).cells[id].row == s.cells[id].row
    decreases |steps|
  {
    if steps != [] {
      ExecOnCell(s, steps[0], id);
      assert CellOk(s.cfg, s.now, s.cells[id]);
      ChangesStatus(s.cfg, s.now, s.cells[id], View(s, steps[0], id));
      ExecKeepsInv(s, steps[0]);
      RowStill(Exec(s, steps[0]), steps[1..], id);
    }
  }

  lemma StepElapses(s: State, st: Step)
    ensures Exec(s, st).now == s.now + (if st.Tick? then st.d else 0) && Exec(s, st).cfg == s.cfg
  {
  }

  lemma {:induction false} RunElapses(s: State, steps: seq<Step>)
    ensures Run(s, steps).now == s.now + Elapsed(steps) && Run(s, steps).cfg == s.cfg
    decreases |steps|
  {
    if steps != [] {
      StepElapses(s, steps[0]);
      RunElapses(Exec(s, steps[0]), steps[1..]);
    }
  }

  lemma {:induction false} ListingStays(s: State, steps: seq<Step>, k: nat, id: Id)
    requires k in s.sweeps && id in s.sweeps[k] && forall i | 0 <= i < |steps| :: steps[i] != SweepList(k)
    ensures k in Run(s, steps).sweeps && id in Run(s, steps).sweeps[k]
    decreases |steps|
  {
    if steps != [] {
      ListingStays(Exec(s, steps[0]), steps[1..], k, id);
    }
  }

  /** The row of `id` has been old for both sweeps since before `now`. */
  predicate Old(s: State, id: Id) {
    && id in s.cells && s.cells[id].row.updatedAt < s.now - s.cfg.staleSecs * SECOND
    && s.cells[id].row.createdAt < s.now - s.cfg.staleQueuedSecs * SECOND
  }

  lemma OldStays(s: State, steps: seq<Step>, id: Id)
    requires Inv(s) && Old(s, id) && StatusChanges(s, steps, id) == 0
    ensures Old(Run(s, steps), id) && Run(s, steps).cells[id].row == s.cells[id].row
  {
    RowStill(s, steps, id);
    RunKeepsInv(s, steps);
  }

  /** Waiting makes a row old that does not move. */
  lemma WaitingAges(s: State, p: Pass, id: Id)
    requires Inv(s) && id in s.cells && Proper(s.cfg, p) && StatusChanges(s, p.before, id) == 0
    ensures Old(Run(s, p.before), id) && Run(s, p.before).cells[id].row == s.cells[id].row
  {
    assert CellOk(s.cfg, s.now, s.cells[id]);
    RowStill(s, p.before, id);
    RunElapses(s, p.before);
  }

  /** An old row that the first sweep leaves alone is queued. */
  lemma ReapLeaves(s: State, id: Id)
    requires Old(s, id) && Active(s.cells[id].row.status)
    requires Changed(s.cells[id].row, Exec(s, ReapRunning).cells[id].row) == 0
    ensures var s' := Exec(s, ReapRunning);
            Old(s', id) && s'.cells[id].row.status.Queued?
  {
    ReapChanges(s, id);
  }

  lemma ListFinds(s: State, k: nat, id: Id)
    requires Old(s, id) && s.cells[id].row.status.Queued?
    ensures var s' := Exec(s, SweepList(k));
            k in s'.sweeps && id in s'.sweeps[k] && s'.cells == s.cells
  {
  }

  lemma MarkMoves(s: State, k: nat, id: Id)
    requires id in s.cells && k in s.sweeps && id in s.sweeps[k] && s.cells[id].row.status.Queued?
    ensures Changed(s.cells[id].row, Exec(s, SweepMark(k, id)).cells[id].row) == 1
  {
    ExecOnCell(s, SweepMark(k, id), id);
  }

  /** The changes of a stretch of steps and of the one after it. */
  lemma ChangesThen(s: State, steps: seq<Step>, st: Step, id: Id)
    requires id in s.cells
    ensures var m := Run(s, steps);
            && id in m.cells && id in Exec(m, st).cells && Run(s, steps + [st]) == Exec(m, st)
            && StatusChanges(s, steps + [st], id)
               == StatusChanges(s, steps, id) + Changed(m.cells[id].row, Exec(m, st).cells[id].row)
  {
    var m := Run(s, steps);
    SubmissionIsForever(s, steps, id);
    StepKeepsSubmission(m, st, id);
    ChangesConcat(s, steps, [st], id);
    RunConcat(s, steps, [st]);
    assert [st][1..] == [];
    assert Run(m, [st]) == Exec(m, st);
    assert StatusChanges(Exec(m, st), [st][1..], id) == 0;
  }

  /** An active row that survives the first sweep of a pass is queued, and as old as before. */
  lemma OpeningMoves(s: State, p: Pass, id: Id)
    requires Inv(s) && id in s.cells && Active(s.cells[id].row.status) && Proper(s.cfg, p)
    requires StatusChanges(s, Opening(p), id) == 0
    ensures var s' := Run(s, Opening(p));
            Inv(s') && s'.cfg == s.cfg && Old(s', id) && s'.cells[id].row.status.Queued?
  {
    ChangesThen(s, p.before, ReapRunning, id);
    assert Old(Run(s, p.before), id) && Active(Run(s, p.before).cells[id].row.status) by {
      WaitingAges(s, p, id);
    }
    ReapLeaves(Run(s, p.before), id);
    RunKeepsInv(s, Opening(p));
  }

  lemma ListingMoves(s: State, p: Pass, id: Id)
    requires Inv(s) && Old(s, id) && s.cells[id].row.status.Queued? && StatusChanges(s, Listing(p), id) == 0
    ensures var s' := Run(s, Listing(p));
            && Inv(s') && id in s'.cells && s'.cells[id].row.status.Queued?
            && p.k in s'.sweeps && id in s'.sweeps[p.k]
  {
    ChangesThen(s, p.between, SweepList(p.k), id);
    OldStays(s, p.between, id);
    RunKeepsInv(s, Listing(p));
    ListFinds(Run(s, p.between), p.k, id);
  }

  lemma MarkingMoves(s: State, p: Pass, id: Id)
    requires Inv(s) && id in s.cells && s.cells[id].row.status.Queued? && p.k in s.sweeps && id in s.sweeps[p.k]
    requires forall i | 0 <= i < |p.among| :: p.among[i] != SweepList(p.k)
    ensures StatusChanges(s, Marking(p, id), id) >= 1
  {
    ChangesThen(s, p.among, SweepMark(p.k, id), id);
    if StatusChanges(s, p.among, id) == 0 {
      RowStill(s, p.among, id);
      ListingStays(s, p.among, p.k, id);
      MarkMoves(Run(s, p.among), p.k, id);
    }
  }

  /** However much others interfere, a pass moves every execution that is queued or running. */
  lemma PassMoves(s: State, p: Pass, id: Id)
    requires Inv(s) && id in s.cells && Active(s.cells[id].row.status) && Proper(s.cfg, p)
    ensures StatusChanges(s, PassSteps(p, id), id) >= 1
  {
    var s1 := Run(s, Opening(p));
    ChangesConcat(s, Opening(p) + Listing(p), Marking(p, id), id);
    ChangesConcat(s, Opening(p), Listing(p), id);
    RunConcat(s, Opening(p), Listing(p));
    if StatusChanges(s, Opening(p), id) == 0 {
      OpeningMoves(s, p, id);
      if StatusChanges(s1, Listing(p), id) == 0 {
        ListingMoves(s1, p, id);
        MarkingMoves(Run(s1, Listing(p)), p, id);
      }
    }
  }

  lemma {:induction false} PassesMove(s: State, ps: seq<Pass>, id: Id)
    requires Inv(s) && id in s.cells && forall i | 0 <= i < |ps| :: Proper(s.cfg, ps[i])
    ensures var s' := Run(s, AllSteps(ps, id));
            id in s'.cells && (Active(s'.cells[id].row.status) ==> StatusChanges(s, AllSteps(ps, id), id) >= |ps|)
    decreases |ps|
  {
    var all := AllSteps(ps, id);
    SubmissionIsForever(s, all, id);
    if ps != [] && Active(Run(s, all).cells[id].row.status) {
      var first, rest := PassSteps(ps[0], id), AllSteps(ps[1..], id);
      var s1 := Run(s, first);
      if !Active(s.cells[id].row.status) {
        FirstResultWins(s, all, id);
      } else {
        PassMoves(s, ps[0], id);
      }
      RunKeepsInv(s, first);
      SubmissionIsForever(s, first, id);
      RunConcat(s, first, rest);
      ChangesConcat(s, first, rest, id);
      PassesMove(s1, ps[1..], id);
    }
  }

  /**
   * From any reachable state, 2 * maxDeliver + 1 passes settle an execution for good, whatever gateways,
   * deliveries, late statements and other reapers do before, between and among their statements.
   */
  lemma EnoughPassesSettle(cfg: Config, t0: Time, steps: seq<Step>, ps: seq<Pass>, id: Id)
    requires id in After(cfg, t0, steps).cells && |ps| >= 2 * cfg.maxDeliver + 1
    requires forall i | 0 <= i < |ps| :: Proper(cfg, ps[i])
    ensures var s' := Run(After(cfg, t0, steps), AllSteps(ps, id));
            id in s'.cells && !Active(s'.cells[id].row.status)
  {
    var s := After(cfg, t0, steps);
    var all := AllSteps(ps, id);
    Reached(cfg, t0, steps);
    InitInv(cfg, t0);
    RunSpends(Init(cfg, t0), steps, id);
    RunSpends(s, all, id);
    RunKeepsInv(s, all);
    BudgetCoversWeight(Run(s, all), id);
    PassesMove(s, ps, id);
  }
}
