/** A bound on the status changes of an execution: a measure that each change uses up. */
module StatusBudget {
  import opened Executions
  import opened Lifecycle
  import opened LifecycleInv

  /** The handler's claim statement may still reach the table. */
  predicate MayClaim(hd: Handler) {
    hd.phase.Claiming? || hd.lateClaim
  }

  function Pending(hs: seq<Handler>): nat {
    if hs == [] then 0 else Pending(hs[..|hs| - 1]) + (if MayClaim(hs[|hs| - 1]) then 1 else 0)
  }

  function Weight(st: Status): nat {
    match st case Queued => 1 case Running => 2 case _ => 0
  }

  /** An upper bound on the status changes an execution has left. */
  function Budget(cfg: Config, c: Cell): int {
    2 * (cfg.maxDeliver - |c.handlers| + Pending(c.handlers)) + Weight(c.row.status)
  }

  lemma {:induction false} PendingUpdate(hs: seq<Handler>, k: nat, hd: Handler)
    requires k < |hs|
    ensures Pending(hs[k := hd]) ==
            Pending(hs) - (if MayClaim(hs[k]) then 1 else 0) + (if MayClaim(hd) then 1 else 0)
    decreases |hs|
  {
    var n := |hs| - 1;
    if k < n {
      assert hs[k := hd][..n] == hs[..n][k := hd];
      PendingUpdate(hs[..n], k, hd);
    } else {
      assert hs[k := hd][..n] == hs[..n];
    }
  }

  function Changed(r: Row, r': Row): nat {
    if r.status != r'.status then 1 else 0
  }

  lemma OutsideSpends(cfg: Config, now: Time, c: Cell, st: CellStep)
    requires !HasActor(st)
    ensures Changed(c.row, CellExec(cfg, now, c, st).row) + Budget(cfg, CellExec(cfg, now, c, st)) <= Budget(cfg, c)
  {
    assert (c.handlers + [NEW_HANDLER])[..|c.handlers|] == c.handlers;
  }

  lemma ClaimSpends(cfg: Config, now: Time, c: Cell, k: nat, st: CellStep)
    requires HasActor(st) && !IsResultStep(st) && k < |c.handlers| && Coherent(c.handlers[k])
    ensures Changed(c.row, ClaimExec(now, c, k, st).row) + Budget(cfg, ClaimExec(now, c, k, st)) <= Budget(cfg, c)
  {
    var c' := ClaimExec(now, c, k, st);
    PendingUpdate(c.handlers, k, c'.handlers[k]);
    assert c'.handlers == c.handlers[k := c'.handlers[k]];
  }

  lemma ResultSpends(cfg: Config, now: Time, c: Cell, k: nat, st: CellStep)
    requires IsResultStep(st) && k < |c.handlers| && Coherent(c.handlers[k])
    ensures Changed(c.row, ResultExec(now, c, k, st).row) + Budget(cfg, ResultExec(now, c, k, st)) <= Budget(cfg, c)
  {
    var c' := ResultExec(now, c, k, st);
    PendingUpdate(c.handlers, k, c'.handlers[k]);
    assert c'.handlers == c.handlers[k := c'.handlers[k]];
  }

  lemma CellSpends(cfg: Config, now: Time, c: Cell, st: CellStep)
    requires CellOk(cfg, now, c)
    ensures Changed(c.row, CellExec(cfg, now, c, st).row) + Budget(cfg, CellExec(cfg, now, c, st)) <= Budget(cfg, c)
  {
    if !HasActor(st) {
      OutsideSpends(cfg, now, c, st);
    } else if st.k < |c.handlers| {
      assert HandlerOk(cfg, c, st.k);
      if IsResultStep(st) {
        ResultSpends(cfg, now, c, st.k, st);
      } else {
        ClaimSpends(cfg, now, c, st.k, st);
      }
    }
  }

  /** How many steps of the run change the status of execution `id`. */
  function StatusChanges(s: State, steps: seq<Step>, id: Id): nat
    decreases |steps|
  {
    if steps == [] then 0
    else
      var s' := Exec(s, steps[0]);
      (if id in s.cells && id in s'.cells then Changed(s.cells[id].row, s'.cells[id].row) else 0)
      + StatusChanges(s', steps[1..], id)
  }

  function BudgetOf(s: State, id: Id): int {
    if id in s.cells then Budget(s.cfg, s.cells[id]) else 2 * s.cfg.maxDeliver + 1
  }

  lemma StepSpends(s: State, st: Step, id: Id)
    requires Inv(s)
    ensures (if id in s.cells && id in Exec(s, st).cells
             then Changed(s.cells[id].row, Exec(s, st).cells[id].row) else 0)
            + BudgetOf(Exec(s, st), id) <= BudgetOf(s, id)
  {
    ExecKeepsClock(s, st);
    if id in s.cells {
      ExecOnCell(s, st, id);
      assert CellOk(s.cfg, s.now, s.cells[id]);
      CellSpends(s.cfg, s.now, s.cells[id], View(s, st, id));
    }
  }

  /** Every change is paid for. */
  lemma {:induction false} RunSpends(s: State, steps: seq<Step>, id: Id)
    requires Inv(s)
    ensures StatusChanges(s, steps, id) + BudgetOf(Run(s, steps), id) <= BudgetOf(s, id)
    decreases |steps|
  {
    if steps != [] {
      StepSpends(s, steps[0], id);
      ExecKeepsInv(s, steps[0]);
      RunSpends(Exec(s, steps[0]), steps[1..], id);
    }
  }

  lemma BudgetCoversWeight(s: State, id: Id)
    requires Inv(s)
    ensures BudgetOf(s, id) >= if id in s.cells then Weight(s.cells[id].row.status) else 0
  {
    assert id in s.cells ==> CellOk(s.cfg, s.now, s.cells[id]);
  }

  /** Over any run: at most two changes per delivery, and one more to finish. */
  lemma StatusChangesAreBounded(cfg: Config, t0: Time, steps: seq<Step>, id: Id)
    ensures StatusChanges(Init(cfg, t0), steps, id) <= 2 * cfg.maxDeliver + 1
  {
    InitInv(cfg, t0);
    RunSpends(Init(cfg, t0), steps, id);
    RunKeepsInv(Init(cfg, t0), steps);
    BudgetCoversWeight(Run(Init(cfg, t0), steps), id);
  }
}
