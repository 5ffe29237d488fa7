/** Every step of the lifecycle is, on the executions table, at most one SQL statement. */
module TableSteps {
  import opened Executions
  import opened Lifecycle

  /** The statement a step of execution `id` sends that reaches the table `t`. */
  function CellSql(t: Table, now: Time, c: Cell, id: Id, st: CellStep): Table {
    match st
    case SubmitFailed => FailQueued(t, id, SUBMIT_FAILED_STDERR, now)
    case Claim(k, fate) =>
      if k < |c.handlers| && c.handlers[k].phase.Claiming? && !fate.ErrInFlight? then
        MarkExecutionRunning(t, id, now)
      else t
    case LateClaim(k) =>
      if k < |c.handlers| && c.handlers[k].lateClaim then MarkExecutionRunning(t, id, now) else t
    case Requeue(k, fate) =>
      if k < |c.handlers| && c.handlers[k].phase.Requeueing? && !fate.ErrInFlight? then
        RequeueExecution(t, id, now)
      else t
    case LateRequeue(k) =>
      if k < |c.handlers| && c.handlers[k].lateRequeue then RequeueExecution(t, id, now) else t
    case Finish(k, fate) =>
      if k < |c.handlers| && CanFinish(c.handlers[k]) && !fate.ErrInFlight? then
        FinishExecution(t, id, c.handlers[k].verdict.value.result, now)
      else t
    case LateFinish(k) =>
      if k < |c.handlers| && c.handlers[k].lateFinish && c.handlers[k].verdict.Some? then
        FinishExecution(t, id, c.handlers[k].verdict.value.result, now)
      else t
    case _ => t
  }

  predicate CanFinish(hd: Handler) {
    hd.phase.Finishing? && hd.verdict.Some? && hd.phase.attempts < FINISH_ATTEMPTS
  }

  function TableAfter(s: State, st: Step): Table {
    match st
    case On(id, c) => if id in s.cells then CellSql(Rows(s), s.now, s.cells[id], id, c) else Rows(s)
    case InsertUnchecked(id, p) =>
      if id !in s.cells && ValidParams(p) then Rows(s)[id := NewRow(p, s.now)] else Rows(s)
    case TxCommit(x, id) =>
      if CanCommit(s, x, id) then
        Rows(s)[id := NewRow(s.txs[x].params, s.txs[x].begunAt)]
      else Rows(s)
    case ReapRunning => ReapStaleExecutions(Rows(s), s.now, s.cfg.staleSecs)
    case SweepMark(k, id) =>
      if k in s.sweeps && id in s.sweeps[k] then FailQueued(Rows(s), id, STALE_QUEUED_STDERR, s.now) else Rows(s)
    case _ => Rows(s)
  }

  /** What the statement has to do: leave every row but this one alone and move this one as `CellExec` does. */
  predicate IsSql(s: State, id: Id, st: CellStep)
    requires id in s.cells
  {
    CellSql(Rows(s), s.now, s.cells[id], id, st) == Rows(s)[id := CellExec(s.cfg, s.now, s.cells[id], st).row]
  }

  lemma OutsideIsSql(s: State, id: Id, st: CellStep)
    requires id in s.cells && !HasActor(st) && !st.MarkStale? && !st.Reap?
    ensures IsSql(s, id, st)
  {
  }

  lemma DockerIsSql(s: State, id: Id, st: CellStep)
    requires id in s.cells && IsDockerStep(st)
    ensures IsSql(s, id, st)
  {
  }

  lemma ClaimIsSql(s: State, id: Id, st: CellStep)
    requires id in s.cells && HasActor(st) && !IsDockerStep(st) && !IsResultStep(st)
    ensures IsSql(s, id, st)
  {
  }

  lemma FinishIsSql(s: State, id: Id, st: CellStep)
    requires id in s.cells && (st.Finish? || st.LateFinish?)
    ensures IsSql(s, id, st)
  {
  }

  lemma EndingIsSql(s: State, id: Id, st: CellStep)
    requires id in s.cells && IsResultStep(st) && !st.Finish? && !st.LateFinish?
    ensures IsSql(s, id, st)
  {
  }

  lemma CellRowIsSql(s: State, id: Id, st: CellStep)
    requires id in s.cells && !st.MarkStale? && !st.Reap?
    ensures IsSql(s, id, st)
  {
    if !HasActor(st) {
      OutsideIsSql(s, id, st);
    } else if st.Finish? || st.LateFinish? {
      FinishIsSql(s, id, st);
    } else if IsResultStep(st) {
      EndingIsSql(s, id, st);
    } else if IsDockerStep(st) {
      DockerIsSql(s, id, st);
    } else {
      ClaimIsSql(s, id, st);
    }
  }

  lemma RowsOnCell(s: State, id: Id, c: CellStep)
    requires id in s.cells
    ensures Rows(OnCell(s, id, c)) == Rows(s)[id := CellExec(s.cfg, s.now, s.cells[id], c).row]
  {
  }

  lemma OnIsSql(s: State, id: Id, c: CellStep)
    ensures Rows(Exec(s, On(id, c))) == TableAfter(s, On(id, c))
  {
    if id in s.cells && !c.MarkStale? && !c.Reap? {
      CellRowIsSql(s, id, c);
      RowsOnCell(s, id, c);
    }
  }

  lemma ReapIsSql(s: State)
    ensures Rows(Exec(s, ReapRunning)) == TableAfter(s, ReapRunning)
  {
  }

  lemma SweepIsSql(s: State, k: nat, id: Id)
    ensures Rows(Exec(s, SweepMark(k, id))) == TableAfter(s, SweepMark(k, id))
  {
  }

  lemma InsertIsSql(s: State, st: Step)
    requires st.InsertUnchecked? || st.TxCommit?
    ensures Rows(Exec(s, st)) == TableAfter(s, st)
  {
  }

  lemma StepIsSql(s: State, st: Step)
    ensures Rows(Exec(s, st)) == TableAfter(s, st)
  {
    match st
    case On(id, c) => OnIsSql(s, id, c);
    case ReapRunning => ReapIsSql(s);
    case SweepMark(k, id) => SweepIsSql(s, k, id);
    case InsertUnchecked(_, _) => InsertIsSql(s, st);
    case TxCommit(_, _) => InsertIsSql(s, st);
    case _ =>
  }
}
