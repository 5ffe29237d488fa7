/** The inductive invariant of the lifecycle and its preservation by every step. */
module LifecycleInv {
  import opened Executions
  import opened Sandbox
  import opened Lifecycle

  /** Holding a claim whose container has not been started. */
  predicate Prestart(hd: Handler) {
    hd.phase.Preparing? || hd.phase.Created? || hd.phase.Requeueing? || hd.lateRequeue
  }

  predicate Matches(r: Row, v: Result) {
    r.status == v.status && r.stdout == v.stdout && r.stderr == v.stderr && r.exitCode == v.exitCode
  }

  predicate Reaped(r: Row) {
    r.status.Failed? && r.stdout == "" && r.stderr == REAP_STDERR && r.exitCode.None?
  }

  /** What can have become of a row since handler `hd` claimed it. */
  predicate Story(r: Row, hd: Handler, staleSecs: int) {
    || (r.status.Running? && r.updatedAt == hd.claimedAt)
    || (Reaped(r) && hd.claimedAt + staleSecs * SECOND < r.updatedAt)
    || (hd.verdict.Some? && Matches(r, hd.verdict.value.result))
  }

  /** Statuses and exit codes agree; an unfinished row has no output. */
  predicate Shape(r: Row) {
    && (r.status.Succeeded? ==> r.exitCode == Some(0))
    && (Active(r.status) ==> r.exitCode.None? && r.stdout == "" && r.stderr == "")
    && (r.status.TimedOut? ==> r.exitCode.None?)
  }

  predicate GoodVerdict(v: Verdict) {
    && !Active(v.result.status)
    && (v.result.status.Succeeded? ==> v.result.exitCode == Some(0))
    && (v.result.status.TimedOut? ==> v.result.exitCode.None?)
    && v.result.exitCode == Narrow(v.announcedExit)
    && (!v.clean ==> v.result.status.Failed? && v.announcedExit.None?)
  }

  /** The phase of a handler and its flags agree. */
  predicate Coherent(hd: Handler) {
    && (Prestart(hd) || hd.phase.Claiming? || hd.lateClaim ==> !hd.ran)
    && (hd.phase.Started? || hd.verdict.Some? ==> hd.ran)
    && (hd.phase.Started? ==> hd.verdict.None?)
    && (hd.phase.Finishing? || hd.phase.Persisted? || hd.phase.Reporting? || hd.lateFinish ==> hd.verdict.Some?)
    && (hd.phase.Reporting? ==> !hd.verdict.value.clean)
    && (hd.verdict.Some? ==> GoodVerdict(hd.verdict.value))
    && (hd.persistedAt.Some? ==> hd.verdict.Some?)
    && (hd.phase.Persisted? ==> hd.persistedAt.Some?)
    && (hd.lateRequeue || hd.lateClaim ==> hd.phase.Closed?)
    && !(hd.lateClaim && hd.lateRequeue)
  }

  /** A handler that won the claim owns the row for as long as it can still act on it. */
  predicate HandlerOk(cfg: Config, c: Cell, k: nat)
    requires k < |c.handlers|
  {
    var hd := c.handlers[k];
    && Coherent(hd)
    && (Prestart(hd) || hd.ran ==>
          && c.owner == Some(k)
          && c.starts == (if hd.ran then 1 else 0)
          && hd.job == Some(c.inserted)
          && !c.row.status.Queued?
          && Story(c.row, hd, cfg.staleSecs))
    && (hd.persistedAt.Some? ==>
          && !Active(c.row.status)
          && c.row.updatedAt <= hd.persistedAt.value)
  }

  /** Output and exit codes come from the owner's own verdict. */
  predicate OutputOk(c: Cell) {
    c.row.stdout != "" || c.row.exitCode.Some? ==>
      && c.owner.Some?
      && c.owner.value < |c.handlers|
      && c.handlers[c.owner.value].verdict.Some?
      && Matches(c.row, c.handlers[c.owner.value].verdict.value.result)
  }

  predicate RowOk(now: Time, c: Cell) {
    && c.row.params == c.inserted
    && Shape(c.row)
    && c.row.createdAt <= now
    && c.row.updatedAt <= now
    && c.starts <= 1
    && (c.row.status.Queued? ==> c.starts == 0)
    && (c.container == Some(true) ==> c.starts == 1)
  }

  predicate MsgOk(cfg: Config, c: Cell) {
    && (c.msg.Some? ==> c.msg.value.tenant == c.inserted.tenant && c.msg.value.language == c.inserted.language)
    && |c.handlers| <= cfg.maxDeliver
  }

  predicate AnnouncementOk(c: Cell, a: Announcement) {
    && a.handler < |c.handlers|
    && var hd := c.handlers[a.handler];
       && hd.verdict.Some?
       && a.status == hd.verdict.value.result.status
       && a.exitCode == hd.verdict.value.announcedExit
       && (hd.verdict.value.clean ==> hd.persistedAt.Some?)
       && (a.channel.ResultStream? ==> hd.verdict.value.clean)
  }

  predicate CellOk(cfg: Config, now: Time, c: Cell) {
    && ValidParams(c.inserted)
    && RowOk(now, c)
    && MsgOk(cfg, c)
    && OutputOk(c)
    && (forall k | 0 <= k < |c.handlers| :: HandlerOk(cfg, c, k))
    && (forall a | a in c.outbox :: AnnouncementOk(c, a))
  }

  predicate SweepOk(s: State, k: nat)
    requires k in s.sweeps
  {
    forall id | id in s.sweeps[k] ::
      id in s.cells && s.cells[id].row.createdAt < s.now - s.cfg.staleQueuedSecs * SECOND
  }

  predicate TxOk(s: State, x: nat)
    requires x in s.txs
  {
    ValidParams(s.txs[x].params) && s.txs[x].begunAt <= s.now
  }

  predicate Inv(s: State) {
    && (forall id | id in s.cells :: CellOk(s.cfg, s.now, s.cells[id]))
    && (forall k | k in s.sweeps :: SweepOk(s, k))
    && (forall x | x in s.txs :: TxOk(s, x))
  }

  lemma VerdictIsGood(o: Outcome)
    ensures GoodVerdict(VerdictOf(o))
  {
  }

  // ----- one execution, one step, one part of the invariant at a time

  lemma DockerRow(cfg: Config, now: Time, c: Cell, k: nat, st: CellStep)
    requires IsDockerStep(st) && RowOk(now, c) && MsgOk(cfg, c) && k < |c.handlers| && HandlerOk(cfg, c, k)
    ensures RowOk(now, DockerExec(c, k, st)) && MsgOk(cfg, DockerExec(c, k, st))
  {
  }

  lemma ClaimSqlRow(cfg: Config, now: Time, c: Cell, k: nat, st: CellStep)
    requires HasActor(st) && !IsResultStep(st) && !IsDockerStep(st)
    requires RowOk(now, c) && MsgOk(cfg, c) && k < |c.handlers| && HandlerOk(cfg, c, k)
    ensures RowOk(now, ClaimSqlExec(now, c, k, st)) && MsgOk(cfg, ClaimSqlExec(now, c, k, st))
  {
  }

  lemma FinishRowOk(cfg: Config, now: Time, c: Cell, k: nat, st: CellStep)
    requires st.Finish? || st.LateFinish?
    requires RowOk(now, c) && MsgOk(cfg, c) && k < |c.handlers| && HandlerOk(cfg, c, k)
    ensures RowOk(now, FinishExec(now, c, k, st)) && MsgOk(cfg, FinishExec(now, c, k, st))
  {
  }

  lemma EndingRow(cfg: Config, now: Time, c: Cell, k: nat, st: CellStep)
    requires IsResultStep(st) && !st.Finish? && !st.LateFinish? && RowOk(now, c) && MsgOk(cfg, c) && k < |c.handlers|
    ensures RowOk(now, EndingExec(c, k, st)) && MsgOk(cfg, EndingExec(c, k, st))
  {
  }

  /** Before a container has run, steps of its delivery neither write nor lose output. */
  lemma DockerOutput(c: Cell, k: nat, st: CellStep)
    requires IsDockerStep(st) && OutputOk(c) && k < |c.handlers|
    ensures OutputOk(DockerExec(c, k, st))
  {
  }

  lemma ClaimSqlOutput(now: Time, c: Cell, k: nat, st: CellStep)
    requires HasActor(st) && !IsResultStep(st) && !IsDockerStep(st)
    requires Shape(c.row) && OutputOk(c) && k < |c.handlers|
    ensures OutputOk(ClaimSqlExec(now, c, k, st))
  {
  }

  lemma FinishOutput(cfg: Config, now: Time, c: Cell, k: nat, st: CellStep)
    requires st.Finish? || st.LateFinish?
    requires OutputOk(c) && k < |c.handlers| && HandlerOk(cfg, c, k)
    ensures OutputOk(FinishExec(now, c, k, st))
  {
  }

  lemma EndingOutput(cfg: Config, c: Cell, k: nat, st: CellStep)
    requires IsResultStep(st) && !st.Finish? && !st.LateFinish?
    requires OutputOk(c) && k < |c.handlers| && HandlerOk(cfg, c, k)
    ensures OutputOk(EndingExec(c, k, st))
  {
  }

  lemma DockerHandler(cfg: Config, now: Time, c: Cell, k: nat, st: CellStep, j: nat)
    requires IsDockerStep(st) && RowOk(now, c) && k < |c.handlers| && HandlerOk(cfg, c, k)
    requires j < |c.handlers| && HandlerOk(cfg, c, j)
    ensures |DockerExec(c, k, st).handlers| == |c.handlers| && HandlerOk(cfg, DockerExec(c, k, st), j)
  {
  }

  lemma ClaimSqlActor(cfg: Config, now: Time, c: Cell, k: nat, st: CellStep)
    requires HasActor(st) && !IsResultStep(st) && !IsDockerStep(st)
    requires RowOk(now, c) && k < |c.handlers| && HandlerOk(cfg, c, k)
    ensures |ClaimSqlExec(now, c, k, st).handlers| == |c.handlers| && HandlerOk(cfg, ClaimSqlExec(now, c, k, st), k)
  {
  }

  lemma ClaimSqlBystander(cfg: Config, now: Time, c: Cell, k: nat, st: CellStep, j: nat)
    requires HasActor(st) && !IsResultStep(st) && !IsDockerStep(st)
    requires k < |c.handlers| && HandlerOk(cfg, c, k) && j < |c.handlers| && j != k && HandlerOk(cfg, c, j)
    ensures |ClaimSqlExec(now, c, k, st).handlers| == |c.handlers| && HandlerOk(cfg, ClaimSqlExec(now, c, k, st), j)
  {
  }

  lemma ClaimSqlHandler(cfg: Config, now: Time, c: Cell, k: nat, st: CellStep, j: nat)
    requires HasActor(st) && !IsResultStep(st) && !IsDockerStep(st)
    requires RowOk(now, c) && k < |c.handlers| && HandlerOk(cfg, c, k) && j < |c.handlers| && HandlerOk(cfg, c, j)
    ensures |ClaimSqlExec(now, c, k, st).handlers| == |c.handlers| && HandlerOk(cfg, ClaimSqlExec(now, c, k, st), j)
  {
    if j == k {
      ClaimSqlActor(cfg, now, c, k, st);
    } else {
      ClaimSqlBystander(cfg, now, c, k, st, j);
    }
  }

  lemma FinishActor(cfg: Config, now: Time, c: Cell, k: nat, st: CellStep)
    requires st.Finish? || st.LateFinish?
    requires RowOk(now, c) && k < |c.handlers| && HandlerOk(cfg, c, k)
    ensures |FinishExec(now, c, k, st).handlers| == |c.handlers| && HandlerOk(cfg, FinishExec(now, c, k, st), k)
  {
  }

  lemma FinishBystander(cfg: Config, now: Time, c: Cell, k: nat, st: CellStep, j: nat)
    requires st.Finish? || st.LateFinish?
    requires k < |c.handlers| && HandlerOk(cfg, c, k) && j < |c.handlers| && j != k && HandlerOk(cfg, c, j)
    ensures |FinishExec(now, c, k, st).handlers| == |c.handlers| && HandlerOk(cfg, FinishExec(now, c, k, st), j)
  {
  }

  lemma FinishHandler(cfg: Config, now: Time, c: Cell, k: nat, st: CellStep, j: nat)
    requires st.Finish? || st.LateFinish?
    requires RowOk(now, c) && k < |c.handlers| && HandlerOk(cfg, c, k) && j < |c.handlers| && HandlerOk(cfg, c, j)
    ensures |FinishExec(now, c, k, st).handlers| == |c.handlers| && HandlerOk(cfg, FinishExec(now, c, k, st), j)
  {
    if j == k {
      FinishActor(cfg, now, c, k, st);
    } else {
      FinishBystander(cfg, now, c, k, st, j);
    }
  }

  lemma EndingHandler(cfg: Config, c: Cell, k: nat, st: CellStep, j: nat)
    requires IsResultStep(st) && !st.Finish? && !st.LateFinish?
    requires k < |c.handlers| && HandlerOk(cfg, c, k) && j < |c.handlers| && HandlerOk(cfg, c, j)
    ensures |EndingExec(c, k, st).handlers| == |c.handlers| && HandlerOk(cfg, EndingExec(c, k, st), j)
  {
    if st.RunEnded? {
      VerdictIsGood(st.outcome);
    }
  }

  /** Same handlers but for their progress before the run ends, and same announcements. */
  predicate SameVerdicts(c: Cell, c': Cell, j: nat)
    requires j < |c.handlers|
  {
    && |c'.handlers| == |c.handlers| && c'.outbox == c.outbox
    && c'.handlers[j].verdict == c.handlers[j].verdict
    && c'.handlers[j].persistedAt == c.handlers[j].persistedAt
  }

  lemma DockerVerdicts(c: Cell, k: nat, st: CellStep, j: nat)
    requires IsDockerStep(st) && k < |c.handlers| && j < |c.handlers|
    ensures SameVerdicts(c, DockerExec(c, k, st), j)
  {
  }

  lemma ClaimSqlVerdicts(now: Time, c: Cell, k: nat, st: CellStep, j: nat)
    requires HasActor(st) && !IsResultStep(st) && !IsDockerStep(st) && k < |c.handlers| && j < |c.handlers|
    ensures SameVerdicts(c, ClaimSqlExec(now, c, k, st), j)
  {
  }

  /** Until the run has ended there is no verdict to change. */
  lemma ClaimExecVerdicts(now: Time, c: Cell, k: nat, st: CellStep, j: nat)
    requires HasActor(st) && !IsResultStep(st) && k < |c.handlers| && j < |c.handlers|
    ensures SameVerdicts(c, ClaimExec(now, c, k, st), j)
  {
    if IsDockerStep(st) {
      DockerVerdicts(c, k, st, j);
    } else {
      ClaimSqlVerdicts(now, c, k, st, j);
    }
  }

  lemma ClaimExecOutbox(now: Time, c: Cell, k: nat, st: CellStep, a: Announcement)
    requires HasActor(st) && !IsResultStep(st) && k < |c.handlers| && AnnouncementOk(c, a)
    ensures AnnouncementOk(ClaimExec(now, c, k, st), a)
  {
    ClaimExecVerdicts(now, c, k, st, a.handler);
  }

  lemma ResultExecOutbox(now: Time, c: Cell, k: nat, st: CellStep, a: Announcement)
    requires IsResultStep(st) && k < |c.handlers| && Coherent(c.handlers[k]) && (a in c.outbox ==> AnnouncementOk(c, a))
    requires a in ResultExec(now, c, k, st).outbox
    ensures AnnouncementOk(ResultExec(now, c, k, st), a)
  {
  }

  /** A step that no delivery of this execution takes. */
  lemma OutsideExecKeeps(cfg: Config, now: Time, c: Cell, st: CellStep)
    requires CellOk(cfg, now, c) && !HasActor(st)
    ensures CellOk(cfg, now, CellExec(cfg, now, c, st))
  {
    var c' := CellExec(cfg, now, c, st);
    forall j | 0 <= j < |c'.handlers|
      ensures HandlerOk(cfg, c', j)
    {
      assert j < |c.handlers| ==> HandlerOk(cfg, c, j);
    }
    forall a | a in c'.outbox
      ensures AnnouncementOk(c', a)
    {
      assert AnnouncementOk(c, a);
    }
  }

  lemma DockerKeeps(cfg: Config, now: Time, c: Cell, k: nat, st: CellStep)
    requires IsDockerStep(st) && CellOk(cfg, now, c) && k < |c.handlers|
    ensures CellOk(cfg, now, ClaimExec(now, c, k, st))
  {
    var c' := ClaimExec(now, c, k, st);
    assert HandlerOk(cfg, c, k);
    DockerRow(cfg, now, c, k, st);
    DockerOutput(c, k, st);
    ClaimExecVerdicts(now, c, k, st, k);
    forall j | 0 <= j < |c'.handlers|
      ensures HandlerOk(cfg, c', j)
    {
      DockerHandler(cfg, now, c, k, st, j);
    }
    forall a | a in c'.outbox
      ensures AnnouncementOk(c', a)
    {
      ClaimExecOutbox(now, c, k, st, a);
    }
  }

  lemma ClaimSqlKeeps(cfg: Config, now: Time, c: Cell, k: nat, st: CellStep)
    requires HasActor(st) && !IsResultStep(st) && !IsDockerStep(st) && CellOk(cfg, now, c) && k < |c.handlers|
    ensures CellOk(cfg, now, ClaimExec(now, c, k, st))
  {
    var c' := ClaimExec(now, c, k, st);
    assert HandlerOk(cfg, c, k);
    ClaimSqlRow(cfg, now, c, k, st);
    ClaimSqlOutput(now, c, k, st);
    ClaimExecVerdicts(now, c, k, st, k);
    forall j | 0 <= j < |c'.handlers|
      ensures HandlerOk(cfg, c', j)
    {
      ClaimSqlHandler(cfg, now, c, k, st, j);
    }
    forall a | a in c'.outbox
      ensures AnnouncementOk(c', a)
    {
      ClaimExecOutbox(now, c, k, st, a);
    }
  }

  lemma FinishKeeps(cfg: Config, now: Time, c: Cell, k: nat, st: CellStep)
    requires (st.Finish? || st.LateFinish?) && CellOk(cfg, now, c) && k < |c.handlers|
    ensures CellOk(cfg, now, ResultExec(now, c, k, st))
  {
    var c' := ResultExec(now, c, k, st);
    assert HandlerOk(cfg, c, k);
    FinishRowOk(cfg, now, c, k, st);
    FinishOutput(cfg, now, c, k, st);
    FinishHandler(cfg, now, c, k, st, k);
    forall j | 0 <= j < |c'.handlers|
      ensures HandlerOk(cfg, c', j)
    {
      FinishHandler(cfg, now, c, k, st, j);
    }
    forall a | a in c'.outbox
      ensures AnnouncementOk(c', a)
    {
      ResultExecOutbox(now, c, k, st, a);
    }
  }

  lemma EndingKeeps(cfg: Config, now: Time, c: Cell, k: nat, st: CellStep)
    requires IsResultStep(st) && !st.Finish? && !st.LateFinish? && CellOk(cfg, now, c) && k < |c.handlers|
    ensures CellOk(cfg, now, ResultExec(now, c, k, st))
  {
    var c' := ResultExec(now, c, k, st);
    assert HandlerOk(cfg, c, k);
    EndingRow(cfg, now, c, k, st);
    EndingOutput(cfg, c, k, st);
    EndingHandler(cfg, c, k, st, k);
    forall j | 0 <= j < |c'.handlers|
      ensures HandlerOk(cfg, c', j)
    {
      EndingHandler(cfg, c, k, st, j);
    }
    forall a | a in c'.outbox
      ensures AnnouncementOk(c', a)
    {
      ResultExecOutbox(now, c, k, st, a);
    }
  }

  lemma CellExecKeeps(cfg: Config, now: Time, c: Cell, st: CellStep)
    requires CellOk(cfg, now, c)
    ensures CellOk(cfg, now, CellExec(cfg, now, c, st))
  {
    if !HasActor(st) {
      OutsideExecKeeps(cfg, now, c, st);
    } else if st.k < |c.handlers| {
      if st.Finish? || st.LateFinish? {
        FinishKeeps(cfg, now, c, st.k, st);
      } else if IsResultStep(st) {
        EndingKeeps(cfg, now, c, st.k, st);
      } else if IsDockerStep(st) {
        DockerKeeps(cfg, now, c, st.k, st);
      } else {
        ClaimSqlKeeps(cfg, now, c, st.k, st);
      }
    }
  }

  // ----- the whole system

  lemma LaterKeeps(cfg: Config, now: Time, later: Time, c: Cell)
    requires CellOk(cfg, now, c) && now <= later
    ensures CellOk(cfg, later, c)
  {
  }

  lemma NewCellOk(cfg: Config, now: Time, p: Params, createdAt: Time)
    requires ValidParams(p) && createdAt <= now
    ensures CellOk(cfg, now, NewCell(p, createdAt))
  {
  }

  /** The submitted columns never change, a finished row is frozen. */
  lemma CellRowMoves(cfg: Config, now: Time, c: Cell, st: CellStep)
    ensures RowMoves(c.row, CellExec(cfg, now, c, st).row)
  {
  }

  /** Whatever changes a row also stamps it with the time of the change. */
  lemma ChangeIsStamped(cfg: Config, now: Time, c: Cell, st: CellStep)
    ensures CellExec(cfg, now, c, st).row != c.row ==> CellExec(cfg, now, c, st).row.updatedAt == now
  {
  }

  lemma ExecKeepsCells(s: State, st: Step, id: Id)
    requires Inv(s) && id in Exec(s, st).cells
    ensures CellOk(s.cfg, Exec(s, st).now, Exec(s, st).cells[id])
  {
    if id in s.cells {
      ExecOnCell(s, st, id);
      CellExecKeeps(s.cfg, s.now, s.cells[id], View(s, st, id));
      LaterKeeps(s.cfg, s.now, Exec(s, st).now, Exec(s, st).cells[id]);
    } else {
      var p := Exec(s, st).cells[id].inserted;
      assert st.TxCommit? ==> TxOk(s, st.x);
      NewCellOk(s.cfg, s.now, p, Exec(s, st).cells[id].row.createdAt);
    }
  }

  lemma CreatedAtIsForever(s: State, st: Step, id: Id)
    requires id in s.cells
    ensures id in Exec(s, st).cells && Exec(s, st).cells[id].row.createdAt == s.cells[id].row.createdAt
  {
    ExecOnCell(s, st, id);
    CellRowMoves(s.cfg, s.now, s.cells[id], View(s, st, id));
  }

  lemma ExecKeepsSweep(s: State, st: Step, k: nat)
    requires k in s.sweeps ==> SweepOk(s, k)
    requires k in Exec(s, st).sweeps
    ensures SweepOk(Exec(s, st), k)
  {
    var s' := Exec(s, st);
    ExecKeepsClock(s, st);
    forall id | id in s'.sweeps[k]
      ensures id in s'.cells && s'.cells[id].row.createdAt < s'.now - s'.cfg.staleQueuedSecs * SECOND
    {
      CreatedAtIsForever(s, st, id);
    }
  }

  lemma ExecKeepsTxs(s: State, st: Step, x: nat)
    requires (forall y | y in s.txs :: TxOk(s, y)) && x in Exec(s, st).txs
    ensures TxOk(Exec(s, st), x)
  {
    assert x in s.txs ==> TxOk(s, x);
  }

  lemma ExecKeepsClock(s: State, st: Step)
    ensures Exec(s, st).cfg == s.cfg && s.now <= Exec(s, st).now
  {
  }

  lemma ExecKeepsInv(s: State, st: Step)
    requires Inv(s)
    ensures Inv(Exec(s, st)) && Exec(s, st).cfg == s.cfg && s.now <= Exec(s, st).now
  {
    var s' := Exec(s, st);
    ExecKeepsClock(s, st);
    forall k | k in s'.sweeps
      ensures SweepOk(s', k)
    {
      ExecKeepsSweep(s, st, k);
    }
    forall id | id in s'.cells
      ensures CellOk(s'.cfg, s'.now, s'.cells[id])
    {
      ExecKeepsCells(s, st, id);
    }
    forall x | x in s'.txs
      ensures TxOk(s', x)
    {
      ExecKeepsTxs(s, st, x);
    }
  }

  lemma {:induction false} RunKeepsInv(s: State, steps: seq<Step>)
    requires Inv(s)
    ensures Inv(Run(s, steps)) && Run(s, steps).cfg == s.cfg && s.now <= Run(s, steps).now
    decreases |steps|
  {
    if steps != [] {
      ExecKeepsInv(s, steps[0]);
      RunKeepsInv(Exec(s, steps[0]), steps[1..]);
    }
  }

  lemma InitInv(cfg: Config, now: Time)
    ensures Inv(Init(cfg, now))
  {
  }
}
