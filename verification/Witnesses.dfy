/** Runs that show where the bounds are met and where a stronger promise would be false. */
module Witnesses {
  import opened Executions
  import opened Sandbox
  import opened Lifecycle
  import opened LifecycleInv
  import opened LifecycleTheorems
  import opened StatusBudget
  import opened Runtime

  /** Execution 0 after the given steps, and how often its status has changed. */
  ghost predicate At(cfg: Config, t0: Time, steps: seq<Step>, now: Time, c: Cell, changes: nat) {
    var s := After(cfg, t0, steps);
    && s.cfg == cfg && s.now == now && 0 in s.cells && s.cells[0] == c
    && StatusChanges(Init(cfg, t0), steps, 0) == changes
  }

  lemma {:induction false} ChangesSnoc(s: State, steps: seq<Step>, st: Step, id: Id)
    ensures var m := Run(s, steps);
            StatusChanges(s, steps + [st], id) == StatusChanges(s, steps, id)
              + (if id in m.cells && id in Exec(m, st).cells
                 then Changed(m.cells[id].row, Exec(m, st).cells[id].row) else 0)
    decreases |steps|
  {
    if steps == [] {
      assert steps + [st] == [st];
      assert StatusChanges(Exec(s, st), [st][1..], id) == 0;
    } else {
      assert (steps + [st])[1..] == steps[1..] + [st];
      ChangesSnoc(Exec(s, steps[0]), steps[1..], st, id);
    }
  }

  /** One more step of execution 0. */
  lemma Next(cfg: Config, t0: Time, steps: seq<Step>, now: Time, c: Cell, n: nat, st: CellStep)
    requires At(cfg, t0, steps, now, c, n) && !st.MarkStale? && !st.Reap?
    ensures var c' := CellExec(cfg, now, c, st);
            At(cfg, t0, steps + [On(0, st)], now, c', n + Changed(c.row, c'.row))
  {
    RunSnoc(Init(cfg, t0), steps, On(0, st));
    ExecOnCell(After(cfg, t0, steps), On(0, st), 0);
    ChangesSnoc(Init(cfg, t0), steps, On(0, st), 0);
  }

  lemma Wait(cfg: Config, t0: Time, steps: seq<Step>, now: Time, c: Cell, n: nat, d: nat)
    requires At(cfg, t0, steps, now, c, n)
    ensures At(cfg, t0, steps + [Tick(d)], now + d, c, n)
  {
    RunSnoc(Init(cfg, t0), steps, Tick(d));
    ChangesSnoc(Init(cfg, t0), steps, Tick(d), 0);
  }

  lemma Reaped0(cfg: Config, t0: Time, steps: seq<Step>, now: Time, c: Cell, n: nat)
    requires At(cfg, t0, steps, now, c, n)
    ensures var c' := CellExec(cfg, now, c, Reap);
            At(cfg, t0, steps + [ReapRunning], now, c', n + Changed(c.row, c'.row))
  {
    RunSnoc(Init(cfg, t0), steps, ReapRunning);
    ExecOnCell(After(cfg, t0, steps), ReapRunning, 0);
    ChangesSnoc(Init(cfg, t0), steps, ReapRunning, 0);
  }

  /** A submitted and published execution. */
  function Published(cfg: Config, t0: Time, p: Params): Cell {
    CellExec(cfg, t0, NewCell(p, t0), Publish)
  }

  lemma Submitted(cfg: Config, t0: Time, p: Params) returns (steps: seq<Step>)
    requires ValidParams(p)
    ensures At(cfg, t0, steps, t0, Published(cfg, t0, p), 0)
  {
    var insert := InsertUnchecked(0, p);
    RunSnoc(Init(cfg, t0), [], insert);
    ChangesSnoc(Init(cfg, t0), [], insert, 0);
    assert [] + [insert] == [insert];
    assert StatusChanges(Init(cfg, t0), [], 0) == 0;
    Next(cfg, t0, [insert], t0, NewCell(p, t0), 0, Publish);
    steps := [insert] + [On(0, Publish)];
  }

  // ----- the bound on status changes is met

  /** Queued, with its message still to be delivered and `n` deliveries behind it. */
  predicate Waiting(c: Cell, n: nat) {
    c.row.status.Queued? && c.msg.Some? && !c.msg.value.acked && |c.handlers| == n
  }

  lemma BounceCell(cfg: Config, now: Time, c: Cell, n: nat)
    requires Waiting(c, n) && n < cfg.maxDeliver
    ensures var c1 := CellExec(cfg, now, c, Deliver);
            var c2 := CellExec(cfg, now, c1, Claim(n, Answered));
            var c3 := CellExec(cfg, now, c2, NotStarted(n));
            var c4 := CellExec(cfg, now, c3, Requeue(n, Answered));
            && c1.row == c.row && c2.row.status.Running? && c3.row == c2.row && Waiting(c4, n + 1)
            && c4.row.createdAt == c.row.createdAt
  {
    var c1 := CellExec(cfg, now, c, Deliver);
    assert c1.handlers[n] == NEW_HANDLER;
    var c2 := CellExec(cfg, now, c1, Claim(n, Answered));
    assert c2.handlers[n].phase.Preparing?;
    var c3 := CellExec(cfg, now, c2, NotStarted(n));
    assert c3.handlers[n].phase.Requeueing?;
  }

  /** A daemon that never starts anything: each delivery claims the row and gives it back. */
  lemma {:induction false} Bounced(cfg: Config, t0: Time, p: Params, n: nat) returns (steps: seq<Step>, c: Cell)
    requires ValidParams(p) && n <= cfg.maxDeliver
    ensures At(cfg, t0, steps, t0, c, 2 * n) && Waiting(c, n) && c.row.createdAt == t0
  {
    if n == 0 {
      steps := Submitted(cfg, t0, p);
      c := Published(cfg, t0, p);
    } else {
      var before, c0 := Bounced(cfg, t0, p, n - 1);
      steps, c := Bounce(cfg, t0, before, c0, n - 1, 2 * (n - 1));
    }
  }

  lemma Bounce(cfg: Config, t0: Time, before: seq<Step>, c0: Cell, k: nat, changes: nat)
    returns (steps: seq<Step>, c: Cell)
    requires At(cfg, t0, before, t0, c0, changes) && Waiting(c0, k) && k < cfg.maxDeliver
    ensures At(cfg, t0, steps, t0, c, changes + 2) && Waiting(c, k + 1) && c.row.createdAt == c0.row.createdAt
  {
    BounceCell(cfg, t0, c0, k);
    var c1 := CellExec(cfg, t0, c0, Deliver);
    Next(cfg, t0, before, t0, c0, changes, Deliver);
    var s1 := before + [On(0, Deliver)];
    var c2 := CellExec(cfg, t0, c1, Claim(k, Answered));
    Next(cfg, t0, s1, t0, c1, changes, Claim(k, Answered));
    var s2 := s1 + [On(0, Claim(k, Answered))];
    var c3 := CellExec(cfg, t0, c2, NotStarted(k));
    Next(cfg, t0, s2, t0, c2, changes + 1, NotStarted(k));
    var s3 := s2 + [On(0, NotStarted(k))];
    Next(cfg, t0, s3, t0, c3, changes + 1, Requeue(k, Answered));
    steps := s3 + [On(0, Requeue(k, Answered))];
    c := CellExec(cfg, t0, c3, Requeue(k, Answered));
  }

  /** The stale-queued sweep finds execution 0 and fails it. */
  lemma SweptAway(cfg: Config, t0: Time, before: seq<Step>, now: Time, c: Cell, changes: nat) returns (steps: seq<Step>)
    requires At(cfg, t0, before, now, c, changes) && StaleQueued(c.row, now, cfg.staleQueuedSecs)
    ensures StatusChanges(Init(cfg, t0), steps, 0) == changes + 1
  {
    var list, mark := SweepList(0), SweepMark(0, 0);
    var s := After(cfg, t0, before);
    RunSnoc(Init(cfg, t0), before, list);
    ChangesSnoc(Init(cfg, t0), before, list, 0);
    var s1 := Exec(s, list);
    assert 0 in s1.sweeps[0];
    RunSnoc(Init(cfg, t0), before + [list], mark);
    ChangesSnoc(Init(cfg, t0), before + [list], mark, 0);
    ExecOnCell(s1, mark, 0);
    steps := before + [list] + [mark];
  }

  /** Some run does make 2 * maxDeliver + 1 changes of status, whatever maxDeliver is. */
  lemma StatusBoundIsMet(cfg: Config, t0: Time, p: Params)
    requires ValidParams(p) && cfg.staleQueuedSecs >= 0
    ensures exists steps :: StatusChanges(Init(cfg, t0), steps, 0) == 2 * cfg.maxDeliver + 1
  {
    var steps, c := Bounced(cfg, t0, p, cfg.maxDeliver);
    var d := cfg.staleQueuedSecs * SECOND + 1;
    Wait(cfg, t0, steps, t0, c, 2 * cfg.maxDeliver, d);
    var all := SweptAway(cfg, t0, steps + [Tick(d)], t0 + d, c, 2 * cfg.maxDeliver);
  }

  // ----- an announcement need not match its row

  /** A claimed cell and the claim's time. */
  predicate Claimed(c: Cell, now: Time) {
    |c.handlers| == 1 && c.handlers[0].phase.Preparing? && c.handlers[0].claimedAt == now && c.container.None?
  }

  lemma ClaimCell(cfg: Config, now: Time, c: Cell)
    requires Waiting(c, 0) && cfg.maxDeliver >= 1 && c.container.None?
    ensures var c1 := CellExec(cfg, now, c, Deliver);
            var c2 := CellExec(cfg, now, c1, Claim(0, Answered));
            c1.row == c.row && c2.row == ClaimRow(c.row, now) && Claimed(c2, now)
  {
    assert CellExec(cfg, now, c, Deliver).handlers == [NEW_HANDLER];
  }

  /** A started cell and the claim's time. */
  predicate Running0(c: Cell, claimedAt: Time) {
    |c.handlers| == 1 && c.handlers[0].phase.Started? && c.handlers[0].claimedAt == claimedAt
  }

  lemma StartCell(cfg: Config, now: Time, c: Cell)
    requires Claimed(c, now)
    ensures var c1 := CellExec(cfg, now, c, CreateContainer(0));
            var c2 := CellExec(cfg, now, c1, StartContainer(0));
            c1.row == c.row && c2.row == c.row && Running0(c2, now)
  {
    assert CanStart(CellExec(cfg, now, c, CreateContainer(0)), 0);
  }

  /** From the claim to the running container. */
  lemma Launched(cfg: Config, t0: Time, p: Params) returns (steps: seq<Step>, c: Cell)
    requires ValidParams(p) && cfg.maxDeliver >= 1
    ensures At(cfg, t0, steps, t0, c, 1)
    ensures Running0(c, t0) && c.row == ClaimRow(NewRow(p, t0), t0)
  {
    var s0 := Submitted(cfg, t0, p);
    steps, c := Launch0(cfg, t0, s0, Published(cfg, t0, p));
  }

  lemma Launch0(cfg: Config, t0: Time, s0: seq<Step>, c0: Cell) returns (steps: seq<Step>, c: Cell)
    requires At(cfg, t0, s0, t0, c0, 0) && Waiting(c0, 0) && cfg.maxDeliver >= 1 && c0.container.None?
    ensures At(cfg, t0, steps, t0, c, 1)
    ensures Running0(c, t0) && c.row == ClaimRow(c0.row, t0)
  {
    ClaimCell(cfg, t0, c0);
    var c1 := CellExec(cfg, t0, c0, Deliver);
    Next(cfg, t0, s0, t0, c0, 0, Deliver);
    var s1 := s0 + [On(0, Deliver)];
    var c2 := CellExec(cfg, t0, c1, Claim(0, Answered));
    Next(cfg, t0, s1, t0, c1, 0, Claim(0, Answered));
    var s2 := s1 + [On(0, Claim(0, Answered))];
    StartCell(cfg, t0, c2);
    var c3 := CellExec(cfg, t0, c2, CreateContainer(0));
    Next(cfg, t0, s2, t0, c2, 1, CreateContainer(0));
    var s3 := s2 + [On(0, CreateContainer(0))];
    c := CellExec(cfg, t0, c3, StartContainer(0));
    Next(cfg, t0, s3, t0, c3, 1, StartContainer(0));
    steps := s3 + [On(0, StartContainer(0))];
  }

  /** A stored verdict and its time. */
  predicate Persisted0(c: Cell, claimedAt: Time, now: Time, v: Verdict) {
    && |c.handlers| == 1 && c.handlers[0].phase.Persisted? && c.handlers[0].verdict == Some(v)
    && c.handlers[0].claimedAt == claimedAt && c.handlers[0].persistedAt == Some(now)
  }

  lemma FinishCell(cfg: Config, now: Time, c: Cell, claimedAt: Time, o: Outcome)
    requires Running0(c, claimedAt) && !Active(c.row.status)
    ensures var c1 := CellExec(cfg, now, c, RunEnded(0, o));
            var c2 := CellExec(cfg, now, c1, Finish(0, Answered));
            c1.row == c.row && c2.row == c.row && Persisted0(c2, claimedAt, now, VerdictOf(o))
  {
  }

  lemma AnnounceCell(cfg: Config, now: Time, c: Cell, claimedAt: Time, v: Verdict)
    requires Persisted0(c, claimedAt, now, v) && v.clean
    ensures var c' := CellExec(cfg, now, c, Announce(0, ResultStream));
            && c'.row == c.row && c'.handlers == c.handlers
            && Announcement(0, ResultStream, v.result.status, v.announcedExit) in c'.outbox
  {
  }

  /** From the end of the run to the announcement, whatever has become of the row. */
  lemma Concluded(cfg: Config, t0: Time, before: seq<Step>, now: Time, c: Cell, n: nat, claimedAt: Time, o: Outcome)
    returns (steps: seq<Step>, c': Cell)
    requires At(cfg, t0, before, now, c, n) && Running0(c, claimedAt) && !Active(c.row.status) && o.Ended?
    ensures At(cfg, t0, steps, now, c', n) && c'.row == c.row && Persisted0(c', claimedAt, now, VerdictOf(o))
    ensures Announcement(0, ResultStream, VerdictOf(o).result.status, VerdictOf(o).announcedExit) in c'.outbox
  {
    FinishCell(cfg, now, c, claimedAt, o);
    var c1 := CellExec(cfg, now, c, RunEnded(0, o));
    Next(cfg, t0, before, now, c, n, RunEnded(0, o));
    var s1 := before + [On(0, RunEnded(0, o))];
    var c2 := CellExec(cfg, now, c1, Finish(0, Answered));
    Next(cfg, t0, s1, now, c1, n, Finish(0, Answered));
    var s2 := s1 + [On(0, Finish(0, Answered))];
    AnnounceCell(cfg, now, c2, claimedAt, VerdictOf(o));
    Next(cfg, t0, s2, now, c2, n, Announce(0, ResultStream));
    steps := s2 + [On(0, Announce(0, ResultStream))];
    c' := CellExec(cfg, now, c2, Announce(0, ResultStream));
  }

  /** A success was announced, written just after its claim went stale, and the row is the reaper's failure. */
  predicate Contradicted(s: State, id: Id, a: Announcement) {
    && id in s.cells && a in s.cells[id].outbox && a.status.Succeeded? && Reaped(s.cells[id].row)
    && a.handler < |s.cells[id].handlers|
    && var hd := s.cells[id].handlers[a.handler];
       hd.persistedAt == Some(hd.claimedAt + s.cfg.staleSecs * SECOND + 1)
  }

  /**
   * With any threshold, a write that comes one nanosecond after it may find the row reaped, and is
   * announced all the same: the condition under which an announced result is stored cannot be relaxed.
   */
  lemma AnnouncedAfterReap(cfg: Config, t0: Time, p: Params)
    requires ValidParams(p) && cfg.maxDeliver >= 1 && cfg.staleSecs >= 0
    ensures exists steps, a :: Contradicted(After(cfg, t0, steps), 0, a)
  {
    var s1, c1 := Launched(cfg, t0, p);
    var d := cfg.staleSecs * SECOND + 1;
    Wait(cfg, t0, s1, t0, c1, 1, d);
    Reaped0(cfg, t0, s1 + [Tick(d)], t0 + d, c1, 1);
    var c2 := CellExec(cfg, t0 + d, c1, Reap);
    var o := Ended(RunResult(0, "", "", false, false));
    var steps, c3 := Concluded(cfg, t0, s1 + [Tick(d)] + [ReapRunning], t0 + d, c2, 2, t0, o);
    assert Contradicted(After(cfg, t0, steps), 0, Announcement(0, ResultStream, Succeeded, Some(0)));
  }
}
