/** The window of the submit quota cannot be longer than the cap on it says. */
module QuotaWitnesses {
  import opened Sets
  import opened Text
  import opened Executions
  import opened Quotas
  import opened Lifecycle
  import opened LifecycleInv
  import opened QuotaInv
  import opened Runtime

  /** The ids are those below `n`. */
  ghost predicate Below(ids: set<Id>, n: nat) {
    forall id: Id :: id in ids <==> id < n
  }

  lemma {:induction false} BelowSize(ids: set<Id>, n: nat)
    requires Below(ids, n)
    ensures |ids| == n
    decreases n
  {
    if n > 0 {
      assert n - 1 in ids;
      BelowSize(ids - {n - 1}, n - 1);
    }
  }

  // ----- one quota transaction that nobody disturbs

  function WithTx(s: State, tx: Tx): State {
    s.(txs := map[0 := tx])
  }

  /** The state after a transaction that began now, checked `d` later and committed. */
  function Admit(s: State, p: Params, id: Id, d: nat): State {
    s.(now := s.now + d, cells := s.cells[id := NewCell(p, s.now)],
       admitted := s.admitted[id := Admission(s.commits, s.now + d)], commits := s.commits + 1)
  }

  function LockSteps(p: Params, d: nat): seq<Step> {
    [TxBegin(0, p)] + [TxLock(0)] + [Tick(d)]
  }

  function CheckSteps(clock: Time): seq<Step> {
    [TxCount(0, clock)] + [TxCheck(0)]
  }

  function CommitSteps(id: Id, clock: Time): seq<Step> {
    CheckSteps(clock) + [TxCommit(0, id)]
  }

  function AdmitSteps(p: Params, id: Id, d: nat, clock: Time): seq<Step> {
    LockSteps(p, d) + CommitSteps(id, clock)
  }

  /** The transaction that began at `begunAt` holds the lock. */
  function Holding(s: State, p: Params, begunAt: Time, d: nat): State {
    s.(txs := map[0 := Tx(p, begunAt, Locked)], now := s.now + d)
  }

  lemma RunLock(s: State, p: Params, d: nat)
    requires ValidParams(p) && s.txs == map[]
    ensures Run(s, LockSteps(p, d)) == Holding(s, p, s.now, d)
  {
    var a := [TxBegin(0, p)];
    RunSnoc(s, a + [TxLock(0)], Tick(d));
    RunSnoc(s, a, TxLock(0));
    RunSnoc(s, [], TxBegin(0, p));
    assert [] + [TxBegin(0, p)] == a;
    BeginAndLock(s, p, d);
  }

  lemma BeginAndLock(s: State, p: Params, d: nat)
    requires ValidParams(p) && s.txs == map[]
    ensures Exec(Exec(Exec(s, TxBegin(0, p)), TxLock(0)), Tick(d)) == Holding(s, p, s.now, d)
  {
    assert Exec(s, TxBegin(0, p)) == WithTx(s, Tx(p, s.now, Begun));
    assert !LockBusy(WithTx(s, Tx(p, s.now, Begun)), 0, p.tenant);
    assert map[0 := Tx(p, s.now, Begun)][0 := Tx(p, s.now, Locked)] == map[0 := Tx(p, s.now, Locked)];
  }

  /** The counts, read now, leave room for one more row of `p`. */
  predicate RoomAt(s: State, p: Params, clock: Time) {
    && p.tenant in s.cfg.limits
    && var l := s.cfg.limits[p.tenant];
       Decide(l, HourlyCount(Rows(s), p.tenant, l, clock), ActiveCount(Rows(s), p.tenant, l)).allowed
  }

  lemma SameRoom(s: State, s': State, p: Params, clock: Time)
    requires RoomAt(s, p, clock) && s'.cells == s.cells && s'.cfg == s.cfg
    ensures RoomAt(s', p, clock)
  {
    assert Rows(s') == Rows(s);
  }

  lemma CountAndCheck(s: State, begunAt: Time, p: Params)
    requires s.txs == map[0 := Tx(p, begunAt, Locked)] && RoomAt(s, p, s.now)
    ensures Exec(Exec(s, TxCount(0, s.now)), TxCheck(0)) == WithTx(s, Tx(p, begunAt, Checked(s.now)))
  {
    var l := s.cfg.limits[p.tenant];
    var counted := Tx(p, begunAt, Counted(s.now, HourlyCount(Rows(s), p.tenant, l, s.now)));
    var s1 := Exec(s, TxCount(0, s.now));
    assert s1 == WithTx(s, counted) by {
      assert s.txs[0 := counted] == map[0 := counted];
    }
    assert Rows(s1) == Rows(s);
    assert s1.txs[0 := Tx(p, begunAt, Checked(s.now))] == map[0 := Tx(p, begunAt, Checked(s.now))];
  }

  lemma RunCheck(s: State, begunAt: Time, p: Params)
    requires s.txs == map[0 := Tx(p, begunAt, Locked)] && RoomAt(s, p, s.now)
    ensures Run(s, CheckSteps(s.now)) == WithTx(s, Tx(p, begunAt, Checked(s.now)))
  {
    var a := [TxCount(0, s.now)];
    RunSnoc(s, a, TxCheck(0));
    RunSnoc(s, [], TxCount(0, s.now));
    assert [] + [TxCount(0, s.now)] == a;
    CountAndCheck(s, begunAt, p);
  }

  lemma CommitChecked(s: State, begunAt: Time, p: Params, id: Id)
    requires s.txs == map[0 := Tx(p, begunAt, Checked(s.now))] && id !in s.cells
    ensures Exec(s, TxCommit(0, id))
            == s.(cells := s.cells[id := NewCell(p, begunAt)], txs := map[],
                  admitted := s.admitted[id := Admission(s.commits, s.now)], commits := s.commits + 1)
  {
    assert s.txs - {0} == map[];
  }

  lemma CheckHeld(s: State, p: Params, d: nat)
    requires RoomAt(s, p, s.now + d)
    ensures var s3 := Holding(s, p, s.now, d);
            Run(s3, CheckSteps(s.now + d)) == WithTx(s3, Tx(p, s.now, Checked(s.now + d)))
  {
    var s3 := Holding(s, p, s.now, d);
    SameRoom(s, s3, p, s.now + d);
    RunCheck(s3, s.now, p);
  }

  lemma CommitHeld(s: State, p: Params, id: Id, d: nat)
    requires s.txs == map[] && id !in s.cells
    requires var s3 := Holding(s, p, s.now, d);
             Run(s3, CheckSteps(s.now + d)) == WithTx(s3, Tx(p, s.now, Checked(s.now + d)))
    ensures Run(Holding(s, p, s.now, d), CommitSteps(id, s.now + d)) == Admit(s, p, id, d)
  {
    var s3 := Holding(s, p, s.now, d);
    RunSnoc(s3, CheckSteps(s.now + d), TxCommit(0, id));
    CommitChecked(WithTx(s3, Tx(p, s.now, Checked(s.now + d))), s.now, p, id);
  }

  lemma AdmitEffect(s: State, p: Params, id: Id, d: nat)
    requires ValidParams(p) && s.txs == map[] && id !in s.cells && RoomAt(s, p, s.now + d)
    ensures Run(s, AdmitSteps(p, id, d, s.now + d)) == Admit(s, p, id, d)
  {
    RunConcat(s, LockSteps(p, d), CommitSteps(id, s.now + d));
    RunLock(s, p, d);
    CheckHeld(s, p, d);
    CommitHeld(s, p, id, d);
  }

  // ----- a full hour

  /** Exactly `n` rows, all admitted for `p`, all created and checked at `t0`, and all failed since. */
  ghost predicate Filled(s: State, p: Params, t0: Time, n: nat) {
    && Below(s.cells.Keys, n) && Below(s.admitted.Keys, n)
    && forall id | id in s.cells ::
         && s.cells[id].row.params == p && s.cells[id].row.createdAt == t0 && s.cells[id].row.status.Failed?
         && s.admitted[id].checkedAt == t0
  }

  function FailedCell(p: Params, t0: Time): Cell {
    NewCell(p, t0).(row := NewRow(p, t0).(status := Failed, stderr := SUBMIT_FAILED_STDERR))
  }

  /** The state after a submit that is admitted and whose publish fails. */
  function AdmitAndFail(s: State, p: Params, id: Id): State {
    Admit(s, p, id, 0).(cells := s.cells[id := FailedCell(p, s.now)])
  }

  lemma FailEffect(s: State, p: Params, id: Id)
    ensures Exec(Admit(s, p, id, 0), On(id, SubmitFailed)) == AdmitAndFail(s, p, id)
  {
    var m := Admit(s, p, id, 0);
    assert CellExec(m.cfg, m.now, m.cells[id], SubmitFailed) == FailedCell(p, s.now);
    assert s.cells[id := NewCell(p, s.now)][id := FailedCell(p, s.now)] == s.cells[id := FailedCell(p, s.now)];
  }

  lemma FailFills(s: State, p: Params, t0: Time, n: nat)
    requires Filled(s, p, t0, n) && s.now == t0
    ensures Filled(AdmitAndFail(s, p, n), p, t0, n + 1)
  {
  }

  lemma FilledSince(s: State, p: Params, t0: Time, n: nat, since: Time)
    requires Filled(s, p, t0, n)
    ensures |IdsSince(Rows(s), p.tenant, since)| == if since <= t0 then n else 0
  {
    var ids := IdsSince(Rows(s), p.tenant, since);
    if since <= t0 {
      assert forall id: Id :: id in ids <==> id in s.cells.Keys;
      BelowSize(ids, n);
    } else {
      assert ids == {};
    }
  }

  /** The limits leave room for a row of its own when the hour is not full and nothing is active. */
  predicate Bounded(l: Limits) {
    l.submitsPerHour >= 1 && l.maxActive != 0
  }

  /** The check passes as long as fewer rows than the limit are in its hour. */
  lemma HourHasRoom(s: State, p: Params, t0: Time, n: nat, clock: Time)
    requires Filled(s, p, t0, n) && p.tenant in s.cfg.limits && Bounded(s.cfg.limits[p.tenant])
    requires clock - SUBMIT_WINDOW <= t0 ==> n < s.cfg.limits[p.tenant].submitsPerHour
    ensures RoomAt(s, p, clock)
  {
    FilledSince(s, p, t0, n, clock - SUBMIT_WINDOW);
    assert ActiveIds(Rows(s), p.tenant) == {};
  }

  /** A submit that is admitted, and whose publish fails. */
  function FillSteps(p: Params, id: Id, t0: Time): seq<Step> {
    AdmitSteps(p, id, 0, t0) + [On(id, SubmitFailed)]
  }

  /** One more row at `t0`. */
  lemma FillOne(s: State, p: Params, t0: Time, n: nat)
    requires ValidParams(p) && s.now == t0 && s.txs == map[] && n !in s.cells && RoomAt(s, p, t0)
    ensures Run(s, FillSteps(p, n, t0)) == AdmitAndFail(s, p, n)
  {
    AdmitEffect(s, p, n, 0);
    RunSnoc(s, AdmitSteps(p, n, 0, t0), On(n, SubmitFailed));
    FailEffect(s, p, n);
  }

  /** Ready for one more row: `n` rows at `t0`, and no transaction open. */
  ghost predicate Ready(s: State, cfg: Config, p: Params, t0: Time, n: nat) {
    s.cfg == cfg && s.now == t0 && s.txs == map[] && Filled(s, p, t0, n)
  }

  lemma FillNext(s: State, cfg: Config, p: Params, t0: Time, n: nat)
    requires ValidParams(p) && p.tenant in cfg.limits && Bounded(cfg.limits[p.tenant])
    requires n < cfg.limits[p.tenant].submitsPerHour && Ready(s, cfg, p, t0, n)
    ensures Run(s, FillSteps(p, n, t0)) == AdmitAndFail(s, p, n) && Ready(AdmitAndFail(s, p, n), cfg, p, t0, n + 1)
  {
    assert n !in s.cells.Keys;
    assert Run(s, FillSteps(p, n, t0)) == AdmitAndFail(s, p, n) by {
      HourHasRoom(s, p, t0, n, t0);
      FillOne(s, p, t0, n);
    }
    FailFills(s, p, t0, n);
  }

  lemma {:induction false} Fill(cfg: Config, t0: Time, p: Params, n: nat) returns (steps: seq<Step>, s: State)
    requires ValidParams(p) && p.tenant in cfg.limits && Bounded(cfg.limits[p.tenant])
    requires n <= cfg.limits[p.tenant].submitsPerHour
    ensures s == Run(Init(cfg, t0), steps) && Ready(s, cfg, p, t0, n)
  {
    steps, s := [], Init(cfg, t0);
    if n > 0 {
      var before, m := Fill(cfg, t0, p, n - 1);
      FillNext(m, cfg, p, t0, n - 1);
      RunConcat(Init(cfg, t0), before, FillSteps(p, n - 1, t0));
      steps, s := before + FillSteps(p, n - 1, t0), AdmitAndFail(m, p, n - 1);
    }
  }

  lemma InWindow(s: State, p: Params, t0: Time, n: nat, skew: nat, id: Id)
    requires Filled(s, p, t0, n) && t0 <= s.now
    ensures id in AdmittedWindow(Admit(s, p, n, skew), p.tenant, t0, s.now) <==> id < n + 1
    ensures id < n + 1 ==> Lag(Admit(s, p, n, skew), id) <= skew
  {
    assert id in s.cells.Keys <==> id < n;
    assert id in s.admitted.Keys <==> id < n;
  }

  lemma OverfullWindow(s: State, p: Params, t0: Time, n: nat, skew: nat)
    requires Filled(s, p, t0, n) && t0 <= s.now
    ensures var s' := Admit(s, p, n, skew);
            |AdmittedWindow(s', p.tenant, t0, s.now)| == n + 1 && Punctual(s', p.tenant, skew, t0, s.now)
  {
    var w := AdmittedWindow(Admit(s, p, n, skew), p.tenant, t0, s.now);
    forall id: Id
      ensures id in w <==> id < n + 1
      ensures id < n + 1 ==> Lag(Admit(s, p, n, skew), id) <= skew
    {
      InWindow(s, p, t0, n, skew, id);
    }
    BelowSize(w, n + 1);
  }

  /** A state that is punctual to within the skew and has one admitted row too many in the window. */
  predicate Overfull(s: State, t: Tenant, skew: int, a: Time, b: Time, limit: int) {
    Punctual(s, t, skew, a, b) && |AdmittedWindow(s, t, a, b)| == limit + 1
  }

  /** The last transaction: it begins now and checks when the skew has passed. */
  lemma OneTooMany(s: State, p: Params, t0: Time, limit: nat, skew: nat)
    requires ValidParams(p) && p.tenant in s.cfg.limits && Bounded(s.cfg.limits[p.tenant])
    requires Filled(s, p, t0, limit) && s.txs == map[] && t0 <= s.now && s.now + skew == t0 + SUBMIT_WINDOW + 1
    ensures Run(s, AdmitSteps(p, limit, skew, s.now + skew)) == Admit(s, p, limit, skew)
    ensures Overfull(Admit(s, p, limit, skew), p.tenant, skew, t0, s.now, limit)
  {
    HourHasRoom(s, p, t0, limit, s.now + skew);
    AdmitEffect(s, p, limit, skew);
    OverfullWindow(s, p, t0, limit, skew);
  }

  /** Wait, then the last transaction. */
  function OverfillSteps(p: Params, t0: Time, limit: nat, skew: nat): seq<Step>
    requires skew <= SUBMIT_WINDOW
  {
    [Tick(SUBMIT_WINDOW - skew + 1)] + AdmitSteps(p, limit, skew, t0 + SUBMIT_WINDOW + 1)
  }

  lemma Overfills(m: State, cfg: Config, p: Params, t0: Time, skew: nat)
    requires ValidParams(p) && p.tenant in cfg.limits && Bounded(cfg.limits[p.tenant]) && skew <= SUBMIT_WINDOW
    requires Ready(m, cfg, p, t0, cfg.limits[p.tenant].submitsPerHour)
    ensures var limit := cfg.limits[p.tenant].submitsPerHour;
            Overfull(Run(m, OverfillSteps(p, t0, limit, skew)), p.tenant, skew, t0,
                     t0 + SUBMIT_WINDOW - skew + 1, limit)
  {
    var limit := cfg.limits[p.tenant].submitsPerHour;
    var d := SUBMIT_WINDOW - skew + 1;
    var s := Exec(m, Tick(d));
    RunConcat(m, [Tick(d)], AdmitSteps(p, limit, skew, s.now + skew));
    assert Run(m, [Tick(d)]) == s by {
      RunSnoc(m, [], Tick(d));
      assert [] + [Tick(d)] == [Tick(d)];
    }
    OneTooMany(s, p, t0, limit, skew);
  }

  /**
   * Whatever the hourly limit and the skew, some run is punctual to within the skew and yet admits one
   * row more than the limit in a window one nanosecond longer than the cap allows for: the full number
   * of rows at once, each failing before the next is submitted, then a transaction that begins when
   * they are a window minus the skew old and reads the clock when the skew has passed. Any limit on
   * active rows but zero lets this happen.
   */
  lemma WindowCapIsExact(cfg: Config, t0: Time, p: Params, skew: nat)
    requires ValidParams(p) && p.tenant in cfg.limits && Bounded(cfg.limits[p.tenant]) && skew <= SUBMIT_WINDOW
    ensures exists steps ::
              Overfull(Run(Init(cfg, t0), steps), p.tenant, skew, t0, t0 + SUBMIT_WINDOW - skew + 1,
                       cfg.limits[p.tenant].submitsPerHour)
  {
    var limit := cfg.limits[p.tenant].submitsPerHour;
    var before, m := Fill(cfg, t0, p, limit);
    var steps := OverfillSteps(p, t0, limit, skew);
    Overfills(m, cfg, p, t0, skew);
    RunConcat(Init(cfg, t0), before, steps);
    assert Overfull(Run(Init(cfg, t0), before + steps), p.tenant, skew, t0, t0 + SUBMIT_WINDOW - skew + 1, limit);
  }

  lemma TiersAreBounded(tier: string)
    ensures LimitsFor(tier) == Limits(-1, -1) || Bounded(LimitsFor(tier))
  {
    TableNumbers(Normalize(tier));
  }

  /**
   * So it is on every tier but enterprise. With a skew of one nanosecond or more the window is within
   * an hour: no tier's number is a cap on the full hour.
   */
  lemma HourlyCapFails(cfg: Config, tiers: map<Tenant, string>, t0: Time, p: Params, skew: nat)
    requires cfg.limits == TierLimits(tiers) && ValidParams(p) && p.tenant in tiers && skew <= SUBMIT_WINDOW
    requires LimitsFor(tiers[p.tenant]) != Limits(-1, -1)
    ensures exists steps ::
              Overfull(Run(Init(cfg, t0), steps), p.tenant, skew, t0, t0 + SUBMIT_WINDOW - skew + 1,
                       LimitsFor(tiers[p.tenant]).submitsPerHour)
  {
    TiersAreBounded(tiers[p.tenant]);
    WindowCapIsExact(cfg, t0, p, skew);
  }

  // ----- the two counts are read at two moments

  /** The hour is one row short of full, and the active rows, at the limit, are all left over from lost dispatchers. */
  predicate Brink(s: State, p: Params, clock: Time) {
    && p.tenant in s.cfg.limits
    && var l := s.cfg.limits[p.tenant];
       && l.submitsPerHour >= 1 && HourlyCount(Rows(s), p.tenant, l, clock) == l.submitsPerHour - 1
       && l.maxActive >= 1 && ActiveCount(Rows(s), p.tenant, l) >= l.maxActive
       && clock - SUBMIT_WINDOW <= s.now
       && forall i | i in ActiveIds(Rows(s), p.tenant) :: StaleRunning(Rows(s)[i], s.now, s.cfg.staleSecs)
  }

  lemma InsertCounts(s: State, p: Params, id: Id, clock: Time)
    requires ValidParams(p) && id !in s.cells && clock - SUBMIT_WINDOW <= s.now
    ensures var s1 := Exec(s, InsertUnchecked(id, p));
            |IdsSince(Rows(s1), p.tenant, clock - SUBMIT_WINDOW)|
            == |IdsSince(Rows(s), p.tenant, clock - SUBMIT_WINDOW)| + 1
  {
    var since := clock - SUBMIT_WINDOW;
    var s1 := Exec(s, InsertUnchecked(id, p));
    assert IdsSince(Rows(s1), p.tenant, since) == IdsSince(Rows(s), p.tenant, since) + {id};
  }

  /** No step takes a row out of the hour. */
  lemma HourNeverShrinks(s: State, st: Step, tenant: Tenant, since: Time)
    ensures |IdsSince(Rows(s), tenant, since)| <= |IdsSince(Rows(Exec(s, st)), tenant, since)|
  {
    forall id | id in IdsSince(Rows(s), tenant, since)
      ensures id in IdsSince(Rows(Exec(s, st)), tenant, since)
    {
      RowsMove(s, st, id);
    }
    SubsetSize(IdsSince(Rows(s), tenant, since), IdsSince(Rows(Exec(s, st)), tenant, since));
  }

  /** The hour holds as many rows as the limit, or more. */
  predicate FullHour(s: State, p: Params, clock: Time) {
    && p.tenant in s.cfg.limits && 0 <= s.cfg.limits[p.tenant].submitsPerHour
    && |IdsSince(Rows(s), p.tenant, clock - SUBMIT_WINDOW)| >= s.cfg.limits[p.tenant].submitsPerHour
  }

  lemma FullHasNoRoom(s: State, p: Params, clock: Time)
    requires FullHour(s, p, clock)
    ensures !RoomAt(s, p, clock)
  {
  }

  lemma FullStaysFull(s: State, st: Step, p: Params, clock: Time)
    requires FullHour(s, p, clock)
    ensures FullHour(Exec(s, st), p, clock)
  {
    HourNeverShrinks(s, st, p.tenant, clock - SUBMIT_WINDOW);
    ExecKeepsClock(s, st);
  }

  lemma ReapFreesOne(s: State, p: Params, id: Id, clock: Time, i: Id)
    requires Brink(s, p, clock) && i in s.cells && i != id
    ensures var r := ReapRow(s.cells[i].row, s.now, s.cfg.staleSecs);
            !(r.params.tenant == p.tenant && Active(r.status))
  {
    assert i in ActiveIds(Rows(s), p.tenant) ==> StaleRunning(Rows(s)[i], s.now, s.cfg.staleSecs);
  }

  /** Inserted without a check, then failed for want of a queue. */
  function InsertAndFail(s: State, p: Params, id: Id): State {
    s.(cells := s.cells[id := FailedCell(p, s.now)])
  }

  lemma InsertAndFailEffect(s: State, p: Params, id: Id)
    requires ValidParams(p) && id !in s.cells
    ensures Exec(Exec(s, InsertUnchecked(id, p)), On(id, SubmitFailed)) == InsertAndFail(s, p, id)
  {
    var s1 := Exec(s, InsertUnchecked(id, p));
    assert CellExec(s1.cfg, s1.now, s1.cells[id], SubmitFailed) == FailedCell(p, s.now);
    assert s.cells[id := NewCell(p, s.now)][id := FailedCell(p, s.now)] == s.cells[id := FailedCell(p, s.now)];
  }

  lemma ReapFrees(s: State, p: Params, id: Id, clock: Time)
    requires Brink(s, p, clock) && id !in s.cells
    ensures ActiveIds(Rows(Exec(InsertAndFail(s, p, id), ReapRunning)), p.tenant) == {}
  {
    var s2 := InsertAndFail(s, p, id);
    forall i | i in s2.cells
      ensures var r := ReapRow(s2.cells[i].row, s.now, s.cfg.staleSecs);
              !(r.params.tenant == p.tenant && Active(r.status))
    {
      if i != id {
        ReapFreesOne(s, p, id, clock, i);
      }
    }
  }

  lemma HourFills(s: State, p: Params, id: Id, clock: Time)
    requires Brink(s, p, clock) && ValidParams(p) && id !in s.cells
    ensures var s1 := Exec(s, InsertUnchecked(id, p));
            var s2 := Exec(s1, On(id, SubmitFailed));
            !RoomAt(s1, p, clock) && !RoomAt(s2, p, clock) && !RoomAt(Exec(s2, ReapRunning), p, clock)
  {
    var s1 := Exec(s, InsertUnchecked(id, p));
    var s2 := Exec(s1, On(id, SubmitFailed));
    InsertCounts(s, p, id, clock);
    assert FullHour(s1, p, clock);
    FullStaysFull(s1, On(id, SubmitFailed), p, clock);
    FullStaysFull(s2, ReapRunning, p, clock);
    FullHasNoRoom(s1, p, clock);
    FullHasNoRoom(s2, p, clock);
    FullHasNoRoom(Exec(s2, ReapRunning), p, clock);
  }

  /**
   * The tenant has no room at any moment: first for active rows, then, when a submit that failed open
   * has filled the hour, for the hour. Yet a transaction that counts the hour before that insert and the
   * active rows after the reaper has run admits its row.
   */
  lemma AdmittedWithoutRoom(s: State, p: Params, id: Id, clock: Time)
    requires Brink(s, p, clock) && ValidParams(p) && id !in s.cells
    ensures var s1 := Exec(s, InsertUnchecked(id, p));
            var s2 := Exec(s1, On(id, SubmitFailed));
            var s3 := Exec(s2, ReapRunning);
            var l := s.cfg.limits[p.tenant];
            && !RoomAt(s, p, clock) && !RoomAt(s1, p, clock) && !RoomAt(s2, p, clock) && !RoomAt(s3, p, clock)
            && Decide(l, HourlyCount(Rows(s), p.tenant, l, clock), ActiveCount(Rows(s3), p.tenant, l)).allowed
  {
    HourFills(s, p, id, clock);
    InsertAndFailEffect(s, p, id);
    ReapFrees(s, p, id, clock);
  }
}
