/** The submit quotas over every interleaving of gateways with the rest of the lifecycle. */
module QuotaInv {
  import opened Sets
  import opened Executions
  import opened Quotas
  import opened Lifecycle
  import opened LifecycleInv

  /** Row `id` was inserted by the quota checker for tenant `t`. */
  predicate AdmittedFor(s: State, t: Tenant, id: Id) {
    id in s.admitted && id in s.cells && s.cells[id].row.params.tenant == t
  }

  /** Admitted rows that are still queued or running. */
  function AdmittedActive(s: State, t: Tenant): set<Id> {
    set id | id in s.admitted && AdmittedFor(s, t, id) && Active(s.cells[id].row.status)
  }

  /** Admitted rows created at or after `since`. */
  function AdmittedSince(s: State, t: Tenant, since: Time): set<Id> {
    set id | id in s.admitted && AdmittedFor(s, t, id) && s.cells[id].row.createdAt >= since
  }

  /** Of those, the ones committed before commit number `n`. */
  function AdmittedBefore(s: State, t: Tenant, n: nat, since: Time): set<Id> {
    set id | id in AdmittedSince(s, t, since) && s.admitted[id].order < n
  }

  function LimitsOf(s: State, t: Tenant): Limits {
    if t in s.cfg.limits then s.cfg.limits[t] else Limits(-1, -1)
  }

  /**
   * A transaction that has counted the hour counted every admitted row in it, and one that is checked
   * still finds room for its row: nobody else can have admitted one meanwhile.
   */
  predicate CheckedOk(s: State, x: nat)
    requires x in s.txs
  {
    var t, phase := s.txs[x].params.tenant, s.txs[x].phase;
    && (phase.Counted? && LimitsOf(s, t).submitsPerHour >= 0 ==>
          |AdmittedSince(s, t, phase.clock - SUBMIT_WINDOW)| <= phase.hourly)
    && (phase.Checked? ==>
          && Room(LimitsOf(s, t).maxActive, |AdmittedActive(s, t)|)
          && Room(LimitsOf(s, t).submitsPerHour, |AdmittedSince(s, t, phase.clock - SUBMIT_WINDOW)|))
  }

  /** Every admitted row found room in its window among the rows committed before it. */
  predicate AdmissionOk(s: State, id: Id)
    requires id in s.admitted
  {
    && id in s.cells
    && s.admitted[id].order < s.commits
    && var t := s.cells[id].row.params.tenant;
       Room(LimitsOf(s, t).submitsPerHour,
            |AdmittedBefore(s, t, s.admitted[id].order, s.admitted[id].checkedAt - SUBMIT_WINDOW)|)
  }

  predicate Within(limit: int, count: int) {
    limit < 0 || count <= limit
  }

  predicate LocksExclusive(s: State) {
    forall x, y | x in s.txs && y in s.txs ::
      s.txs[x].params.tenant == s.txs[y].params.tenant && !s.txs[x].phase.Begun? && !s.txs[y].phase.Begun? ==> x == y
  }

  predicate OrdersDistinct(s: State) {
    forall i, j | i in s.admitted && j in s.admitted :: s.admitted[i].order == s.admitted[j].order ==> i == j
  }

  /** Everything about the rows already admitted. */
  ghost predicate AdmissionsOk(s: State) {
    && OrdersDistinct(s)
    && (forall id | id in s.admitted :: AdmissionOk(s, id))
    && (forall t :: Within(LimitsOf(s, t).maxActive, |AdmittedActive(s, t)|))
  }

  ghost predicate QuotaOk(s: State) {
    && LocksExclusive(s)
    && AdmissionsOk(s)
    && (forall x | x in s.txs :: CheckedOk(s, x))
  }

  // ----- steps that admit nothing

  /** Every admitted row is in the table. */
  predicate Known(s: State) {
    forall id | id in s.admitted :: id in s.cells
  }

  /** The step admits no row: existing rows move, rows may be added unchecked. */
  predicate Quiet(s: State, s': State) {
    && s'.cfg == s.cfg && s'.admitted == s.admitted && s'.commits == s.commits
    && (forall id | id in s.cells :: id in s'.cells && RowMoves(s.cells[id].row, s'.cells[id].row))
  }

  lemma QuietActive(s: State, s': State, t: Tenant)
    requires Quiet(s, s') && Known(s)
    ensures |AdmittedActive(s', t)| <= |AdmittedActive(s, t)|
  {
    forall id | id in AdmittedActive(s', t)
      ensures id in AdmittedActive(s, t)
    {
      assert id in s.cells && RowMoves(s.cells[id].row, s'.cells[id].row);
    }
    SubsetSize(AdmittedActive(s', t), AdmittedActive(s, t));
  }

  lemma QuietSince(s: State, s': State, t: Tenant, since: Time)
    requires Quiet(s, s') && Known(s)
    ensures AdmittedSince(s', t, since) == AdmittedSince(s, t, since)
  {
    forall id | id in s.admitted
      ensures id in AdmittedSince(s', t, since) <==> id in AdmittedSince(s, t, since)
    {
      assert id in s.cells && RowMoves(s.cells[id].row, s'.cells[id].row);
    }
  }

  function ClockOf(phase: TxPhase): Time {
    if phase.Counted? then phase.clock else if phase.Checked? then phase.clock else 0
  }

  /** The counts that matter to a transaction did not grow. */
  lemma CountsKeep(s: State, s': State, x: nat)
    requires x in s.txs && CheckedOk(s, x) && x in s'.txs && s'.txs[x] == s.txs[x] && s'.cfg == s.cfg
    requires var t := s.txs[x].params.tenant;
             var since := ClockOf(s.txs[x].phase) - SUBMIT_WINDOW;
             && |AdmittedActive(s', t)| <= |AdmittedActive(s, t)|
             && |AdmittedSince(s', t, since)| <= |AdmittedSince(s, t, since)|
    ensures CheckedOk(s', x)
  {
  }

  lemma QuietChecked(s: State, s': State, x: nat)
    requires Quiet(s, s') && Known(s) && x in s.txs && CheckedOk(s, x) && x in s'.txs && s'.txs[x] == s.txs[x]
    ensures CheckedOk(s', x)
  {
    QuietActive(s, s', s.txs[x].params.tenant);
    QuietSince(s, s', s.txs[x].params.tenant, ClockOf(s.txs[x].phase) - SUBMIT_WINDOW);
    CountsKeep(s, s', x);
  }

  lemma QuietAdmission(s: State, s': State, id: Id)
    requires Quiet(s, s') && Known(s) && id in s.admitted && AdmissionOk(s, id)
    ensures AdmissionOk(s', id)
  {
    var t := s.cells[id].row.params.tenant;
    var o, since := s.admitted[id].order, s.admitted[id].checkedAt - SUBMIT_WINDOW;
    QuietSince(s, s', t, since);
    assert AdmittedBefore(s', t, o, since) == AdmittedBefore(s, t, o, since);
  }

  lemma AdmittedAreKnown(s: State)
    requires AdmissionsOk(s)
    ensures Known(s)
  {
    forall id | id in s.admitted
      ensures id in s.cells
    {
      assert AdmissionOk(s, id);
    }
  }

  lemma QuietAdmissions(s: State, s': State)
    requires AdmissionsOk(s) && Quiet(s, s')
    ensures AdmissionsOk(s')
  {
    AdmittedAreKnown(s);
    forall id | id in s'.admitted
      ensures AdmissionOk(s', id)
    {
      QuietAdmission(s, s', id);
    }
    forall t
      ensures Within(LimitsOf(s', t).maxActive, |AdmittedActive(s', t)|)
    {
      assert Within(LimitsOf(s, t).maxActive, |AdmittedActive(s, t)|);
      QuietActive(s, s', t);
    }
  }

  lemma RowsMove(s: State, st: Step, id: Id)
    requires id in s.cells
    ensures id in Exec(s, st).cells && RowMoves(s.cells[id].row, Exec(s, st).cells[id].row)
  {
    ExecOnCell(s, st, id);
    CellRowMoves(s.cfg, s.now, s.cells[id], View(s, st, id));
  }

  lemma QuietStep(s: State, st: Step)
    requires !st.TxCommit?
    ensures Quiet(s, Exec(s, st))
  {
    forall id | id in s.cells
      ensures id in Exec(s, st).cells && RowMoves(s.cells[id].row, Exec(s, st).cells[id].row)
    {
      RowsMove(s, st, id);
    }
  }

  /** The advisory lock admits one transaction of a tenant at a time. */
  lemma ExecKeepsLocks(s: State, st: Step)
    requires LocksExclusive(s)
    ensures LocksExclusive(Exec(s, st))
  {
  }

  // ----- the check

  /** What the first statement counts includes every admitted row of the hour. */
  lemma CountCoversAdmitted(s: State, x: nat, clock: Time)
    requires CanCount(s, x)
    ensures CheckedOk(ExecCount(s, x, clock), x)
  {
    var s' := ExecCount(s, x, clock);
    var t := s.txs[x].params.tenant;
    assert AdmittedSince(s', t, clock - SUBMIT_WINDOW) <= IdsSince(Rows(s), t, clock - SUBMIT_WINDOW);
    SubsetSize(AdmittedSince(s', t, clock - SUBMIT_WINDOW), IdsSince(Rows(s), t, clock - SUBMIT_WINDOW));
  }

  /** The second one counts every admitted row that is active, and the first count still covers its own. */
  lemma CheckFindsRoom(s: State, x: nat)
    requires CanCheck(s, x) && CheckedOk(s, x) && ExecCheck(s, x) != s
    ensures CheckedOk(ExecCheck(s, x), x)
  {
    var s' := ExecCheck(s, x);
    var t, since := s.txs[x].params.tenant, s.txs[x].phase.clock - SUBMIT_WINDOW;
    assert AdmittedActive(s', t) <= ActiveIds(Rows(s), t);
    SubsetSize(AdmittedActive(s', t), ActiveIds(Rows(s), t));
    assert AdmittedSince(s', t, since) == AdmittedSince(s, t, since);
  }

  lemma QuietStepChecked(s: State, st: Step, x: nat)
    requires Known(s) && (forall y | y in s.txs :: CheckedOk(s, y)) && !st.TxCommit? && x in Exec(s, st).txs
    ensures CheckedOk(Exec(s, st), x)
  {
    QuietStep(s, st);
    if x in s.txs && Exec(s, st).txs[x] == s.txs[x] {
      QuietChecked(s, Exec(s, st), x);
    } else if st.TxCount? {
      CountCoversAdmitted(s, x, st.clock);
    } else if st.TxCheck? {
      CheckFindsRoom(s, x);
    }
  }

  // ----- the commit

  lemma CommitActiveSet(s: State, s': State, x: nat, id: Id, t: Tenant)
    requires Known(s) && CanCommit(s, x, id) && s' == ExecCommit(s, x, id)
    ensures id !in AdmittedActive(s, t)
    ensures AdmittedActive(s', t) == AdmittedActive(s, t) + (if s.txs[x].params.tenant == t then {id} else {})
  {
    forall i | i in s.admitted
      ensures i in AdmittedActive(s', t) <==> i in AdmittedActive(s, t)
    {
      assert s'.cells[i] == s.cells[i];
    }
  }

  lemma CommitActive(s: State, s': State, x: nat, id: Id, t: Tenant)
    requires Known(s) && CanCommit(s, x, id) && s' == ExecCommit(s, x, id)
    ensures |AdmittedActive(s', t)| == |AdmittedActive(s, t)| + (if s.txs[x].params.tenant == t then 1 else 0)
  {
    CommitActiveSet(s, s', x, id, t);
  }

  lemma CommitSince(s: State, s': State, x: nat, id: Id, t: Tenant, since: Time)
    requires Known(s) && CanCommit(s, x, id) && s' == ExecCommit(s, x, id)
    ensures AdmittedSince(s', t, since) - {id} == AdmittedSince(s, t, since)
    ensures s.txs[x].params.tenant != t ==> AdmittedSince(s', t, since) == AdmittedSince(s, t, since)
  {
  }

  lemma CommitChecked(s: State, s': State, x: nat, id: Id, y: nat)
    requires Known(s) && CanCommit(s, x, id) && s' == ExecCommit(s, x, id)
    requires y in s.txs && y != x && CheckedOk(s, y)
    requires !s.txs[y].phase.Begun? ==> s.txs[y].params.tenant != s.txs[x].params.tenant
    ensures CheckedOk(s', y)
  {
    if !s.txs[y].phase.Begun? {
      CommitActive(s, s', x, id, s.txs[y].params.tenant);
      CommitSince(s, s', x, id, s.txs[y].params.tenant, ClockOf(s.txs[y].phase) - SUBMIT_WINDOW);
      CountsKeep(s, s', y);
    }
  }

  lemma CommitNewBefore(s: State, s': State, x: nat, id: Id, i: Id, since: Time)
    requires Known(s) && CanCommit(s, x, id) && s' == ExecCommit(s, x, id)
    requires i in AdmittedBefore(s', s.txs[x].params.tenant, s.commits, since)
    ensures i in AdmittedSince(s, s.txs[x].params.tenant, since)
  {
    assert i != id;
  }

  lemma CommitNewAdmission(s: State, s': State, x: nat, id: Id)
    requires Known(s) && CanCommit(s, x, id) && s' == ExecCommit(s, x, id) && CheckedOk(s, x)
    ensures AdmissionOk(s', id)
  {
    var t, o, since := s.txs[x].params.tenant, s.commits, s.txs[x].phase.clock - SUBMIT_WINDOW;
    forall i | i in AdmittedBefore(s', t, o, since)
      ensures i in AdmittedSince(s, t, since)
    {
      CommitNewBefore(s, s', x, id, i, since);
    }
    SubsetSize(AdmittedBefore(s', t, o, since), AdmittedSince(s, t, since));
  }

  lemma CommitOldAdmission(s: State, s': State, x: nat, id: Id, i: Id)
    requires Known(s) && CanCommit(s, x, id) && s' == ExecCommit(s, x, id) && i in s.admitted && AdmissionOk(s, i)
    ensures AdmissionOk(s', i)
  {
    var t := s.cells[i].row.params.tenant;
    var o, since := s.admitted[i].order, s.admitted[i].checkedAt - SUBMIT_WINDOW;
    CommitSince(s, s', x, id, t, since);
    assert AdmittedBefore(s', t, o, since) == AdmittedBefore(s, t, o, since);
  }

  lemma CommitOrders(s: State, x: nat, id: Id)
    requires OrdersDistinct(s) && (forall i | i in s.admitted :: s.admitted[i].order < s.commits) && CanCommit(s, x, id)
    ensures OrdersDistinct(ExecCommit(s, x, id))
  {
  }

  lemma CommitAdmissions(s: State, x: nat, id: Id)
    requires AdmissionsOk(s) && CanCommit(s, x, id) && CheckedOk(s, x)
    ensures AdmissionsOk(ExecCommit(s, x, id))
  {
    AdmittedAreKnown(s);
    var s' := ExecCommit(s, x, id);
    forall i | i in s.admitted
      ensures s.admitted[i].order < s.commits
    {
      assert AdmissionOk(s, i);
    }
    CommitOrders(s, x, id);
    forall i | i in s'.admitted
      ensures AdmissionOk(s', i)
    {
      if i == id {
        CommitNewAdmission(s, s', x, id);
      } else {
        CommitOldAdmission(s, s', x, id, i);
      }
    }
    forall t
      ensures Within(LimitsOf(s', t).maxActive, |AdmittedActive(s', t)|)
    {
      assert Within(LimitsOf(s, t).maxActive, |AdmittedActive(s, t)|);
      CommitActive(s, s', x, id, t);
    }
  }

  lemma CommitKeepsQuota(s: State, x: nat, id: Id)
    requires QuotaOk(s) && CanCommit(s, x, id)
    ensures QuotaOk(Exec(s, TxCommit(x, id)))
  {
    var s' := Exec(s, TxCommit(x, id));
    AdmittedAreKnown(s);
    ExecKeepsLocks(s, TxCommit(x, id));
    CommitAdmissions(s, x, id);
    forall y | y in s'.txs
      ensures CheckedOk(s', y)
    {
      CommitChecked(s, s', x, id, y);
    }
  }

  lemma ExecKeepsQuota(s: State, st: Step)
    requires QuotaOk(s)
    ensures QuotaOk(Exec(s, st))
  {
    if st.TxCommit? {
      if CanCommit(s, st.x, st.id) {
        CommitKeepsQuota(s, st.x, st.id);
      }
    } else {
      AdmittedAreKnown(s);
      ExecKeepsLocks(s, st);
      QuietStep(s, st);
      QuietAdmissions(s, Exec(s, st));
      forall y | y in Exec(s, st).txs
        ensures CheckedOk(Exec(s, st), y)
      {
        QuietStepChecked(s, st, y);
      }
    }
  }

  lemma {:induction false} RunKeepsQuota(s: State, steps: seq<Step>)
    requires QuotaOk(s)
    ensures QuotaOk(Run(s, steps)) && Run(s, steps).cfg == s.cfg
    decreases |steps|
  {
    if steps != [] {
      ExecKeepsClock(s, steps[0]);
      ExecKeepsQuota(s, steps[0]);
      RunKeepsQuota(Exec(s, steps[0]), steps[1..]);
    }
  }

  lemma ReachedQuota(cfg: Config, t0: Time, steps: seq<Step>)
    ensures QuotaOk(Run(Init(cfg, t0), steps)) && Run(Init(cfg, t0), steps).cfg == cfg
  {
    forall t
      ensures AdmittedActive(Init(cfg, t0), t) == {}
    {
    }
    RunKeepsQuota(Init(cfg, t0), steps);
  }

  // ----- the theorems

  /** Active rows that no quota check admitted: fail-open inserts and inserts with quotas off. */
  function UncheckedActive(s: State, t: Tenant): set<Id> {
    set id | id in s.cells && id !in s.admitted && s.cells[id].row.params.tenant == t && Active(s.cells[id].row.status)
  }

  lemma ActiveCap(cfg: Config, t0: Time, steps: seq<Step>, t: Tenant)
    requires t in cfg.limits && cfg.limits[t].maxActive >= 0
    ensures var s := Run(Init(cfg, t0), steps);
            && |AdmittedActive(s, t)| <= cfg.limits[t].maxActive
            && |ActiveIds(Rows(s), t)| <= cfg.limits[t].maxActive + |UncheckedActive(s, t)|
  {
    ReachedQuota(cfg, t0, steps);
    var s := Run(Init(cfg, t0), steps);
    assert Within(LimitsOf(s, t).maxActive, |AdmittedActive(s, t)|);
    assert ActiveIds(Rows(s), t) <= AdmittedActive(s, t) + UncheckedActive(s, t);
    SubsetSize(ActiveIds(Rows(s), t), AdmittedActive(s, t) + UncheckedActive(s, t));
  }

  /** The limits of tenants, by the tier stored for each. */
  function TierLimits(tiers: map<Tenant, string>): map<Tenant, Limits> {
    map t | t in tiers :: LimitsFor(tiers[t])
  }

  /** The cap on active rows, by the name of the tier; a tier that is no known name is free. */
  lemma TierCap(cfg: Config, tiers: map<Tenant, string>, t0: Time, steps: seq<Step>, t: Tenant)
    requires cfg.limits == TierLimits(tiers) && t in tiers
    ensures var n := |AdmittedActive(Run(Init(cfg, t0), steps), t)|;
            && (Starter(tiers[t]) ==> n <= 5)
            && (Professional(tiers[t]) ==> n <= 20)
            && (!Starter(tiers[t]) && !Professional(tiers[t]) && !Enterprise(tiers[t]) ==> n <= 2)
  {
    TierNumbers(tiers[t]);
    if cfg.limits[t].maxActive >= 0 {
      ActiveCap(cfg, t0, steps, t);
    }
  }

  /** Admitted rows created in the closed window from `a` to `b`. */
  function AdmittedWindow(s: State, t: Tenant, a: Time, b: Time): set<Id> {
    set id | id in AdmittedSince(s, t, a) && s.cells[id].row.createdAt <= b
  }

  lemma {:induction false} LastCommitted(s: State, ids: set<Id>) returns (last: Id)
    requires ids != {} && forall id | id in ids :: id in s.admitted
    ensures last in ids && forall id | id in ids :: s.admitted[id].order <= s.admitted[last].order
    decreases |ids|
  {
    last :| last in ids;
    if ids != {last} {
      var rest := ids - {last};
      assert rest != {} by {
        var y :| y in ids && y != last;
        assert y in rest;
      }
      var best := LastCommitted(s, rest);
      if s.admitted[last].order < s.admitted[best].order {
        last := best;
      }
    }
  }

  /** How long after its row's created_at an admission read the clock. */
  function Lag(s: State, id: Id): int {
    if id in s.admitted && id in s.cells then s.admitted[id].checkedAt - s.cells[id].row.createdAt else 0
  }

  predicate Punctual(s: State, t: Tenant, skew: int, a: Time, b: Time) {
    forall id | id in AdmittedWindow(s, t, a, b) :: Lag(s, id) <= skew
  }

  lemma WindowBeforeLast(s: State, t: Tenant, skew: int, a: Time, b: Time, last: Id)
    requires OrdersDistinct(s) && b - a <= SUBMIT_WINDOW - skew
    requires last in AdmittedWindow(s, t, a, b) && Lag(s, last) <= skew
    requires forall id | id in AdmittedWindow(s, t, a, b) :: s.admitted[id].order <= s.admitted[last].order
    ensures |AdmittedWindow(s, t, a, b)|
            <= |AdmittedBefore(s, t, s.admitted[last].order, s.admitted[last].checkedAt - SUBMIT_WINDOW)| + 1
  {
    var w := AdmittedWindow(s, t, a, b);
    var before := AdmittedBefore(s, t, s.admitted[last].order, s.admitted[last].checkedAt - SUBMIT_WINDOW);
    forall id | id in w - {last}
      ensures id in before
    {
      assert s.admitted[id].order != s.admitted[last].order;
    }
    SubsetSize(w - {last}, before);
  }

  /**
   * If no check in the window ran more than `skew` after its row's created_at, a window shorter than
   * the submit window by `skew` never holds more admitted rows than the tier allows.
   */
  lemma WindowCap(cfg: Config, t0: Time, steps: seq<Step>, t: Tenant, skew: int, a: Time, b: Time)
    requires t in cfg.limits && cfg.limits[t].submitsPerHour >= 0
    requires b - a <= 3_600_000_000_000 - skew
    requires Punctual(Run(Init(cfg, t0), steps), t, skew, a, b)
    ensures |AdmittedWindow(Run(Init(cfg, t0), steps), t, a, b)| <= cfg.limits[t].submitsPerHour
  {
    var s := Run(Init(cfg, t0), steps);
    var w := AdmittedWindow(s, t, a, b);
    if w != {} {
      assert forall id | id in w :: id in AdmittedSince(s, t, a);
      var last := LastCommitted(s, w);
      assert OrdersDistinct(s) && AdmissionOk(s, last) && s.cfg == cfg by {
        ReachedQuota(cfg, t0, steps);
      }
      WindowBeforeLast(s, t, skew, a, b, last);
    }
  }
}
