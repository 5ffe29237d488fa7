/** The reaper's sweeps, run against every pattern of store errors and interleavings. */
module Reaper {
  import opened Executions
  import opened Sandbox
  import opened Lifecycle
  import opened Store
  import opened Runtime

  /** What becomes of the store calls of one sweep. */
  datatype SweepScript = SweepScript(reap: Fate, list: bool, mark: Id -> Fate)

  predicate SweepOwn(st: Step, k: nat) {
    (st.SweepList? && st.k == k) || (st.SweepMark? && st.k == k)
  }

  ghost predicate LeavesSweep(env: Schedule, k: nat) {
    forall n, i | 0 <= i < |env(n)| :: !SweepOwn(env(n)[i], k)
  }

  /** The number of rows that the updates of sweep `k` have moved. */
  function Marked(s0: State, trace: seq<Step>, k: nat): nat
    decreases |trace|
  {
    if trace == [] then 0
    else
      var n := |trace| - 1;
      Marked(s0, trace[..n], k) + MarkMoves(Run(s0, trace[..n]), trace[n], k)
  }

  function MarkMoves(s: State, st: Step, k: nat): nat {
    if st.SweepMark? && st.k == k && st.id in s.cells && k in s.sweeps && st.id in s.sweeps[k]
       && s.cells[st.id].row.status.Queued?
    then 1 else 0
  }

  lemma MarkedSnoc(s0: State, trace: seq<Step>, st: Step, k: nat)
    ensures Marked(s0, trace + [st], k) == Marked(s0, trace, k) + MarkMoves(Run(s0, trace), st, k)
  {
    assert (trace + [st])[..|trace|] == trace;
  }

  /** A threshold survives the conversion to whole int32 seconds when it fits. */
  function Secs(d: nat): int {
    Wrap32(d / SECOND)
  }

  lemma SecsExact(d: nat)
    ensures Secs(d) == d / SECOND <==> d / SECOND < 0x8000_0000
    ensures Secs(d) == d / SECOND ==> Secs(d) * SECOND <= d < (Secs(d) + 1) * SECOND
  {
  }

  /** The table after the rows of `ids` that are queued have been failed. */
  function FailAll(t: Table, ids: set<Id>, now: Time): Table {
    map id | id in t :: if id in ids then FailQueuedRow(t[id], STALE_QUEUED_STDERR, now) else t[id]
  }

  lemma FailOneFewer(t: Table, ids: set<Id>, id: Id, now: Time)
    requires id in ids
    ensures FailAll(FailQueued(t, id, STALE_QUEUED_STDERR, now), ids - {id}, now) == FailAll(t, ids, now)
  {
  }

  lemma OthersKeepListing(s: State, st: Step, k: nat)
    requires !SweepOwn(st, k)
    ensures Exec(s, st).cfg == s.cfg
    ensures k in s.sweeps ==> k in Exec(s, st).sweeps && Exec(s, st).sweeps[k] == s.sweeps[k]
  {
  }

  method OtherStep(w: World, st: Step, k: nat)
    requires w.Valid() && !SweepOwn(st, k)
    modifies w`s, w`trace, w.db
    ensures w.Valid() && w.s.cfg == old(w.s).cfg && Marked(w.s0, w.trace, k) == old(Marked(w.s0, w.trace, k))
    ensures k in old(w.s).sweeps ==> k in w.s.sweeps && w.s.sweeps[k] == old(w.s).sweeps[k]
  {
    MarkedSnoc(w.s0, w.trace, st, k);
    OthersKeepListing(w.s, st, k);
    w.Happen(st);
  }

  /** Others move; the listing of sweep `k`, if there is one yet, stays. */
  method Drift(w: World, env: Schedule, k: nat)
    requires w.Valid() && LeavesSweep(env, k)
    modifies w`s, w`trace, w.db
    ensures w.Valid() && w.s.cfg == old(w.s).cfg && Marked(w.s0, w.trace, k) == old(Marked(w.s0, w.trace, k))
    ensures k in old(w.s).sweeps ==> k in w.s.sweeps && w.s.sweeps[k] == old(w.s).sweeps[k]
    ensures Uninterrupted(env) ==> w.s == old(w.s) && w.db.rows == old(w.db.rows) && w.db.now == old(w.db.now)
  {
    var steps := env(|w.trace|);
    for i := 0 to |steps|
      invariant w.Valid() && w.s.cfg == old(w.s).cfg && Marked(w.s0, w.trace, k) == old(Marked(w.s0, w.trace, k))
      invariant k in old(w.s).sweeps ==> k in w.s.sweeps && w.s.sweeps[k] == old(w.s).sweeps[k]
      invariant i == 0 ==> w.s == old(w.s) && w.db.rows == old(w.db.rows) && w.db.now == old(w.db.now)
    {
      OtherStep(w, steps[i], k);
    }
  }

  /** One UPDATE of the stale-queued sweep; `moved` says whether it found the row still queued. */
  method MarkOne(w: World, k: nat, id: Id) returns (moved: nat)
    requires w.Valid() && k in w.s.sweeps && id in w.s.sweeps[k]
    modifies w`s, w`trace, w.db`rows
    ensures w.Valid() && w.s.sweeps == old(w.s).sweeps && w.s.now == old(w.s).now && w.s.cfg == old(w.s).cfg
    ensures w.db.rows == FailQueued(old(w.db.rows), id, STALE_QUEUED_STDERR, w.db.now)
    ensures Marked(w.s0, w.trace, k) == old(Marked(w.s0, w.trace, k)) + moved
    ensures moved == if id in old(w.db.rows) && old(w.db.rows)[id].status.Queued? then 1 else 0
  {
    MarkedSnoc(w.s0, w.trace, SweepMark(k, id), k);
    moved := w.db.FailIfQueued(id, STALE_QUEUED_STDERR);
    w.Record(SweepMark(k, id));
  }

  function QueuedIds(t: Table): set<Id> {
    set id | id in t && t[id].status.Queued?
  }

  ghost predicate AllAnswered(script: SweepScript) {
    script.reap.Answered? && script.list && forall id :: script.mark(id).Answered?
  }

  /** SELECT the stale queued ids into sweep `k`. */
  method List(w: World, k: nat) returns (ids: set<Id>)
    requires w.Valid()
    modifies w`s, w`trace
    ensures w.Valid() && k in w.s.sweeps && w.s.sweeps[k] == ids && w.s.cfg == old(w.s).cfg && w.s.now == old(w.s).now
    ensures ids == ListStaleQueued(w.db.rows, w.db.now, w.s.cfg.staleQueuedSecs)
    ensures Marked(w.s0, w.trace, k) == old(Marked(w.s0, w.trace, k))
  {
    ids := w.db.ListStale(w.s.cfg.staleQueuedSecs);
    MarkedSnoc(w.s0, w.trace, SweepList(k), k);
    w.Record(SweepList(k));
  }

  /** The tally of sweep `k` against the rows it has moved since it had moved `m`. */
  ghost predicate Tallied(w: World, k: nat, m: nat, failed: nat, exact: bool)
    reads w
  {
    m + failed <= Marked(w.s0, w.trace, k) && (exact ==> m + failed == Marked(w.s0, w.trace, k))
  }

  /** Interference, then the update of one listed row; `failed` is the reaper's tally before and after. */
  method MarkNext(w: World, k: nat, id: Id, fate: Fate, env: Schedule, tally: nat, ghost m: nat, ghost exact: bool)
    returns (failed: nat)
    requires w.Valid() && LeavesSweep(env, k) && k in w.s.sweeps && id in w.s.sweeps[k]
    requires Tallied(w, k, m, tally, exact) && (exact ==> fate.Answered?)
    modifies w`s, w`trace, w.db
    ensures w.Valid() && k in w.s.sweeps && w.s.sweeps[k] == old(w.s).sweeps[k] && Tallied(w, k, m, failed, exact)
    ensures !fate.Answered? ==> failed == tally
    ensures Uninterrupted(env) ==>
              w.db.now == old(w.db.now) && Marks(old(w.db.rows), w.db.rows, w.db.now, id, fate, tally, failed)
  {
    Drift(w, env, k);
    failed := tally;
    if !fate.ErrInFlight? {
      var moved := MarkOne(w, k, id);
      if fate.Answered? {
        failed := failed + moved;
      }
    }
  }

  /** The listed rows whose update reaches the table within the sweep. */
  function Landing(ids: set<Id>, script: SweepScript): set<Id> {
    set id | id in ids && !script.mark(id).ErrInFlight?
  }

  /** Those whose update is answered, and only those are tallied. */
  function Heard(ids: set<Id>, script: SweepScript): set<Id> {
    set id | id in ids && script.mark(id).Answered?
  }

  lemma OneFewer(ids: set<Id>, script: SweepScript, id: Id)
    requires id in ids
    ensures Landing(ids - {id}, script) == Landing(ids, script) - {id}
    ensures |Heard(ids - {id}, script)| == |Heard(ids, script)| - (if script.mark(id).Answered? then 1 else 0)
  {
    assert Heard(ids - {id}, script) == Heard(ids, script) - {id};
  }

  /**
   * An undisturbed sweep over `ids` that has the rows of `todo` left: every update that reaches the table
   * has its effect, and every one that is answered is tallied.
   */
  ghost predicate OnCourse(t0: Table, ids: set<Id>, now: Time, t: Table, todo: set<Id>, script: SweepScript,
                           failed: nat)
  {
    && FailAll(t, Landing(todo, script), now) == FailAll(t0, Landing(ids, script), now)
    && (ids <= QueuedIds(t0) ==> todo <= QueuedIds(t) && failed + |Heard(todo, script)| == |Heard(ids, script)|)
  }

  /** What one update makes of the table and the tally. */
  predicate Marks(t: Table, t': Table, now: Time, id: Id, fate: Fate, failed: nat, failed': nat) {
    && t' == (if fate.ErrInFlight? then t else FailQueued(t, id, STALE_QUEUED_STDERR, now))
    && failed' == failed + (if fate.Answered? && id in t && t[id].status.Queued? then 1 else 0)
  }

  lemma StaysOnCourse(t0: Table, ids: set<Id>, now: Time, t: Table, t': Table, todo: set<Id>, script: SweepScript,
                      id: Id, failed: nat, failed': nat)
    requires OnCourse(t0, ids, now, t, todo, script, failed) && id in todo
    requires Marks(t, t', now, id, script.mark(id), failed, failed')
    ensures OnCourse(t0, ids, now, t', todo - {id}, script, failed')
  {
    OneFewer(todo, script, id);
    if !script.mark(id).ErrInFlight? {
      FailOneFewer(t, Landing(todo, script), id, now);
    } else {
      assert Landing(todo, script) - {id} == Landing(todo, script);
    }
  }

  lemma CourseDone(t0: Table, ids: set<Id>, now: Time, t: Table, script: SweepScript, failed: nat)
    requires OnCourse(t0, ids, now, t, {}, script, failed)
    ensures t == FailAll(t0, Landing(ids, script), now) && (ids <= QueuedIds(t0) ==> failed == |Heard(ids, script)|)
  {
    assert Landing({}, script) == {} && Heard({}, script) == {};
    assert FailAll(t, {}, now) == t;
  }

  lemma AllHeard(ids: set<Id>, script: SweepScript)
    requires AllAnswered(script)
    ensures Landing(ids, script) == ids && Heard(ids, script) == ids
  {
  }

  /** The updates of sweep `k`, one listed row at a time. */
  method MarkAll(w: World, k: nat, ids: set<Id>, script: SweepScript, env: Schedule) returns (failed: nat)
    requires w.Valid() && LeavesSweep(env, k) && k in w.s.sweeps && w.s.sweeps[k] == ids
    modifies w`s, w`trace, w.db
    ensures w.Valid() && Tallied(w, k, old(Marked(w.s0, w.trace, k)), failed, AllAnswered(script))
    ensures Uninterrupted(env) ==>
              && w.db.now == old(w.db.now)
              && w.db.rows == FailAll(old(w.db.rows), Landing(ids, script), w.db.now)
              && (ids <= QueuedIds(old(w.db.rows)) ==> failed == |Heard(ids, script)|)
  {
    ghost var m, t0, now := Marked(w.s0, w.trace, k), w.db.rows, w.db.now;
    ghost var exact := AllAnswered(script);
    var todo := ids;
    failed := 0;
    while todo != {}
      invariant w.Valid() && k in w.s.sweeps && w.s.sweeps[k] == ids && todo <= ids && Tallied(w, k, m, failed, exact)
      invariant Uninterrupted(env) ==> w.db.now == now && OnCourse(t0, ids, now, w.db.rows, todo, script, failed)
      decreases todo
    {
      var id :| id in todo;
      ghost var t, tally := w.db.rows, failed;
      failed := MarkNext(w, k, id, script.mark(id), env, failed, m, exact);
      if Uninterrupted(env) {
        StaysOnCourse(t0, ids, now, t, w.db.rows, todo, script, id, tally, failed);
      }
      todo := todo - {id};
    }
    if Uninterrupted(env) {
      CourseDone(t0, ids, now, w.db.rows, script, failed);
    }
  }

  /** A non-positive threshold disables the sweep; otherwise `failed` tallies the rows it moved. */
  method ReapStaleQueued(w: World, k: nat, staleQueuedAfter: int, script: SweepScript, env: Schedule)
    returns (failed: nat)
    requires w.Valid() && LeavesSweep(env, k)
    requires staleQueuedAfter > 0 ==> w.s.cfg.staleQueuedSecs == Secs(staleQueuedAfter)
    modifies w`s, w`trace, w.db
    ensures w.Valid()
    ensures staleQueuedAfter <= 0 ==> w.s == old(w.s) && w.db.rows == old(w.db.rows) && failed == 0
    ensures Tallied(w, k, old(Marked(w.s0, w.trace, k)), failed, AllAnswered(script))
    ensures !script.list ==> failed == 0 && Marked(w.s0, w.trace, k) == old(Marked(w.s0, w.trace, k))
    ensures script.list && Uninterrupted(env) && staleQueuedAfter > 0 ==>
              var stale := ListStaleQueued(old(w.db.rows), old(w.db.now), Secs(staleQueuedAfter));
              && w.db.now == old(w.db.now)
              && w.db.rows == FailAll(old(w.db.rows), Landing(stale, script), w.db.now)
              && failed == |Heard(stale, script)|
    ensures AllAnswered(script) && Uninterrupted(env) && staleQueuedAfter > 0 ==>
              var stale := ListStaleQueued(old(w.db.rows), old(w.db.now), Secs(staleQueuedAfter));
              && w.db.now == old(w.db.now)
              && w.db.rows == FailAll(old(w.db.rows), stale, w.db.now)
              && failed == |stale|
  {
    failed := 0;
    if staleQueuedAfter <= 0 {
      return;
    }
    Drift(w, env, k);
    if !script.list {
      return;
    }
    var ids := List(w, k);
    failed := MarkAll(w, k, ids, script, env);
    if AllAnswered(script) {
      AllHeard(ids, script);
    }
  }

  /** The UPDATE of the stale-running sweep. */
  method ReapRunningRows(w: World, ghost k: nat) returns (n: nat)
    requires w.Valid()
    modifies w`s, w`trace, w.db`rows
    ensures w.Valid() && w.s.cfg == old(w.s).cfg
    ensures w.db.rows == ReapStaleExecutions(old(w.db.rows), w.db.now, w.s.cfg.staleSecs)
    ensures n == |StaleIds(old(w.db.rows), w.db.now, w.s.cfg.staleSecs)|
    ensures Marked(w.s0, w.trace, k) == old(Marked(w.s0, w.trace, k))
  {
    MarkedSnoc(w.s0, w.trace, ReapRunning, k);
    n := w.db.ReapStale(w.s.cfg.staleSecs);
    w.Record(ReapRunning);
  }

  predicate NoneStale(t: Table, now: Time, staleSecs: int, staleQueuedSecs: int) {
    forall id | id in t :: !StaleRunning(t[id], now, staleSecs) && !StaleQueued(t[id], now, staleQueuedSecs)
  }

  lemma SweptClean(t: Table, now: Time, staleSecs: int, staleQueuedSecs: int)
    ensures var t1 := ReapStaleExecutions(t, now, staleSecs);
            NoneStale(FailAll(t1, ListStaleQueued(t1, now, staleQueuedSecs), now), now, staleSecs, staleQueuedSecs)
  {
  }

  /**
   * Both sweeps. Errors of the first one end the pass. An error-free pass that nobody interrupts
   * leaves no stale row behind.
   */
  method ReapOnce(w: World, k: nat, staleAfter: nat, staleQueuedAfter: int, script: SweepScript, env: Schedule)
    returns (n: nat, failed: nat)
    requires w.Valid() && LeavesSweep(env, k) && w.s.cfg.staleSecs == Secs(staleAfter)
    requires staleQueuedAfter > 0 ==> w.s.cfg.staleQueuedSecs == Secs(staleQueuedAfter)
    modifies w`s, w`trace, w.db
    ensures w.Valid()
    ensures script.reap.Answered? ==> n == |StaleIds(old(w.db.rows), old(w.db.now), Secs(staleAfter))|
    ensures !script.reap.Answered? ==>
              n == 0 && failed == 0 && Marked(w.s0, w.trace, k) == old(Marked(w.s0, w.trace, k))
    ensures Tallied(w, k, old(Marked(w.s0, w.trace, k)), failed, AllAnswered(script))
    ensures script.reap.Answered? && staleQueuedAfter <= 0 ==>
              w.db.rows == ReapStaleExecutions(old(w.db.rows), old(w.db.now), Secs(staleAfter)) && failed == 0
    ensures AllAnswered(script) && Uninterrupted(env) && staleQueuedAfter > 0 ==>
              && w.db.now == old(w.db.now)
              && NoneStale(w.db.rows, w.db.now, Secs(staleAfter), Secs(staleQueuedAfter))
  {
    n, failed := 0, 0;
    if !script.reap.ErrInFlight? {
      n := ReapRunningRows(w, k);
    }
    if !script.reap.Answered? {
      n := 0;
      return;
    }
    SweptClean(old(w.db.rows), w.db.now, Secs(staleAfter), if staleQueuedAfter > 0 then Secs(staleQueuedAfter) else 0);
    failed := ReapStaleQueued(w, k, staleQueuedAfter, script, env);
  }
}
