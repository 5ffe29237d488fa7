/**
 * The execution lifecycle as one shared state and the atomic steps that change it.
 *
 * Gateways, JetStream, any number of handlers (one per delivery), the Docker daemon and any number
 * of reapers interleave freely. A run is any sequence of steps. `Exec` is total: a step that is not
 * enabled changes nothing. A process that dies is one that takes no further step. A store call may
 * be answered, may land while its reply is lost, or may fail now and still land at any later time.
 *
 * Everything that concerns one execution (its row, its submit message, the handlers it was
 * delivered to, the container that carries its name, what was announced about it) is a `Cell`.
 */
module Lifecycle {
  import opened Executions
  import opened Sandbox
  import opened Quotas

  const FINISH_ATTEMPTS := 3

  /** What becomes of one store call. */
  datatype Fate = Answered | ErrLanded | ErrInFlight

  datatype Phase =
    | Claiming                 // MarkExecutionRunning is being called
    | Preparing                // the claim was won; no container yet
    | Created                  // this handler created the container and has not started it
    | Requeueing               // Run returned errNotStarted
    | Started                  // ContainerStart succeeded
    | Finishing(attempts: nat) // FinishExecution failed this many times so far
    | Persisted                // FinishExecution reported success
    | Reporting                // runner-error path on which every finish attempt failed
    | Closed                   // handle returned

  /**
   * One delivery of the submit message. The late flags record statements whose caller saw an error
   * but which may still land.
   */
  datatype Handler = Handler(
    phase: Phase, job: Option<Params>, claimedAt: Time, ran: bool,
    verdict: Option<Verdict>, persistedAt: Option<Time>,
    lateClaim: bool, lateRequeue: bool, lateFinish: bool)

  datatype Msg = Msg(tenant: Tenant, language: string, acked: bool)

  datatype Channel = ResultStream | Webhook
  datatype Announcement = Announcement(handler: nat, channel: Channel, status: Status, exitCode: Option<int>)

  /**
   * One execution. `container` is the container with the execution's name, if there is one, and
   * whether it was started. `inserted`, `starts` and `owner` are bookkeeping: what was submitted,
   * how often a container was started, and whose claim the row's current status goes back to.
   */
  datatype Cell = Cell(
    row: Row, msg: Option<Msg>, handlers: seq<Handler>, container: Option<bool>,
    outbox: set<Announcement>, inserted: Params, starts: nat, owner: Option<nat>)

  /** Settings, with the limits of every known tenant's tier. */
  datatype Config = Config(maxDeliver: nat, staleSecs: int, staleQueuedSecs: int, limits: map<Tenant, Limits>)

  /** A step that concerns one execution; `k` numbers the deliveries of its message. */
  datatype CellStep =
    | Publish
    | SubmitFailed
    | Deliver
    | Claim(k: nat, fate: Fate)
    | ReclaimName(k: nat)
    | CreateContainer(k: nat)
    | StartContainer(k: nat)
    | NotStarted(k: nat)
    | Requeue(k: nat, fate: Fate)
    | RunEnded(k: nat, outcome: Outcome)
    | Cleanup(k: nat)
    | Finish(k: nat, fate: Fate)
    | GiveUp(k: nat)
    | Announce(k: nat, channel: Channel)
    | Close(k: nat)
    | Settle(k: nat, ack: bool)
    | LateClaim(k: nat)
    | LateRequeue(k: nat)
    | LateFinish(k: nat)
    | RemoveContainer
    | StrayContainer // a ContainerCreate lands although its caller saw an error
    | MarkStale // one UPDATE of the stale-queued sweep
    | Reap      // this row's part of the stale-running UPDATE
    | Rest

  /** True of the steps that one delivery takes; these have a `k`. */
  predicate HasActor(st: CellStep) {
    !(st.Publish? || st.SubmitFailed? || st.Deliver? || st.RemoveContainer? || st.StrayContainer? || st.MarkStale?
      || st.Reap? || st.Rest?)
  }

  /** True of the steps a delivery takes with the Docker daemon before its container has run. */
  predicate IsDockerStep(st: CellStep) {
    st.ReclaimName? || st.CreateContainer? || st.StartContainer? || st.Cleanup? || st.NotStarted?
  }

  /** True of the steps a delivery takes after its container ran, and of its acknowledgement. */
  predicate IsResultStep(st: CellStep) {
    st.RunEnded? || st.Finish? || st.GiveUp? || st.Announce? || st.Close? || st.Settle? || st.LateFinish?
  }

  const NEW_HANDLER := Handler(Claiming, None, 0, false, None, None, false, false, false)

  function NewCell(p: Params, createdAt: Time): Cell {
    Cell(NewRow(p, createdAt), None, [], None, {}, p, 0, None)
  }

  function Put(c: Cell, k: nat, hd: Handler): Cell
    requires k < |c.handlers|
  {
    c.(handlers := c.handlers[k := hd])
  }

  /** The claim statement reaches the row; `owner` is the handler that learns that it won. */
  function ClaimLands(c: Cell, now: Time, owner: Option<nat>): Cell {
    if c.row.status.Queued? then c.(row := ClaimRow(c.row, now), owner := owner) else c
  }

  function RequeueLands(c: Cell, now: Time): Cell {
    if c.row.status.Running? then c.(row := RequeueRow(c.row, now), owner := None) else c
  }

  function FinishLands(c: Cell, now: Time, v: Result): Cell {
    c.(row := FinishRow(c.row, v, now))
  }

  predicate CanStart(c: Cell, k: nat) {
    k < |c.handlers| && c.handlers[k].phase.Created? && c.container == Some(false)
  }

  /** The result stream only hears of clean runs; webhooks also of runner errors. */
  predicate CanAnnounce(hd: Handler, channel: Channel) {
    && hd.verdict.Some?
    && (hd.phase.Persisted? || hd.phase.Reporting?)
    && (channel.ResultStream? ==> hd.verdict.value.clean)
  }

  function CellExec(cfg: Config, now: Time, c: Cell, st: CellStep): Cell {
    if !HasActor(st) then OutsideExec(cfg, now, c, st)
    else if st.k >= |c.handlers| then c
    else if IsResultStep(st) then ResultExec(now, c, st.k, st)
    else ClaimExec(now, c, st.k, st)
  }

  /** What gateways, the queue, the daemon and reapers do to an execution. */
  function OutsideExec(cfg: Config, now: Time, c: Cell, st: CellStep): Cell
    requires !HasActor(st)
  {
    match st
    case Publish =>
      if c.msg.None? then c.(msg := Some(Msg(c.row.params.tenant, c.row.params.language, false))) else c
    case SubmitFailed => c.(row := FailQueuedRow(c.row, SUBMIT_FAILED_STDERR, now))
    case Deliver =>
      if c.msg.Some? && !c.msg.value.acked && |c.handlers| < cfg.maxDeliver then
        c.(handlers := c.handlers + [NEW_HANDLER])
      else c
    case RemoveContainer => c.(container := None)
    case StrayContainer => if c.container.None? then c.(container := Some(false)) else c
    case MarkStale => c.(row := FailQueuedRow(c.row, STALE_QUEUED_STDERR, now))
    case Reap => c.(row := ReapRow(c.row, now, cfg.staleSecs))
    case Rest => c
  }

  /** Delivery `k`, from its claim to the start of its container or the requeue of its row. */
  function ClaimExec(now: Time, c: Cell, k: nat, st: CellStep): Cell
    requires k < |c.handlers| && HasActor(st) && !IsResultStep(st)
  {
    if IsDockerStep(st) then DockerExec(c, k, st) else ClaimSqlExec(now, c, k, st)
  }

  /** What delivery `k` does to the container of its execution. */
  function DockerExec(c: Cell, k: nat, st: CellStep): Cell
    requires k < |c.handlers| && IsDockerStep(st)
  {
    var hd := c.handlers[k];
    match st
    case ReclaimName(_) => if hd.phase.Preparing? then c.(container := None) else c
    case CreateContainer(_) =>
      if hd.phase.Preparing? && c.container.None? then
        Put(c.(container := Some(false)), k, hd.(phase := Created))
      else c
    case StartContainer(_) =>
      if CanStart(c, k) then
        Put(c.(container := Some(true), starts := c.starts + 1), k, hd.(phase := Started, ran := true))
      else c
    case Cleanup(_) =>
      if hd.phase.Requeueing? || hd.phase.Finishing? then c.(container := None) else c
    case NotStarted(_) =>
      if hd.phase.Preparing? || hd.phase.Created? then Put(c, k, hd.(phase := Requeueing)) else c
  }

  /** The claim and requeue statements of delivery `k`, on time or late. */
  function ClaimSqlExec(now: Time, c: Cell, k: nat, st: CellStep): Cell
    requires k < |c.handlers| && HasActor(st) && !IsResultStep(st) && !IsDockerStep(st)
  {
    var hd := c.handlers[k];
    match st
    case Claim(_, fate) =>
      if !hd.phase.Claiming? then c
      else if fate.ErrInFlight? then Put(c, k, hd.(phase := Closed, lateClaim := true))
      else if fate.ErrLanded? then Put(ClaimLands(c, now, None), k, hd.(phase := Closed))
      else if c.row.status.Queued? then
        Put(ClaimLands(c, now, Some(k)), k, hd.(phase := Preparing, job := Some(c.row.params), claimedAt := now))
      else Put(c, k, hd.(phase := Closed))
    case Requeue(_, fate) =>
      if !hd.phase.Requeueing? then c
      else if fate.ErrInFlight? then Put(c, k, hd.(phase := Closed, lateRequeue := true))
      else Put(RequeueLands(c, now), k, hd.(phase := Closed))
    case LateClaim(_) =>
      if hd.lateClaim then Put(ClaimLands(c, now, None), k, hd.(lateClaim := false)) else c
    case LateRequeue(_) =>
      if hd.lateRequeue then Put(RequeueLands(c, now), k, hd.(lateRequeue := false)) else c
  }

  /** Delivery `k`, from the end of its run to its acknowledgement. */
  function ResultExec(now: Time, c: Cell, k: nat, st: CellStep): Cell
    requires k < |c.handlers| && IsResultStep(st)
  {
    if st.Finish? || st.LateFinish? then FinishExec(now, c, k, st) else EndingExec(c, k, st)
  }

  /** The result write of delivery `k`, on time or late. */
  function FinishExec(now: Time, c: Cell, k: nat, st: CellStep): Cell
    requires k < |c.handlers| && (st.Finish? || st.LateFinish?)
  {
    var hd := c.handlers[k];
    match st
    case Finish(_, fate) =>
      if !hd.phase.Finishing? || hd.verdict.None? || hd.phase.attempts >= FINISH_ATTEMPTS then c
      else if fate.ErrInFlight? then
        Put(c, k, hd.(phase := Finishing(hd.phase.attempts + 1), lateFinish := true))
      else if fate.ErrLanded? then
        Put(FinishLands(c, now, hd.verdict.value.result), k, hd.(phase := Finishing(hd.phase.attempts + 1)))
      else
        Put(FinishLands(c, now, hd.verdict.value.result), k, hd.(phase := Persisted, persistedAt := Some(now)))
    case LateFinish(_) =>
      if hd.lateFinish && hd.verdict.Some? then FinishLands(c, now, hd.verdict.value.result) else c
  }

  /** The steps around it: the end of the run, the announcements, the return, the acknowledgement. */
  function EndingExec(c: Cell, k: nat, st: CellStep): Cell
    requires k < |c.handlers| && IsResultStep(st) && !st.Finish? && !st.LateFinish?
  {
    var hd := c.handlers[k];
    match st
    case RunEnded(_, outcome) =>
      if hd.phase.Started? then
        Put(c, k, hd.(phase := Finishing(0), verdict := Some(VerdictOf(outcome))))
      else c
    case GiveUp(_) =>
      if hd.phase.Finishing? && hd.phase.attempts > 0 && hd.verdict.Some? then
        Put(c, k, hd.(phase := if hd.verdict.value.clean then Closed else Reporting))
      else c
    case Announce(_, channel) =>
      if CanAnnounce(hd, channel) then
        var v := hd.verdict.value;
        c.(outbox := c.outbox + {Announcement(k, channel, v.result.status, v.announcedExit)})
      else c
    case Close(_) =>
      if hd.phase.Persisted? || hd.phase.Reporting? then Put(c, k, hd.(phase := Closed)) else c
    case Settle(_, ack) =>
      if hd.phase.Closed? && ack && c.msg.Some? then c.(msg := Some(c.msg.value.(acked := true))) else c
  }

  // ----- the whole system

  /** A transaction that has counted the hour remembers the count; one that is checked may insert. */
  datatype TxPhase = Begun | Locked | Counted(clock: Time, hourly: nat) | Checked(clock: Time)
  datatype Tx = Tx(params: Params, begunAt: Time, phase: TxPhase)

  /** Bookkeeping of one admission by the quota checker: its commit order and its clock reading. */
  datatype Admission = Admission(order: nat, checkedAt: Time)

  datatype State = State(
    cfg: Config, now: Time, cells: map<Id, Cell>, sweeps: map<nat, set<Id>>, txs: map<nat, Tx>,
    admitted: map<Id, Admission>, commits: nat)

  datatype Step =
    | Tick(d: nat)
    | On(id: Id, c: CellStep)
      // gateways: a plain insert, or the quota checker's transaction
    | InsertUnchecked(id: Id, p: Params)
    | TxBegin(x: nat, p: Params)
    | TxLock(x: nat)
    | TxCount(x: nat, clock: Time)
    | TxCheck(x: nat)
    | TxCommit(x: nat, id: Id)
    | TxAbort(x: nat)
      // reapers: one UPDATE over all running rows; one SELECT, then one UPDATE per listed row
    | ReapRunning
    | SweepList(k: nat)
    | SweepMark(k: nat, id: Id)

  function Init(cfg: Config, now: Time): State {
    State(cfg, now, map[], map[], map[], map[], 0)
  }

  /** The executions table. */
  function Rows(s: State): Table {
    map id | id in s.cells :: s.cells[id].row
  }

  /** The advisory lock of a tenant is held by another transaction. */
  predicate LockBusy(s: State, x: nat, tenant: Tenant) {
    exists y | y in s.txs :: y != x && s.txs[y].params.tenant == tenant && !s.txs[y].phase.Begun?
  }

  function OnCell(s: State, id: Id, c: CellStep): State
    requires id in s.cells
  {
    s.(cells := s.cells[id := CellExec(s.cfg, s.now, s.cells[id], c)])
  }

  function Exec(s: State, st: Step): State {
    match st
    case Tick(d) => s.(now := s.now + d)
    case On(id, c) => if id in s.cells && !c.MarkStale? && !c.Reap? then OnCell(s, id, c) else s
    case InsertUnchecked(id, p) =>
      if id !in s.cells && ValidParams(p) then s.(cells := s.cells[id := NewCell(p, s.now)]) else s
    case TxBegin(x, p) =>
      if x !in s.txs && ValidParams(p) then s.(txs := s.txs[x := Tx(p, s.now, Begun)]) else s
    case TxLock(x) =>
      if x in s.txs && s.txs[x].phase.Begun? && !LockBusy(s, x, s.txs[x].params.tenant) then
        s.(txs := s.txs[x := s.txs[x].(phase := Locked)])
      else s
    case TxCount(x, clock) => if CanCount(s, x) then ExecCount(s, x, clock) else s
    case TxCheck(x) => if CanCheck(s, x) then ExecCheck(s, x) else s
    case TxCommit(x, id) => if CanCommit(s, x, id) then ExecCommit(s, x, id) else s
    case TxAbort(x) => s.(txs := s.txs - {x})
    case ReapRunning =>
      s.(cells := map id | id in s.cells :: CellExec(s.cfg, s.now, s.cells[id], Reap))
    case SweepList(k) =>
      s.(sweeps := s.sweeps[k := ListStaleQueued(Rows(s), s.now, s.cfg.staleQueuedSecs)])
    case SweepMark(k, id) =>
      if id in s.cells && k in s.sweeps && id in s.sweeps[k] then OnCell(s, id, MarkStale) else s
  }

  predicate CanCount(s: State, x: nat) {
    x in s.txs && s.txs[x].phase.Locked? && s.txs[x].params.tenant in s.cfg.limits
  }

  /** The rows of the hour are counted under the lock, back from the gateway's clock. */
  function ExecCount(s: State, x: nat, clock: Time): State
    requires CanCount(s, x)
  {
    var tenant := s.txs[x].params.tenant;
    s.(txs := s.txs[x := s.txs[x].(phase := Counted(clock, HourlyCount(Rows(s), tenant, s.cfg.limits[tenant], clock)))])
  }

  predicate CanCheck(s: State, x: nat) {
    x in s.txs && s.txs[x].phase.Counted? && s.txs[x].params.tenant in s.cfg.limits
  }

  /** The active rows are counted by a later statement, and both counts decide; a denied transaction goes no further. */
  function ExecCheck(s: State, x: nat): State
    requires CanCheck(s, x)
  {
    var tenant, phase := s.txs[x].params.tenant, s.txs[x].phase;
    var l := s.cfg.limits[tenant];
    if Decide(l, phase.hourly, ActiveCount(Rows(s), tenant, l)).allowed then
      s.(txs := s.txs[x := s.txs[x].(phase := Checked(phase.clock))])
    else s
  }

  predicate CanCommit(s: State, x: nat, id: Id) {
    x in s.txs && s.txs[x].phase.Checked? && id !in s.cells
  }

  /** Insert and commit: the row becomes visible with the transaction's start as its created_at. */
  function ExecCommit(s: State, x: nat, id: Id): State
    requires CanCommit(s, x, id)
  {
    var tx := s.txs[x];
    s.(cells := s.cells[id := NewCell(tx.params, tx.begunAt)],
       txs := s.txs - {x},
       admitted := s.admitted[id := Admission(s.commits, tx.phase.clock)],
       commits := s.commits + 1)
  }

  function Run(s: State, steps: seq<Step>): State
    decreases |steps|
  {
    if steps == [] then s else Run(Exec(s, steps[0]), steps[1..])
  }

  lemma {:induction false} RunConcat(s: State, a: seq<Step>, b: seq<Step>)
    ensures Run(s, a + b) == Run(Run(s, a), b)
    decreases |a|
  {
    if a == [] {
      assert a + b == b;
    } else {
      assert (a + b)[1..] == a[1..] + b;
      RunConcat(Exec(s, a[0]), a[1..], b);
    }
  }

  // ----- one execution's view of a step

  /** What a step of the system does to execution `id`. */
  function View(s: State, st: Step, id: Id): CellStep {
    match st
    case On(i, c) => if i == id && !c.MarkStale? && !c.Reap? then c else Rest
    case ReapRunning => Reap
    case SweepMark(k, i) => if i == id && k in s.sweeps && id in s.sweeps[k] then MarkStale else Rest
    case _ => Rest
  }

  /** Every step acts on an existing execution through `CellExec`, and never removes one. */
  lemma ExecOnCell(s: State, st: Step, id: Id)
    requires id in s.cells
    ensures id in Exec(s, st).cells
    ensures Exec(s, st).cells[id] == CellExec(s.cfg, s.now, s.cells[id], View(s, st, id))
  {
  }
}
