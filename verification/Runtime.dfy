/**
 * The imperative layer's view of the system: the executions table that store calls update in place,
 * the whole state it belongs to, and the steps taken so far. Code that runs here interleaves with
 * everybody else through `Yield`.
 */
module Runtime {
  import opened Executions
  import opened Sandbox
  import opened Lifecycle
  import opened LifecycleInv
  import opened TableSteps
  import opened Store

  /** A step that delivery `k` of execution `id` itself takes, as opposed to a statement landing late. */
  predicate Own(st: Step, id: Id, k: nat) {
    && st.On? && st.id == id && HasActor(st.c) && st.c.k == k
    && !st.c.LateClaim? && !st.c.LateRequeue? && !st.c.LateFinish?
  }

  /** The steps of delivery `k` of execution `id`, in order. */
  function OwnSteps(trace: seq<Step>, id: Id, k: nat): seq<CellStep> {
    if trace == [] then []
    else
      var last := trace[|trace| - 1];
      OwnSteps(trace[..|trace| - 1], id, k) + (if Own(last, id, k) then [last.c] else [])
  }

  lemma OwnSnoc(trace: seq<Step>, st: Step, id: Id, k: nat)
    ensures OwnSteps(trace + [st], id, k) == OwnSteps(trace, id, k) + (if Own(st, id, k) then [st.c] else [])
  {
    assert (trace + [st])[..|trace|] == trace;
  }

  /** How many statements and starts a delivery has to its name. */
  datatype Counts = Counts(claims: nat, starts: nat, requeues: nat, writes: nat)

  function Bump(n: Counts, st: CellStep): Counts {
    if st.Claim? then n.(claims := n.claims + 1)
    else if st.StartContainer? then n.(starts := n.starts + 1)
    else if st.Requeue? then n.(requeues := n.requeues + 1)
    else if st.Finish? then n.(writes := n.writes + 1)
    else n
  }

  /** The counts over all steps of delivery `k` of execution `id`. */
  function Tally(trace: seq<Step>, id: Id, k: nat): Counts {
    if trace == [] then Counts(0, 0, 0, 0)
    else
      var last := trace[|trace| - 1];
      var n := Tally(trace[..|trace| - 1], id, k);
      if Own(last, id, k) then Bump(n, last.c) else n
  }

  lemma TallySnoc(trace: seq<Step>, st: Step, id: Id, k: nat)
    ensures Tally(trace + [st], id, k)
            == if Own(st, id, k) then Bump(Tally(trace, id, k), st.c) else Tally(trace, id, k)
  {
    assert (trace + [st])[..|trace|] == trace;
  }

  lemma RunSnoc(s: State, trace: seq<Step>, st: Step)
    ensures Run(s, trace + [st]) == Exec(Run(s, trace), st)
  {
    RunConcat(s, trace, [st]);
  }

  predicate Delivered(s: State, id: Id, k: nat) {
    id in s.cells && k < |s.cells[id].handlers|
  }

  /** A handler but for the fate of its late statements. */
  function Settled(hd: Handler): Handler {
    hd.(lateClaim := false, lateRequeue := false, lateFinish := false)
  }

  /** What only the handler itself changes. */
  function Core(s: State, id: Id, k: nat): Handler
    requires Delivered(s, id, k)
  {
    Settled(s.cells[id].handlers[k])
  }

  lemma ClaimExecKeepsOthers(now: Time, c: Cell, st: CellStep, k: nat)
    requires HasActor(st) && !IsResultStep(st) && k < |c.handlers| && st.k < |c.handlers|
    requires st.k == k ==> st.LateClaim? || st.LateRequeue?
    ensures var c' := ClaimExec(now, c, st.k, st);
            k < |c'.handlers| && Settled(c'.handlers[k]) == Settled(c.handlers[k])
  {
  }

  lemma ResultExecKeepsOthers(now: Time, c: Cell, st: CellStep, k: nat)
    requires IsResultStep(st) && k < |c.handlers| && st.k < |c.handlers| && (st.k == k ==> st.LateFinish?)
    ensures var c' := ResultExec(now, c, st.k, st);
            k < |c'.handlers| && Settled(c'.handlers[k]) == Settled(c.handlers[k])
  {
  }

  lemma OthersKeepCell(cfg: Config, now: Time, c: Cell, st: CellStep, k: nat)
    requires k < |c.handlers|
    requires HasActor(st) && st.k == k ==> st.LateClaim? || st.LateRequeue? || st.LateFinish?
    ensures var c' := CellExec(cfg, now, c, st);
            k < |c'.handlers| && Settled(c'.handlers[k]) == Settled(c.handlers[k])
  {
    if HasActor(st) && st.k < |c.handlers| {
      if IsResultStep(st) {
        ResultExecKeepsOthers(now, c, st, k);
      } else {
        ClaimExecKeepsOthers(now, c, st, k);
      }
    }
  }

  lemma OthersKeepCore(s: State, st: Step, id: Id, k: nat)
    requires Delivered(s, id, k) && !Own(st, id, k)
    ensures Delivered(Exec(s, st), id, k) && Core(Exec(s, st), id, k) == Core(s, id, k)
  {
    ExecOnCell(s, st, id);
    OthersKeepCell(s.cfg, s.now, s.cells[id], View(s, st, id), k);
  }

  /** Nobody changes what was submitted. */
  lemma ParamsStay(s: State, st: Step, id: Id)
    requires id in s.cells
    ensures id in Exec(s, st).cells && Exec(s, st).cells[id].row.params == s.cells[id].row.params
  {
    ExecOnCell(s, st, id);
    CellRowMoves(s.cfg, s.now, s.cells[id], View(s, st, id));
  }

  type Schedule = nat -> seq<Step>

  /** Nothing in the schedule is a step of delivery `k` of execution `id`. */
  ghost predicate Foreign(env: Schedule, id: Id, k: nat) {
    forall n, i | 0 <= i < |env(n)| :: !Own(env(n)[i], id, k)
  }

  /** Nobody else does anything. */
  ghost predicate Uninterrupted(env: Schedule) {
    forall n :: env(n) == []
  }

  /** A step of delivery `k` that sends no statement and is enabled. */
  predicate CanAct(c: Cell, k: nat, st: CellStep)
    requires k < |c.handlers|
  {
    var hd := c.handlers[k];
    match st
    case ReclaimName(j) => j == k && hd.phase.Preparing?
    case CreateContainer(j) => j == k && hd.phase.Preparing? && c.container.None?
    case StartContainer(j) => j == k && CanStart(c, k)
    case NotStarted(j) => j == k && (hd.phase.Preparing? || hd.phase.Created?)
    case RunEnded(j, _) => j == k && hd.phase.Started?
    case Cleanup(j) => j == k && (hd.phase.Requeueing? || hd.phase.Finishing?)
    case GiveUp(j) => j == k && hd.phase.Finishing? && hd.phase.attempts > 0 && hd.verdict.Some?
    case Announce(j, channel) => j == k && CanAnnounce(hd, channel)
    case Close(j) => j == k && (hd.phase.Persisted? || hd.phase.Reporting?)
    case Settle(j, _) => j == k && hd.phase.Closed?
    case _ => false
  }

  /** What such a step makes of its handler. */
  function Moved(hd: Handler, st: CellStep): Handler {
    match st
    case CreateContainer(_) => hd.(phase := Created)
    case StartContainer(_) => hd.(phase := Started, ran := true)
    case NotStarted(_) => hd.(phase := Requeueing)
    case RunEnded(_, outcome) => hd.(phase := Finishing(0), verdict := Some(VerdictOf(outcome)))
    case GiveUp(_) => hd.(phase := if hd.verdict.Some? && !hd.verdict.value.clean then Reporting else Closed)
    case Close(_) => hd.(phase := Closed)
    case _ => hd
  }

  /** What it makes of the container that carries the execution's name. */
  function Contained(container: Option<bool>, st: CellStep): Option<bool> {
    if st.CreateContainer? then Some(false)
    else if st.StartContainer? then Some(true)
    else if st.ReclaimName? || st.Cleanup? then None
    else container
  }

  /** What it makes of the message. */
  function Messaged(m: Option<Msg>, st: CellStep): Option<Msg> {
    if st.Settle? && st.ack && m.Some? then Some(m.value.(acked := true)) else m
  }

  lemma ActMoves(s: State, id: Id, k: nat, st: CellStep)
    requires Delivered(s, id, k) && CanAct(s.cells[id], k, st)
    ensures Own(On(id, st), id, k)
    ensures Delivered(Exec(s, On(id, st)), id, k)
    ensures Core(Exec(s, On(id, st)), id, k) == Moved(Core(s, id, k), st)
    ensures Exec(s, On(id, st)).cells[id].container == Contained(s.cells[id].container, st)
    ensures Exec(s, On(id, st)).cells[id].row == s.cells[id].row
    ensures Exec(s, On(id, st)).cells[id].msg == Messaged(s.cells[id].msg, st)
    ensures TableAfter(s, On(id, st)) == Rows(s)
  {
  }

  lemma ClaimMoves(s: State, id: Id, k: nat, fate: Fate)
    requires Delivered(s, id, k) && s.cells[id].handlers[k].phase.Claiming?
    ensures var s' := Exec(s, On(id, Claim(k, fate)));
            && Delivered(s', id, k)
            && Core(s', id, k) == if fate.Answered? && s.cells[id].row.status.Queued?
                                  then Core(s, id, k).(phase := Preparing, job := Some(s.cells[id].row.params),
                                                       claimedAt := s.now)
                                  else Core(s, id, k).(phase := Closed)
    ensures Exec(s, On(id, Claim(k, fate))).cells[id].row
            == if fate.ErrInFlight? then s.cells[id].row else ClaimRow(s.cells[id].row, s.now)
    ensures TableAfter(s, On(id, Claim(k, fate)))
            == if fate.ErrInFlight? then Rows(s) else MarkExecutionRunning(Rows(s), id, s.now)
  {
  }

  lemma RequeueMoves(s: State, id: Id, k: nat, fate: Fate)
    requires Delivered(s, id, k) && s.cells[id].handlers[k].phase.Requeueing?
    ensures var s' := Exec(s, On(id, Requeue(k, fate)));
            Delivered(s', id, k) && Core(s', id, k) == Core(s, id, k).(phase := Closed)
    ensures TableAfter(s, On(id, Requeue(k, fate)))
            == if fate.ErrInFlight? then Rows(s) else RequeueExecution(Rows(s), id, s.now)
  {
  }

  lemma FinishMoves(s: State, id: Id, k: nat, fate: Fate)
    requires Delivered(s, id, k) && CanFinish(s.cells[id].handlers[k])
    ensures var s' := Exec(s, On(id, Finish(k, fate)));
            && Delivered(s', id, k)
            && Core(s', id, k) == if fate.Answered?
                                  then Core(s, id, k).(phase := Persisted, persistedAt := Some(s.now))
                                  else Core(s, id, k).(phase := Finishing(Core(s, id, k).phase.attempts + 1))
    ensures Exec(s, On(id, Finish(k, fate))).cells[id].row
            == if fate.ErrInFlight? then s.cells[id].row
               else FinishRow(s.cells[id].row, s.cells[id].handlers[k].verdict.value.result, s.now)
    ensures TableAfter(s, On(id, Finish(k, fate)))
            == if fate.ErrInFlight? then Rows(s)
               else FinishExecution(Rows(s), id, s.cells[id].handlers[k].verdict.value.result, s.now)
  {
  }

  class World {
    const db: ExecutionTable
    const s0: State
    var s: State
    var trace: seq<Step>

    /** The table is the state's, and the state is where the trace leads from `s0`. */
    ghost predicate Valid()
      reads this, db
    {
      db.rows == Rows(s) && db.now == s.now && s == Run(s0, trace)
    }

    constructor (s0: State)
      ensures Valid() && s == s0 && trace == [] && fresh(db)
    {
      var table := new ExecutionTable(s0.now);
      table.rows := Rows(s0);
      db, this.s0, s, trace := table, s0, s0, [];
    }

    /** The step whose statement has just reached the table. */
    method Record(st: Step)
      requires s == Run(s0, trace) && db.rows == TableAfter(s, st) && db.now == s.now && !st.Tick?
      modifies this`s, this`trace
      ensures Valid() && s == Exec(old(s), st) && trace == old(trace) + [st]
    {
      RunSnoc(s0, trace, st);
      StepIsSql(s, st);
      s, trace := Exec(s, st), trace + [st];
    }

    /** A step of somebody else, whose statement, if any, reaches the table with it. */
    method Happen(st: Step)
      requires Valid()
      modifies this`s, this`trace, db
      ensures Valid() && s == Exec(old(s), st) && trace == old(trace) + [st]
    {
      RunSnoc(s0, trace, st);
      s, trace := Exec(s, st), trace + [st];
      db.rows, db.now := Rows(s), s.now;
    }

    /** A step of the handler whose statement has just reached the table. */
    method RecordOwn(id: Id, k: nat, st: CellStep)
      requires s == Run(s0, trace) && db.rows == TableAfter(s, On(id, st)) && db.now == s.now
      requires Own(On(id, st), id, k)
      modifies this`s, this`trace
      ensures Valid() && s == Exec(old(s), On(id, st))
      ensures OwnSteps(trace, id, k) == old(OwnSteps(trace, id, k)) + [st]
      ensures Tally(trace, id, k) == Bump(old(Tally(trace, id, k)), st)
    {
      OwnSnoc(trace, On(id, st), id, k);
      TallySnoc(trace, On(id, st), id, k);
      Record(On(id, st));
    }

    /** Let everybody else take the steps scheduled for this moment. */
    method Yield(env: Schedule, id: Id, k: nat)
      requires Valid() && Delivered(s, id, k) && Foreign(env, id, k)
      modifies this`s, this`trace, db
      ensures Valid() && Delivered(s, id, k) && Core(s, id, k) == old(Core(s, id, k))
      ensures OwnSteps(trace, id, k) == old(OwnSteps(trace, id, k)) && Tally(trace, id, k) == old(Tally(trace, id, k))
      ensures s.cells[id].row.params == old(s).cells[id].row.params && (Uninterrupted(env) ==> s == old(s))
    {
      var steps := env(|trace|);
      for i := 0 to |steps|
        invariant i == 0 ==> s == old(s)
        invariant Valid() && Delivered(s, id, k) && Core(s, id, k) == old(Core(s, id, k))
        invariant s.cells[id].row.params == old(s).cells[id].row.params
        invariant OwnSteps(trace, id, k) == old(OwnSteps(trace, id, k))
        invariant Tally(trace, id, k) == old(Tally(trace, id, k))
      {
        Suffer(steps[i], id, k);
      }
    }

    /** One step of somebody else, seen from a handler. */
    method Suffer(st: Step, id: Id, k: nat)
      requires Valid() && Delivered(s, id, k) && !Own(st, id, k)
      modifies this`s, this`trace, db
      ensures Valid() && Delivered(s, id, k) && Core(s, id, k) == old(Core(s, id, k)) && s == Exec(old(s), st)
      ensures s.cells[id].row.params == old(s).cells[id].row.params
      ensures OwnSteps(trace, id, k) == old(OwnSteps(trace, id, k)) && Tally(trace, id, k) == old(Tally(trace, id, k))
    {
      OthersKeepCore(s, st, id, k);
      ParamsStay(s, st, id);
      OwnSnoc(trace, st, id, k);
      TallySnoc(trace, st, id, k);
      Happen(st);
    }

    /** The daemon creates the container, but whoever asked for it never hears. */
    method Stray(id: Id, k: nat)
      requires Valid() && Delivered(s, id, k)
      modifies this`s, this`trace, db
      ensures Valid() && Delivered(s, id, k) && Core(s, id, k) == old(Core(s, id, k))
      ensures OwnSteps(trace, id, k) == old(OwnSteps(trace, id, k)) && Tally(trace, id, k) == old(Tally(trace, id, k))
      ensures s.cells[id].container
              == if old(s).cells[id].container.None? then Some(false) else old(s).cells[id].container
      ensures s.cells[id].row == old(s).cells[id].row
    {
      Suffer(On(id, StrayContainer), id, k);
    }

    /** A step of the handler that sends no statement. */
    method Act(id: Id, k: nat, st: CellStep)
      requires Valid() && Delivered(s, id, k) && CanAct(s.cells[id], k, st)
      modifies this`s, this`trace
      ensures Valid() && Delivered(s, id, k) && Core(s, id, k) == Moved(old(Core(s, id, k)), st)
      ensures s.cells[id].container == Contained(old(s).cells[id].container, st)
      ensures s.cells[id].msg == Messaged(old(s).cells[id].msg, st)
      ensures s.cells[id].row == old(s).cells[id].row
      ensures OwnSteps(trace, id, k) == old(OwnSteps(trace, id, k)) + [st]
      ensures Tally(trace, id, k) == Bump(old(Tally(trace, id, k)), st)
    {
      ActMoves(s, id, k, st);
      RecordOwn(id, k, st);
    }

    /** MarkExecutionRunning: a row is returned when the claim was won and the reply arrived. */
    method Claim(id: Id, k: nat, fate: Fate) returns (claimed: Option<Params>)
      requires Valid() && Delivered(s, id, k) && s.cells[id].handlers[k].phase.Claiming?
      modifies this`s, this`trace, db`rows
      ensures Valid() && Delivered(s, id, k)
      ensures OwnSteps(trace, id, k) == old(OwnSteps(trace, id, k)) + [CellStep.Claim(k, fate)]
      ensures Tally(trace, id, k) == Bump(old(Tally(trace, id, k)), CellStep.Claim(k, fate))
      ensures claimed == if fate.Answered? && old(s).cells[id].row.status.Queued?
                         then Some(old(s).cells[id].row.params) else None
      ensures s.cells[id].row
              == if fate.ErrInFlight? then old(s).cells[id].row else ClaimRow(old(s).cells[id].row, db.now)
      ensures Core(s, id, k) == if claimed.Some?
                                then old(Core(s, id, k)).(phase := Preparing, job := claimed, claimedAt := db.now)
                                else old(Core(s, id, k)).(phase := Closed)
    {
      ClaimMoves(s, id, k, fate);
      claimed := None;
      if !fate.ErrInFlight? {
        claimed := db.MarkRunning(id);
      }
      RecordOwn(id, k, CellStep.Claim(k, fate));
      if !fate.Answered? {
        claimed := None;
      }
    }

    method Requeue(id: Id, k: nat, fate: Fate)
      requires Valid() && Delivered(s, id, k) && s.cells[id].handlers[k].phase.Requeueing?
      modifies this`s, this`trace, db`rows
      ensures Valid() && Delivered(s, id, k)
      ensures OwnSteps(trace, id, k) == old(OwnSteps(trace, id, k)) + [CellStep.Requeue(k, fate)]
      ensures Tally(trace, id, k) == Bump(old(Tally(trace, id, k)), CellStep.Requeue(k, fate))
      ensures Core(s, id, k) == old(Core(s, id, k)).(phase := Closed)
    {
      RequeueMoves(s, id, k, fate);
      if !fate.ErrInFlight? {
        var _ := db.Requeue(id);
      }
      RecordOwn(id, k, CellStep.Requeue(k, fate));
    }

    /** FinishExecution with the handler's verdict; `ok` when the reply arrived. */
    method Finish(id: Id, k: nat, v: Result, fate: Fate) returns (ok: bool)
      requires Valid() && Delivered(s, id, k) && CanFinish(s.cells[id].handlers[k])
      requires s.cells[id].handlers[k].verdict.value.result == v
      modifies this`s, this`trace, db`rows
      ensures Valid() && Delivered(s, id, k)
      ensures OwnSteps(trace, id, k) == old(OwnSteps(trace, id, k)) + [CellStep.Finish(k, fate)]
      ensures Tally(trace, id, k) == Bump(old(Tally(trace, id, k)), CellStep.Finish(k, fate))
      ensures ok <==> fate.Answered?
      ensures s.cells[id].row
              == if fate.ErrInFlight? then old(s).cells[id].row else FinishRow(old(s).cells[id].row, v, db.now)
      ensures Core(s, id, k) == if ok
                                then old(Core(s, id, k)).(phase := Persisted, persistedAt := Some(db.now))
                                else old(Core(s, id, k)).(phase := Finishing(old(Core(s, id, k)).phase.attempts + 1))
    {
      FinishMoves(s, id, k, fate);
      if !fate.ErrInFlight? {
        db.Finish(id, v);
      }
      RecordOwn(id, k, CellStep.Finish(k, fate));
      ok := fate.Answered?;
    }

    /** JetStream hands the message to a new handler, whose number is returned. */
    method Receive(id: Id) returns (k: nat)
      requires Valid() && id in s.cells && CanDeliver(s, id)
      modifies this`s, this`trace
      ensures Valid() && k == |old(s).cells[id].handlers| && Delivered(s, id, k) && Core(s, id, k) == NEW_HANDLER
      ensures s.cells[id].row == old(s).cells[id].row
      ensures OwnSteps(trace, id, k) == old(OwnSteps(trace, id, k)) && Tally(trace, id, k) == old(Tally(trace, id, k))
    {
      k := |s.cells[id].handlers|;
      OwnSnoc(trace, On(id, Deliver), id, k);
      TallySnoc(trace, On(id, Deliver), id, k);
      Record(On(id, Deliver));
    }
  }

  predicate CanDeliver(s: State, id: Id)
    requires id in s.cells
  {
    s.cells[id].msg.Some? && !s.cells[id].msg.value.acked && |s.cells[id].handlers| < s.cfg.maxDeliver
  }
}
