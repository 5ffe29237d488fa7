/** What holds in every run of the lifecycle: any steps, in any order, from the empty system. */
module LifecycleTheorems {
  import opened Text
  import opened Executions
  import opened Sandbox
  import opened Lifecycle
  import opened LifecycleInv

  /** The state after the given steps. */
  function After(cfg: Config, t0: Time, steps: seq<Step>): State {
    Run(Init(cfg, t0), steps)
  }

  lemma Reached(cfg: Config, t0: Time, steps: seq<Step>)
    ensures Inv(After(cfg, t0, steps)) && After(cfg, t0, steps).cfg == cfg
  {
    InitInv(cfg, t0);
    RunKeepsInv(Init(cfg, t0), steps);
  }

  // ----- at most one start

  /** The step starts a container for execution `id`. */
  predicate Launches(s: State, st: Step, id: Id) {
    && id in s.cells
    && View(s, st, id).StartContainer?
    && CanStart(s.cells[id], View(s, st, id).k)
  }

  /** How many steps of the run start a container for execution `id`. */
  function LaunchCount(s: State, steps: seq<Step>, id: Id): nat
    decreases |steps|
  {
    if steps == [] then 0
    else (if Launches(s, steps[0], id) then 1 else 0) + LaunchCount(Exec(s, steps[0]), steps[1..], id)
  }

  function Starts(s: State, id: Id): nat {
    if id in s.cells then s.cells[id].starts else 0
  }

  lemma StepCountsStarts(s: State, st: Step, id: Id)
    ensures Starts(Exec(s, st), id) == Starts(s, id) + (if Launches(s, st, id) then 1 else 0)
  {
    if id in s.cells {
      ExecOnCell(s, st, id);
    }
  }

  lemma {:induction false} RunCountsStarts(s: State, steps: seq<Step>, id: Id)
    ensures Starts(Run(s, steps), id) == Starts(s, id) + LaunchCount(s, steps, id)
    decreases |steps|
  {
    if steps != [] {
      StepCountsStarts(s, steps[0], id);
      RunCountsStarts(Exec(s, steps[0]), steps[1..], id);
    }
  }

  /** Whatever is delivered twice, crashes, is requeued, reaped or left in doubt: one start at most. */
  lemma StartedAtMostOnce(cfg: Config, t0: Time, steps: seq<Step>, id: Id)
    ensures LaunchCount(Init(cfg, t0), steps, id) <= 1
  {
    Reached(cfg, t0, steps);
    RunCountsStarts(Init(cfg, t0), steps, id);
    var s := After(cfg, t0, steps);
    assert id in s.cells ==> CellOk(cfg, s.now, s.cells[id]);
  }

  // ----- ownership

  /** The handler can still change the row through a claim it won. */
  predicate HoldsClaim(hd: Handler) {
    Prestart(hd) || hd.phase.Started? || hd.phase.Finishing? || hd.phase.Persisted? || hd.lateFinish
  }

  lemma SingleOwnership(cfg: Config, t0: Time, steps: seq<Step>, id: Id)
    requires id in After(cfg, t0, steps).cells
    ensures var c := After(cfg, t0, steps).cells[id];
            && (forall j, k | 0 <= j < |c.handlers| && 0 <= k < |c.handlers| ::
                  HoldsClaim(c.handlers[j]) && HoldsClaim(c.handlers[k]) ==> j == k)
            && (c.row.status.Queued? ==>
                  c.starts == 0 && forall j | 0 <= j < |c.handlers| :: !HoldsClaim(c.handlers[j]))
  {
    Reached(cfg, t0, steps);
    var c := After(cfg, t0, steps).cells[id];
    assert CellOk(cfg, After(cfg, t0, steps).now, c);
    forall j | 0 <= j < |c.handlers| && HoldsClaim(c.handlers[j])
      ensures c.owner == Some(j) && !c.row.status.Queued?
    {
      assert HandlerOk(cfg, c, j);
    }
  }

  lemma RequeueOfCell(cfg: Config, now: Time, c: Cell, k: nat, st: CellStep)
    requires st.Requeue? || st.LateRequeue?
    requires CellOk(cfg, now, c) && k < |c.handlers| && ClaimExec(now, c, k, st).row != c.row
    ensures c.row.status.Running? && c.owner == Some(k) && c.starts == 0
    ensures ClaimExec(now, c, k, st).row == c.row.(status := Queued, updatedAt := now)
    ensures ClaimExec(now, c, k, st).owner.None?
  {
    assert HandlerOk(cfg, c, k);
  }

  /** A requeue that moves a row takes back its own claim, on a row that was never started. */
  lemma RequeueUndoesOwnClaim(cfg: Config, t0: Time, steps: seq<Step>, id: Id, st: CellStep)
    requires id in After(cfg, t0, steps).cells && (st.Requeue? || st.LateRequeue?)
    ensures var s := After(cfg, t0, steps);
            var c := s.cells[id];
            var c' := CellExec(cfg, s.now, c, st);
            c'.row != c.row ==>
              && c.row.status.Running? && c.owner == Some(st.k) && c.starts == 0
              && c'.row == c.row.(status := Queued, updatedAt := s.now)
              && c'.owner.None?
  {
    Reached(cfg, t0, steps);
    var s := After(cfg, t0, steps);
    var c := s.cells[id];
    assert CellOk(cfg, s.now, c);
    if st.k < |c.handlers| && ClaimExec(s.now, c, st.k, st).row != c.row {
      RequeueOfCell(cfg, s.now, c, st.k, st);
    }
  }

  /** When Run removes a leftover container by name, that container was never started. */
  lemma ReclaimedWasNeverStarted(cfg: Config, t0: Time, steps: seq<Step>, id: Id, k: nat)
    requires id in After(cfg, t0, steps).cells
    requires var c := After(cfg, t0, steps).cells[id];
             k < |c.handlers| && c.handlers[k].phase.Preparing? && c.container.Some?
    ensures After(cfg, t0, steps).cells[id].container == Some(false)
    ensures LaunchCount(Init(cfg, t0), steps, id) == 0
  {
    Reached(cfg, t0, steps);
    var s := After(cfg, t0, steps);
    assert CellOk(cfg, s.now, s.cells[id]);
    assert HandlerOk(cfg, s.cells[id], k);
    assert !s.cells[id].container.value;
    RunCountsStarts(Init(cfg, t0), steps, id);
  }

  // ----- first result wins

  lemma {:induction false} FirstResultWins(s: State, steps: seq<Step>, id: Id)
    requires id in s.cells && !Active(s.cells[id].row.status)
    ensures id in Run(s, steps).cells && Run(s, steps).cells[id].row == s.cells[id].row
    decreases |steps|
  {
    if steps != [] {
      ExecOnCell(s, steps[0], id);
      CellRowMoves(s.cfg, s.now, s.cells[id], View(s, steps[0], id));
      FirstResultWins(Exec(s, steps[0]), steps[1..], id);
    }
  }

  lemma StepKeepsSubmission(s: State, st: Step, id: Id)
    requires id in s.cells
    ensures id in Exec(s, st).cells && Exec(s, st).cells[id].inserted == s.cells[id].inserted
  {
    ExecOnCell(s, st, id);
  }

  /** Executions are never lost and what was submitted never changes. */
  lemma {:induction false} SubmissionIsForever(s: State, steps: seq<Step>, id: Id)
    requires id in s.cells
    ensures id in Run(s, steps).cells
    ensures Run(s, steps).cells[id].inserted == s.cells[id].inserted
    decreases |steps|
  {
    if steps != [] {
      StepKeepsSubmission(s, steps[0], id);
      SubmissionIsForever(Exec(s, steps[0]), steps[1..], id);
    }
  }

  // ----- announcements

  /**
   * A result announced on the success path is stored, exactly, unless the reaper had failed the row
   * first; and the reaper can only have been first if the write came more than `staleSecs` seconds
   * after the claim.
   */
  lemma AnnouncedResultIsStored(cfg: Config, t0: Time, steps: seq<Step>, id: Id, a: Announcement)
    requires id in After(cfg, t0, steps).cells && a in After(cfg, t0, steps).cells[id].outbox
    ensures var c := After(cfg, t0, steps).cells[id];
            && a.handler < |c.handlers| && c.handlers[a.handler].verdict.Some?
            && var hd := c.handlers[a.handler];
               && var v := hd.verdict.value;
                  && a.status == v.result.status && a.exitCode == v.announcedExit
                  && (a.channel.ResultStream? ==> v.clean)
                  && (v.clean ==>
                        && hd.persistedAt.Some?
                        && !Active(c.row.status)
                        && (Matches(c.row, v.result) || Reaped(c.row))
                        && (hd.persistedAt.value <= hd.claimedAt + cfg.staleSecs * 1_000_000_000 ==>
                              Matches(c.row, v.result)))
  {
    Reached(cfg, t0, steps);
    var s := After(cfg, t0, steps);
    var c := s.cells[id];
    assert CellOk(cfg, s.now, c);
    assert AnnouncementOk(c, a);
    assert HandlerOk(cfg, c, a.handler);
  }

  /** Whoever listens, on either channel and however often, hears one result of an execution. */
  lemma AnnouncementsAgree(cfg: Config, t0: Time, steps: seq<Step>, id: Id, a: Announcement, b: Announcement)
    requires id in After(cfg, t0, steps).cells
    requires a in After(cfg, t0, steps).cells[id].outbox && b in After(cfg, t0, steps).cells[id].outbox
    ensures a.handler == b.handler && a.status == b.status && a.exitCode == b.exitCode
  {
    Reached(cfg, t0, steps);
    var s := After(cfg, t0, steps);
    var c := s.cells[id];
    assert CellOk(cfg, s.now, c);
    assert AnnouncementOk(c, a) && AnnouncementOk(c, b);
    assert HandlerOk(cfg, c, a.handler) && HandlerOk(cfg, c, b.handler);
  }

  /** A webhook sent after a runner error says failed, and the row never ends as anything else. */
  lemma RunnerErrorStaysFailed(cfg: Config, t0: Time, steps: seq<Step>, more: seq<Step>, id: Id, a: Announcement)
    requires id in After(cfg, t0, steps).cells && a in After(cfg, t0, steps).cells[id].outbox
    requires var c := After(cfg, t0, steps).cells[id];
             && a.handler < |c.handlers| && c.handlers[a.handler].verdict.Some?
             && !c.handlers[a.handler].verdict.value.clean
    ensures a.status.Failed? && a.exitCode.None?
    ensures var s := Run(After(cfg, t0, steps), more);
            id in s.cells && (s.cells[id].row.status.Failed? || s.cells[id].row.status.Running?)
  {
    Reached(cfg, t0, steps);
    var c := After(cfg, t0, steps).cells[id];
    assert CellOk(cfg, After(cfg, t0, steps).now, c);
    assert AnnouncementOk(c, a);
    assert HandlerOk(cfg, c, a.handler);
    RunKeepsInv(After(cfg, t0, steps), more);
    VerdictIsForever(After(cfg, t0, steps), more, id, a.handler);
    var s := Run(After(cfg, t0, steps), more);
    assert CellOk(cfg, s.now, s.cells[id]);
    assert HandlerOk(cfg, s.cells[id], a.handler);
  }

  predicate VerdictStep(c: Cell, c': Cell, st: CellStep, k: nat)
    requires k < |c'.handlers|
  {
    var v := c'.handlers[k].verdict;
    || (k < |c.handlers| && v == c.handlers[k].verdict)
    || (k >= |c.handlers| && v.None?)
    || (&& st.RunEnded? && st.k == k && k < |c.handlers| && c.handlers[k].phase.Started?
        && v == Some(VerdictOf(st.outcome)))
  }

  lemma ResultVerdict(now: Time, c: Cell, st: CellStep, k: nat)
    requires IsResultStep(st) && st.k < |c.handlers| && k < |ResultExec(now, c, st.k, st).handlers|
    ensures VerdictStep(c, ResultExec(now, c, st.k, st), st, k)
  {
  }

  /** A verdict appears when the run ends and never changes after that. */
  lemma VerdictMoves(cfg: Config, now: Time, c: Cell, st: CellStep, k: nat)
    requires k < |CellExec(cfg, now, c, st).handlers|
    ensures VerdictStep(c, CellExec(cfg, now, c, st), st, k)
  {
    if HasActor(st) && st.k < |c.handlers| {
      if IsResultStep(st) {
        ResultVerdict(now, c, st, k);
      } else {
        HandlersStay(cfg, now, c, st);
        ClaimExecVerdicts(now, c, st.k, st, k);
      }
    }
  }

  lemma HandlersStay(cfg: Config, now: Time, c: Cell, st: CellStep)
    ensures |c.handlers| <= |CellExec(cfg, now, c, st).handlers|
    ensures HasActor(st) ==> |CellExec(cfg, now, c, st).handlers| == |c.handlers|
  {
  }

  lemma {:induction false} VerdictIsForever(s: State, steps: seq<Step>, id: Id, k: nat)
    requires Inv(s) && id in s.cells && k < |s.cells[id].handlers| && s.cells[id].handlers[k].verdict.Some?
    ensures var s' := Run(s, steps);
            && id in s'.cells && k < |s'.cells[id].handlers|
            && s'.cells[id].handlers[k].verdict == s.cells[id].handlers[k].verdict
    decreases |steps|
  {
    if steps != [] {
      ExecKeepsInv(s, steps[0]);
      ExecOnCell(s, steps[0], id);
      assert CellOk(s.cfg, s.now, s.cells[id]);
      assert HandlerOk(s.cfg, s.cells[id], k);
      HandlersStay(s.cfg, s.now, s.cells[id], View(s, steps[0], id));
      VerdictMoves(s.cfg, s.now, s.cells[id], View(s, steps[0], id), k);
      VerdictIsForever(Exec(s, steps[0]), steps[1..], id, k);
    }
  }

  /** The reaper's failure, in full. */
  predicate ReapersRow(r: Row) {
    r.status.Failed? && r.stdout == "" && r.stderr == "reaped: dispatcher lost while running" && r.exitCode.None?
  }

  /** The row says what the run's outcome calls for. */
  predicate Told(r: Row, o: Outcome) {
    RowSays(o, r.status, r.stdout, r.stderr, r.exitCode)
  }

  lemma RunEndedSets(s: State, id: Id, k: nat, o: Outcome)
    requires id in s.cells && k < |s.cells[id].handlers| && s.cells[id].handlers[k].phase.Started?
    ensures var s' := Exec(s, On(id, RunEnded(k, o)));
            id in s'.cells && k < |s'.cells[id].handlers| && s'.cells[id].handlers[k].verdict == Some(VerdictOf(o))
  {
    ExecOnCell(s, On(id, RunEnded(k, o)), id);
  }

  /** What a row and the announcements about it can be when the run of delivery `k` came back as `v`. */
  lemma VerdictDecides(cfg: Config, now: Time, c: Cell, k: nat, v: Verdict)
    requires CellOk(cfg, now, c) && k < |c.handlers| && c.handlers[k].verdict == Some(v)
    ensures c.row.status.Running? || Reaped(c.row) || Matches(c.row, v.result)
    ensures var hd := c.handlers[k];
            hd.persistedAt.Some? && hd.persistedAt.value <= hd.claimedAt + cfg.staleSecs * SECOND ==>
              Matches(c.row, v.result)
    ensures forall a | a in c.outbox :: a.status == v.result.status && a.exitCode == v.announcedExit
  {
    assert HandlerOk(cfg, c, k);
    forall a | a in c.outbox
      ensures a.handler == k && AnnouncementOk(c, a)
    {
      assert AnnouncementOk(c, a);
      assert HandlerOk(cfg, c, a.handler);
    }
  }

  /**
   * Whatever follows the end of a run, its row is still running, is the reaper's failure, or holds
   * exactly what the outcome of the run calls for, the last if the write was heard to land within the
   * threshold; and whatever is announced about the execution says the same.
   */
  lemma OutcomeDecides(cfg: Config, t0: Time, steps: seq<Step>, more: seq<Step>, id: Id, k: nat, o: Outcome)
    requires id in After(cfg, t0, steps).cells && k < |After(cfg, t0, steps).cells[id].handlers|
    requires After(cfg, t0, steps).cells[id].handlers[k].phase.Started?
    ensures var s := Run(Exec(After(cfg, t0, steps), On(id, RunEnded(k, o))), more);
            && id in s.cells && k < |s.cells[id].handlers|
            && var c := s.cells[id];
               && (c.row.status.Running? || ReapersRow(c.row) || Told(c.row, o))
               && (forall a | a in c.outbox :: NewsSays(o, a.status, a.exitCode))
               && var hd := c.handlers[k];
                  hd.persistedAt.Some? && hd.persistedAt.value <= hd.claimedAt + cfg.staleSecs * 1_000_000_000 ==>
                    Told(c.row, o)
  {
    var s0 := After(cfg, t0, steps);
    var s1 := Exec(s0, On(id, RunEnded(k, o)));
    var s := Run(s1, more);
    Reached(cfg, t0, steps);
    RunEndedSets(s0, id, k, o);
    ExecKeepsInv(s0, On(id, RunEnded(k, o)));
    VerdictIsForever(s1, more, id, k);
    RunKeepsInv(s1, more);
    VerdictSays(o);
    VerdictDecides(cfg, s.now, s.cells[id], k, VerdictOf(o));
  }

  // ----- acknowledgements

  /** An acknowledged message is never handed out again. */
  lemma {:induction false} AckedIsFinal(s: State, steps: seq<Step>, id: Id)
    requires id in s.cells && Acked(s.cells[id])
    ensures var s' := Run(s, steps);
            id in s'.cells && |s'.cells[id].handlers| == |s.cells[id].handlers| && Acked(s'.cells[id])
    decreases |steps|
  {
    if steps != [] {
      AckedStays(s, steps[0], id);
      AckedIsFinal(Exec(s, steps[0]), steps[1..], id);
    }
  }

  predicate Acked(c: Cell) {
    c.msg.Some? && c.msg.value.acked
  }

  lemma ClaimKeepsMsg(now: Time, c: Cell, k: nat, st: CellStep)
    requires HasActor(st) && !IsResultStep(st) && k < |c.handlers|
    ensures ClaimExec(now, c, k, st).msg == c.msg
  {
  }

  lemma ResultKeepsAck(now: Time, c: Cell, k: nat, st: CellStep)
    requires IsResultStep(st) && k < |c.handlers| && Acked(c)
    ensures Acked(ResultExec(now, c, k, st))
  {
  }

  lemma AckedStays(s: State, st: Step, id: Id)
    requires id in s.cells && Acked(s.cells[id])
    ensures var s' := Exec(s, st);
            id in s'.cells && |s'.cells[id].handlers| == |s.cells[id].handlers| && Acked(s'.cells[id])
  {
    ExecOnCell(s, st, id);
    var c, v := s.cells[id], View(s, st, id);
    HandlersStay(s.cfg, s.now, c, v);
    if HasActor(v) && v.k < |c.handlers| {
      if IsResultStep(v) {
        ResultKeepsAck(s.now, c, v.k, v);
      } else {
        ClaimKeepsMsg(s.now, c, v.k, v);
      }
    }
  }

  // ----- what runs

  lemma LanguageResolves(lang: string)
    requires ValidLanguage(lang)
    ensures ResolveLang(lang).Some? && Normalize(lang) == lang
  {
    NormalizeKeeps(lang);
  }

  /**
   * A container that can be started runs the submitted source, stdin and timeout, the timeout is
   * within bounds, and the language names a command.
   */
  lemma RunsWhatWasSubmitted(cfg: Config, t0: Time, steps: seq<Step>, more: seq<Step>, id: Id, k: nat)
    requires id in After(cfg, t0, steps).cells
    requires var s := Run(After(cfg, t0, steps), more); id in s.cells && CanStart(s.cells[id], k)
    ensures var job := Run(After(cfg, t0, steps), more).cells[id].handlers[k].job;
            && job == Some(After(cfg, t0, steps).cells[id].row.params)
            && MIN_TIMEOUT_S <= job.value.timeoutS <= MAX_TIMEOUT_S
            && ResolveLang(job.value.language).Some?
  {
    Reached(cfg, t0, steps);
    RunKeepsInv(After(cfg, t0, steps), more);
    SubmissionIsForever(After(cfg, t0, steps), more, id);
    var s := Run(After(cfg, t0, steps), more);
    assert CellOk(cfg, After(cfg, t0, steps).now, After(cfg, t0, steps).cells[id]);
    assert CellOk(cfg, s.now, s.cells[id]);
    assert HandlerOk(cfg, s.cells[id], k);
    LanguageResolves(s.cells[id].inserted.language);
  }

  /** A published message names its row's tenant and a language the sandbox knows. */
  lemma MessageMatchesRow(cfg: Config, t0: Time, steps: seq<Step>, id: Id)
    requires id in After(cfg, t0, steps).cells && After(cfg, t0, steps).cells[id].msg.Some?
    ensures var c := After(cfg, t0, steps).cells[id];
            && c.msg.value.tenant == c.row.params.tenant
            && c.msg.value.language == c.row.params.language
            && ValidLanguage(c.msg.value.language)
            && ResolveLang(c.msg.value.language).Some?
  {
    Reached(cfg, t0, steps);
    var s := After(cfg, t0, steps);
    assert CellOk(cfg, s.now, s.cells[id]);
    LanguageResolves(s.cells[id].inserted.language);
  }

  // ----- the shape of rows

  /** Narrowing to int32 keeps "exit code 0" and "succeeded" together exactly when the code fits. */
  lemma NarrowingExact(o: Outcome)
    ensures (VerdictOf(o).result.exitCode == Some(0) <==> VerdictOf(o).result.status.Succeeded?) <==> ExitFits(o)
  {
  }

  /** The exit codes of all runs in this sequence of steps fit. */
  predicate AllFit(steps: seq<Step>) {
    forall i | 0 <= i < |steps| :: steps[i].On? && steps[i].c.RunEnded? ==> ExitFits(steps[i].c.outcome)
  }

  predicate VerdictFits(v: Option<Verdict>) {
    v.Some? && v.value.result.exitCode == Some(0) ==> v.value.result.status.Succeeded?
  }

  predicate VerdictsFit(c: Cell) {
    forall k | 0 <= k < |c.handlers| :: VerdictFits(c.handlers[k].verdict)
  }

  lemma StepKeepsFit(cfg: Config, now: Time, c: Cell, st: CellStep)
    requires VerdictsFit(c) && (st.RunEnded? ==> ExitFits(st.outcome))
    ensures VerdictsFit(CellExec(cfg, now, c, st))
  {
    if st.RunEnded? {
      NarrowingExact(st.outcome);
    }
    forall k | 0 <= k < |CellExec(cfg, now, c, st).handlers|
      ensures VerdictFits(CellExec(cfg, now, c, st).handlers[k].verdict)
    {
      VerdictMoves(cfg, now, c, st, k);
    }
  }

  lemma {:induction false} RunKeepsFit(s: State, steps: seq<Step>)
    requires AllFit(steps) && forall id | id in s.cells :: VerdictsFit(s.cells[id])
    ensures forall id | id in Run(s, steps).cells :: VerdictsFit(Run(s, steps).cells[id])
    decreases |steps|
  {
    if steps != [] {
      var s' := Exec(s, steps[0]);
      forall id | id in s'.cells
        ensures VerdictsFit(s'.cells[id])
      {
        if id in s.cells {
          ExecOnCell(s, steps[0], id);
          StepKeepsFit(s.cfg, s.now, s.cells[id], View(s, steps[0], id));
        }
      }
      RunKeepsFit(s', steps[1..]);
    }
  }

  /**
   * Row shape: unfinished rows have no output and no exit code, timeouts no exit code, output only
   * ever comes from the claimant's own verdict, and succeeded means exit code 0 and, as long as
   * exit codes fit, only succeeded does.
   */
  lemma RowShape(cfg: Config, t0: Time, steps: seq<Step>, id: Id)
    requires id in After(cfg, t0, steps).cells
    ensures Shape(After(cfg, t0, steps).cells[id].row) && OutputOk(After(cfg, t0, steps).cells[id])
    ensures var r := After(cfg, t0, steps).cells[id].row;
            AllFit(steps) ==> (r.status.Succeeded? <==> r.exitCode == Some(0))
  {
    Reached(cfg, t0, steps);
    var s := After(cfg, t0, steps);
    assert CellOk(cfg, s.now, s.cells[id]);
    if AllFit(steps) {
      RunKeepsFit(Init(cfg, t0), steps);
    }
  }

  /** Without the bound on exit codes it fails: status 2^32 is stored as a failure with exit code 0. */
  lemma WrappedExitCodeLooksLikeSuccess()
    ensures var v := VerdictOf(Ended(RunResult(0x1_0000_0000, "", "", false, false)));
            v.result.status.Failed? && v.result.exitCode == Some(0)
  {
  }

  // ----- reapers

  lemma ReapChanges(s: State, id: Id)
    requires id in s.cells
    ensures var r := s.cells[id].row;
            var r' := Exec(s, ReapRunning).cells[id].row;
            && (r' != r <==> StaleRunning(r, s.now, s.cfg.staleSecs))
            && (r' != r ==> r' == r.(status := Failed, stderr := REAP_STDERR, updatedAt := s.now))
  {
  }

  /**
   * The stale-running sweep moves exactly the rows that are stale and running when it lands, and a
   * delivery that still holds the claim of such a row took it longer ago than the threshold.
   */
  lemma ReapIsPrecise(cfg: Config, t0: Time, steps: seq<Step>, id: Id)
    requires id in After(cfg, t0, steps).cells
    ensures var s := After(cfg, t0, steps);
            var c := s.cells[id];
            var r' := Exec(s, ReapRunning).cells[id].row;
            && (r' != c.row <==>
                  c.row.status.Running? && c.row.updatedAt < s.now - cfg.staleSecs * 1_000_000_000)
            && (r' != c.row ==>
                  r' == c.row.(status := Failed, stderr := "reaped: dispatcher lost while running", updatedAt := s.now))
            && (r' != c.row ==>
                  forall k | 0 <= k < |c.handlers| && HoldsClaim(c.handlers[k]) ::
                    c.handlers[k].claimedAt + cfg.staleSecs * 1_000_000_000 < s.now)
  {
    Reached(cfg, t0, steps);
    var s := After(cfg, t0, steps);
    var c := s.cells[id];
    assert CellOk(cfg, s.now, c);
    ReapChanges(s, id);
    forall k | 0 <= k < |c.handlers| && HoldsClaim(c.handlers[k]) && c.row.status.Running?
      ensures c.handlers[k].claimedAt == c.row.updatedAt
    {
      assert HandlerOk(cfg, c, k);
    }
  }

  /** A listed row is failed only if it is still queued, and then it is still stale. */
  lemma SweepIsPrecise(cfg: Config, t0: Time, steps: seq<Step>, k: nat, id: Id)
    requires id in After(cfg, t0, steps).cells
    ensures var s := After(cfg, t0, steps);
            var r := s.cells[id].row;
            var r' := Exec(s, SweepMark(k, id)).cells[id].row;
            && (r' != r <==> k in s.sweeps && id in s.sweeps[k] && r.status.Queued?)
            && (r' != r ==>
                  && r.status.Queued? && r.createdAt < s.now - cfg.staleQueuedSecs * 1_000_000_000
                  && r' == r.(status := Failed, stderr := "stale_queued", updatedAt := s.now))
  {
    Reached(cfg, t0, steps);
    var s := After(cfg, t0, steps);
    assert k in s.sweeps ==> SweepOk(s, k);
  }
}
