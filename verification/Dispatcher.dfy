/** The dispatcher's message handler, run against every pattern of failures and interleavings. */
module Dispatcher {
  import opened Executions
  import opened Sandbox
  import opened Lifecycle
  import opened LifecycleInv
  import opened Runtime

  const FINISH_BACKOFF: nat := 100_000_000 // nanoseconds

  datatype SubmitMessage = SubmitMessage(executionId: string, tenantId: string, language: string)

  /** The bytes of a queue message, as far as JSON decoding tells them apart. */
  datatype Raw = Malformed | Json(msg: SubmitMessage)

  /** UUID parsing and printing belong to a library; they enter as parameters. */
  datatype Uuid = Uuid(parse: string -> Option<Id>, format: Id -> string)

  /** Messages that are dropped: no JSON, no id, no language the sandbox has, no id that parses. */
  predicate Poison(uuid: Uuid, raw: Raw) {
    || raw.Malformed?
    || raw.msg.executionId == ""
    || raw.msg.language !in ["python", "javascript", "go", "java", "ruby", "rust", "cpp"]
    || uuid.parse(raw.msg.executionId).None?
  }

  lemma PoisonHasNoTarget(uuid: Uuid, raw: Raw)
    ensures Target(uuid, raw).None? <==> Poison(uuid, raw)
    ensures Target(uuid, raw).Some? ==> Target(uuid, raw) == uuid.parse(raw.msg.executionId)
  {
  }

  /** The execution a message names; None for a poison message. */
  function Target(uuid: Uuid, raw: Raw): Option<Id> {
    if raw.Malformed? || raw.msg.executionId == "" || !ValidLanguage(raw.msg.language) then None
    else uuid.parse(raw.msg.executionId)
  }

  /** Which Docker calls of one Run succeed, as far as the daemon's state lets them. */
  datatype Docker = Docker(create: Write, remove: bool, recreate: Write, attach: bool, start: bool, cleanup: bool)

  /** Enough calls succeed for the handler to get a container. */
  predicate CanCreate(docker: Docker) {
    docker.create.Heard? || (docker.remove && docker.recreate.Heard?)
  }

  predicate CanRun(docker: Docker) {
    CanCreate(docker) && docker.attach && docker.start
  }

  /** Whatever holds the name, the second attempt gets it. */
  predicate CanRecreate(docker: Docker) {
    !docker.create.Lost? && docker.remove && docker.recreate.Heard?
  }

  predicate Healthy(docker: Docker) {
    CanRecreate(docker) && docker.attach && docker.start
  }

  /** One message's share of bad luck. */
  datatype Script = Script(
    claim: Fate, docker: Docker, outcome: Outcome, requeue: Fate, finish: nat -> Fate, cancelled: nat -> bool,
    publishLands: bool, hookLands: bool)

  /**
   * The ways through `handle` once the claim statement is sent. `reclaimed` and `created` say what
   * happened to the container's name before the start, `swept` whether the deferred removal worked,
   * `fates` what became of the finish writes, `told` and `hooked` what was announced.
   */
  datatype Path =
    | Unclaimed(fate: Fate)
    | Requeued(reclaimed: bool, created: bool, swept: bool, fate: Fate)
    | Ran(reclaimed: bool, swept: bool, outcome: Outcome, fates: seq<Fate>, told: bool, hooked: bool)

  type Steps = seq<CellStep>

  function Add(own: Steps, b: bool, st: CellStep): Steps {
    if b then own + [st] else own
  }

  // Each of these extends the steps a handler has already taken.

  function Prep(own: Steps, k: nat, reclaimed: bool, created: bool): Steps {
    Add(Add(own, reclaimed, ReclaimName(k)), created, CreateContainer(k))
  }

  function Launch(own: Steps, k: nat, started: bool, outcome: Outcome): Steps {
    if started then own + [StartContainer(k)] + [RunEnded(k, outcome)] else own + [NotStarted(k)]
  }

  /** The Run: name, container, start, deferred removal. */
  function Sandboxed(own: Steps, k: nat, reclaimed: bool, created: bool, started: bool, outcome: Outcome, swept: bool)
    : Steps
  {
    Add(Launch(Prep(own, k, reclaimed, created), k, started, outcome), swept, Cleanup(k))
  }

  function Finishes(own: Steps, k: nat, fates: seq<Fate>): Steps {
    if fates == [] then own else Finishes(own, k, fates[..|fates| - 1]) + [Finish(k, fates[|fates| - 1])]
  }

  function Tells(own: Steps, k: nat, told: bool, hooked: bool): Steps {
    Add(Add(own, told, Announce(k, ResultStream)), hooked, Announce(k, Webhook)) + [Close(k)]
  }

  /** What follows the finish writes. */
  function Tail(own: Steps, k: nat, clean: bool, stored: bool, told: bool, hooked: bool): Steps {
    if stored then Tells(own, k, told, hooked)
    else if clean then own + [GiveUp(k)]
    else Tells(own + [GiveUp(k)], k, told, hooked)
  }

  predicate Stored(fates: seq<Fate>) {
    fates != [] && fates[|fates| - 1].Answered?
  }

  /** What follows a run whose container was started. */
  function Ending(own: Steps, k: nat, p: Path): Steps
    requires p.Ran?
  {
    Tail(Finishes(own, k, p.fates), k, VerdictOf(p.outcome).clean, Stored(p.fates), p.told, p.hooked)
  }

  /** What follows a claim that was won. */
  function Rest(own: Steps, k: nat, p: Path): Steps {
    match p
    case Unclaimed(_) => own
    case Requeued(reclaimed, created, swept, fate) =>
      Sandboxed(own, k, reclaimed, created, false, Broke(""), swept) + [Requeue(k, fate)]
    case Ran(reclaimed, swept, outcome, _, _, _) =>
      Ending(Sandboxed(own, k, reclaimed, true, true, outcome, swept), k, p)
  }

  /** The steps of a handler that takes path `p`, after the ones it had taken before. */
  function Walk(own: Steps, k: nat, p: Path): Steps {
    Rest(own + [Claim(k, if p.Unclaimed? then p.fate else Answered)], k, p)
  }

  predicate GoodPath(p: Path) {
    match p
    case Unclaimed(_) => true
    case Requeued(_, created, swept, _) => swept ==> created
    case Ran(_, _, outcome, fates, told, _) =>
      && 1 <= |fates| <= FINISH_ATTEMPTS
      && (forall i | 0 <= i < |fates| - 1 :: !fates[i].Answered?)
      && (told ==> VerdictOf(outcome).clean && Stored(fates))
  }

  /** The writes got the fates the script held for them, in order, and the context was not cancelled between them. */
  ghost predicate Scripted(fates: seq<Fate>, script: Script) {
    && (forall i | 0 <= i < |fates| :: fates[i] == script.finish(i + 1))
    && (forall i | 0 < i < |fates| :: !script.cancelled(i))
  }

  /** The path is the one the failing and succeeding calls lead to. */
  ghost predicate Follows(p: Path, script: Script) {
    match p
    case Unclaimed(fate) => fate == script.claim
    case Requeued(_, created, swept, fate) => fate == script.requeue && (swept <==> created && script.docker.cleanup)
    case Ran(_, swept, outcome, fates, told, hooked) =>
      && CanRun(script.docker) && outcome == script.outcome && (swept <==> script.docker.cleanup)
      && Scripted(fates, script)
      && (told <==> VerdictOf(outcome).clean && Stored(fates) && script.publishLands)
      && (hooked ==> script.hookLands && !Fails(p))
  }

  /** The paths on which handle returns an error and the message is NAKed. */
  predicate Fails(p: Path) {
    match p
    case Unclaimed(fate) => !fate.Answered?
    case Requeued(_, _, _, _) => true
    case Ran(_, _, outcome, fates, _, _) => VerdictOf(outcome).clean && !Stored(fates)
  }

  function Pow2(n: nat): nat {
    if n == 0 then 1 else 2 * Pow2(n - 1)
  }

  /** `resolveLang` finds the language of the row. */
  predicate HasCommand(job: Params) {
    ResolveLang(job.language).Some?
  }

  /** The doubling delays between all attempts together: 100 and 200 milliseconds. */
  const MAX_BACKOFF: nat := 300_000_000

  /** Nothing stands in the way of running this row. */
  predicate MustRun(r: Row, script: Script) {
    r.status.Queued? && script.claim.Answered? && Healthy(script.docker) && HasCommand(r.params)
  }

  /** The row holds the result of the run, if its first write landed, answered or not. */
  predicate Concluded(r: Row, script: Script) {
    !script.finish(1).ErrInFlight? ==> RowSays(script.outcome, r.status, r.stdout, r.stderr, r.exitCode)
  }

  /** Whether the completion webhook is due: `deliverWebhook` skips rows without a URL. */
  predicate HookDue(webhooksOn: bool, job: Params) {
    webhooksOn && job.webhook.Some? && job.webhook.value != ""
  }

  /** On a path that ran, the webhook goes out exactly when webhooks are on, the row has a URL, and nothing failed. */
  predicate Hooks(p: Path, err: bool, webhooksOn: bool, webhook: Option<string>, script: Script) {
    p.Ran? ==> (p.hooked <==> !err && webhooksOn && webhook.Some? && webhook.value != "" && script.hookLands)
  }

  /**
   * What one delivery adds to its counts once the claim statement is out: nothing; or a requeue, and
   * then an error is returned; or a start and one to `FINISH_ATTEMPTS` writes.
   */
  predicate OneAttempt(m: Counts, n: Counts, err: bool) {
    || n == m
    || (n == m.(requeues := m.requeues + 1) && err)
    || (n == m.(starts := m.starts + 1, writes := n.writes) && m.writes + 1 <= n.writes <= m.writes + 3)
  }

  function Begun(n: Counts, started: bool): Counts {
    if started then n.(starts := n.starts + 1) else n
  }

  function Written(n: Counts, fates: seq<Fate>): Counts {
    n.(writes := n.writes + |fates|)
  }

  // ----- the code

  /** The second ContainerCreate, after a leftover of the same name was removed. */
  method Recreate(w: World, id: Id, k: nat, docker: Docker, env: Schedule) returns (created: bool)
    requires w.Valid() && Delivered(w.s, id, k) && Foreign(env, id, k)
    requires Core(w.s, id, k).phase.Preparing?
    modifies w`s, w`trace, w.db
    ensures w.Valid() && Delivered(w.s, id, k) && Tally(w.trace, id, k) == old(Tally(w.trace, id, k))
    ensures OwnSteps(w.trace, id, k) == Add(old(OwnSteps(w.trace, id, k)), created, CreateContainer(k))
    ensures Core(w.s, id, k).phase == if created then Created else Preparing
    ensures created ==> w.s.cells[id].container == Some(false) && docker.recreate.Heard?
    ensures Uninterrupted(env) && docker.recreate.Heard? && old(w.s).cells[id].container.None? ==> created
    ensures Uninterrupted(env) ==> w.s.cells[id].row == old(w.s).cells[id].row
  {
    created := false;
    w.Yield(env, id, k);
    if docker.recreate.Heard? && w.s.cells[id].container.None? {
      w.Act(id, k, CreateContainer(k));
      created := true;
    } else if docker.recreate.Unheard? {
      w.Stray(id, k);
    }
  }

  /** A failed ContainerCreate: remove whatever has the name, and try again if that worked. */
  method Reclaim(w: World, id: Id, k: nat, docker: Docker, env: Schedule) returns (reclaimed: bool, created: bool)
    requires w.Valid() && Delivered(w.s, id, k) && Foreign(env, id, k)
    requires Core(w.s, id, k).phase.Preparing?
    modifies w`s, w`trace, w.db
    ensures w.Valid() && Delivered(w.s, id, k) && Tally(w.trace, id, k) == old(Tally(w.trace, id, k))
    ensures OwnSteps(w.trace, id, k) == Prep(old(OwnSteps(w.trace, id, k)), k, reclaimed, created)
    ensures Core(w.s, id, k).phase == if created then Created else Preparing
    ensures created ==> w.s.cells[id].container == Some(false) && docker.remove && docker.recreate.Heard?
    ensures Uninterrupted(env) && docker.remove && docker.recreate.Heard? && old(w.s).cells[id].container.Some? ==>
              created
    ensures Uninterrupted(env) ==> w.s.cells[id].row == old(w.s).cells[id].row
  {
    reclaimed, created := false, false;
    w.Yield(env, id, k);
    if docker.remove && w.s.cells[id].container.Some? {
      w.Act(id, k, ReclaimName(k));
      reclaimed := true;
      created := Recreate(w, id, k, docker, env);
    }
  }

  /** ContainerCreate, with one forced removal of a leftover of the same name in between. */
  method CreateByName(w: World, id: Id, k: nat, docker: Docker, env: Schedule)
    returns (reclaimed: bool, created: bool)
    requires w.Valid() && Delivered(w.s, id, k) && Foreign(env, id, k)
    requires Core(w.s, id, k).phase.Preparing?
    modifies w`s, w`trace, w.db
    ensures w.Valid() && Delivered(w.s, id, k) && Tally(w.trace, id, k) == old(Tally(w.trace, id, k))
    ensures OwnSteps(w.trace, id, k) == Prep(old(OwnSteps(w.trace, id, k)), k, reclaimed, created)
    ensures Core(w.s, id, k).phase == if created then Created else Preparing
    ensures created ==> w.s.cells[id].container == Some(false) && CanCreate(docker)
    ensures Uninterrupted(env) && CanRecreate(docker) ==> created
    ensures Uninterrupted(env) ==> w.s.cells[id].row == old(w.s).cells[id].row
  {
    w.Yield(env, id, k);
    if docker.create.Heard? && w.s.cells[id].container.None? {
      w.Act(id, k, CreateContainer(k));
      reclaimed, created := false, true;
    } else {
      if docker.create.Unheard? {
        w.Stray(id, k);
      }
      reclaimed, created := Reclaim(w, id, k, docker, env);
    }
  }

  /** Attach and start the container that was created, and run it to its end. */
  method StartCreated(w: World, id: Id, k: nat, docker: Docker, outcome: Outcome, env: Schedule)
    returns (started: bool)
    requires w.Valid() && Delivered(w.s, id, k) && Foreign(env, id, k)
    requires Core(w.s, id, k).phase.Created?
    modifies w`s, w`trace, w.db
    ensures w.Valid() && Delivered(w.s, id, k)
    ensures Tally(w.trace, id, k) == Begun(old(Tally(w.trace, id, k)), started)
    ensures OwnSteps(w.trace, id, k) == Launch(old(OwnSteps(w.trace, id, k)), k, started, outcome)
    ensures if started
            then Core(w.s, id, k).phase == Finishing(0) && Core(w.s, id, k).verdict == Some(VerdictOf(outcome))
            else Core(w.s, id, k).phase.Requeueing?
    ensures started ==> docker.attach && docker.start
    ensures Uninterrupted(env) && docker.attach && docker.start && old(w.s).cells[id].container == Some(false) ==>
              started
    ensures Uninterrupted(env) ==> w.s.cells[id].row == old(w.s).cells[id].row
  {
    w.Yield(env, id, k);
    started := docker.attach && docker.start && CanStart(w.s.cells[id], k);
    if started {
      w.Act(id, k, StartContainer(k));
      w.Yield(env, id, k);
      w.Act(id, k, RunEnded(k, outcome));
    } else {
      w.Act(id, k, NotStarted(k));
    }
  }

  /** The container and its start; `known` says whether the language has a command. */
  method Launched(w: World, id: Id, k: nat, known: bool, docker: Docker, outcome: Outcome, env: Schedule)
    returns (started: bool, reclaimed: bool, created: bool)
    requires w.Valid() && Delivered(w.s, id, k) && Foreign(env, id, k)
    requires Core(w.s, id, k).phase.Preparing?
    modifies w`s, w`trace, w.db
    ensures w.Valid() && Delivered(w.s, id, k) && (started ==> created)
    ensures Tally(w.trace, id, k) == Begun(old(Tally(w.trace, id, k)), started)
    ensures OwnSteps(w.trace, id, k)
            == Launch(Prep(old(OwnSteps(w.trace, id, k)), k, reclaimed, created), k, started, outcome)
    ensures if started
            then Core(w.s, id, k).phase == Finishing(0) && Core(w.s, id, k).verdict == Some(VerdictOf(outcome))
            else Core(w.s, id, k).phase.Requeueing?
    ensures started ==> CanRun(docker)
    ensures if known then Uninterrupted(env) && Healthy(docker) ==> started else !created
    ensures Uninterrupted(env) ==> w.s.cells[id].row == old(w.s).cells[id].row
  {
    reclaimed, created, started := false, false, false;
    if known {
      reclaimed, created := CreateByName(w, id, k, docker, env);
    }
    if created {
      started := StartCreated(w, id, k, docker, outcome, env);
    } else {
      w.Act(id, k, NotStarted(k));
    }
  }

  /** The deferred removal of the container this Run created. */
  method Removed(w: World, id: Id, k: nat, created: bool, docker: Docker, env: Schedule) returns (swept: bool)
    requires w.Valid() && Delivered(w.s, id, k) && Foreign(env, id, k)
    requires Core(w.s, id, k).phase.Requeueing? || Core(w.s, id, k).phase.Finishing?
    modifies w`s, w`trace, w.db
    ensures w.Valid() && Delivered(w.s, id, k) && Core(w.s, id, k) == old(Core(w.s, id, k))
    ensures Tally(w.trace, id, k) == old(Tally(w.trace, id, k))
    ensures OwnSteps(w.trace, id, k) == Add(old(OwnSteps(w.trace, id, k)), swept, Cleanup(k))
    ensures swept <==> created && docker.cleanup
    ensures Uninterrupted(env) ==> w.s.cells[id].row == old(w.s).cells[id].row
  {
    swept := created && docker.cleanup;
    if swept {
      w.Yield(env, id, k);
      w.Act(id, k, Cleanup(k));
    }
  }

  /**
   * The sandbox run of a claimed execution. `started` is false exactly when the source returns
   * errNotStarted; then the handler is left to requeue, otherwise to write the result.
   */
  method RunSandbox(w: World, id: Id, k: nat, job: Params, docker: Docker, outcome: Outcome, env: Schedule)
    returns (started: bool, reclaimed: bool, created: bool, swept: bool)
    requires w.Valid() && Delivered(w.s, id, k) && Foreign(env, id, k)
    requires Core(w.s, id, k).phase.Preparing?
    modifies w`s, w`trace, w.db
    ensures w.Valid() && Delivered(w.s, id, k) && (started ==> created)
    ensures Tally(w.trace, id, k) == Begun(old(Tally(w.trace, id, k)), started)
    ensures OwnSteps(w.trace, id, k)
            == Sandboxed(old(OwnSteps(w.trace, id, k)), k, reclaimed, created, started, outcome, swept)
    ensures if started
            then Core(w.s, id, k).phase == Finishing(0) && Core(w.s, id, k).verdict == Some(VerdictOf(outcome))
            else Core(w.s, id, k).phase.Requeueing?
    ensures swept <==> created && docker.cleanup
    ensures started ==> CanRun(docker)
    ensures if HasCommand(job) then Uninterrupted(env) && Healthy(docker) ==> started else !created
    ensures Uninterrupted(env) ==> w.s.cells[id].row == old(w.s).cells[id].row
  {
    started, reclaimed, created := Launched(w, id, k, HasCommand(job), docker, outcome, env);
    swept := Removed(w, id, k, created, docker, env);
  }

  lemma FinishesSnoc(own: Steps, k: nat, fates: seq<Fate>, fate: Fate)
    ensures Finishes(own, k, fates + [fate]) == Finishes(own, k, fates) + [Finish(k, fate)]
  {
    assert (fates + [fate])[..|fates|] == fates;
  }

  /** Every write so far failed, with the fate the script held for it, and the context was not cancelled after any. */
  predicate Failing(fates: seq<Fate>, script: Script) {
    fates == [] ||
    var n := |fates| - 1;
    && Failing(fates[..n], script)
    && fates[n] == script.finish(n + 1) && !fates[n].Answered? && !script.cancelled(n + 1)
  }

  /** What the finish loop has got, and slept, after its writes. */
  predicate Backed(fates: seq<Fate>, script: Script, delay: nat, slept: nat) {
    && Failing(fates, script)
    && delay == FINISH_BACKOFF * Pow2(|fates|) && slept == FINISH_BACKOFF * (Pow2(|fates|) - 1)
  }

  lemma {:induction false} FailingAt(fates: seq<Fate>, script: Script, i: nat)
    requires Failing(fates, script) && i < |fates|
    ensures fates[i] == script.finish(i + 1) && !fates[i].Answered? && !script.cancelled(i + 1)
    decreases |fates|
  {
    var n := |fates| - 1;
    if i < n {
      FailingAt(fates[..n], script, i);
    }
  }

  /** How the loop ends: every write but the last failed, and it slept between any two. */
  ghost predicate Ended(fates: seq<Fate>, script: Script, slept: nat) {
    && 1 <= |fates| <= 3 && (forall i | 0 <= i < |fates| - 1 :: !fates[i].Answered?)
    && Scripted(fates, script) && slept == 100_000_000 * (Pow2(|fates| - 1) - 1)
  }

  lemma BackedStep(fates: seq<Fate>, script: Script, delay: nat, slept: nat)
    requires Backed(fates, script, delay, slept) && |fates| < FINISH_ATTEMPTS
    ensures var fate := script.finish(|fates| + 1);
            && Ended(fates + [fate], script, slept) && (Stored(fates + [fate]) <==> fate.Answered?)
            && (!fate.Answered? && !script.cancelled(|fates| + 1) ==>
                  Backed(fates + [fate], script, delay * 2, slept + delay))
  {
    var all := fates + [script.finish(|fates| + 1)];
    assert all[..|fates|] == fates;
    forall i | 0 <= i < |all|
      ensures all[i] == script.finish(i + 1) && (i < |fates| ==> !all[i].Answered?)
    {
      if i < |fates| {
        FailingAt(fates, script, i);
      }
    }
    forall i | 0 < i < |all|
      ensures !script.cancelled(i)
    {
      FailingAt(fates, script, i - 1);
    }
  }

  /** What a write of `v` makes of a row: the result, if it lands and the row is running. */
  predicate Took(r: Row, r': Row, v: Result, lands: bool) {
    if lands && r.status.Running? then Matches(r', v) else r' == r
  }

  /** Nobody having moved, the row is running until a write of `v` has landed, and then holds it. */
  predicate Holds(r: Row, v: Result, fates: seq<Fate>) {
    if fates == [] then r.status.Running? else !fates[0].ErrInFlight? ==> Matches(r, v)
  }

  lemma HoldsOn(r: Row, r': Row, v: Result, fates: seq<Fate>, fate: Fate)
    requires Holds(r, v, fates) && Took(r, r', v, !fate.ErrInFlight?) && !Active(v.status)
    ensures Holds(r', v, fates + [fate])
  {
  }

  /**
   * A handler that has sent the writes `fates` of its verdict `v` since it had `own` and `n` to its name;
   * `alone` says that nobody else has moved since its row was running.
   */
  ghost predicate Writing(w: World, id: Id, k: nat, v: Verdict, fates: seq<Fate>, own: Steps, n: Counts, alone: bool)
    reads w, w.db
  {
    && w.Valid() && Delivered(w.s, id, k) && Core(w.s, id, k).verdict == Some(v)
    && OwnSteps(w.trace, id, k) == Finishes(own, k, fates) && Tally(w.trace, id, k) == Written(n, fates)
    && (alone ==> Holds(w.s.cells[id].row, v.result, fates))
  }

  /** One finish write, after any number that failed. */
  method FinishOnce(w: World, id: Id, k: nat, fate: Fate, env: Schedule,
                    v: Verdict, ghost fates: seq<Fate>, ghost own: Steps, ghost n: Counts, ghost alone: bool)
    returns (ok: bool)
    requires Writing(w, id, k, v, fates, own, n, alone) && Foreign(env, id, k)
    requires Core(w.s, id, k).phase == Finishing(|fates|) && |fates| < FINISH_ATTEMPTS
    requires alone ==> Uninterrupted(env) && !Active(v.result.status)
    modifies w`s, w`trace, w.db
    ensures Writing(w, id, k, v, fates + [fate], own, n, alone) && (ok <==> fate.Answered?)
    ensures Core(w.s, id, k).phase == if ok then Persisted else Finishing(|fates| + 1)
  {
    ghost var r := w.s.cells[id].row;
    w.Yield(env, id, k);
    ok := w.Finish(id, k, v.result, fate);
    FinishesSnoc(own, k, fates, fate);
    if alone {
      HoldsOn(r, w.s.cells[id].row, v.result, fates, fate);
    }
  }

  /**
   * Persist a result, retrying with a doubling delay. The loop stops at the first answered write, at
   * the last attempt, or when the context is cancelled after a failed one.
   */
  method FinishResult(w: World, id: Id, k: nat, v: Verdict, script: Script, env: Schedule, ghost alone: bool)
    returns (err: bool, fates: seq<Fate>, slept: nat)
    requires w.Valid() && Delivered(w.s, id, k) && Foreign(env, id, k)
    requires Core(w.s, id, k).phase == Finishing(0) && Core(w.s, id, k).verdict == Some(v)
    requires alone ==> Uninterrupted(env) && !Active(v.result.status) && w.s.cells[id].row.status.Running?
    modifies w`s, w`trace, w.db
    ensures Writing(w, id, k, v, fates, old(OwnSteps(w.trace, id, k)), old(Tally(w.trace, id, k)), alone)
    ensures Ended(fates, script, slept) && (err <==> !Stored(fates))
    ensures err && |fates| < 3 ==> script.cancelled(|fates|)
    ensures Core(w.s, id, k).phase == if err then Finishing(|fates|) else Persisted
  {
    ghost var own, n := OwnSteps(w.trace, id, k), Tally(w.trace, id, k);
    var delay := FINISH_BACKOFF;
    var attempt := 1;
    err, fates, slept := true, [], 0;
    while attempt <= FINISH_ATTEMPTS
      invariant 1 <= attempt <= FINISH_ATTEMPTS && |fates| == attempt - 1
      invariant Writing(w, id, k, v, fates, own, n, alone)
      invariant Core(w.s, id, k).phase == Finishing(|fates|)
      invariant Backed(fates, script, delay, slept)
      decreases FINISH_ATTEMPTS - attempt
    {
      BackedStep(fates, script, delay, slept);
      var ok := FinishOnce(w, id, k, script.finish(attempt), env, v, fates, own, n, alone);
      fates := fates + [script.finish(attempt)];
      if ok {
        err := false;
        return;
      }
      if attempt == FINISH_ATTEMPTS || script.cancelled(attempt) {
        return;
      }
      slept := slept + delay;
      delay := delay * 2;
      attempt := attempt + 1;
    }
  }

  /** The result summary and the webhook, both best effort, and the return from handle. */
  method Conclude(w: World, id: Id, k: nat, told: bool, hooked: bool, env: Schedule)
    requires w.Valid() && Delivered(w.s, id, k) && Foreign(env, id, k)
    requires Core(w.s, id, k).phase.Persisted? || Core(w.s, id, k).phase.Reporting?
    requires Core(w.s, id, k).verdict.Some? && (told ==> Core(w.s, id, k).verdict.value.clean)
    modifies w`s, w`trace, w.db
    ensures w.Valid() && Delivered(w.s, id, k)
    ensures OwnSteps(w.trace, id, k) == Tells(old(OwnSteps(w.trace, id, k)), k, told, hooked)
    ensures Tally(w.trace, id, k) == old(Tally(w.trace, id, k))
    ensures Core(w.s, id, k).phase.Closed?
    ensures Uninterrupted(env) ==> w.s.cells[id].row == old(w.s).cells[id].row
  {
    if told {
      w.Yield(env, id, k);
      w.Act(id, k, Announce(k, ResultStream));
    }
    if hooked {
      w.Yield(env, id, k);
      w.Act(id, k, Announce(k, Webhook));
    }
    w.Act(id, k, Close(k));
  }

  /** The part of handle that follows a run whose container was started, with verdict `v`. */
  method PersistAndTell(w: World, id: Id, k: nat, v: Verdict, hookDue: bool, script: Script, env: Schedule)
    returns (err: bool, fates: seq<Fate>, told: bool, hooked: bool, slept: nat)
    requires w.Valid() && Delivered(w.s, id, k) && Foreign(env, id, k)
    requires Core(w.s, id, k).phase == Finishing(0) && Core(w.s, id, k).verdict == Some(v)
    modifies w`s, w`trace, w.db
    ensures w.Valid() && Delivered(w.s, id, k) && Core(w.s, id, k).phase.Closed?
    ensures err <==> v.clean && !Stored(fates)
    ensures told <==> v.clean && Stored(fates) && script.publishLands
    ensures hooked <==> !err && hookDue && script.hookLands
    ensures OwnSteps(w.trace, id, k)
            == Tail(Finishes(old(OwnSteps(w.trace, id, k)), k, fates), k, v.clean, Stored(fates), told, hooked)
    ensures Ended(fates, script, slept) && Tally(w.trace, id, k) == Written(old(Tally(w.trace, id, k)), fates)
    ensures Uninterrupted(env) && old(w.s).cells[id].row.status.Running? && !Active(v.result.status) ==>
              Holds(w.s.cells[id].row, v.result, fates)
  {
    var ferr: bool;
    ghost var alone := Uninterrupted(env) && w.s.cells[id].row.status.Running? && !Active(v.result.status);
    ferr, fates, slept := FinishResult(w, id, k, v, script, env, alone);
    err, told, hooked := ferr && v.clean, false, false;
    if ferr {
      w.Yield(env, id, k);
      w.Act(id, k, GiveUp(k));
    }
    if !err {
      told, hooked := v.clean && script.publishLands, hookDue && script.hookLands;
      Conclude(w, id, k, told, hooked, env);
    }
  }

  lemma SleptBound(fates: seq<Fate>, script: Script, slept: nat)
    requires Ended(fates, script, slept)
    ensures slept <= MAX_BACKOFF
  {
    assert Pow2(0) == 1 && Pow2(1) == 2 && Pow2(2) == 4;
  }

  /** What is known of the path after `PersistAndTell`. */
  lemma RanPath(p: Path, script: Script, err: bool, slept: nat)
    requires p.Ran? && p.outcome == script.outcome && CanRun(script.docker) && (p.swept <==> script.docker.cleanup)
    requires Ended(p.fates, script, slept) && (err <==> VerdictOf(p.outcome).clean && !Stored(p.fates))
    requires p.told <==> VerdictOf(p.outcome).clean && Stored(p.fates) && script.publishLands
    requires p.hooked ==> !err && script.hookLands
    ensures GoodPath(p) && Follows(p, script) && (err <==> Fails(p)) && slept <= MAX_BACKOFF
  {
    SleptBound(p.fates, script, slept);
  }

  /** The part of handle that follows a run that never started its container. */
  method GiveBack(w: World, id: Id, k: nat, fate: Fate, env: Schedule)
    requires w.Valid() && Delivered(w.s, id, k) && Foreign(env, id, k) && Core(w.s, id, k).phase.Requeueing?
    modifies w`s, w`trace, w.db
    ensures w.Valid() && Delivered(w.s, id, k) && Core(w.s, id, k).phase.Closed?
    ensures OwnSteps(w.trace, id, k) == old(OwnSteps(w.trace, id, k)) + [Requeue(k, fate)]
    ensures Tally(w.trace, id, k) == Bump(old(Tally(w.trace, id, k)), Requeue(k, fate))
  {
    w.Yield(env, id, k);
    w.Requeue(id, k, fate);
  }

  /** The same, with the path it belongs to. */
  method FinishRun(w: World, id: Id, k: nat, reclaimed: bool, swept: bool, hookDue: bool, script: Script, env: Schedule)
    returns (err: bool, path: Path, slept: nat)
    requires w.Valid() && Delivered(w.s, id, k) && Foreign(env, id, k)
    requires Core(w.s, id, k).phase == Finishing(0) && Core(w.s, id, k).verdict == Some(VerdictOf(script.outcome))
    requires CanRun(script.docker) && (swept <==> script.docker.cleanup)
    modifies w`s, w`trace, w.db
    ensures w.Valid() && Delivered(w.s, id, k) && Core(w.s, id, k).phase.Closed?
    ensures path.Ran? && path.reclaimed == reclaimed && path.swept == swept && path.outcome == script.outcome
    ensures GoodPath(path) && Follows(path, script) && (err <==> Fails(path)) && slept <= MAX_BACKOFF
    ensures path.hooked <==> !err && hookDue && script.hookLands
    ensures OwnSteps(w.trace, id, k) == Ending(old(OwnSteps(w.trace, id, k)), k, path)
    ensures Tally(w.trace, id, k) == Written(old(Tally(w.trace, id, k)), path.fates)
    ensures Uninterrupted(env) && old(w.s).cells[id].row.status.Running? ==> Concluded(w.s.cells[id].row, script)
  {
    var v := VerdictOf(script.outcome);
    VerdictIsGood(script.outcome);
    VerdictSays(script.outcome);
    var fates, told, hooked;
    err, fates, told, hooked, slept := PersistAndTell(w, id, k, v, hookDue, script, env);
    path := Ran(reclaimed, swept, script.outcome, fates, told, hooked);
    RanPath(path, script, err, slept);
  }

  /** The part of handle that follows a won claim. */
  method RunClaimed(w: World, id: Id, k: nat, job: Params, webhooksOn: bool, script: Script, env: Schedule)
    returns (err: bool, path: Path, slept: nat)
    requires w.Valid() && Delivered(w.s, id, k) && Foreign(env, id, k)
    requires Core(w.s, id, k).phase.Preparing?
    modifies w`s, w`trace, w.db
    ensures w.Valid() && Delivered(w.s, id, k) && Core(w.s, id, k).phase.Closed?
    ensures !path.Unclaimed? && GoodPath(path) && (err <==> Fails(path)) && slept <= MAX_BACKOFF
    ensures OwnSteps(w.trace, id, k) == Rest(old(OwnSteps(w.trace, id, k)), k, path)
    ensures Follows(path, script) && OneAttempt(old(Tally(w.trace, id, k)), Tally(w.trace, id, k), err)
    ensures Hooks(path, err, webhooksOn, job.webhook, script)
    ensures if HasCommand(job) then Uninterrupted(env) && Healthy(script.docker) ==> path.Ran? else path.Requeued?
    ensures Uninterrupted(env) && old(w.s).cells[id].row.status.Running? && path.Ran? ==>
              Concluded(w.s.cells[id].row, script)
  {
    slept := 0;
    var started, reclaimed, created, swept := RunSandbox(w, id, k, job, script.docker, script.outcome, env);
    if !started {
      GiveBack(w, id, k, script.requeue, env);
      err, path := true, Requeued(reclaimed, created, swept, script.requeue);
    } else {
      err, path, slept := FinishRun(w, id, k, reclaimed, swept, HookDue(webhooksOn, job), script, env);
    }
  }

  /**
   * One submit message. A poison message, or one that names no row, changes nothing; any other is a
   * path of the lifecycle with one claim attempt, at most one run, and then either one requeue or one
   * to three identical finish writes.
   */
  method Handle(w: World, uuid: Uuid, raw: Raw, k: nat, webhooksOn: bool, script: Script, env: Schedule)
    returns (err: bool, path: Option<Path>, slept: nat)
    requires w.Valid()
    requires var t := Target(uuid, raw);
             t.Some? && t.value in w.s.cells ==>
               Delivered(w.s, t.value, k) && Core(w.s, t.value, k).phase.Claiming? && Foreign(env, t.value, k)
    modifies w`s, w`trace, w.db
    ensures w.Valid() && slept <= MAX_BACKOFF
    ensures Target(uuid, raw) == if Poison(uuid, raw) then None else uuid.parse(raw.msg.executionId)
    ensures path.None? <==> Target(uuid, raw).None? || Target(uuid, raw).value !in old(w.s).cells
    ensures path.None? ==> w.s == old(w.s) && w.trace == old(w.trace)
    ensures path.None? ==> (err <==> Target(uuid, raw).Some? && !script.claim.Answered?)
    ensures path.Some? ==>
              var id := Target(uuid, raw).value;
              && Delivered(w.s, id, k) && Core(w.s, id, k).phase.Closed?
              && GoodPath(path.value) && Follows(path.value, script)
              && (err <==> Fails(path.value))
              && OwnSteps(w.trace, id, k) == Walk(old(OwnSteps(w.trace, id, k)), k, path.value)
              && OneAttempt(Bump(old(Tally(w.trace, id, k)), Claim(k, script.claim)), Tally(w.trace, id, k), err)
              && Hooks(path.value, err, webhooksOn, old(w.s).cells[id].row.params.webhook, script)
              && (Uninterrupted(env) && MustRun(old(w.s).cells[id].row, script) ==>
                    path.value.Ran? && Concluded(w.s.cells[id].row, script))
  {
    err, path, slept := false, None, 0;
    PoisonHasNoTarget(uuid, raw);
    var target := Target(uuid, raw);
    if target.Some? {
      err, path, slept := HandleTarget(w, target.value, k, webhooksOn, script, env);
    }
  }

  /** The claim of an existing row, and what follows if it is won. */
  method ClaimAndRun(w: World, id: Id, k: nat, webhooksOn: bool, script: Script, env: Schedule)
    returns (err: bool, path: Path, slept: nat)
    requires w.Valid() && Delivered(w.s, id, k) && Core(w.s, id, k).phase.Claiming? && Foreign(env, id, k)
    modifies w`s, w`trace, w.db
    ensures w.Valid() && slept <= MAX_BACKOFF
    ensures Delivered(w.s, id, k) && Core(w.s, id, k).phase.Closed?
    ensures GoodPath(path) && Follows(path, script) && (err <==> Fails(path))
    ensures OwnSteps(w.trace, id, k) == Walk(old(OwnSteps(w.trace, id, k)), k, path)
    ensures OneAttempt(Bump(old(Tally(w.trace, id, k)), Claim(k, script.claim)), Tally(w.trace, id, k), err)
    ensures Hooks(path, err, webhooksOn, old(w.s).cells[id].row.params.webhook, script)
    ensures Uninterrupted(env) && MustRun(old(w.s).cells[id].row, script) ==>
              path.Ran? && Concluded(w.s.cells[id].row, script)
  {
    w.Yield(env, id, k);
    var job := w.Claim(id, k, script.claim);
    if job.None? {
      err, path, slept := !script.claim.Answered?, Unclaimed(script.claim), 0;
    } else {
      err, path, slept := RunClaimed(w, id, k, job.value, webhooksOn, script, env);
    }
  }

  /** handle, once the message has passed the poison checks. */
  method HandleTarget(w: World, id: Id, k: nat, webhooksOn: bool, script: Script, env: Schedule)
    returns (err: bool, path: Option<Path>, slept: nat)
    requires w.Valid()
    requires id in w.s.cells ==> Delivered(w.s, id, k) && Core(w.s, id, k).phase.Claiming? && Foreign(env, id, k)
    modifies w`s, w`trace, w.db
    ensures w.Valid() && slept <= MAX_BACKOFF
    ensures path.None? <==> id !in old(w.s).cells
    ensures path.None? ==> w.s == old(w.s) && w.trace == old(w.trace) && (err <==> !script.claim.Answered?)
    ensures path.Some? ==>
              && Delivered(w.s, id, k) && Core(w.s, id, k).phase.Closed?
              && GoodPath(path.value) && Follows(path.value, script)
              && (err <==> Fails(path.value))
              && OwnSteps(w.trace, id, k) == Walk(old(OwnSteps(w.trace, id, k)), k, path.value)
              && OneAttempt(Bump(old(Tally(w.trace, id, k)), Claim(k, script.claim)), Tally(w.trace, id, k), err)
              && Hooks(path.value, err, webhooksOn, old(w.s).cells[id].row.params.webhook, script)
              && (Uninterrupted(env) && MustRun(old(w.s).cells[id].row, script) ==>
                    path.value.Ran? && Concluded(w.s.cells[id].row, script))
  {
    if id !in w.s.cells {
      err, path, slept := !script.claim.Answered?, None, 0;
      ClaimNothing(w, id, script.claim);
    } else {
      var p;
      err, p, slept := ClaimAndRun(w, id, k, webhooksOn, script, env);
      path := Some(p);
    }
  }

  /** The claim of an id no row has: ErrNoRows at best. */
  method ClaimNothing(w: World, id: Id, fate: Fate)
    requires w.Valid() && id !in w.s.cells
    modifies w.db`rows
    ensures w.Valid()
  {
    if !fate.ErrInFlight? {
      var _ := w.db.MarkRunning(id);
    }
  }

  /** The body of the worker loop: receive, handle, then Ack on nil and NakWithDelay on an error. */
  method ProcessMessage(w: World, uuid: Uuid, raw: Raw, webhooksOn: bool, script: Script, env: Schedule)
    returns (acked: bool, path: Option<Path>, k: nat)
    requires w.Valid()
    requires var t := Target(uuid, raw);
             t.Some? && t.value in w.s.cells ==>
               CanDeliver(w.s, t.value) && Foreign(env, t.value, |w.s.cells[t.value].handlers|)
    modifies w`s, w`trace, w.db
    ensures w.Valid()
    ensures path.None? <==> Target(uuid, raw).None? || Target(uuid, raw).value !in old(w.s).cells
    ensures path.None? ==> w.s == old(w.s) && (acked <==> Target(uuid, raw).Some? ==> script.claim.Answered?)
    ensures path.Some? ==>
              var id := Target(uuid, raw).value;
              && k == |old(w.s).cells[id].handlers|
              && Delivered(w.s, id, k) && Core(w.s, id, k).phase.Closed?
              && GoodPath(path.value) && Follows(path.value, script) && (acked <==> !Fails(path.value))
              && OwnSteps(w.trace, id, k) == Walk(old(OwnSteps(w.trace, id, k)), k, path.value) + [Settle(k, acked)]
              && OneAttempt(Bump(old(Tally(w.trace, id, k)), Claim(k, script.claim)), Tally(w.trace, id, k), !acked)
              && Hooks(path.value, !acked, webhooksOn, old(w.s).cells[id].row.params.webhook, script)
              && (acked && w.s.cells[id].msg.Some? ==> w.s.cells[id].msg.value.acked)
              && (Uninterrupted(env) && MustRun(old(w.s).cells[id].row, script) ==>
                    path.value.Ran? && Concluded(w.s.cells[id].row, script))
  {
    var target := Target(uuid, raw);
    k := 0;
    if target.Some? && target.value in w.s.cells {
      k := w.Receive(target.value);
    }
    var err, slept;
    err, path, slept := Handle(w, uuid, raw, k, webhooksOn, script, env);
    acked := !err;
    if path.Some? {
      w.Act(target.value, k, Settle(k, acked));
    }
  }
}
