/**
 * The submit endpoint: validation, the quota transaction, the fail-open insert, the publish. Between
 * any two of its calls everybody else moves, and the calls that write may take effect although an
 * error comes back.
 */
module Gateway {
  import opened Text
  import opened Executions
  import opened Quotas
  import opened Lifecycle
  import opened LifecycleInv
  import opened LifecycleTheorems
  import opened TableSteps
  import opened Runtime
  import opened Dispatcher

  const MAX_SOURCE_BYTES := 100 * 1024

  datatype Request = Request(
    tenantId: string, language: string, source: string, stdin: string, timeoutS: int, webhookUrl: string)

  /** What the request's surroundings decide: its headers, the server's settings, failing calls. */
  datatype Luck = Luck(
    tenant: string, webhooksEnabled: bool, urlOk: bool, identityOk: bool, quotaOn: bool, tx: TxLuck,
    insert: Write, publish: Write, setFailedLands: bool)

  /** Which calls of the quota transaction succeed; the clock is the gateway's own. */
  datatype TxLuck = TxLuck(
    begin: bool, setTimeout: bool, lock: bool, read: bool, insert: bool, commit: Write, clock: Time)

  datatype QuotaReply = QuotaError | Denied(d: Decision) | Admitted

  datatype Response = Response(code: int, retryAfterSec: int)

  function Refuse(code: int): Response {
    Response(code, 0)
  }

  // ----- validation

  /** The request after normalisation, or the status it is refused with. */
  datatype Verified = Bad(code: int) | Good(p: Params)

  function Timeout(req: Request): int {
    if req.timeoutS == 0 then DEFAULT_TIMEOUT_S else req.timeoutS
  }

  /** The source, its language, its input and its time limit are acceptable. */
  predicate ProgramOk(req: Request) {
    && ValidLanguage(Normalize(req.language))
    && TrimSpace(req.source) != ""
    && |req.source| <= MAX_SOURCE_BYTES && |req.stdin| <= MAX_SOURCE_BYTES
    && MIN_TIMEOUT_S <= Timeout(req) <= MAX_TIMEOUT_S
  }

  function Webhook(req: Request): Option<string> {
    if req.webhookUrl != "" then Some(req.webhookUrl) else None
  }

  /** The stored columns are what was asked for: the time limit by default two seconds, a URL only if there is one. */
  predicate AsRequested(req: Request, p: Params) {
    && p.language == Normalize(req.language) && p.source == req.source && p.stdin == req.stdin
    && p.timeoutS == (if req.timeoutS == 0 then 2 else req.timeoutS)
    && p.webhook == if req.webhookUrl == "" then None else Some(req.webhookUrl)
  }

  function Accepted(req: Request, tenant: Tenant): (p: Params)
    requires ProgramOk(req)
    ensures ValidParams(p) && p.tenant == tenant && AsRequested(req, p)
  {
    Params(tenant, Normalize(req.language), req.source, req.stdin, Timeout(req), Webhook(req))
  }

  /** A program the endpoint takes: a known language, some source, at most 100 KiB each, one to sixty seconds. */
  predicate Acceptable(req: Request) {
    && Normalize(req.language) in ["python", "javascript", "go", "java", "ruby", "rust", "cpp"]
    && !Blank(req.source) && |req.source| <= 102_400 && |req.stdin| <= 102_400
    && (req.timeoutS == 0 || 1 <= req.timeoutS <= 60)
  }

  lemma ProgramIsAcceptable(req: Request)
    ensures ProgramOk(req) <==> Acceptable(req)
  {
    BlankTrims(req.source);
  }

  predicate HookRefused(req: Request, luck: Luck) {
    req.webhookUrl != "" && !luck.webhooksEnabled
  }

  predicate HookBad(req: Request, luck: Luck) {
    req.webhookUrl != "" && !luck.urlOk
  }

  /** The checks on webhook, tenant and caller, which follow those on the program. */
  function Authorize(req: Request, tenant: Option<Tenant>, luck: Luck): (v: Verified)
    requires ProgramOk(req)
    ensures v.Good? <==> !HookRefused(req, luck) && !HookBad(req, luck) && tenant.Some? && luck.identityOk
    ensures v.Good? ==> ValidParams(v.p) && AsRequested(req, v.p) && tenant == Some(v.p.tenant)
    ensures v.Bad? ==> v.code == if HookRefused(req, luck) then 503
                                 else if HookBad(req, luck) || tenant.None? then 400 else 401
  {
    if Webhook(req).Some? && !luck.webhooksEnabled then Bad(503)
    else if Webhook(req).Some? && !luck.urlOk then Bad(400)
    else if tenant.None? then Bad(400)
    else if !luck.identityOk then Bad(401)
    else Good(Accepted(req, tenant.value))
  }

  /** The request is for another tenant than the caller's. */
  predicate WrongTenant(req: Request, luck: Luck) {
    req.tenantId != "" && req.tenantId != luck.tenant
  }

  /**
   * The checks that precede any store call, in their order: a missing body or tenant, another tenant, an
   * unacceptable program, a webhook the server does not serve or does not trust, a tenant that is no id, a
   * caller that is none. What passes is stored as it was asked for.
   */
  function Validate(uuid: Uuid, body: Option<Request>, luck: Luck): (v: Verified)
    ensures v.Good? <==>
              && body.Some? && luck.tenant != "" && !WrongTenant(body.value, luck) && Acceptable(body.value)
              && !HookRefused(body.value, luck) && !HookBad(body.value, luck)
              && uuid.parse(luck.tenant).Some? && luck.identityOk
    ensures v.Good? ==>
              ValidParams(v.p) && uuid.parse(luck.tenant) == Some(v.p.tenant) && AsRequested(body.value, v.p)
    ensures v.Bad? ==>
              v.code == if body.None? || luck.tenant == "" then 400
                        else if WrongTenant(body.value, luck) then 403
                        else if !Acceptable(body.value) then 400
                        else if HookRefused(body.value, luck) then 503
                        else if HookBad(body.value, luck) || uuid.parse(luck.tenant).None? then 400
                        else 401
  {
    if body.None? || luck.tenant == "" then Bad(400)
    else if body.value.tenantId != "" && body.value.tenantId != luck.tenant then Bad(403)
    else
      ProgramIsAcceptable(body.value);
      if !ProgramOk(body.value) then Bad(400)
      else Authorize(body.value, uuid.parse(luck.tenant), luck)
  }

  // ----- what belongs to one submit

  /** The transaction number and the fresh ids that the database hands to one submit, should it insert. */
  datatype Ticket = Ticket(x: nat, first: Id, second: Id)

  predicate Has(g: Ticket, id: Id) {
    id == g.first || id == g.second
  }

  /** A step of the submit that inserts a row, publishes it or fails it. */
  predicate Deed(st: Step, g: Ticket) {
    || (st.TxCommit? && (st.x == g.x || Has(g, st.id)))
    || (st.InsertUnchecked? && Has(g, st.id))
    || (st.On? && Has(g, st.id) && (st.c.Publish? || st.c.SubmitFailed?))
  }

  /** A step of its transaction that touches no row. */
  predicate TxMove(st: Step, g: Ticket) {
    (st.TxBegin? || st.TxLock? || st.TxCount? || st.TxCheck? || st.TxAbort?) && st.x == g.x
  }

  /** The deeds of the submit, in order. */
  function Deeds(trace: seq<Step>, g: Ticket): seq<Step> {
    if trace == [] then []
    else
      var last := trace[|trace| - 1];
      Deeds(trace[..|trace| - 1], g) + (if Deed(last, g) then [last] else [])
  }

  lemma DeedsSnoc(trace: seq<Step>, st: Step, g: Ticket)
    ensures Deeds(trace + [st], g) == Deeds(trace, g) + (if Deed(st, g) then [st] else [])
  {
    assert (trace + [st])[..|trace|] == trace;
  }

  function Also(deeds: seq<Step>, b: bool, st: Step): seq<Step> {
    if b then deeds + [st] else deeds
  }

  ghost predicate Elsewhere(env: Schedule, g: Ticket) {
    forall n, i | 0 <= i < |env(n)| :: !Deed(env(n)[i], g) && !TxMove(env(n)[i], g)
  }

  /** How the row of an id stands, with what its message says; one that nobody published is never claimed. */
  datatype Standing = Absent | Unpublished(p: Params) | Published(p: Params, tenant: Tenant, language: string) | Other

  /** Published by a message that names the row's own tenant and language. */
  function Named(p: Params): Standing {
    Published(p, p.tenant, p.language)
  }

  function StandingOf(s: State, id: Id): Standing {
    if id !in s.cells then Absent
    else
      var c := s.cells[id];
      if c.msg.Some? then Published(c.row.params, c.msg.value.tenant, c.msg.value.language)
      else if c.handlers == [] && (c.row.status.Queued? || c.row.status.Failed?) then Unpublished(c.row.params)
      else Other
  }

  lemma OthersKeepStanding(s: State, st: Step, g: Ticket, id: Id)
    requires !Deed(st, g) && Has(g, id) && !StandingOf(s, id).Other?
    ensures StandingOf(Exec(s, st), id) == StandingOf(s, id)
  {
    if id in s.cells {
      ExecOnCell(s, st, id);
      CellRowMoves(s.cfg, s.now, s.cells[id], View(s, st, id));
    }
  }

  lemma OthersKeepTx(s: State, st: Step, g: Ticket)
    requires !Deed(st, g) && !TxMove(st, g)
    ensures g.x in Exec(s, st).txs <==> g.x in s.txs
    ensures g.x in s.txs ==> Exec(s, st).txs[g.x] == s.txs[g.x]
    ensures Exec(s, st).cfg == s.cfg
  {
  }

  /** The same rows stand the same way, and the settings are the same. */
  predicate SameRows(s: State, s': State, g: Ticket) {
    && s'.cfg == s.cfg
    && (!StandingOf(s, g.first).Other? ==> StandingOf(s', g.first) == StandingOf(s, g.first))
    && (!StandingOf(s, g.second).Other? ==> StandingOf(s', g.second) == StandingOf(s, g.second))
  }

  predicate SameTx(s: State, s': State, g: Ticket) {
    (g.x in s'.txs <==> g.x in s.txs) && (g.x in s.txs ==> s'.txs[g.x] == s.txs[g.x])
  }

  method OtherStep(w: World, st: Step, g: Ticket)
    requires w.Valid() && !Deed(st, g) && !TxMove(st, g)
    modifies w`s, w`trace, w.db
    ensures w.Valid() && old(w.trace) <= w.trace && Deeds(w.trace, g) == old(Deeds(w.trace, g))
    ensures SameRows(old(w.s), w.s, g) && SameTx(old(w.s), w.s, g)
  {
    DeedsSnoc(w.trace, st, g);
    OthersKeepTx(w.s, st, g);
    if !StandingOf(w.s, g.first).Other? {
      OthersKeepStanding(w.s, st, g, g.first);
    }
    if !StandingOf(w.s, g.second).Other? {
      OthersKeepStanding(w.s, st, g, g.second);
    }
    w.Happen(st);
  }

  /** Let everybody else take the steps scheduled for this moment. */
  method Pause(w: World, env: Schedule, g: Ticket)
    requires w.Valid() && Elsewhere(env, g)
    modifies w`s, w`trace, w.db
    ensures w.Valid() && old(w.trace) <= w.trace && Deeds(w.trace, g) == old(Deeds(w.trace, g))
    ensures SameRows(old(w.s), w.s, g) && SameTx(old(w.s), w.s, g)
    ensures Uninterrupted(env) ==> w.s == old(w.s)
  {
    var steps := env(|w.trace|);
    for i := 0 to |steps|
      invariant w.Valid() && old(w.trace) <= w.trace && Deeds(w.trace, g) == old(Deeds(w.trace, g))
      invariant SameRows(old(w.s), w.s, g) && SameTx(old(w.s), w.s, g)
      invariant i == 0 ==> w.s == old(w.s)
    {
      OtherStep(w, steps[i], g);
    }
  }

  /** A step of the transaction that touches no row. */
  method Move(w: World, g: Ticket, st: Step)
    requires w.Valid() && TxMove(st, g)
    modifies w`s, w`trace
    ensures w.Valid() && w.s == Exec(old(w.s), st)
    ensures old(w.trace) <= w.trace && Deeds(w.trace, g) == old(Deeds(w.trace, g))
  {
    DeedsSnoc(w.trace, st, g);
    w.Record(st);
  }

  // ----- the quota transaction

  /** `s` plus the new row of `p`, nothing else. */
  function Inserted(s: State, id: Id, p: Params): State {
    s.(cells := s.cells[id := NewCell(p, s.now)])
  }

  /** The same, recorded as admitted by the quota checker. */
  function AdmittedRow(s: State, id: Id, p: Params, clock: Time): State {
    Inserted(s, id, p).(admitted := s.admitted[id := Admission(s.commits, clock)], commits := s.commits + 1)
  }

  function WithTx(s: State, x: nat, tx: Tx): State {
    s.(txs := s.txs[x := tx])
  }

  /** No transaction and no row of the submit exists. */
  predicate Fresh(s: State, g: Ticket) {
    g.x !in s.txs && g.first != g.second && StandingOf(s, g.first).Absent? && StandingOf(s, g.second).Absent?
  }

  /** The transaction of the submit is open; nobody having moved, it is all that is new since `s`. */
  ghost predicate Open(w: World, g: Ticket, p: Params, phase: TxPhase, env: Schedule, s: State)
    reads w, w.db
  {
    && w.Valid() && Elsewhere(env, g) && Fresh(s, g) && w.s.cfg == s.cfg
    && StandingOf(w.s, g.first).Absent? && StandingOf(w.s, g.second).Absent?
    && g.x in w.s.txs && w.s.txs[g.x].params == p && w.s.txs[g.x].phase == phase
    && (Uninterrupted(env) ==> w.s == WithTx(s, g.x, Tx(p, s.now, phase)))
  }

  /** It is closed again and left nothing behind. */
  ghost predicate Undone(w: World, g: Ticket, env: Schedule, s: State)
    reads w, w.db
  {
    && w.Valid() && w.s.cfg == s.cfg && Fresh(w.s, g)
    && (Uninterrupted(env) ==> w.s == s)
  }

  /** Between the traces of two moments the submit did nothing that shows. */
  ghost predicate Idle(trace: seq<Step>, trace': seq<Step>, g: Ticket) {
    trace <= trace' && Deeds(trace', g) == Deeds(trace, g)
  }

  /** Two moments of a call, by the trace and the state of each: the hour is counted first, active rows later. */
  datatype Readings = Readings(first: seq<Step>, hourAt: State, later: seq<Step>, activeAt: State)

  /** They lie in this order between `trace` and now. */
  ghost predicate Moments(w: World, trace: seq<Step>, m: Readings)
    reads w
  {
    trace <= m.first <= m.later <= w.trace && m.hourAt == Run(w.s0, m.first) && m.activeAt == Run(w.s0, m.later)
  }

  /** What `checkCounts` decides when it reads the hour at `h` and the active rows at `a`. */
  function CheckCounts(h: State, a: State, l: Limits, tenant: Tenant, clock: Time): Decision {
    Decide(l, HourlyCount(Rows(h), tenant, l, clock), ActiveCount(Rows(a), tenant, l))
  }

  lemma BusyIsHeld(s: State, x: nat, tenant: Tenant)
    requires LockBusy(s, x, tenant)
    ensures LockHeld(s, x, tenant)
  {
    var y :| y in s.txs && y != x && s.txs[y].params.tenant == tenant && !s.txs[y].phase.Begun?;
    assert s.txs[y].phase.Locked? || s.txs[y].phase.Counted? || s.txs[y].phase.Checked?;
  }

  lemma LockBusySame(s: State, x: nat, tx: Tx, tenant: Tenant)
    requires x !in s.txs
    ensures LockBusy(WithTx(s, x, tx), x, tenant) == LockBusy(s, x, tenant)
  {
    var s1 := WithTx(s, x, tx);
    if LockBusy(s, x, tenant) {
      var y :| y in s.txs && y != x && s.txs[y].params.tenant == tenant && !s.txs[y].phase.Begun?;
      assert y in s1.txs && s1.txs[y] == s.txs[y];
    }
  }

  method BeginTx(w: World, g: Ticket, p: Params, env: Schedule)
    requires w.Valid() && Elsewhere(env, g) && Fresh(w.s, g) && ValidParams(p)
    modifies w`s, w`trace
    ensures Open(w, g, p, Begun, env, old(w.s)) && Idle(old(w.trace), w.trace, g)
  {
    Move(w, g, TxBegin(g.x, p));
  }

  /** The deferred rollback. */
  method Rollback(w: World, g: Ticket, p: Params, ghost phase: TxPhase, env: Schedule, ghost s: State)
    requires Open(w, g, p, phase, env, s)
    modifies w`s, w`trace
    ensures Undone(w, g, env, s) && Idle(old(w.trace), w.trace, g)
  {
    Move(w, g, TxAbort(g.x));
    if Uninterrupted(env) {
      assert WithTx(s, g.x, Tx(p, s.now, phase)).txs - {g.x} == s.txs;
    }
  }

  /** Wait for the tenant's advisory lock; `ok` is false when the wait timed out. */
  method LockTx(w: World, g: Ticket, p: Params, env: Schedule, ghost s: State) returns (ok: bool)
    requires Open(w, g, p, Begun, env, s)
    modifies w`s, w`trace, w.db
    ensures Open(w, g, p, if ok then Locked else Begun, env, s) && Idle(old(w.trace), w.trace, g)
    ensures !ok ==> LockHeld(w.s, g.x, p.tenant) && (Uninterrupted(env) ==> LockHeld(s, g.x, p.tenant))
  {
    Pause(w, env, g);
    ok := !LockBusy(w.s, g.x, p.tenant);
    if Uninterrupted(env) {
      LockBusySame(s, g.x, Tx(p, s.now, Begun), p.tenant);
    }
    if !ok {
      BusyIsHeld(w.s, g.x, p.tenant);
      if Uninterrupted(env) {
        BusyIsHeld(s, g.x, p.tenant);
      }
    }
    if ok {
      Move(w, g, TxLock(g.x));
      if Uninterrupted(env) {
        assert s.txs[g.x := Tx(p, s.now, Begun)][g.x := Tx(p, s.now, Locked)] == s.txs[g.x := Tx(p, s.now, Locked)];
      }
    }
  }

  /** The counts, read at `h` and `a`, leave no room for one more row of the tenant. */
  predicate OverQuota(h: State, a: State, tenant: Tenant, clock: Time) {
    tenant in h.cfg.limits && !CheckCounts(h, a, h.cfg.limits[tenant], tenant, clock).allowed
  }

  /** The tenant's own rows of the hour before `clock`. */
  function OwnHour(s: State, tenant: Tenant, clock: Time): set<Id> {
    set id | id in s.cells && s.cells[id].row.params.tenant == tenant
             && s.cells[id].row.createdAt >= clock - 3_600_000_000_000
  }

  /** The tenant's own rows that are queued or running. */
  function OwnActive(s: State, tenant: Tenant): set<Id> {
    set id | id in s.cells && s.cells[id].row.params.tenant == tenant
             && (s.cells[id].row.status.Queued? || s.cells[id].row.status.Running?)
  }

  /** A finite limit is reached; a negative one never is. */
  predicate Reaches(count: nat, limit: int) {
    0 <= limit <= count
  }

  predicate HourFull(h: State, l: Limits, tenant: Tenant, clock: Time) {
    Reaches(|OwnHour(h, tenant, clock)|, l.submitsPerHour)
  }

  predicate ActiveFull(a: State, l: Limits, tenant: Tenant) {
    Reaches(|OwnActive(a, tenant)|, l.maxActive)
  }

  lemma CountsAreOwn(h: State, a: State, tenant: Tenant, clock: Time)
    ensures IdsSince(Rows(h), tenant, clock - SUBMIT_WINDOW) == OwnHour(h, tenant, clock)
    ensures ActiveIds(Rows(a), tenant) == OwnActive(a, tenant)
  {
  }

  /** The counts decide by the tenant's own rows alone, and the hint says which limit it is. */
  lemma CountsDecide(h: State, a: State, l: Limits, tenant: Tenant, clock: Time)
    ensures var d := CheckCounts(h, a, l, tenant, clock);
            && (d.allowed <==> !HourFull(h, l, tenant, clock) && !ActiveFull(a, l, tenant))
            && (!d.allowed ==>
                  if HourFull(h, l, tenant, clock) then FairShare(l.submitsPerHour, d.retryAfterSec)
                  else d.retryAfterSec == 30)
  {
    CountsAreOwn(h, a, tenant, clock);
  }

  /** Count the rows of the hour under the lock. */
  method CountHour(w: World, g: Ticket, p: Params, clock: Time, env: Schedule, ghost s: State)
    returns (hourly: nat, ghost seen: seq<Step>, ghost at: State)
    requires Open(w, g, p, Locked, env, s) && p.tenant in s.cfg.limits
    modifies w`s, w`trace, w.db
    ensures Open(w, g, p, Counted(clock, hourly), env, s) && Idle(old(w.trace), w.trace, g)
    ensures old(w.trace) <= seen <= w.trace && at == Run(w.s0, seen) && at.cfg == s.cfg
    ensures hourly == HourlyCount(Rows(at), p.tenant, s.cfg.limits[p.tenant], clock)
    ensures Uninterrupted(env) ==> Rows(at) == Rows(s)
  {
    Pause(w, env, g);
    seen, at := w.trace, w.s;
    hourly := HourlyCount(Rows(w.s), p.tenant, w.s.cfg.limits[p.tenant], clock);
    Move(w, g, TxCount(g.x, clock));
    if Uninterrupted(env) {
      SetPhase(s, g.x, Tx(p, s.now, Locked), Tx(p, s.now, Counted(clock, hourly)));
    }
  }

  lemma SetPhase(s: State, x: nat, tx: Tx, tx': Tx)
    ensures WithTx(s, x, tx).(txs := WithTx(s, x, tx).txs[x := tx']) == WithTx(s, x, tx')
  {
    assert s.txs[x := tx][x := tx'] == s.txs[x := tx'];
  }

  /** Count the active rows and decide by both counts. */
  method CountActive(w: World, g: Ticket, p: Params, clock: Time, hourly: nat, env: Schedule, ghost s: State)
    returns (d: Decision, ghost seen: seq<Step>, ghost at: State)
    requires Open(w, g, p, Counted(clock, hourly), env, s) && p.tenant in s.cfg.limits
    modifies w`s, w`trace, w.db
    ensures Open(w, g, p, if d.allowed then Checked(clock) else Counted(clock, hourly), env, s)
    ensures Idle(old(w.trace), w.trace, g)
    ensures old(w.trace) <= seen <= w.trace && at == Run(w.s0, seen) && at.cfg == s.cfg
    ensures var l := s.cfg.limits[p.tenant];
            d == Decide(l, hourly, ActiveCount(Rows(at), p.tenant, l))
    ensures Uninterrupted(env) ==> Rows(at) == Rows(s)
  {
    Pause(w, env, g);
    seen, at := w.trace, w.s;
    var l := w.s.cfg.limits[p.tenant];
    d := Decide(l, hourly, ActiveCount(Rows(w.s), p.tenant, l));
    if d.allowed {
      Move(w, g, TxCheck(g.x));
      if Uninterrupted(env) {
        SetPhase(s, g.x, Tx(p, s.now, Counted(clock, hourly)), Tx(p, s.now, Checked(clock)));
      }
    }
  }

  lemma CommitEffect(s: State, x: nat, id: Id, other: Id)
    requires CanCommit(s, x, id) && other != id
    ensures var tx := s.txs[x];
            var s' := Exec(s, TxCommit(x, id));
            && StandingOf(s', id) == Unpublished(tx.params) && x !in s'.txs && s'.cfg == s.cfg
            && StandingOf(s', other) == StandingOf(s, other)
            && TableAfter(s, TxCommit(x, id)) == Rows(s)[id := NewRow(tx.params, tx.begunAt)]
  {
  }

  lemma CommitAlone(s: State, g: Ticket, p: Params, clock: Time)
    requires Fresh(s, g)
    ensures Exec(WithTx(s, g.x, Tx(p, s.now, Checked(clock))), TxCommit(g.x, g.first))
            == AdmittedRow(s, g.first, p, clock)
  {
    assert WithTx(s, g.x, Tx(p, s.now, Checked(clock))).txs - {g.x} == s.txs;
  }

  /** The row of the quota transaction is there. */
  ghost predicate Committed(w: World, g: Ticket, p: Params, clock: Time, env: Schedule, s: State)
    reads w, w.db
  {
    && w.Valid() && w.s.cfg == s.cfg && g.x !in w.s.txs
    && StandingOf(w.s, g.first) == Unpublished(p) && StandingOf(w.s, g.second).Absent?
    && (Uninterrupted(env) ==> w.s == AdmittedRow(s, g.first, p, clock))
  }

  method InsertAndCommit(w: World, g: Ticket, p: Params, clock: Time, env: Schedule, ghost s: State)
    requires Open(w, g, p, Checked(clock), env, s)
    modifies w`s, w`trace, w.db`rows
    ensures Committed(w, g, p, clock, env, s) && old(w.trace) <= w.trace
    ensures Deeds(w.trace, g) == old(Deeds(w.trace, g)) + [TxCommit(g.x, g.first)]
  {
    CommitEffect(w.s, g.x, g.first, g.second);
    if Uninterrupted(env) {
      CommitAlone(s, g, p, clock);
    }
    DeedsSnoc(w.trace, TxCommit(g.x, g.first), g);
    w.db.Create(g.first, p, w.s.txs[g.x].begunAt);
    w.Record(TxCommit(g.x, g.first));
  }

  /** All calls of the transaction succeed. */
  predicate Smooth(tx: TxLuck) {
    tx.begin && tx.setTimeout && tx.lock && tx.read && tx.insert && tx.commit.Heard?
  }

  /** The calls up to the counts succeed. */
  predicate Reads(tx: TxLuck) {
    tx.begin && tx.setTimeout && tx.lock && tx.read
  }

  /** How a transaction that holds the lock decides, by the states in which it read the two counts. */
  predicate Judges(r: QuotaReply, h: State, a: State, p: Params, tx: TxLuck) {
    match r
    case QuotaError => !Smooth(tx) || p.tenant !in h.cfg.limits
    case Denied(d) =>
      && OverQuota(h, a, p.tenant, tx.clock)
      && d == CheckCounts(h, a, h.cfg.limits[p.tenant], p.tenant, tx.clock)
    case Admitted => p.tenant in h.cfg.limits && !OverQuota(h, a, p.tenant, tx.clock)
  }

  /** Another transaction of the same tenant is past its advisory lock. */
  predicate LockHeld(s: State, x: nat, tenant: Tenant) {
    exists y | y in s.txs ::
      && y != x && s.txs[y].params.tenant == tenant
      && (s.txs[y].phase.Locked? || s.txs[y].phase.Counted? || s.txs[y].phase.Checked?)
  }

  /** The same for the whole transaction, which may also fail to get the lock. */
  predicate Decided(r: QuotaReply, h: State, a: State, g: Ticket, p: Params, tx: TxLuck) {
    Judges(r, h, a, p, tx) || (r.QuotaError? && LockHeld(h, g.x, p.tenant))
  }

  /** Insert the row and commit, unless one of the two fails before it takes effect. */
  method FinishTx(w: World, g: Ticket, p: Params, tx: TxLuck, env: Schedule, ghost s: State)
    returns (r: QuotaReply, landed: bool)
    requires Open(w, g, p, Checked(tx.clock), env, s)
    modifies w`s, w`trace, w.db
    ensures if landed then Committed(w, g, p, tx.clock, env, s) else Undone(w, g, env, s)
    ensures old(w.trace) <= w.trace
    ensures Deeds(w.trace, g) == Also(old(Deeds(w.trace, g)), landed, TxCommit(g.x, g.first))
    ensures landed <==> tx.insert && !tx.commit.Lost?
    ensures r == if landed && tx.commit.Heard? then Admitted else QuotaError
  {
    r, landed := QuotaError, tx.insert && !tx.commit.Lost?;
    if !landed {
      Rollback(w, g, p, Checked(tx.clock), env, s);
      return;
    }
    InsertAndCommit(w, g, p, tx.clock, env, s);
    if tx.commit.Heard? {
      r := Admitted;
    }
  }

  /**
   * The transaction once it holds the lock. An error or a denial leaves nothing behind, unless the
   * commit stood and its reply was lost; an admission leaves exactly the new row.
   */
  method CreateLocked(w: World, g: Ticket, p: Params, tx: TxLuck, env: Schedule, ghost s: State)
    returns (r: QuotaReply, landed: bool, ghost m: Readings)
    requires Open(w, g, p, Locked, env, s)
    modifies w`s, w`trace, w.db
    ensures if landed then Committed(w, g, p, tx.clock, env, s) else Undone(w, g, env, s)
    ensures Deeds(w.trace, g) == Also(old(Deeds(w.trace, g)), landed, TxCommit(g.x, g.first))
    ensures r.Admitted? <==> landed && tx.commit.Heard?
    ensures landed && !r.Admitted? ==> r.QuotaError? && tx.commit.Unheard?
    ensures Moments(w, old(w.trace), m) && Judges(r, m.hourAt, m.activeAt, p, tx)
    ensures Uninterrupted(env) ==> Judges(r, s, s, p, tx)
    ensures (!r.QuotaError? ==> tx.read) && (landed ==> tx.read && tx.insert)
  {
    r, landed := QuotaError, false;
    m := Readings(w.trace, w.s, w.trace, w.s);
    if !tx.read || p.tenant !in w.s.cfg.limits {
      Rollback(w, g, p, Locked, env, s);
      return;
    }
    var hourly, d;
    ghost var first, h, later, a;
    hourly, first, h := CountHour(w, g, p, tx.clock, env, s);
    d, later, a := CountActive(w, g, p, tx.clock, hourly, env, s);
    m := Readings(first, h, later, a);
    if !d.allowed {
      r := Denied(d);
      Rollback(w, g, p, Counted(tx.clock, hourly), env, s);
      return;
    }
    r, landed := FinishTx(w, g, p, tx, env, s);
  }

  /**
   * Admit and insert in one locked transaction. The answer is decided by the rows of the hour at one
   * moment of the call and the active rows at a later one; an error needs a failing call, a tenant
   * without a tier, or a lock that was held. With nobody else moving, both moments are as good as the
   * beginning.
   */
  method CheckAndCreate(w: World, g: Ticket, p: Params, tx: TxLuck, env: Schedule)
    returns (r: QuotaReply, landed: bool, ghost m: Readings)
    requires w.Valid() && Elsewhere(env, g) && Fresh(w.s, g) && ValidParams(p)
    modifies w`s, w`trace, w.db
    ensures if landed then Committed(w, g, p, tx.clock, env, old(w.s)) else Undone(w, g, env, old(w.s))
    ensures Deeds(w.trace, g) == Also(old(Deeds(w.trace, g)), landed, TxCommit(g.x, g.first))
    ensures r.Admitted? <==> landed && tx.commit.Heard?
    ensures landed && !r.Admitted? ==> r.QuotaError? && tx.commit.Unheard?
    ensures Moments(w, old(w.trace), m) && Decided(r, m.hourAt, m.activeAt, g, p, tx)
    ensures (!r.QuotaError? ==> Reads(tx)) && (landed ==> Reads(tx) && tx.insert)
    ensures Uninterrupted(env) ==> Decided(r, old(w.s), old(w.s), g, p, tx)
  {
    ghost var s := w.s;
    r, landed := QuotaError, false;
    m := Readings(w.trace, w.s, w.trace, w.s);
    if !tx.begin {
      return;
    }
    BeginTx(w, g, p, env);
    if !tx.setTimeout || !tx.lock {
      Rollback(w, g, p, Begun, env, s);
      return;
    }
    var ok := LockTx(w, g, p, env, s);
    if !ok {
      m := Readings(w.trace, w.s, w.trace, w.s);
      Rollback(w, g, p, Begun, env, s);
      return;
    }
    r, landed, m := CreateLocked(w, g, p, tx, env, s);
  }

  // ----- around it

  lemma InsertEffect(s: State, id: Id, p: Params, other: Id)
    requires id !in s.cells && ValidParams(p) && other != id
    ensures var s' := Exec(s, InsertUnchecked(id, p));
            && s' == Inserted(s, id, p) && StandingOf(s', id) == Unpublished(p)
            && StandingOf(s', other) == StandingOf(s, other)
            && TableAfter(s, InsertUnchecked(id, p)) == Rows(s)[id := NewRow(p, s.now)]
  {
  }

  /** The insert without a quota check. */
  method InsertRow(w: World, g: Ticket, p: Params, lands: bool, env: Schedule)
    requires w.Valid() && Elsewhere(env, g) && g.first != g.second && ValidParams(p)
    requires StandingOf(w.s, g.second).Absent? && !StandingOf(w.s, g.first).Other?
    modifies w`s, w`trace, w.db
    ensures w.Valid() && old(w.trace) <= w.trace && StandingOf(w.s, g.first) == StandingOf(old(w.s), g.first)
    ensures StandingOf(w.s, g.second) == if lands then Unpublished(p) else Absent
    ensures Deeds(w.trace, g) == Also(old(Deeds(w.trace, g)), lands, InsertUnchecked(g.second, p))
    ensures Uninterrupted(env) ==> w.s == if lands then Inserted(old(w.s), g.second, p) else old(w.s)
  {
    Pause(w, env, g);
    if lands {
      InsertEffect(w.s, g.second, p, g.first);
      DeedsSnoc(w.trace, InsertUnchecked(g.second, p), g);
      w.db.Create(g.second, p, w.db.now);
      w.Record(InsertUnchecked(g.second, p));
    }
  }

  /** What one submit did: the rows it inserted, the message, the failure of the row. */
  datatype Did = Did(committed: bool, inserted: bool, published: bool, failed: bool)

  /** The row that is answered and published: the later one, if the first was left in doubt. */
  function RowOf(g: Ticket, did: Did): Id {
    if did.inserted then g.second else g.first
  }

  /** The rows of the submit stand as its inserts left them. */
  predicate Stored(s: State, g: Ticket, p: Params, did: Did) {
    && StandingOf(s, g.first) == (if did.committed then Unpublished(p) else Absent)
    && StandingOf(s, g.second) == (if did.inserted then Unpublished(p) else Absent)
  }

  function RowDeeds(deeds: seq<Step>, g: Ticket, p: Params, did: Did): seq<Step> {
    Also(Also(deeds, did.committed, TxCommit(g.x, g.first)), did.inserted, InsertUnchecked(g.second, p))
  }

  /** Nobody having moved, the one row that is new since `s`. */
  predicate NewRowOnly(s: State, s': State, id: Id, p: Params) {
    s'.cells == s.cells[id := NewCell(p, s.now)] && s'.now == s.now
  }

  /**
   * Insert the row, through the quota check or around it. There are two rows only if the quota
   * transaction was left in doubt, and none is left behind by a denial.
   */
  method InsertOrDeny(w: World, g: Ticket, p: Params, luck: Luck, env: Schedule)
    returns (code: int, retryAfterSec: int, did: Did, ghost m: Readings)
    requires w.Valid() && Elsewhere(env, g) && Fresh(w.s, g) && ValidParams(p)
    modifies w`s, w`trace, w.db
    ensures w.Valid() && old(w.trace) <= w.trace && code in {0, 429, 500} && Stored(w.s, g, p, did)
    ensures Deeds(w.trace, g) == RowDeeds(old(Deeds(w.trace, g)), g, p, did) && !did.published && !did.failed
    ensures Accounted(code, luck, did)
    ensures luck.quotaOn ==>
              Moments(w, old(w.trace), m) && Judged(code, retryAfterSec, m.hourAt, m.activeAt, g, p, luck)
    ensures Uninterrupted(env) && luck.quotaOn ==> Judged(code, retryAfterSec, old(w.s), old(w.s), g, p, luck)
    ensures Uninterrupted(env) ==> NobodyElse(old(w.s), w.s, g, p, did)
  {
    code, retryAfterSec, did := 0, 0, Did(false, false, false, false);
    m := Readings(w.trace, w.s, w.trace, w.s);
    if luck.quotaOn {
      var q, landed;
      ghost var s := w.s;
      q, landed, m := CheckAndCreate(w, g, p, luck.tx, env);
      did := did.(committed := landed);
      var denied := if q.Denied? then 429 else 0;
      var hint := if q.Denied? then q.d.retryAfterSec else 0;
      DecidedIsJudged(q, denied, hint, m.hourAt, m.activeAt, g, p, luck);
      if Uninterrupted(env) {
        DecidedIsJudged(q, denied, hint, s, s, g, p, luck);
      }
      code, retryAfterSec := denied, hint;
      if !q.QuotaError? {
        return;
      }
    }
    // quotas off, or failing open after a quota error
    InsertRow(w, g, p, !luck.insert.Lost?, env);
    did := did.(inserted := !luck.insert.Lost?);
    if !luck.insert.Heard? {
      code := 500;
    }
  }

  /** How the answer accounts for the rows; code 0 stands for a row to publish. */
  predicate Accounted(code: int, luck: Luck, did: Did) {
    && (did.committed && (did.inserted || code == 500) ==> luck.tx.commit.Unheard?)
    && (did.committed ==> luck.quotaOn && !luck.tx.commit.Lost?)
    && (did.inserted ==> !luck.insert.Lost? && (code != 500 ==> luck.insert.Heard?))
    && (did.committed && !did.inserted && code != 500 ==> luck.tx.commit.Heard?)
    && (code == 429 ==> luck.quotaOn && Reads(luck.tx) && !did.committed && !did.inserted)
    && (did.committed ==> Reads(luck.tx) && luck.tx.insert)
    && (code == 500 ==> !luck.insert.Heard? && (did.inserted <==> luck.insert.Unheard?))
    && (code != 429 && code != 500 ==> did.committed || did.inserted)
  }

  /**
   * How the answer follows from the tenant's own rows: those of the hour at `h`, the active ones at `a`.
   * The hint is half a minute, or a fair share of the hour.
   */
  predicate Judged(code: int, retryAfterSec: int, h: State, a: State, g: Ticket, p: Params, luck: Luck) {
    && (code == 429 ==>
          && p.tenant in h.cfg.limits
          && var l := h.cfg.limits[p.tenant];
             if HourFull(h, l, p.tenant, luck.tx.clock) then FairShare(l.submitsPerHour, retryAfterSec)
             else ActiveFull(a, l, p.tenant) && retryAfterSec == 30)
    && (Smooth(luck.tx) && p.tenant in h.cfg.limits && !LockHeld(h, g.x, p.tenant) ==>
          var l := h.cfg.limits[p.tenant];
          (code == 429 <==> HourFull(h, l, p.tenant, luck.tx.clock) || ActiveFull(a, l, p.tenant)))
  }

  /** The answer to a decision of the quota checker. */
  lemma DecidedIsJudged(r: QuotaReply, code: int, retryAfterSec: int, h: State, a: State, g: Ticket, p: Params,
                        luck: Luck)
    requires Decided(r, h, a, g, p, luck.tx)
    requires (code == 429 <==> r.Denied?) && (r.Denied? ==> retryAfterSec == r.d.retryAfterSec)
    ensures Judged(code, retryAfterSec, h, a, g, p, luck)
  {
    if p.tenant in h.cfg.limits {
      CountsDecide(h, a, h.cfg.limits[p.tenant], p.tenant, luck.tx.clock);
    }
  }

  /** Nobody having moved and nothing left in doubt: the new row or nothing. */
  predicate NobodyElse(s: State, s': State, g: Ticket, p: Params, did: Did) {
    && (!did.committed && !did.inserted ==> s' == s)
    && (did.committed != did.inserted ==> NewRowOnly(s, s', RowOf(g, did), p))
  }

  // ----- the publish

  /** The step leaves every cell but `id`'s alone and does not move the clock. */
  predicate OnlyCell(s: State, s': State, id: Id) {
    id in s'.cells && s'.cells == s.cells[id := s'.cells[id]] && s'.now == s.now
  }

  lemma OthersStand(s: State, s': State, id: Id, j: Id)
    requires OnlyCell(s, s', id) && j != id
    ensures StandingOf(s', j) == StandingOf(s, j)
  {
  }

  /** The message waits for its first delivery. */
  predicate Deliverable(s: State, id: Id) {
    id in s.cells && s.cells[id].msg.Some? && !s.cells[id].msg.value.acked && s.cells[id].handlers == []
  }

  lemma PublishEffect(s: State, id: Id)
    requires StandingOf(s, id).Unpublished?
    ensures var s' := Exec(s, On(id, Publish));
            && OnlyCell(s, s', id) && StandingOf(s', id) == Named(StandingOf(s, id).p)
            && s'.cells[id].row == s.cells[id].row && Deliverable(s', id)
    ensures TableAfter(s, On(id, Publish)) == Rows(s)
  {
  }

  lemma FailEffect(s: State, id: Id)
    requires StandingOf(s, id).Unpublished? || StandingOf(s, id).Published?
    ensures var s' := Exec(s, On(id, SubmitFailed));
            && OnlyCell(s, s', id) && StandingOf(s', id) == StandingOf(s, id)
            && s'.cells[id].row == FailQueuedRow(s.cells[id].row, SUBMIT_FAILED_STDERR, s.now)
    ensures TableAfter(s, On(id, SubmitFailed)) == FailQueued(Rows(s), id, SUBMIT_FAILED_STDERR, s.now)
  {
  }

  /** The message is stored, whether or not the gateway hears of it. */
  method PublishRow(w: World, g: Ticket, id: Id)
    requires w.Valid() && Has(g, id) && g.first != g.second && StandingOf(w.s, id).Unpublished?
    modifies w`s, w`trace
    ensures w.Valid() && old(w.trace) <= w.trace && OnlyCell(old(w.s), w.s, id)
    ensures StandingOf(w.s, id) == Named(StandingOf(old(w.s), id).p) && TwinStands(old(w.s), w.s, g, id)
    ensures w.s.cells[id].row == old(w.s).cells[id].row && Deliverable(w.s, id)
    ensures Deeds(w.trace, g) == old(Deeds(w.trace, g)) + [On(id, Publish)]
  {
    PublishEffect(w.s, id);
    OthersStand(w.s, Exec(w.s, On(id, Publish)), id, Twin(g, id));
    DeedsSnoc(w.trace, On(id, Publish), g);
    w.Record(On(id, Publish));
  }

  /** The row after the follow-up write, if there was one. */
  function FailedIf(r: Row, failed: bool, now: Time): Row {
    if failed && r.status.Queued? then r.(status := Failed, stderr := "submit queue unavailable", updatedAt := now)
    else r
  }

  function Twin(g: Ticket, id: Id): Id {
    if id == g.first then g.second else g.first
  }

  /** The other id of the submit has its row, or none, as before. */
  predicate TwinStands(s: State, s': State, g: Ticket, id: Id) {
    !StandingOf(s, Twin(g, id)).Other? ==> StandingOf(s', Twin(g, id)) == StandingOf(s, Twin(g, id))
  }

  /** The row can still be published or failed by the submit. */
  predicate Stands(s: State, id: Id) {
    StandingOf(s, id).Unpublished? || StandingOf(s, id).Published?
  }

  /** `h.Store.SetExecutionFailed` after a failed publish. */
  method SetFailed(w: World, g: Ticket, id: Id)
    requires w.Valid() && Has(g, id) && g.first != g.second && Stands(w.s, id)
    modifies w`s, w`trace, w.db`rows
    ensures w.Valid() && old(w.trace) <= w.trace && OnlyCell(old(w.s), w.s, id)
    ensures StandingOf(w.s, id) == StandingOf(old(w.s), id) && TwinStands(old(w.s), w.s, g, id)
    ensures w.s.cells[id].row == FailedIf(old(w.s).cells[id].row, true, old(w.s).now)
    ensures Deeds(w.trace, g) == old(Deeds(w.trace, g)) + [On(id, SubmitFailed)]
  {
    FailEffect(w.s, id);
    OthersStand(w.s, Exec(w.s, On(id, SubmitFailed)), id, Twin(g, id));
    DeedsSnoc(w.trace, On(id, SubmitFailed), g);
    var _ := w.db.FailIfQueued(id, SUBMIT_FAILED_STDERR);
    w.Record(On(id, SubmitFailed));
  }

  /** The same after everybody else has moved; its own failure is ignored. */
  method SetFailedLater(w: World, g: Ticket, id: Id, lands: bool, env: Schedule)
    requires w.Valid() && Elsewhere(env, g) && Has(g, id) && g.first != g.second && Stands(w.s, id)
    modifies w`s, w`trace, w.db
    ensures w.Valid() && old(w.trace) <= w.trace
    ensures StandingOf(w.s, id) == StandingOf(old(w.s), id) && TwinStands(old(w.s), w.s, g, id)
    ensures Deeds(w.trace, g) == Also(old(Deeds(w.trace, g)), lands, On(id, SubmitFailed))
    ensures StandingOf(w.s, id).Unpublished? && lands ==> w.s.cells[id].row.status.Failed?
    ensures Uninterrupted(env) ==>
              OnlyCell(old(w.s), w.s, id) && w.s.cells[id].row == FailedIf(old(w.s).cells[id].row, lands, old(w.s).now)
  {
    Pause(w, env, g);
    assert Uninterrupted(env) ==> OnlyCell(old(w.s), w.s, id);
    if lands {
      SetFailed(w, g, id);
    }
  }

  /**
   * Publish the reference, or fail the row. After an error the row is failed if the follow-up write
   * lands and the message really was not stored: then nobody can have claimed it.
   */
  method PublishOrFail(w: World, g: Ticket, id: Id, p: Params, luck: Luck, env: Schedule) returns (ok: bool)
    requires w.Valid() && Elsewhere(env, g) && Has(g, id) && g.first != g.second
    requires StandingOf(w.s, id) == Unpublished(p)
    modifies w`s, w`trace, w.db
    ensures w.Valid() && old(w.trace) <= w.trace && (ok <==> luck.publish.Heard?)
    ensures StandingOf(w.s, id) == if luck.publish.Lost? then Unpublished(p) else Named(p)
    ensures TwinStands(old(w.s), w.s, g, id)
    ensures Deeds(w.trace, g) == Also(Also(old(Deeds(w.trace, g)), !luck.publish.Lost?, On(id, Publish)),
                                      !ok && luck.setFailedLands, On(id, SubmitFailed))
    ensures luck.publish.Lost? && luck.setFailedLands ==> w.s.cells[id].row.status.Failed?
    ensures ok ==> Deliverable(w.s, id)
    ensures Uninterrupted(env) ==>
              && OnlyCell(old(w.s), w.s, id)
              && w.s.cells[id].row == FailedIf(old(w.s).cells[id].row, !ok && luck.setFailedLands, old(w.s).now)
  {
    ok := luck.publish.Heard?;
    Pause(w, env, g);
    if !luck.publish.Lost? {
      PublishRow(w, g, id);
    }
    if !ok {
      SetFailedLater(w, g, id, luck.setFailedLands, env);
    }
  }

  // ----- one submit

  /** Everything the submit did that shows, in order. */
  function AllDeeds(deeds: seq<Step>, g: Ticket, p: Params, did: Did): seq<Step> {
    Also(Also(RowDeeds(deeds, g, p, did), did.published, On(RowOf(g, did), Publish)),
         did.failed, On(RowOf(g, did), SubmitFailed))
  }

  /** How the answer accounts for rows and messages. */
  predicate Reported(code: int, luck: Luck, did: Did) {
    && Accounted(code, luck, did)
    && (code == 202 <==> (did.committed || did.inserted) && did.published && luck.publish.Heard?)
    && (code == 502 ==> !luck.publish.Heard? && (did.published <==> luck.publish.Unheard?))
    && (did.failed <==> code == 502 && luck.setFailedLands)
    && (code != 202 && code != 502 ==> !did.published)
  }

  /** How the rows of the submit stand when it is answered. */
  predicate Final(s: State, g: Ticket, p: Params, did: Did) {
    && (did.committed || did.inserted ==>
          StandingOf(s, RowOf(g, did)) == if did.published then Named(p) else Unpublished(p))
    && (did.committed && did.inserted ==> StandingOf(s, g.first) == Unpublished(p))
    && (!did.committed ==> StandingOf(s, g.first).Absent?)
    && (!did.inserted ==> StandingOf(s, g.second).Absent?)
    && (did.failed && !did.published ==> RowOf(g, did) in s.cells && s.cells[RowOf(g, did)].row.status.Failed?)
  }

  /** The row of an accepted or failed submit, and whether a message names it. */
  predicate OneMoreRow(s: State, s': State, id: Id, r: Row, published: bool) {
    && id !in s.cells && id in s'.cells
    && s'.cells == s.cells[id := s'.cells[id]]
    && s'.cells[id].row == r
    && s'.cells[id].msg.Some? == published
  }

  /** Nobody else having moved: at most the one row, as the answer says. */
  predicate SubmitEffect(s: State, s': State, g: Ticket, p: Params, did: Did) {
    && (!did.committed && !did.inserted ==> s' == s)
    && (did.committed != did.inserted ==>
          OneMoreRow(s, s', RowOf(g, did), FailedIf(NewRow(p, s.now), did.failed, s.now), did.published))
  }

  /** What was done once the publish, and the write after a failed one, are over. */
  function Concluded(did: Did, luck: Luck): Did {
    did.(published := !luck.publish.Lost?, failed := !luck.publish.Heard? && luck.setFailedLands)
  }

  lemma PublishedFinal(s: State, s': State, g: Ticket, p: Params, did: Did, luck: Luck)
    requires Stored(s, g, p, did) && (did.committed || did.inserted)
    requires TwinStands(s, s', g, RowOf(g, did)) && g.first != g.second
    requires StandingOf(s', RowOf(g, did)) == if luck.publish.Lost? then Unpublished(p) else Named(p)
    requires luck.publish.Lost? && luck.setFailedLands ==> s'.cells[RowOf(g, did)].row.status.Failed?
    ensures Final(s', g, p, Concluded(did, luck))
  {
  }

  lemma PublishedEffect(s: State, s1: State, s': State, g: Ticket, p: Params, did: Did, luck: Luck)
    requires Fresh(s, g) && (did.committed || did.inserted)
    requires NobodyElse(s, s1, g, p, did) && OnlyCell(s1, s', RowOf(g, did))
    requires StandingOf(s', RowOf(g, did)) == if luck.publish.Lost? then Unpublished(p) else Named(p)
    requires RowOf(g, did) in s1.cells
    requires s'.cells[RowOf(g, did)].row == FailedIf(s1.cells[RowOf(g, did)].row, Concluded(did, luck).failed, s1.now)
    ensures SubmitEffect(s, s', g, p, Concluded(did, luck))
  {
    var id := RowOf(g, did);
    if did.committed != did.inserted {
      assert s1.cells[id := s'.cells[id]] == s.cells[id := s'.cells[id]];
    }
  }

  /** The part of Create that follows validation. */
  method Submit(w: World, p: Params, luck: Luck, g: Ticket, env: Schedule)
    returns (code: int, retryAfterSec: int, did: Did, ghost m: Readings)
    requires w.Valid() && Elsewhere(env, g) && Fresh(w.s, g) && ValidParams(p)
    modifies w`s, w`trace, w.db
    ensures w.Valid() && code in {202, 429, 500, 502} && Reported(code, luck, did)
    ensures code == 202 ==> Deliverable(w.s, RowOf(g, did))
    ensures Deeds(w.trace, g) == AllDeeds(old(Deeds(w.trace, g)), g, p, did) && Final(w.s, g, p, did)
    ensures luck.quotaOn ==>
              Moments(w, old(w.trace), m) && Judged(code, retryAfterSec, m.hourAt, m.activeAt, g, p, luck)
    ensures Uninterrupted(env) && luck.quotaOn ==> Judged(code, retryAfterSec, old(w.s), old(w.s), g, p, luck)
    ensures Uninterrupted(env) ==> SubmitEffect(old(w.s), w.s, g, p, did)
  {
    code, retryAfterSec, did, m := InsertOrDeny(w, g, p, luck, env);
    if code == 0 {
      ghost var s1 := w.s;
      var ok := PublishOrFail(w, g, RowOf(g, did), p, luck, env);
      PublishedFinal(s1, w.s, g, p, did, luck);
      if Uninterrupted(env) {
        PublishedEffect(old(w.s), s1, w.s, g, p, did, luck);
      }
      did := Concluded(did, luck);
      code := if ok then 202 else 502;
    }
  }

  /** The message on the stream is the one the gateway built: it names this row, its tenant and its language. */
  predicate Carries(s: State, id: Id, uuid: Uuid, sent: SubmitMessage) {
    && id in s.cells && s.cells[id].msg.Some? && sent.executionId == uuid.format(id)
    && uuid.parse(sent.tenantId) == Some(s.cells[id].msg.value.tenant)
    && sent.language == s.cells[id].msg.value.language
  }

  /**
   * One submit, among everybody else's steps. 202 comes with exactly one message and one row, which it
   * names, and with a second row only if the quota commit was left in doubt; 429 with neither; 500 with
   * rows only that were left in doubt; 502 with a row that is failed if the follow-up write landed and
   * the message was not stored. `sent` is the message, if one was stored.
   */
  method Create(w: World, uuid: Uuid, body: Option<Request>, luck: Luck, g: Ticket, env: Schedule)
    returns (r: Response, sent: Option<SubmitMessage>, did: Did, ghost m: Readings)
    requires w.Valid() && Elsewhere(env, g) && Fresh(w.s, g)
    modifies w`s, w`trace, w.db
    ensures w.Valid()
    ensures var v := Validate(uuid, body, luck);
            if v.Bad? then r == Refuse(v.code) && sent.None? && w.s == old(w.s) && w.trace == old(w.trace)
            else
              && r.code in {202, 429, 500, 502} && Reported(r.code, luck, did) && AsRequested(body.value, v.p)
              && Deeds(w.trace, g) == AllDeeds(old(Deeds(w.trace, g)), g, v.p, did) && Final(w.s, g, v.p, did)
              && (sent.Some? <==> did.published) && (r.code == 202 ==> Deliverable(w.s, RowOf(g, did)))
              && (sent.Some? ==> Carries(w.s, RowOf(g, did), uuid, sent.value))
              && (luck.quotaOn ==>
                    && Moments(w, old(w.trace), m)
                    && Judged(r.code, r.retryAfterSec, m.hourAt, m.activeAt, g, v.p, luck))
              && (Uninterrupted(env) && luck.quotaOn ==>
                    Judged(r.code, r.retryAfterSec, old(w.s), old(w.s), g, v.p, luck))
              && (Uninterrupted(env) ==> SubmitEffect(old(w.s), w.s, g, v.p, did))
  {
    var v := Validate(uuid, body, luck);
    sent, did, m := None, Did(false, false, false, false), Readings(w.trace, w.s, w.trace, w.s);
    if v.Bad? {
      r := Refuse(v.code);
    } else {
      var code, retryAfterSec;
      code, retryAfterSec, did, m := Submit(w, v.p, luck, g, env);
      r := Response(code, retryAfterSec);
      if did.published {
        sent := Some(SubmitMessage(uuid.format(RowOf(g, did)), luck.tenant, v.p.language));
      }
    }
  }

  /** A printer whose output parses back, as UUID printing does. */
  ghost predicate Canonical(uuid: Uuid) {
    forall id: Id :: uuid.format(id) != "" && uuid.parse(uuid.format(id)) == Some(id)
  }

  /** What the gateway publishes passes the dispatcher's poison checks and names the row it inserted. */
  lemma PublishedIsNotPoison(uuid: Uuid, body: Option<Request>, luck: Luck, id: Id)
    requires Canonical(uuid)
    ensures var v := Validate(uuid, body, luck);
            v.Good? ==>
              var msg := SubmitMessage(uuid.format(id), luck.tenant, v.p.language);
              && Target(uuid, Json(msg)) == Some(id)
              && uuid.parse(msg.tenantId) == Some(v.p.tenant)
  {
  }

  /** A row failed because its publish failed stays failed in every continuation. */
  lemma FailedSubmitIsFinal(s: State, g: Ticket, p: Params, did: Did, steps: seq<Step>)
    requires Final(s, g, p, did) && did.failed && !did.published
    ensures RowOf(g, did) in Run(s, steps).cells
    ensures Run(s, steps).cells[RowOf(g, did)].row == s.cells[RowOf(g, did)].row
    ensures Run(s, steps).cells[RowOf(g, did)].row.status.Failed?
  {
    FirstResultWins(s, steps, RowOf(g, did));
  }
}
