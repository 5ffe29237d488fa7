/**
 * Execution rows and the SQL statements that change them.
 *
 * Every statement is a function from the table before to the table after. `RowMoves` is the one
 * relation all of them keep: the submitted columns never change and a finished row is frozen.
 */
module Executions {
  type Id = nat
  type Tenant = nat
  type Time = int // nanoseconds

  datatype Option<+T> = None | Some(value: T)

  /** What becomes of a request to another system: it may take effect although its reply is lost. */
  datatype Write = Heard | Unheard | Lost

  const SECOND: int := 1_000_000_000

  datatype Status = Queued | Running | Succeeded | Failed | TimedOut

  predicate Active(st: Status) {
    st.Queued? || st.Running?
  }

  /** The columns a submit fills in and nothing ever updates. */
  datatype Params = Params(
    tenant: Tenant, language: string, source: string, stdin: string, timeoutS: int,
    webhook: Option<string>)

  datatype Row = Row(
    params: Params, status: Status, stdout: string, stderr: string, exitCode: Option<int>,
    createdAt: Time, updatedAt: Time)

  type Table = map<Id, Row>

  const SUPPORTED_LANGUAGES: seq<string> :=
    ["python", "javascript", "go", "java", "ruby", "rust", "cpp"]

  predicate ValidLanguage(lang: string) {
    lang in SUPPORTED_LANGUAGES
  }

  const MIN_TIMEOUT_S := 1
  const MAX_TIMEOUT_S := 60
  const DEFAULT_TIMEOUT_S := 2

  /** What the gateway guarantees about every row it inserts. */
  predicate ValidParams(p: Params) {
    ValidLanguage(p.language) && MIN_TIMEOUT_S <= p.timeoutS <= MAX_TIMEOUT_S
  }

  /** The columns `FinishExecution` writes. */
  datatype Result = Result(status: Status, stdout: string, stderr: string, exitCode: Option<int>)

  const REAP_STDERR := "reaped: dispatcher lost while running"
  const STALE_QUEUED_STDERR := "stale_queued"
  const SUBMIT_FAILED_STDERR := "submit queue unavailable"

  // ----- one row

  function NewRow(p: Params, createdAt: Time): Row {
    Row(p, Queued, "", "", None, createdAt, createdAt)
  }

  function ClaimRow(r: Row, now: Time): Row {
    if r.status.Queued? then r.(status := Running, updatedAt := now) else r
  }

  function RequeueRow(r: Row, now: Time): Row {
    if r.status.Running? then r.(status := Queued, updatedAt := now) else r
  }

  function FinishRow(r: Row, v: Result, now: Time): Row {
    if r.status.Running? then
      r.(status := v.status, stdout := v.stdout, stderr := v.stderr, exitCode := v.exitCode, updatedAt := now)
    else r
  }

  /** `SetExecutionFailed` and `MarkStaleQueuedFailed`: both fail a row that is still queued. */
  function FailQueuedRow(r: Row, stderr: string, now: Time): Row {
    if r.status.Queued? then r.(status := Failed, stderr := stderr, updatedAt := now) else r
  }

  predicate StaleRunning(r: Row, now: Time, secs: int) {
    r.status.Running? && r.updatedAt < now - secs * SECOND
  }

  predicate StaleQueued(r: Row, now: Time, secs: int) {
    r.status.Queued? && r.createdAt < now - secs * SECOND
  }

  function ReapRow(r: Row, now: Time, secs: int): Row {
    if StaleRunning(r, now, secs) then r.(status := Failed, stderr := REAP_STDERR, updatedAt := now) else r
  }

  // ----- the table

  function MarkExecutionRunning(t: Table, id: Id, now: Time): Table {
    if id in t then t[id := ClaimRow(t[id], now)] else t
  }

  function RequeueExecution(t: Table, id: Id, now: Time): Table {
    if id in t then t[id := RequeueRow(t[id], now)] else t
  }

  function FinishExecution(t: Table, id: Id, v: Result, now: Time): Table {
    if id in t then t[id := FinishRow(t[id], v, now)] else t
  }

  function FailQueued(t: Table, id: Id, stderr: string, now: Time): Table {
    if id in t then t[id := FailQueuedRow(t[id], stderr, now)] else t
  }

  function ReapStaleExecutions(t: Table, now: Time, secs: int): Table {
    map id | id in t :: ReapRow(t[id], now, secs)
  }

  function ListStaleQueued(t: Table, now: Time, secs: int): set<Id> {
    set id | id in t && StaleQueued(t[id], now, secs)
  }

  function ActiveIds(t: Table, tenant: Tenant): set<Id> {
    set id | id in t && t[id].params.tenant == tenant && Active(t[id].status)
  }

  function IdsSince(t: Table, tenant: Tenant, since: Time): set<Id> {
    set id | id in t && t[id].params.tenant == tenant && t[id].createdAt >= since
  }

  // ----- what every statement keeps

  /** The only ways a row may differ after a statement. */
  predicate RowMoves(r: Row, r': Row) {
    && r'.params == r.params
    && r'.createdAt == r.createdAt
    && (!Active(r.status) ==> r' == r)
  }
}
