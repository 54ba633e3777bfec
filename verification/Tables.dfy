/** The five tables of the control plane, their columns and the constants the handlers use. */
module Tables {

  datatype Option<+T> = None | Some(value: T)

  /** Microseconds: the resolution of the database's timestamps. */
  type Time = int

  function Seconds(n: int): Time {
    n * 1_000_000
  }

  /** Ids and tokens are fresh labels; a token is identified with the row it was generated for. */
  type TenantId = int
  type AgentId = int
  type DashboardId = int
  type JobId = int

  /** One JSON-encoded result row. The encoder escapes every non-ASCII character, so one character is one byte. */
  type Row = string

  const MAX_RESULT_BYTES := 1 * 1024 * 1024
  const MAX_POLL_TIMEOUT := 25
  const POLL_INTERVAL := 1
  const DEFAULT_TIMEOUT_MS := 30000
  const STALE_JOB_GRACE_SECONDS := 10

  datatype Status = Pending | Running | Done | Failed

  datatype Tenant = Tenant(name: string, enrolledAt: Option<Time>, createdAt: Time)

  datatype Agent = Agent(tenant: TenantId, createdAt: Time, revokedAt: Option<Time>)

  datatype Dashboard = Dashboard(
    tenant: TenantId, name: string, sql: string,
    refreshInterval: int, nextRunAt: Time, createdAt: Time)
  {
    /** refresh_interval * INTERVAL '1 second' */
    function Period(): Time {
      Seconds(refreshInterval)
    }
  }

  datatype Job = Job(
    tenant: TenantId, dashboard: DashboardId, sql: string, status: Status,
    claimedBy: Option<AgentId>, claimedAt: Option<Time>, timeoutMs: int, createdAt: Time)
  {
    predicate Terminal() {
      status == Done || status == Failed
    }
  }

  /** The body an agent posts: status is "success" or "error". */
  datatype Body = Body(
    success: bool, rows: Option<seq<Row>>, rowCount: Option<int>, executionMs: Option<int>,
    truncated: bool, errorCode: Option<string>, errorMessage: Option<string>)

  datatype Result = Result(tenant: TenantId, job: JobId, body: Body, recordedAt: Time)

  /** The status a job is given by an accepted body. */
  function FinalStatus(body: Body): Status {
    if body.success then Done else Failed
  }
}
