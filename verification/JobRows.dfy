/** The jobs table and the statements the workers run on it, as functions on rows. */
module JobRows {
  import opened Options

  type JobId = nat
  type WorkerId = nat
  type Time = int  // seconds

  datatype JobState = Pending | Running | Succeeded | Dead

  /** What a job is enqueued under: a row with the same key is never inserted twice. */
  datatype DedupKey = ReportKey(recipient: string, localDate: string) | OtherKey(text: string)

  datatype Job = Job(
    kind: string, organisation: string, key: DedupKey,
    state: JobState, attempts: nat, maxAttempts: nat,
    nextRunAt: Time, createdAt: Time,
    lockedAt: Option<Time>, lockedBy: Option<WorkerId>, finishedAt: Option<Time>, lastError: Option<string>)

  /** A job as the worker that claimed it remembers it. */
  datatype ClaimedJob = ClaimedJob(id: JobId, kind: string, attempts: nat, maxAttempts: nat)

  type Table = map<JobId, Job>

  const NO_HANDLER := "no handler for job type "
  const ERROR_MAX := 2000
  const RECLAIM_AFTER := 15 * 60
  const KILLED_WINDOW := 24 * 3600
  const BACKOFF_CAP := 3600

  // ---- claiming the next pending job ----------------------------------------------------------------------------

  /** Rows another transaction has locked are skipped, not waited for. */
  predicate Due(t: Table, id: JobId, now: Time, locked: set<JobId>) {
    id in t && t[id].state == Pending && t[id].nextRunAt <= now && id !in locked
  }

  predicate IsNext(t: Table, id: JobId, now: Time, locked: set<JobId>) {
    Due(t, id, now, locked) && forall o | o in t.Keys :: Due(t, o, now, locked) ==> t[id].nextRunAt <= t[o].nextRunAt
  }

  function Claimed(j: Job, worker: WorkerId, now: Time): Job {
    j.(state := Running, lockedAt := Some(now), lockedBy := Some(worker), attempts := j.attempts + 1)
  }

  function Ticket(id: JobId, j: Job): ClaimedJob {
    ClaimedJob(id, j.kind, j.attempts, j.maxAttempts)
  }

  // ---- recording how it went ------------------------------------------------------------------------------------

  function Pow2(n: nat): nat {
    if n == 0 then 1 else 2 * Pow2(n - 1)
  }

  function Min(a: int, b: int): int { if a <= b then a else b }

  function Max(a: int, b: int): int { if a >= b then a else b }

  function DelaySeconds(attempts: nat): (d: nat)
    ensures 5 <= d <= BACKOFF_CAP
    ensures attempts <= 1 ==> d == 5
  {
    Pow2Positive(Max(0, attempts - 1));
    Min(BACKOFF_CAP, 5 * Pow2(Max(0, attempts - 1)))
  }

  lemma Pow2Positive(n: nat)
    ensures Pow2(n) >= 1
  {
  }

  /** Five seconds at first, then twice as long each time, up to an hour. */
  lemma DelayDoubles(attempts: nat)
    requires attempts >= 1
    ensures DelaySeconds(attempts + 1) ==
      if 2 * DelaySeconds(attempts) <= 3600 then 2 * DelaySeconds(attempts) else 3600
  {
  }

  function Finished(j: Job, now: Time): Job {
    j.(state := Succeeded, finishedAt := Some(now), lockedAt := None, lockedBy := None)
  }

  /** The failure statement goes by the attempts its worker remembers, never by the row's own. */
  function Failed(j: Job, attempts: nat, maxAttempts: nat, handled: bool, message: string, now: Time): Job {
    var dead := attempts >= maxAttempts || !handled;
    j.(state := if dead then Dead else Pending,
       lastError := Some(if |message| > ERROR_MAX then message[..ERROR_MAX] else message),
       lockedAt := None, lockedBy := None,
       nextRunAt := now + DelaySeconds(attempts),
       finishedAt := if dead then Some(now) else None)
  }

  // ---- taking back what a worker left behind ---------------------------------------------------------------------

  predicate Stale(j: Job, now: Time) {
    j.state == Running && j.lockedAt.Some? && j.lockedAt.value < now - RECLAIM_AFTER
  }

  function Reclaimed(j: Job): Job {
    j.(state := Pending, lockedAt := None, lockedBy := None)
  }

  function ReclaimAll(t: Table, now: Time): Table {
    map id | id in t :: if Stale(t[id], now) then Reclaimed(t[id]) else t[id]
  }

  // ---- jobs an older worker killed -------------------------------------------------------------------------------

  predicate Killed(j: Job, types: set<string>, now: Time) {
    && j.state == Dead && j.kind in types
    && j.lastError.Some? && NO_HANDLER <= j.lastError.value
    && j.attempts < j.maxAttempts && j.createdAt > now - KILLED_WINDOW
  }

  function KilledLimit(limit: int): nat { Max(1, Min(200, limit)) }

  /**
   * The rows the statement takes: killed, not locked, the oldest first, at most `limit`, and all of them when they fit.
   */
  predicate Picks(t: Table, picked: set<JobId>, types: set<string>, now: Time, locked: set<JobId>, limit: int) {
    && |picked| <= KilledLimit(limit)
    && (forall id | id in picked :: id in t && id !in locked && Killed(t[id], types, now))
    && (forall id | id in t.Keys - picked - locked ::
          Killed(t[id], types, now) ==>
            |picked| == KilledLimit(limit) && forall p | p in picked :: t[p].createdAt <= t[id].createdAt)
  }

  function Revived(j: Job, worker: WorkerId, now: Time): Job {
    j.(state := Running, attempts := j.attempts + 1, lastError := None, finishedAt := None,
       lockedAt := Some(now), lockedBy := Some(worker), nextRunAt := now)
  }

  function ReviveAll(t: Table, picked: set<JobId>, worker: WorkerId, now: Time): Table {
    map id | id in t :: if id in picked then Revived(t[id], worker, now) else t[id]
  }

  // ---- enqueueing and moving a waiting job -----------------------------------------------------------------------

  predicate HasKey(t: Table, key: DedupKey) {
    exists id | id in t.Keys :: t[id].key == key
  }

  predicate Fresh(j: Job) {
    j.state == Pending && j.attempts == 0 && j.maxAttempts >= 1
    && j.lockedAt.None? && j.lockedBy.None? && j.finishedAt.None? && j.lastError.None?
  }

  /** Still waiting for its first try. */
  predicate Untried(j: Job) { j.state == Pending && j.attempts == 0 }

  function Retimed(t: Table, ids: set<JobId>, runAt: Time): Table {
    map id | id in t :: if id in ids && Untried(t[id]) then t[id].(nextRunAt := runAt) else t[id]
  }
}
