/** The statements the worker's loop runs, on the table they change in place. */
module JobQueue {
  import opened Options
  import opened JobRows
  import JobRuns

  /** How a handler ended. */
  datatype Ran = Returned | Threw(message: string)

  /** How the statement that records a success ended. */
  datatype Answer = Written | WrittenUnheard(error: string) | NotWritten(error: string)

  function Recorded(t: Table, job: ClaimedJob, types: set<string>, ran: Ran, answer: Answer, now: Time): Table {
    if job.id !in t then t
    else if job.kind !in types then
      t[job.id := Failed(t[job.id], job.attempts, job.maxAttempts, false, NO_HANDLER + job.kind, now)]
    else
      match ran
      case Threw(m) => t[job.id := Failed(t[job.id], job.attempts, job.maxAttempts, true, m, now)]
      case Returned =>
        match answer
        case Written => t[job.id := Finished(t[job.id], now)]
        case WrittenUnheard(m) =>
          t[job.id := Failed(Finished(t[job.id], now), job.attempts, job.maxAttempts, true, m, now)]
        case NotWritten(m) => t[job.id := Failed(t[job.id], job.attempts, job.maxAttempts, true, m, now)]
  }

  /** Whether the failure statement is run, and the error it records. */
  predicate Fails(handled: bool, ran: Ran, answer: Answer) { !handled || ran.Threw? || !answer.Written? }

  function ErrorOf(job: ClaimedJob, handled: bool, ran: Ran, answer: Answer): string
    requires Fails(handled, ran, answer)
  {
    if !handled then NO_HANDLER + job.kind
    else match ran
      case Threw(m) => m
      case Returned => answer.error
  }

  /** A success leaves the row as it was but succeeded, finished and unlocked. */
  predicate RecordsSuccess(before: Job, after: Job, now: Time) {
    && after.state == Succeeded && after.finishedAt == Some(now) && after.lockedAt == after.lockedBy == None
    && after == before.(state := after.state, finishedAt := after.finishedAt, lockedAt := None, lockedBy := None)
  }

  /**
   * A failure unlocks the row, keeps the first 2000 characters of the error and makes it due `wait` from now: `again`
   * pending, or dead and finished.
   */
  predicate RecordsFailure(before: Job, after: Job, again: bool, error: string, wait: nat, now: Time) {
    && after.state == (if again then Pending else Dead) && after.nextRunAt == now + wait
    && after.finishedAt == (if again then None else Some(now)) && after.lockedAt == after.lockedBy == None
    && after.lastError.Some? && after.lastError.value <= error
    && |after.lastError.value| == (if |error| <= 2000 then |error| else 2000)
    && after == before.(state := after.state, nextRunAt := after.nextRunAt, finishedAt := after.finishedAt,
                        lockedAt := None, lockedBy := None, lastError := after.lastError)
  }

  /** What a worker records is what its claim's own steps do to the table in a run, whoever holds the row by then. */
  lemma RecordingIsARunStep(w: JobRuns.World, id: JobId, h: nat, ran: Ran, answer: Answer, now: Time)
    requires JobRuns.Holds(w, id, h) && !w.stories[id].holders[h].landed
    ensures var x := w.stories[id].holders[h];
            var types := JobRuns.Knows(w, x.worker);
            var job := ClaimedJob(id, w.table[id].kind, x.attempts, w.table[id].maxAttempts);
            var after := Recorded(w.table, job, types, ran, answer, now);
            if !JobRuns.Handled(w, id, h) then after == JobRuns.Apply(w, JobRuns.Fail(id, h, "", now)).table
            else match (ran, answer)
              case (Threw(m), _) => after == JobRuns.Apply(w, JobRuns.Fail(id, h, m, now)).table
              case (Returned, Written) => after == JobRuns.Apply(w, JobRuns.Succeed(id, h, now)).table
              case (Returned, NotWritten(m)) => after == JobRuns.Apply(w, JobRuns.Fail(id, h, m, now)).table
              case (Returned, WrittenUnheard(m)) =>
                var mid := JobRuns.Apply(w, JobRuns.SucceedUnheard(id, h, now));
                JobRuns.Holds(mid, id, h) && after == JobRuns.Apply(mid, JobRuns.Fail(id, h, m, now)).table
  {
    var m := match answer case Written => "" case WrittenUnheard(m) => m case NotWritten(m) => m;
    if JobRuns.Handled(w, id, h) {
      var mid := JobRuns.Apply(w, JobRuns.SucceedUnheard(id, h, now));
      assert JobRuns.Handled(mid, id, h);
      var attempts, most := w.stories[id].holders[h].attempts, w.table[id].maxAttempts;
      assert mid.stories[id].holders[h].attempts == attempts && mid.table[id].maxAttempts == most;
      assert mid.table[id := Failed(mid.table[id], attempts, most, true, m, now)]
          == w.table[id := Failed(Finished(w.table[id], now), attempts, most, true, m, now)];
    }
  }

  /** The claim is the run's newest holder of the job, with the attempts it remembers. */
  ghost predicate Taken(w: JobRuns.World, s: JobRuns.Step, job: ClaimedJob, worker: WorkerId)
    requires JobRuns.Enabled(w, s)
  {
    var after := JobRuns.Apply(w, s);
    && job.id in w.stories && job.id in after.stories
    && after.stories[job.id].holders == w.stories[job.id].holders + [JobRuns.Holder(worker, job.attempts, false)]
  }

  /** The row is now running under this worker, since now, with one attempt more. */
  predicate TakenBy(before: Job, after: Job, worker: WorkerId, now: Time) {
    && after.state == Running && after.lockedAt == Some(now) && after.lockedBy == Some(worker)
    && after.attempts == before.attempts + 1 && after.maxAttempts == before.maxAttempts
    && after.kind == before.kind && after.organisation == before.organisation && after.key == before.key
    && after.createdAt == before.createdAt
  }

  class Jobs {
    var rows: Table

    constructor (t: Table)
      ensures rows == t
    {
      rows := t;
    }

    /**
     * The earliest due job that is not locked, claimed; none when there is none. In a run, `w`, it is the run's claim.
     */
    method ClaimNext(worker: WorkerId, now: Time, locked: set<JobId>, ghost w: JobRuns.World)
      returns (job: Option<ClaimedJob>)
      requires w.table == rows && w.stories.Keys == rows.Keys
      modifies this
      ensures job.None? ==> rows == old(rows) && forall id | id in rows :: !Due(rows, id, now, locked)
      ensures job.Some? ==>
                && IsNext(old(rows), job.value.id, now, locked)
                && rows == old(rows)[job.value.id := Claimed(old(rows)[job.value.id], worker, now)]
                && job.value == Ticket(job.value.id, rows[job.value.id])
      ensures job.Some? ==>
                var before, after := old(rows)[job.value.id], rows[job.value.id];
                && TakenBy(before, after, worker, now) && after.nextRunAt == before.nextRunAt
                && after.lastError == before.lastError && after.finishedAt == before.finishedAt
                && job.value == ClaimedJob(job.value.id, before.kind, before.attempts + 1, before.maxAttempts)
      ensures job.Some? ==>
                var s := JobRuns.Claim(worker, job.value.id, now, locked);
                JobRuns.Enabled(w, s) && Taken(w, s, job.value, worker) && rows == JobRuns.Apply(w, s).table
    {
      var left, best: Option<JobId> := rows.Keys, None;
      while left != {}
        invariant left <= rows.Keys
        invariant best.None? ==> forall id | id in rows.Keys - left :: !Due(rows, id, now, locked)
        invariant best.Some? ==> Due(rows, best.value, now, locked)
        invariant best.Some? ==> forall id | id in rows.Keys - left ::
                    Due(rows, id, now, locked) ==> rows[best.value].nextRunAt <= rows[id].nextRunAt
        decreases left
      {
        var id :| id in left;
        left := left - {id};
        if Due(rows, id, now, locked) && (best.None? || rows[id].nextRunAt < rows[best.value].nextRunAt) {
          best := Some(id);
        }
      }
      if best.None? { return None; }
      var id := best.value;
      rows := rows[id := Claimed(rows[id], worker, now)];
      job := Some(Ticket(id, rows[id]));
    }

    /** Runs a job this worker claimed and records how it went. */
    method Execute(job: ClaimedJob, types: set<string>, ran: Ran, answer: Answer, now: Time)
      modifies this
      ensures rows == Recorded(old(rows), job, types, ran, answer, now)
      ensures forall id | id in rows || id in old(rows) ::
                id in rows && id in old(rows) && (id != job.id ==> rows[id] == old(rows)[id])
      ensures var handled := job.kind in types;
              job.id in rows ==>
                if Fails(handled, ran, answer) then
                  RecordsFailure(old(rows)[job.id], rows[job.id], handled && job.attempts < job.maxAttempts,
                                 ErrorOf(job, handled, ran, answer), DelaySeconds(job.attempts), now)
                else RecordsSuccess(old(rows)[job.id], rows[job.id], now)
    {
      var handled := job.kind in types;
      var failure: Option<string> := None;
      if !handled {
        failure := Some(NO_HANDLER + job.kind);
      } else if ran.Threw? {
        failure := Some(ran.message);
      } else {
        if !answer.NotWritten? && job.id in rows { rows := rows[job.id := Finished(rows[job.id], now)]; }
        if !answer.Written? { failure := Some(answer.error); }
      }
      if failure.Some? && job.id in rows {
        rows := rows[job.id := Failed(rows[job.id], job.attempts, job.maxAttempts, handled, failure.value, now)];
      }
    }

    method ReclaimStale(now: Time, ghost w: JobRuns.World)
      requires w.table == rows
      modifies this
      ensures rows == JobRuns.Apply(w, JobRuns.Reclaim(now)).table
      ensures rows == ReclaimAll(old(rows), now)
      ensures rows.Keys == old(rows).Keys && forall id | id in rows :: !Stale(rows[id], now)
      ensures forall id | id in rows :: rows[id] != old(rows)[id] <==>
                old(rows)[id].state == Running && old(rows)[id].lockedAt.Some?
                  && now - old(rows)[id].lockedAt.value > RECLAIM_AFTER
      ensures forall id | id in rows && rows[id] != old(rows)[id] ::
                && rows[id].state == Pending && rows[id].lockedBy == None
                && rows[id].attempts == old(rows)[id].attempts && rows[id].maxAttempts == old(rows)[id].maxAttempts
                && rows[id].nextRunAt == old(rows)[id].nextRunAt && rows[id].key == old(rows)[id].key
                && rows[id].lastError == old(rows)[id].lastError && rows[id].createdAt == old(rows)[id].createdAt
    {
      rows := map id | id in rows :: if Stale(rows[id], now) then Reclaimed(rows[id]) else rows[id];
    }

    /** Claims what an older worker killed, the oldest first. */
    method ClaimKilled(worker: WorkerId, types: set<string>, now: Time, locked: set<JobId>, limit: int,
        ghost w: JobRuns.World)
      returns (picked: set<JobId>)
      requires w.table == rows && w.stories.Keys == rows.Keys && JobRuns.Knows(w, worker) == types
      modifies this
      ensures var s := JobRuns.Revive(worker, picked, now, locked, limit);
              JobRuns.Enabled(w, s) && rows == JobRuns.Apply(w, s).table
      ensures types == {} ==> picked == {} && rows == old(rows)
      ensures Picks(old(rows), picked, types, now, locked, limit)
      ensures rows == ReviveAll(old(rows), picked, worker, now)
      ensures forall id | id in picked ::
                var before, after := old(rows)[id], rows[id];
                && before.state == Dead && before.kind in types && before.attempts < before.maxAttempts
                && now - before.createdAt < 24 * 60 * 60
                && before.lastError.Some? && "no handler for job type " <= before.lastError.value
                && TakenBy(before, after, worker, now) && after.nextRunAt == now
                && after.lastError == None && after.finishedAt == None
      ensures forall id | id in rows && id !in picked :: rows[id] == old(rows)[id]
      ensures var most := if limit < 1 then 1 else if limit > 200 then 200 else limit;
              && |picked| <= most
              && forall id | id in old(rows) && id !in picked && id !in locked && Killed(old(rows)[id], types, now) ::
                   |picked| == most && forall p | p in picked :: old(rows)[p].createdAt <= old(rows)[id].createdAt
    {
      picked := {};
      if types == {} { return; }
      picked := TakeOldest(rows, KilledIds(rows, types, now, locked), KilledLimit(limit));
      rows := ReviveAll(rows, picked, worker, now);
    }
  }

  function KilledIds(t: Table, types: set<string>, now: Time, locked: set<JobId>): (ids: set<JobId>)
    ensures ids <= t.Keys
  {
    set id | id in t && id !in locked && Killed(t[id], types, now)
  }

  /** The oldest `limit` of the rows, or all of them when they are fewer. */
  method TakeOldest(t: Table, ids: set<JobId>, limit: nat) returns (picked: set<JobId>)
    requires ids <= t.Keys
    ensures picked <= ids && |picked| <= limit
    ensures forall id | id in ids - picked ::
      |picked| == limit && forall p | p in picked :: t[p].createdAt <= t[id].createdAt
  {
    picked := {};
    var left := ids;
    while left != {} && |picked| < limit
      invariant picked + left == ids && picked !! left && |picked| <= limit
      invariant forall p, id | p in picked && id in left :: t[p].createdAt <= t[id].createdAt
      decreases left
    {
      var id := Oldest(t, left);
      picked, left := picked + {id}, left - {id};
    }
  }

  method Oldest(t: Table, ids: set<JobId>) returns (oldest: JobId)
    requires ids != {} && ids <= t.Keys
    ensures oldest in ids && forall id | id in ids :: t[oldest].createdAt <= t[id].createdAt
  {
    oldest :| oldest in ids;
    var left := ids - {oldest};
    while left != {}
      invariant left <= ids && oldest in ids
      invariant forall id | id in ids - left :: t[oldest].createdAt <= t[id].createdAt
      decreases left
    {
      var id :| id in left;
      left := left - {id};
      if t[id].createdAt < t[oldest].createdAt { oldest := id; }
    }
  }
}
