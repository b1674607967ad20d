/**
 * Runs of the job queue: any number of workers, each knowing its own job types, stalled or killed at any point, against
 * one table. A completion updates its row by id alone, so a worker whose job was taken back still writes over it.
 */
module JobRuns {
  import opened Options
  import opened JobRows

  /** A live claim: which worker runs the job and the attempts it remembers; `landed`: its success was written, but the
      answer was lost on the way, so it is about to record a failure. */
  datatype Holder = Holder(worker: WorkerId, attempts: nat, landed: bool)

  /** What has happened to one job so far. */
  datatype Story = Story(holders: seq<Holder>, claims: nat, revivals: nat, reclaims: nat)

  datatype World = World(table: Table, stories: map<JobId, Story>, known: map<WorkerId, set<string>>)

  datatype Step =
    | Claim(worker: WorkerId, id: JobId, now: Time, locked: set<JobId>)
    | Succeed(id: JobId, h: nat, now: Time)
    | SucceedUnheard(id: JobId, h: nat, now: Time)
    | Fail(id: JobId, h: nat, thrown: string, now: Time)
    | Vanish(id: JobId, h: nat)
    | Reclaim(now: Time)
    | Revive(worker: WorkerId, picked: set<JobId>, now: Time, locked: set<JobId>, limit: int)
    | Enqueue(id: JobId, job: Job)
    | Retime(ids: set<JobId>, runAt: Time)

  const NEW_STORY := Story([], 0, 0, 0)

  function Knows(w: World, worker: WorkerId): set<string> {
    if worker in w.known then w.known[worker] else {}
  }

  function Without<T>(s: seq<T>, k: nat): seq<T>
    requires k < |s|
  {
    s[..k] + s[k + 1..]
  }

  predicate Holds(w: World, id: JobId, h: nat) {
    id in w.table && id in w.stories && h < |w.stories[id].holders|
  }

  predicate Handled(w: World, id: JobId, h: nat)
    requires Holds(w, id, h)
  {
    w.table[id].kind in Knows(w, w.stories[id].holders[h].worker)
  }

  /** What the worker records: its handler's own error, or that it has no handler. */
  function Message(w: World, id: JobId, h: nat, thrown: string): string
    requires Holds(w, id, h)
  {
    if Handled(w, id, h) then thrown else NO_HANDLER + w.table[id].kind
  }

  predicate Enabled(w: World, s: Step) {
    match s
    case Claim(_, id, now, locked) => IsNext(w.table, id, now, locked) && id in w.stories
    case Succeed(id, h, _) => Holds(w, id, h) && Handled(w, id, h) && !w.stories[id].holders[h].landed
    case SucceedUnheard(id, h, _) => Holds(w, id, h) && Handled(w, id, h) && !w.stories[id].holders[h].landed
    case Fail(id, h, _, _) => Holds(w, id, h)
    case Vanish(id, h) => Holds(w, id, h)
    case Reclaim(_) => true
    case Revive(worker, picked, now, locked, limit) =>
      Picks(w.table, picked, Knows(w, worker), now, locked, limit) && picked <= w.stories.Keys
    case Enqueue(id, job) => id !in w.table && !HasKey(w.table, job.key) && Fresh(job)
    case Retime(_, _) => true
  }

  function Apply(w: World, s: Step): World
    requires Enabled(w, s)
  {
    match s
    case Claim(worker, id, now, _) =>
      var row := Claimed(w.table[id], worker, now);
      var st := w.stories[id];
      w.(table := w.table[id := row],
         stories := w.stories[id := st.(holders := st.holders + [Holder(worker, row.attempts, false)],
           claims := st.claims + 1)])
    case Succeed(id, h, now) =>
      var st := w.stories[id];
      w.(table := w.table[id := Finished(w.table[id], now)],
         stories := w.stories[id := st.(holders := Without(st.holders, h))])
    case SucceedUnheard(id, h, now) =>
      var st := w.stories[id];
      w.(table := w.table[id := Finished(w.table[id], now)],
         stories := w.stories[id := st.(holders := st.holders[h := st.holders[h].(landed := true)])])
    case Fail(id, h, thrown, now) =>
      var st := w.stories[id];
      var row := w.table[id];
      var attempts, message := st.holders[h].attempts, Message(w, id, h, thrown);
      var failed := Failed(row, attempts, row.maxAttempts, Handled(w, id, h), message, now);
      w.(table := w.table[id := failed],
         stories := w.stories[id := st.(holders := Without(st.holders, h))])
    case Vanish(id, h) =>
      var st := w.stories[id];
      w.(stories := w.stories[id := st.(holders := Without(st.holders, h))])
    case Reclaim(now) =>
      w.(table := ReclaimAll(w.table, now),
         stories := map id | id in w.stories ::
           if id in w.table && Stale(w.table[id], now) then w.stories[id].(reclaims := w.stories[id].reclaims + 1)
             else w.stories[id])
    case Revive(worker, picked, now, _, _) =>
      w.(table := ReviveAll(w.table, picked, worker, now),
         stories := map id | id in w.stories ::
           if id in picked then
             var st := w.stories[id];
             st.(holders := st.holders + [Holder(worker, w.table[id].attempts + 1, false)], claims := st.claims + 1,
               revivals := st.revivals + 1)
           else w.stories[id])
    case Enqueue(id, job) =>
      w.(table := w.table[id := job], stories := w.stories[id := NEW_STORY])
    case Retime(ids, runAt) =>
      w.(table := Retimed(w.table, ids, runAt))
  }

  // ---- the invariant of one job ----------------------------------------------------------------------------------

  /** Holders whose failure still puts the job back to pending. */
  function Retriers(holders: seq<Holder>, maxAttempts: nat): nat {
    if holders == [] then 0
    else (if holders[0].attempts < maxAttempts then 1 else 0) + Retriers(holders[1..], maxAttempts)
  }

  /** How many more claims the row and its holders could lead to once the attempts are spent. */
  function Sources(j: Job, st: Story): nat {
    Retriers(st.holders, j.maxAttempts)
    + (if j.state == Pending || (j.state == Dead && j.attempts < j.maxAttempts) then 1 else 0)
  }

  predicate Sound(j: Job, st: Story) {
    && j.maxAttempts >= 1
    && st.claims == j.attempts
    && (forall h | h in st.holders :: 1 <= h.attempts <= j.attempts)
    && (j.state != Pending ==> j.attempts >= 1)
    && (j.state == Dead && j.attempts < j.maxAttempts ==> j.lastError.Some? && NO_HANDLER <= j.lastError.value)
    && (if j.attempts < j.maxAttempts then Sources(j, st) <= 1 + st.reclaims
        else j.attempts - j.maxAttempts + Sources(j, st) <= st.reclaims)
    && (if j.attempts == 0 then st.revivals == 0 else st.revivals + 1 <= Min(j.attempts, j.maxAttempts))
    && |st.holders| + (if j.state == Running then 0 else 1) <= 1 + st.reclaims + (if Unheard(j, st) then 1 else 0)
    && (forall h | h in st.holders && h.landed :: st.reclaims > 0 || j.state == Succeeded)
  }

  /** The row says succeeded, and a worker that wrote so has not heard back: it is about to record a failure. */
  predicate Unheard(j: Job, st: Story) {
    j.state == Succeeded && exists h :: h in st.holders && h.landed
  }

  predicate Inv(w: World) {
    && w.table.Keys == w.stories.Keys
    && (forall id | id in w.table :: Sound(w.table[id], w.stories[id]))
    && (forall a, b | a in w.table && b in w.table && a != b :: w.table[a].key != w.table[b].key)
  }

  lemma {:induction false} RetriersAppend(holders: seq<Holder>, h: Holder, m: nat)
    ensures Retriers(holders + [h], m) == Retriers(holders, m) + if h.attempts < m then 1 else 0
  {
    if holders == [] {
      assert holders + [h] == [h];
    } else {
      assert (holders + [h])[1..] == holders[1..] + [h];
      RetriersAppend(holders[1..], h, m);
    }
  }

  lemma {:induction false} RetriersWithout(holders: seq<Holder>, k: nat, m: nat)
    requires k < |holders|
    ensures Retriers(Without(holders, k), m) == Retriers(holders, m) - if holders[k].attempts < m then 1 else 0
  {
    if k == 0 {
      assert Without(holders, k) == holders[1..];
    } else {
      assert Without(holders, k)[1..] == Without(holders[1..], k - 1);
      RetriersWithout(holders[1..], k - 1, m);
    }
  }

  lemma {:induction false} RetriersUpdate(holders: seq<Holder>, k: nat, h: Holder, m: nat)
    requires k < |holders| && h.attempts == holders[k].attempts
    ensures Retriers(holders[k := h], m) == Retriers(holders, m)
  {
    if k == 0 {
      assert holders[k := h][1..] == holders[1..];
    } else {
      assert holders[k := h][1..] == holders[1..][k - 1 := h];
      RetriersUpdate(holders[1..], k - 1, h, m);
    }
  }

  lemma SoundAfterClaim(j: Job, st: Story, worker: WorkerId, revived: bool, row: Job)
    requires Sound(j, st)
    requires if revived then j.state == Dead && j.attempts < j.maxAttempts else j.state == Pending
    requires row.state == Running && row.attempts == j.attempts + 1 && row.maxAttempts == j.maxAttempts
    ensures Sound(row, st.(holders := st.holders + [Holder(worker, row.attempts, false)],
                           claims := st.claims + 1, revivals := st.revivals + if revived then 1 else 0))
  {
    RetriersAppend(st.holders, Holder(worker, row.attempts, false), j.maxAttempts);
  }

  lemma SoundAfterFail(j: Job, st: Story, k: nat, handled: bool, message: string, now: Time)
    requires Sound(j, st) && k < |st.holders|
    requires !handled ==> NO_HANDLER <= message
    ensures Sound(Failed(j, st.holders[k].attempts, j.maxAttempts, handled, message, now),
      st.(holders := Without(st.holders, k)))
  {
    RetriersWithout(st.holders, k, j.maxAttempts);
    assert st.holders[k] in st.holders;
    forall h | h in Without(st.holders, k) ensures h in st.holders { }
  }

  lemma SoundAfterRelease(j: Job, st: Story, k: nat, row: Job)
    requires Sound(j, st) && k < |st.holders|
    requires row == j || (row.state == Succeeded && row.attempts == j.attempts && row.maxAttempts == j.maxAttempts)
    ensures Sound(row, st.(holders := Without(st.holders, k)))
  {
    RetriersWithout(st.holders, k, j.maxAttempts);
    assert st.holders[k] in st.holders;
    forall h | h in Without(st.holders, k) ensures h in st.holders { }
  }

  lemma SoundAfterUnheard(j: Job, st: Story, k: nat, now: Time)
    requires Sound(j, st) && k < |st.holders|
    ensures Sound(Finished(j, now),
      st.(holders := st.holders[k := st.holders[k].(landed := true)]))
  {
    var h' := st.holders[k].(landed := true);
    RetriersUpdate(st.holders, k, h', j.maxAttempts);
    assert st.holders[k] in st.holders;
    forall h | h in st.holders[k := h'] ensures 1 <= h.attempts <= j.attempts { if h != h' { assert h in st.holders; } }
    assert st.holders[k := h'][k] == h' && h' in st.holders[k := h'];
  }

  // What one step does to one job's row and story, whether the step is about it or not.

  lemma AfterTaking(w: World, s: Step, id: JobId)
    requires Enabled(w, s) && id in w.table && id in w.stories && Sound(w.table[id], w.stories[id])
    requires s.Claim? || s.Revive?
    ensures id in Apply(w, s).table && id in Apply(w, s).stories
    ensures Sound(Apply(w, s).table[id], Apply(w, s).stories[id])
  {
    var j, st := w.table[id], w.stories[id];
    if s.Claim? {
      if s.id == id { SoundAfterClaim(j, st, s.worker, false, Claimed(j, s.worker, s.now)); }
    } else {
      if id in s.picked { SoundAfterClaim(j, st, s.worker, true, Revived(j, s.worker, s.now)); }
    }
  }

  lemma AfterSucceeding(w: World, s: Step, id: JobId)
    requires Enabled(w, s) && id in w.table && id in w.stories && Sound(w.table[id], w.stories[id])
    requires s.Succeed? || s.SucceedUnheard?
    ensures id in Apply(w, s).table && id in Apply(w, s).stories
    ensures Sound(Apply(w, s).table[id], Apply(w, s).stories[id])
  {
    var j, st := w.table[id], w.stories[id];
    if s.id == id {
      if s.Succeed? {
        SoundAfterRelease(j, st, s.h, Finished(j, s.now));
      } else {
        SoundAfterUnheard(j, st, s.h, s.now);
      }
    }
  }

  lemma AfterFailing(w: World, s: Step, id: JobId)
    requires Enabled(w, s) && id in w.table && id in w.stories && Sound(w.table[id], w.stories[id])
    requires s.Fail? || s.Vanish?
    ensures id in Apply(w, s).table && id in Apply(w, s).stories
    ensures Sound(Apply(w, s).table[id], Apply(w, s).stories[id])
  {
    var j, st := w.table[id], w.stories[id];
    if s.id == id {
      if s.Fail? {
        SoundAfterFail(j, st, s.h, Handled(w, id, s.h), Message(w, id, s.h, s.thrown), s.now);
      } else {
        SoundAfterRelease(j, st, s.h, j);
      }
    }
  }

  lemma AfterMaintenance(w: World, s: Step, id: JobId)
    requires Enabled(w, s) && id in w.table && id in w.stories && Sound(w.table[id], w.stories[id])
    requires s.Reclaim? || s.Enqueue? || s.Retime?
    ensures id in Apply(w, s).table && id in Apply(w, s).stories
    ensures Sound(Apply(w, s).table[id], Apply(w, s).stories[id])
  {
    var j, st := w.table[id], w.stories[id];
    if s.Reclaim? && Stale(j, s.now) { assert Sound(Reclaimed(j), st.(reclaims := st.reclaims + 1)); }
    if s.Retime? && id in s.ids && Untried(j) { assert Sound(j.(nextRunAt := s.runAt), st); }
  }

  lemma JobStep(w: World, s: Step, id: JobId)
    requires Enabled(w, s) && id in w.table && id in w.stories && Sound(w.table[id], w.stories[id])
    ensures id in Apply(w, s).table && id in Apply(w, s).stories
    ensures Sound(Apply(w, s).table[id], Apply(w, s).stories[id])
  {
    if s.Claim? || s.Revive? { AfterTaking(w, s, id); }
    else if s.Succeed? || s.SucceedUnheard? { AfterSucceeding(w, s, id); }
    else if s.Fail? || s.Vanish? { AfterFailing(w, s, id); }
    else { AfterMaintenance(w, s, id); }
  }

  /** No step changes a key, and none adds one that is already there. */
  lemma KeysAfter(w: World, s: Step)
    requires Enabled(w, s) && w.table.Keys == w.stories.Keys
    ensures Apply(w, s).table.Keys == Apply(w, s).stories.Keys
    ensures w.table.Keys <= Apply(w, s).table.Keys
    ensures forall id | id in w.table :: Apply(w, s).table[id].key == w.table[id].key
    ensures forall id | id in Apply(w, s).table.Keys - w.table.Keys ::
              s == Enqueue(id, Apply(w, s).table[id]) && Apply(w, s).stories[id] == NEW_STORY
  {
  }

  lemma OneStep(w: World, s: Step)
    requires Inv(w) && Enabled(w, s)
    ensures Inv(Apply(w, s))
  {
    var w' := Apply(w, s);
    KeysAfter(w, s);
    forall id | id in w'.table ensures Sound(w'.table[id], w'.stories[id]) {
      if id in w.table { JobStep(w, s, id); } else { assert Fresh(w'.table[id]); }
    }
    forall a, b | a in w'.table && b in w'.table && a != b ensures w'.table[a].key != w'.table[b].key {
      if a !in w.table { assert !HasKey(w.table, w'.table[a].key); }
      if b !in w.table { assert !HasKey(w.table, w'.table[b].key); }
    }
  }

  // ---- whole runs ------------------------------------------------------------------------------------------------

  ghost predicate IsRun(ws: seq<World>, steps: seq<Step>) {
    && |ws| == |steps| + 1
    && (forall k | 0 <= k < |steps| :: Enabled(ws[k], steps[k]) && ws[k + 1] == Apply(ws[k], steps[k]))
  }

  /** A run from an empty table. */
  ghost predicate IsHistory(ws: seq<World>, steps: seq<Step>) {
    IsRun(ws, steps) && ws[0].table == map[] && ws[0].stories == map[]
  }

  lemma {:induction false} InvAlways(ws: seq<World>, steps: seq<Step>, n: nat)
    requires IsHistory(ws, steps) && n < |ws|
    ensures Inv(ws[n])
  {
    if n > 0 {
      InvAlways(ws, steps, n - 1);
      OneStep(ws[n - 1], steps[n - 1]);
    }
  }

  /** However the workers stall, a job is claimed at most max_attempts times plus once for each time it was taken back,
      and revived from dead at most max_attempts - 1 times. */
  lemma ClaimsAreBounded(ws: seq<World>, steps: seq<Step>, n: nat, id: JobId)
    requires IsHistory(ws, steps) && n < |ws| && id in ws[n].table
    ensures id in ws[n].stories
    ensures ws[n].stories[id].claims <= ws[n].table[id].maxAttempts + ws[n].stories[id].reclaims
    ensures ws[n].stories[id].revivals <= ws[n].table[id].maxAttempts - 1
    ensures ws[n].table[id].attempts == ws[n].stories[id].claims
  {
    InvAlways(ws, steps, n);
    assert Sound(ws[n].table[id], ws[n].stories[id]);
  }

  /**
   * Live holders, and one more when the row is not running, never exceed one plus the reclaims; but for one more while
   * a success stands that its worker has not heard of.
   */
  lemma HoldersAreBounded(ws: seq<World>, steps: seq<Step>, n: nat, id: JobId)
    requires IsHistory(ws, steps) && n < |ws| && id in ws[n].table
    ensures id in ws[n].stories
    ensures |ws[n].stories[id].holders| + (if ws[n].table[id].state == Running then 0 else 1)
            <= 1 + ws[n].stories[id].reclaims + (if Unheard(ws[n].table[id], ws[n].stories[id]) then 1 else 0)
  {
    InvAlways(ws, steps, n);
    assert Sound(ws[n].table[id], ws[n].stories[id]);
  }

  /**
   * However often the schedule is passed and the settings changed, a recipient has at most one report job for a date.
   */
  lemma OneReportEach(ws: seq<World>, steps: seq<Step>, n: nat, a: JobId, b: JobId)
    requires IsHistory(ws, steps) && n < |ws| && a in ws[n].table && b in ws[n].table
    requires ws[n].table[a].key.ReportKey? && ws[n].table[a].key == ws[n].table[b].key
    ensures a == b
  {
    InvAlways(ws, steps, n);
  }

  /**
   * While a job was never taken back, whatever answers were lost, it has one holder at most: the row is running for
   * that holder, or says succeeded as that holder wrote it, unheard. Whatever changes the row then is that holder's own
   * completion or the reclaim: no other worker, old or new, gets at it.
   */
  lemma OneWorkerAtATime(ws: seq<World>, steps: seq<Step>, n: nat, id: JobId)
    requires IsHistory(ws, steps) && n < |steps| && id in ws[n].table
    requires id in ws[n].stories && ws[n].stories[id].reclaims == 0
    requires ws[n].stories[id].holders != []
    ensures |ws[n].stories[id].holders| == 1
    ensures ws[n].table[id].state == if ws[n].stories[id].holders[0].landed then Succeeded else Running
    ensures id in ws[n + 1].table
    ensures ws[n + 1].table[id] != ws[n].table[id] ==>
              match steps[n]
              case Succeed(i, h, _) => i == id && h == 0
              case SucceedUnheard(i, h, _) => i == id && h == 0
              case Fail(i, h, _, _) => i == id && h == 0
              case Reclaim(now) => Stale(ws[n].table[id], now)
              case _ => false
  {
    InvAlways(ws, steps, n);
    assert Sound(ws[n].table[id], ws[n].stories[id]);
    assert ws[n].stories[id].holders[0] in ws[n].stories[id].holders;
  }

  /** A succeeded row changes its state exactly when a live holder records a failure over it. */
  lemma LeavesSucceededIff(w: World, s: Step, id: JobId)
    requires Enabled(w, s) && id in w.table && w.table[id].state == Succeeded
    ensures id in Apply(w, s).table
    ensures Apply(w, s).table[id].state != Succeeded <==> s.Fail? && s.id == id
  {
  }

  /** A row nobody holds keeps a final state through any step, and nobody comes to hold it. */
  lemma UnheldSucceededStays(w: World, s: Step, id: JobId)
    requires Enabled(w, s) && id in w.table && id in w.stories && w.table[id].state == Succeeded
    requires w.stories[id].holders == []
    ensures id in Apply(w, s).table && Apply(w, s).table[id] == w.table[id]
    ensures id in Apply(w, s).stories && Apply(w, s).stories[id].holders == []
  {
  }

  /** Whatever the workers do from here, the row ends as it is now: succeeded. */
  ghost predicate StaysSucceeded(w: World, id: JobId)
    requires id in w.table && w.table[id].state == Succeeded
  {
    forall ws, steps | IsRun(ws, steps) && ws[0] == w :: Ends(ws, id, w.table[id])
  }

  ghost predicate Ends(ws: seq<World>, id: JobId, row: Job)
    requires ws != []
  {
    id in ws[|ws| - 1].table && ws[|ws| - 1].table[id] == row
  }

  lemma {:induction false} UnheldStaysSucceeded(ws: seq<World>, steps: seq<Step>, id: JobId, n: nat)
    requires IsRun(ws, steps) && n < |ws| && id in ws[0].table && id in ws[0].stories
    requires ws[0].table[id].state == Succeeded && ws[0].stories[id].holders == []
    ensures id in ws[n].table && id in ws[n].stories && ws[n].table[id] == ws[0].table[id]
      && ws[n].stories[id].holders == []
  {
    if n > 0 {
      UnheldStaysSucceeded(ws, steps, id, n - 1);
      UnheldSucceededStays(ws[n - 1], steps[n - 1], id);
    }
  }

  /** Success is final from here, through every run, exactly when no worker still holds the job. */
  lemma SucceededStaysIff(w: World, id: JobId)
    requires id in w.table && id in w.stories && w.table[id].state == Succeeded
    ensures StaysSucceeded(w, id) <==> w.stories[id].holders == []
  {
    if w.stories[id].holders == [] {
      forall ws, steps | IsRun(ws, steps) && ws[0] == w ensures Ends(ws, id, w.table[id]) {
        UnheldStaysSucceeded(ws, steps, id, |steps|);
      }
    } else {
      var s := Fail(id, 0, "", 0);
      var ws, steps := [w, Apply(w, s)], [s];
      assert IsRun(ws, steps);
      LeavesSucceededIff(w, s, id);
      assert !Ends(ws, id, w.table[id]);
    }
  }

  /**
   * In every run, the success of a job that was never taken back is final, whatever follows, exactly when its worker
   * has heard of it.
   */
  lemma SucceededIsFinalIff(ws: seq<World>, steps: seq<Step>, id: JobId, n: nat)
    requires IsHistory(ws, steps) && n < |ws| && id in ws[n].table && ws[n].table[id].state == Succeeded
    requires id in ws[n].stories && ws[n].stories[id].reclaims == 0
    ensures StaysSucceeded(ws[n], id) <==> !Unheard(ws[n].table[id], ws[n].stories[id])
  {
    InvAlways(ws, steps, n);
    assert Sound(ws[n].table[id], ws[n].stories[id]);
    SucceededStaysIff(ws[n], id);
  }

  // ---- what another worker killed ----------------------------------------------------------------------------------

  /**
   * In every run what counts as killed by a worker that did not know it is any dead job with attempts left, created
   * within the last day and of a type this worker knows: no other death leaves attempts.
   */
  lemma KilledIff(ws: seq<World>, steps: seq<Step>, n: nat, id: JobId, types: set<string>, now: Time)
    requires IsHistory(ws, steps) && n < |ws| && id in ws[n].table
    ensures var j := ws[n].table[id];
      Killed(j, types, now) <==>
        j.state == Dead && j.attempts < j.maxAttempts && j.kind in types && now - j.createdAt < 24 * 60 * 60
  {
    InvAlways(ws, steps, n);
    assert Sound(ws[n].table[id], ws[n].stories[id]);
  }

  /** A worker that does not know a young job's type and has attempts left to spend kills it for one that does. */
  lemma UnhandledIsKilled(w: World, id: JobId, h: nat, thrown: string, now: Time, types: set<string>, later: Time)
    requires Enabled(w, Fail(id, h, thrown, now)) && !Handled(w, id, h) && |w.table[id].kind| <= 1000
    requires w.table[id].attempts < w.table[id].maxAttempts && w.table[id].kind in types
    requires later - w.table[id].createdAt < 24 * 60 * 60
    ensures Killed(Apply(w, Fail(id, h, thrown, now)).table[id], types, later)
  {
  }

  // ---- what is taken back ----------------------------------------------------------------------------------------

  /** A running row says since when, and its time had come by then. */
  predicate LockedInTime(j: Job) {
    j.state == Running ==> j.lockedAt.Some? && j.lockedBy.Some? && j.nextRunAt <= j.lockedAt.value
  }

  lemma StaysLockedInTime(w: World, s: Step, id: JobId)
    requires Enabled(w, s) && (id in w.table ==> LockedInTime(w.table[id])) && id in Apply(w, s).table
    ensures LockedInTime(Apply(w, s).table[id])
  {
  }

  lemma {:induction false} AlwaysLockedInTime(ws: seq<World>, steps: seq<Step>, n: nat, id: JobId)
    requires IsHistory(ws, steps) && n < |ws| && id in ws[n].table
    ensures LockedInTime(ws[n].table[id])
  {
    if n > 0 {
      if id in ws[n - 1].table { AlwaysLockedInTime(ws, steps, n - 1, id); }
      StaysLockedInTime(ws[n - 1], steps[n - 1], id);
    }
  }

  /**
   * In every run a job is taken back exactly when it has been running for more than 15 minutes, and it can then be
   * claimed at once, its attempts unspent, by any worker: also while the one that stalled still holds it.
   */
  lemma TakenBackIsDue(ws: seq<World>, steps: seq<Step>, n: nat, id: JobId, now: Time)
    requires IsHistory(ws, steps) && n < |ws| && id in ws[n].table
    ensures var j, t := ws[n].table[id], Apply(ws[n], Reclaim(now)).table;
      id in t && (t[id] != j <==> j.state == Running && j.lockedAt.Some? && now - j.lockedAt.value > 15 * 60)
    ensures var j, w := ws[n].table[id], Apply(ws[n], Reclaim(now));
      w.table[id] != j ==>
        && Due(w.table, id, now, {}) && w.table[id].attempts == j.attempts
        && id in ws[n].stories && id in w.stories && w.stories[id].holders == ws[n].stories[id].holders
        && w.stories[id].reclaims == ws[n].stories[id].reclaims + 1
    ensures var j, w := ws[n].table[id], Apply(ws[n], Reclaim(now));
      w.table[id] == j ==> id in ws[n].stories && id in w.stories && w.stories[id] == ws[n].stories[id]
  {
    AlwaysLockedInTime(ws, steps, n, id);
    InvAlways(ws, steps, n);
  }

  // ---- no starvation ---------------------------------------------------------------------------------------------

  /** The other pending jobs due at or before `at`. */
  function Ahead(t: Table, id: JobId, at: Time): set<JobId> {
    set o | o in t && o != id && t[o].state == Pending && t[o].nextRunAt <= at
  }

  ghost predicate Waiting(w: World, id: JobId, at: Time) {
    && id in w.table && id in w.stories
    && w.table[id].state == Pending && w.table[id].nextRunAt == at && w.stories[id].holders == []
  }

  /** Nothing is inserted, moved or taken back to at or before `at`, and the job itself is neither moved nor locked. */
  ghost predicate Quiet(w: World, s: Step, id: JobId, at: Time) {
    match s
    case Claim(_, _, now, locked) => at <= now && id !in locked
    case Fail(_, _, _, now) => at <= now
    case Reclaim(now) => forall o | o in w.table && Stale(w.table[o], now) :: w.table[o].nextRunAt > at
    case Enqueue(_, job) => job.nextRunAt > at
    case Retime(ids, runAt) => id !in ids && runAt > at
    case _ => true
  }

  lemma QuietStep(w: World, s: Step, id: JobId, at: Time)
    requires Enabled(w, s) && Waiting(w, id, at) && Quiet(w, s, id, at)
    requires s.Claim? ==> s.id != id
    ensures Waiting(Apply(w, s), id, at)
    ensures Ahead(Apply(w, s).table, id, at) <= Ahead(w.table, id, at)
    ensures s.Claim? ==> s.id in Ahead(w.table, id, at) - Ahead(Apply(w, s).table, id, at)
  {
    if s.Claim? { assert Due(w.table, id, s.now, s.locked); }
  }

  lemma SmallerSet<T>(a: set<T>, b: set<T>)
    requires a <= b
    ensures |a| <= |b| && (a != b ==> |a| < |b|)
  {
    assert b == a + (b - a);
    assert |b| == |a| + |b - a|;
  }

  function ClaimsIn(steps: seq<Step>): nat {
    if steps == [] then 0 else (if steps[0].Claim? then 1 else 0) + ClaimsIn(steps[1..])
  }

  /** A due job nobody holds is claimed at the latest by the claim after one for each job ahead of it. */
  lemma {:induction false} NoStarvation(ws: seq<World>, steps: seq<Step>, id: JobId, at: Time)
    requires IsRun(ws, steps) && Waiting(ws[0], id, at)
    requires forall k | 0 <= k < |steps| :: Quiet(ws[k], steps[k], id, at)
    requires ClaimsIn(steps) > |Ahead(ws[0].table, id, at)|
    ensures exists k | 0 <= k < |steps| :: steps[k].Claim? && steps[k].id == id
    decreases |steps|
  {
    var s := steps[0];
    if !(s.Claim? && s.id == id) {
      QuietStep(ws[0], s, id, at);
      SmallerSet(Ahead(ws[1].table, id, at), Ahead(ws[0].table, id, at));
      RunTail(ws, steps);
      NoStarvation(ws[1..], steps[1..], id, at);
      var k :| 0 <= k < |steps[1..]| && steps[1..][k].Claim? && steps[1..][k].id == id;
      assert steps[k + 1] == steps[1..][k];
    }
  }

  lemma RunTail(ws: seq<World>, steps: seq<Step>)
    requires IsRun(ws, steps) && steps != []
    ensures IsRun(ws[1..], steps[1..])
  {
    forall k | 0 <= k < |steps[1..]|
      ensures Enabled(ws[1..][k], steps[1..][k]) && ws[1..][k + 1] == Apply(ws[1..][k], steps[1..][k])
    {
      assert Enabled(ws[k + 1], steps[k + 1]);
    }
  }

  // ---- what a reclaim and a lost answer do ------------------------------------------------------------------------

  const SAMPLE := Job("routine.run", "org", OtherKey("k"), Pending, 0, 1, 0, 0, None, None, None, None)
  const SAMPLE_FLEET: map<WorkerId, set<string>> := map[1 := {"routine.run"}, 2 := {"routine.run"}]

  function Play(w: World, steps: seq<Step>): Option<World>
    decreases |steps|
  {
    if steps == [] then Some(w) else if Enabled(w, steps[0]) then Play(Apply(w, steps[0]), steps[1..]) else None
  }

  function OneJob(j: Job, st: Story): World {
    World(map[7 := j], map[7 := st], SAMPLE_FLEET)
  }

  const STALLED := OneJob(SAMPLE.(attempts := 1), Story([Holder(1, 1, false)], 1, 0, 1))
  const TAKEN_OVER := OneJob(SAMPLE.(attempts := 2, state := Succeeded, finishedAt := Some(1001)),
                             Story([Holder(1, 1, false)], 2, 0, 1))

  lemma StallsAndIsTakenBack()
    ensures Play(OneJob(SAMPLE, NEW_STORY), [Claim(1, 7, 0, {}), Reclaim(1000)]) == Some(STALLED)
  {
    var w0 := OneJob(SAMPLE, NEW_STORY);
    assert IsNext(w0.table, 7, 0, {});
    var w1 := OneJob(SAMPLE.(state := Running, attempts := 1, lockedAt := Some(0), lockedBy := Some(1)),
                     Story([Holder(1, 1, false)], 1, 0, 0));
    assert [] + [Holder(1, 1, false)] == w1.stories[7].holders;
    assert Apply(w0, Claim(1, 7, 0, {})).table == w1.table;
    assert Apply(w0, Claim(1, 7, 0, {})).stories == w1.stories;
    assert Apply(w1, Reclaim(1000)) == STALLED;
    PlayTwo(w0, Claim(1, 7, 0, {}), Reclaim(1000));
  }

  lemma AnotherWorkerSucceeds()
    ensures Play(STALLED, [Claim(2, 7, 1000, {}), Succeed(7, 1, 1001)]) == Some(TAKEN_OVER)
  {
    assert IsNext(STALLED.table, 7, 1000, {});
    var w1 := OneJob(SAMPLE.(state := Running, attempts := 2, lockedAt := Some(1000), lockedBy := Some(2)),
                     Story([Holder(1, 1, false), Holder(2, 2, false)], 2, 0, 1));
    assert [Holder(1, 1, false)] + [Holder(2, 2, false)] == w1.stories[7].holders;
    assert Apply(STALLED, Claim(2, 7, 1000, {})).table == w1.table;
    assert Apply(STALLED, Claim(2, 7, 1000, {})).stories == w1.stories;
    assert Without(w1.stories[7].holders, 1) == [Holder(1, 1, false)];
    assert Apply(w1, Succeed(7, 1, 1001)) == TAKEN_OVER;
    PlayTwo(STALLED, Claim(2, 7, 1000, {}), Succeed(7, 1, 1001));
  }

  /** A worker that stalled past the reclaim writes its failure over another worker's success, and a job of one attempt
      has by then been claimed twice. */
  lemma ReclaimUndoesSuccess()
    ensures exists w :: Play(OneJob(SAMPLE, NEW_STORY), [Claim(1, 7, 0, {}), Reclaim(1000)]) == Some(w)
              && Play(w, [Claim(2, 7, 1000, {}), Succeed(7, 1, 1001)]) == Some(TAKEN_OVER)
    ensures TAKEN_OVER.stories[7].claims == 2 > TAKEN_OVER.table[7].maxAttempts
      && TAKEN_OVER.table[7].state == Succeeded
    ensures Enabled(TAKEN_OVER, Fail(7, 0, "timeout", 1002))
    ensures Apply(TAKEN_OVER, Fail(7, 0, "timeout", 1002)).table[7].state == Dead
  {
    StallsAndIsTakenBack();
    AnotherWorkerSucceeds();
  }

  /** With no reclaim at all: the success is written, its answer is lost, and the same worker records a failure. */
  lemma LostAnswerUndoesSuccess()
    ensures var w := Play(OneJob(SAMPLE.(maxAttempts := 3), NEW_STORY), [Claim(1, 7, 0, {}), SucceedUnheard(7, 0, 1)]);
            && w.Some? && 7 in w.value.table && w.value.table[7].state == Succeeded
            && 7 in w.value.stories && w.value.stories[7].reclaims == 0
            && Enabled(w.value, Fail(7, 0, "connection lost", 2))
            && Apply(w.value, Fail(7, 0, "connection lost", 2)).table[7].state == Pending
  {
    var w0 := OneJob(SAMPLE.(maxAttempts := 3), NEW_STORY);
    assert IsNext(w0.table, 7, 0, {});
    var w1 := Apply(w0, Claim(1, 7, 0, {}));
    assert w1.stories[7].holders == [Holder(1, 1, false)];
    PlayTwo(w0, Claim(1, 7, 0, {}), SucceedUnheard(7, 0, 1));
  }

  lemma PlayTwo(w: World, s0: Step, s1: Step)
    requires Enabled(w, s0) && Enabled(Apply(w, s0), s1)
    ensures Play(w, [s0, s1]) == Some(Apply(Apply(w, s0), s1))
  {
    assert [s0, s1][1..] == [s1];
    assert [s1][1..] == [];
    assert Play(Apply(w, s0), [s1]) == Play(Apply(Apply(w, s0), s1), []);
  }
}
