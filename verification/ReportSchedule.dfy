/**
 * One scheduling pass for the end-of-day reports: waiting jobs move to the time now set, and missing ones are queued.
 */
module ReportSchedule {
  import opened Options
  import opened JobRows
  import opened JobQueue
  import JobRuns

  const REPORT := "brenda.daily_report"
  const HOUR := 3600

  /** How often a job may be tried, which is once at least. */
  type Attempts = n: nat | n >= 1 witness 1

  /** An organisation as one pass reads it; `runAt` is its report time today, on its own clock. */
  datatype Org = Org(id: string, today: string, workingDay: bool, runAt: Time, recipients: seq<string>)

  predicate WaitsFor(j: Job, org: Org) {
    j.kind == REPORT && Untried(j) && j.organisation == org.id && j.key.ReportKey? && j.key.localDate == org.today
  }

  ghost predicate OnTime(t: Table, org: Org) {
    forall id | id in t :: WaitsFor(t[id], org) ==> t[id].nextRunAt == org.runAt
  }

  ghost predicate UniqueKeys(t: Table) {
    forall a, b | a in t && b in t && a != b :: t[a].key != t[b].key
  }

  predicate DueSoon(org: Org, now: Time) { org.workingDay && org.runAt <= now + HOUR }

  predicate WasQueuedFor(j: Job, org: Org, now: Time) {
    && DueSoon(org, now) && WaitsFor(j, org) && Fresh(j) && j.nextRunAt == org.runAt
      && j.key.recipient in org.recipients
  }

  /** What a pass over `orgs` may do to a table: move untried reports, and add reports that are due soon. */
  ghost predicate Extends(before: Table, after: Table, orgs: seq<Org>, now: Time) {
    && before.Keys <= after.Keys
    && (forall id | id in before :: after[id] == before[id]
          || (exists o | o in orgs ::
            o.workingDay && WaitsFor(before[id], o) && after[id] == before[id].(nextRunAt := o.runAt)))
    && (forall id | id in after.Keys - before.Keys :: exists o | o in orgs :: WasQueuedFor(after[id], o, now))
  }

  /** How many enqueue calls the pass counts, those the key turns away included. */
  function Counted(orgs: seq<Org>, now: Time): nat {
    if orgs == [] then 0
    else Counted(orgs[..|orgs| - 1], now) + (var o := orgs[|orgs| - 1]; if DueSoon(o, now) then |o.recipients| else 0)
  }

  function ReportJob(org: Org, recipient: string, now: Time, maxAttempts: Attempts): Job {
    Job(REPORT, org.id, ReportKey(recipient, org.today), Pending, 0, maxAttempts, org.runAt, now, None, None, None,
      None)
  }

  method FreshId(ids: set<JobId>) returns (n: JobId)
    ensures n !in ids
  {
    n := 0;
    var left := ids;
    while left != {}
      invariant left <= ids && forall x | x in ids :: x in left || x < n
      decreases left
    {
      var i :| i in left;
      left := left - {i};
      if n <= i { n := i + 1; }
    }
  }

  /** Inserts the job unless its key is there. */
  method EnqueueJob(jobs: Jobs, job: Job) returns (added: Option<JobId>)
    modifies jobs
    ensures added.None? <==> HasKey(old(jobs.rows), job.key)
    ensures added.None? ==> jobs.rows == old(jobs.rows)
    ensures added.Some? ==> added.value !in old(jobs.rows) && jobs.rows == old(jobs.rows)[added.value := job]
  {
    if HasKey(jobs.rows, job.key) { return None; }
    var id := FreshId(jobs.rows.Keys);
    jobs.rows := jobs.rows[id := job];
    added := Some(id);
  }

  /** One organisation's jobs, queued: nothing that was there changes, and what is new is for one of its recipients. */
  ghost predicate Queued(before: Table, after: Table, org: Org, now: Time) {
    && before.Keys <= after.Keys
    && (forall id | id in before :: after[id] == before[id])
    && (forall id | id in after.Keys - before.Keys :: WasQueuedFor(after[id], org, now))
  }

  lemma QueuedOneMore(t0: Table, t: Table, id: JobId, org: Org, r: string, now: Time, maxAttempts: Attempts)
    requires Queued(t0, t, org, now) && UniqueKeys(t) && OnTime(t, org) && DueSoon(org, now) && r in org.recipients
    requires id !in t && !HasKey(t, ReportKey(r, org.today))
    ensures var t' := t[id := ReportJob(org, r, now, maxAttempts)];
            Queued(t0, t', org, now) && UniqueKeys(t') && OnTime(t', org)
  {
  }

  lemma KeyKept(t: Table, t': Table, key: DedupKey)
    requires HasKey(t, key) && t.Keys <= t'.Keys && forall id | id in t :: t'[id].key == t[id].key
    ensures HasKey(t', key)
  {
    var id :| id in t.Keys && t[id].key == key;
    assert t'[id].key == key;
  }

  method QueueRecipients(jobs: Jobs, org: Org, now: Time, maxAttempts: Attempts) returns (queued: nat)
    requires UniqueKeys(jobs.rows) && OnTime(jobs.rows, org) && DueSoon(org, now)
    modifies jobs
    ensures UniqueKeys(jobs.rows) && OnTime(jobs.rows, org)
    ensures Queued(old(jobs.rows), jobs.rows, org, now)
    ensures forall r | r in org.recipients :: HasKey(jobs.rows, ReportKey(r, org.today))
    ensures queued == |org.recipients|
  {
    queued := 0;
    for k := 0 to |org.recipients|
      invariant queued == k
      invariant UniqueKeys(jobs.rows) && OnTime(jobs.rows, org) && Queued(old(jobs.rows), jobs.rows, org, now)
      invariant forall i | 0 <= i < k :: HasKey(jobs.rows, ReportKey(org.recipients[i], org.today))
    {
      var r := org.recipients[k];
      ghost var t := jobs.rows;
      var added := EnqueueJob(jobs, ReportJob(org, r, now, maxAttempts));
      if added.Some? {
        QueuedOneMore(old(jobs.rows), t, added.value, org, r, now, maxAttempts);
        assert jobs.rows[added.value].key == ReportKey(r, org.today);
      }
      forall i | 0 <= i < k ensures HasKey(jobs.rows, ReportKey(org.recipients[i], org.today)) {
        KeyKept(t, jobs.rows, ReportKey(org.recipients[i], org.today));
      }
      queued := queued + 1;
    }
  }

  // ---- the pass --------------------------------------------------------------------------------------------------

  /** What holds of an organisation a pass has been through. */
  ghost predicate ServedOne(t: Table, org: Org, now: Time) {
    org.workingDay ==>
      && OnTime(t, org)
      && (DueSoon(org, now) ==> forall r | r in org.recipients :: HasKey(t, ReportKey(r, org.today)))
  }

  ghost predicate Served(t: Table, orgs: seq<Org>, now: Time) {
    forall o | o in orgs :: ServedOne(t, o, now)
  }

  ghost predicate Distinct(orgs: seq<Org>) {
    forall i, j | 0 <= i < j < |orgs| :: orgs[i].id != orgs[j].id
  }

  function Moved(t: Table, org: Org): Table {
    Retimed(t, (set id | id in t && WaitsFor(t[id], org) && t[id].nextRunAt != org.runAt), org.runAt)
  }

  lemma MovedIsOnTime(t: Table, org: Org)
    requires UniqueKeys(t)
    ensures UniqueKeys(Moved(t, org)) && OnTime(Moved(t, org), org) && Moved(t, org).Keys == t.Keys
    ensures forall id | id in t :: Moved(t, org)[id] ==
              if WaitsFor(t[id], org) then t[id].(nextRunAt := org.runAt) else t[id]
    ensures forall id | id in t ::
              var j := t[id];
              if j.kind == "brenda.daily_report" && j.state == Pending && j.attempts == 0 && j.organisation == org.id
                 && j.key.ReportKey? && j.key.localDate == org.today
              then Moved(t, org)[id] == j.(nextRunAt := org.runAt) else Moved(t, org)[id] == j
  {
  }

  lemma MovedExtends(t0: Table, t: Table, orgs: seq<Org>, org: Org, now: Time)
    requires Extends(t0, t, orgs, now) && org.workingDay && UniqueKeys(t)
    requires forall o | o in orgs :: o.id != org.id
    ensures Extends(t0, Moved(t, org), orgs + [org], now)
  {
    MovedIsOnTime(t, org);
    ExtendsMore(t0, t, orgs, org, now);
    assert org in orgs + [org];
    forall id | id in t0 && WaitsFor(t[id], org)
      ensures exists o | o in orgs + [org] ::
        o.workingDay && WaitsFor(t0[id], o) && Moved(t, org)[id] == t0[id].(nextRunAt := o.runAt)
    {
      assert t[id] == t0[id];
    }
  }

  /** Another organisation's move or enqueueing leaves one already served as it was. */
  lemma StillServed(t: Table, t': Table, org: Org, other: Org, now: Time)
    requires ServedOne(t, org, now) && org.id != other.id && t.Keys <= t'.Keys
    requires forall id | id in t :: t'[id].key == t[id].key && (!WaitsFor(t[id], other) ==> t'[id] == t[id])
    requires forall id | id in t && WaitsFor(t[id], other) :: t'[id] == t[id].(nextRunAt := t'[id].nextRunAt)
    requires forall id | id in t'.Keys - t.Keys :: WaitsFor(t'[id], other)
    ensures ServedOne(t', org, now)
  {
    if DueSoon(org, now) {
      forall r | r in org.recipients ensures HasKey(t', ReportKey(r, org.today)) {
        KeyKept(t, t', ReportKey(r, org.today));
      }
    }
  }

  lemma ExtendsMore(t0: Table, t: Table, orgs: seq<Org>, org: Org, now: Time)
    requires Extends(t0, t, orgs, now)
    ensures Extends(t0, t, orgs + [org], now)
  {
    assert forall o | o in orgs :: o in orgs + [org];
  }

  lemma QueuedExtends(t0: Table, t: Table, t': Table, orgs: seq<Org>, org: Org, now: Time)
    requires Extends(t0, t, orgs, now) && Queued(t, t', org, now) && org in orgs
    ensures Extends(t0, t', orgs, now)
  {
  }

  /** After a pass, every untried report for a working organisation's today runs at the time now set, every recipient of
      one that is due within the hour has a job, none is queued more than an hour ahead, and nothing else changed. */
  method ScheduleDailyReports(jobs: Jobs, orgs: seq<Org>, now: Time, maxAttempts: Attempts) returns (queued: nat)
    requires Distinct(orgs) && UniqueKeys(jobs.rows)
    modifies jobs
    ensures UniqueKeys(jobs.rows)
    ensures Served(jobs.rows, orgs, now)
    ensures Extends(old(jobs.rows), jobs.rows, orgs, now)
    ensures forall o | o in orgs && o.workingDay && o.runAt - now <= 60 * 60 ::
              forall r | r in o.recipients :: HasKey(jobs.rows, ReportKey(r, o.today))
    ensures forall id | id in jobs.rows && id !in old(jobs.rows) ::
              var j := jobs.rows[id];
              && j.kind == "brenda.daily_report" && j.state == Pending && j.attempts == 0
                && j.nextRunAt - now <= 60 * 60
              && exists o | o in orgs :: o.workingDay && j.organisation == o.id && j.nextRunAt == o.runAt
    ensures queued == Counted(orgs, now)
  {
    queued := 0;
    for n := 0 to |orgs|
      invariant UniqueKeys(jobs.rows) && Extends(old(jobs.rows), jobs.rows, orgs[..n], now)
      invariant Served(jobs.rows, orgs[..n], now) && queued == Counted(orgs[..n], now)
    {
      var org := orgs[n];
      assert orgs[..n + 1] == orgs[..n] + [org] && orgs[..n + 1][..n] == orgs[..n];
      var q := ScheduleOne(jobs, old(jobs.rows), orgs[..n], org, now, maxAttempts);
      queued := queued + q;
    }
    assert orgs[..|orgs|] == orgs;
    WhatAPassDoes(old(jobs.rows), jobs.rows, orgs, now);
  }

  lemma WhatAPassDoes(before: Table, after: Table, orgs: seq<Org>, now: Time)
    requires Served(after, orgs, now) && Extends(before, after, orgs, now)
    ensures forall o | o in orgs && o.workingDay && o.runAt - now <= 60 * 60 ::
              forall r | r in o.recipients :: HasKey(after, ReportKey(r, o.today))
    ensures forall id | id in after && id !in before ::
              var j := after[id];
              && j.kind == "brenda.daily_report" && j.state == Pending && j.attempts == 0
                && j.nextRunAt - now <= 60 * 60
              && exists o | o in orgs :: o.workingDay && j.organisation == o.id && j.nextRunAt == o.runAt
  {
  }

  /** One organisation of a pass, after those in `before`. */
  method ScheduleOne(jobs: Jobs, ghost t0: Table, ghost before: seq<Org>, org: Org, now: Time, maxAttempts: Attempts)
    returns (queued: nat)
    requires UniqueKeys(jobs.rows) && Extends(t0, jobs.rows, before, now) && Served(jobs.rows, before, now)
    requires forall o | o in before :: o.id != org.id
    modifies jobs
    ensures UniqueKeys(jobs.rows) && Extends(t0, jobs.rows, before + [org], now)
      && Served(jobs.rows, before + [org], now)
    ensures queued == if DueSoon(org, now) then |org.recipients| else 0
  {
    ExtendsMore(t0, jobs.rows, before, org, now);
    if !org.workingDay { return 0; }
    ghost var t := jobs.rows;
    MovedIsOnTime(t, org);
    MovedExtends(t0, t, before, org, now);
    jobs.rows := Moved(jobs.rows, org);
    if org.runAt > now + HOUR {
      queued := 0;
    } else {
      ghost var moved := jobs.rows;
      queued := QueueRecipients(jobs, org, now, maxAttempts);
      QueuedExtends(t0, moved, jobs.rows, before + [org], org, now);
    }
    forall o | o in before ensures ServedOne(jobs.rows, o, now) {
      StillServed(t, jobs.rows, o, org, now);
    }
  }

  // ---- a pass is part of a run -----------------------------------------------------------------------------------

  /** Waiting jobs moved and fresh jobs added, no key twice. */
  ghost predicate Advances(t: Table, u: Table) {
    && UniqueKeys(u) && t.Keys <= u.Keys
    && (forall id | id in t && t[id] != u[id] :: Untried(t[id]) && u[id] == t[id].(nextRunAt := u[id].nextRunAt))
    && (forall id | id in u.Keys - t.Keys :: Fresh(u[id]))
  }

  function Differ(t: Table, u: Table): set<JobId> { set id | id in u && (id !in t || t[id] != u[id]) }

  predicate Scheduling(s: JobRuns.Step) { s.Retime? || s.Enqueue? }

  /** One job moved or added. */
  lemma OneAdvance(w: JobRuns.World, u: Table, id: JobId) returns (s: JobRuns.Step)
    requires Advances(w.table, u) && id in Differ(w.table, u)
    ensures Scheduling(s) && JobRuns.Enabled(w, s) && JobRuns.Apply(w, s).table == w.table[id := u[id]]
  {
    var t := w.table;
    if id in t {
      s := JobRuns.Retime({id}, u[id].nextRunAt);
      assert Retimed(t, {id}, u[id].nextRunAt) == t[id := u[id]];
    } else {
      s := JobRuns.Enqueue(id, u[id]);
      forall o | o in t ensures t[o].key != u[id].key { assert u[o].key == t[o].key; }
    }
  }

  lemma {:induction false} AdvancesAsARun(w: JobRuns.World, u: Table) returns (steps: seq<JobRuns.Step>)
    requires Advances(w.table, u)
    ensures forall s | s in steps :: Scheduling(s)
    ensures JobRuns.Play(w, steps).Some? && JobRuns.Play(w, steps).value.table == u
    decreases Differ(w.table, u)
  {
    if id :| id in Differ(w.table, u) {
      var s := OneAdvance(w, u, id);
      var v := JobRuns.Apply(w, s);
      assert Differ(v.table, u) < Differ(w.table, u) by { assert id !in Differ(v.table, u); }
      var rest := AdvancesAsARun(v, u);
      steps := [s] + rest;
      assert steps[1..] == rest;
    } else {
      assert w.table == u by {
        forall id | id in u ensures id in w.table && w.table[id] == u[id] { assert id !in Differ(w.table, u); }
      }
      steps := [];
    }
  }

  /** What a pass does to the table is what a run does by moving waiting jobs and adding fresh ones, one at a time. */
  lemma PassIsARun(w: JobRuns.World, after: Table, orgs: seq<Org>, now: Time) returns (steps: seq<JobRuns.Step>)
    requires UniqueKeys(after) && Extends(w.table, after, orgs, now)
    ensures forall s | s in steps :: Scheduling(s)
    ensures JobRuns.Play(w, steps).Some? && JobRuns.Play(w, steps).value.table == after
  {
    assert Advances(w.table, after);
    steps := AdvancesAsARun(w, after);
  }
}
