/** The worker loop of src/send.rs as code: loops and row updates on the job table, with the database and the
    network free to fail at every call. Each method also records, in ghost state, the steps it takes; `Valid`
    says that these steps are a run of one loop in the sense of OutboundProtocol, so what is proved there about
    every such run holds of this code. */
module OutboundWorker {
  import opened Prelude
  import opened OutboundProtocol
  import opened OutboundSafety
  import opened OutboundSingle
  import opened OutboundTurns
  import Backoff

  const SELF: WorkerId := 0

  datatype ClaimResult = Taken(job: Job) | Declined | ClaimError

  /** What working on a job means in a drain. */
  ghost function WorksAt(cfg: Config, now: Time, env: JobId -> Env): (JobId, Job, Job) -> bool {
    (id: JobId, row: Job, row': Job) => WorkedTo(cfg, row, now, env(id), row')
  }

  /** A drain at `now` has worked through the first `done` rows of its list. */
  ghost predicate Drained(works: (JobId, Job, Job) -> bool, before: map<JobId, Job>, after: map<JobId, Job>,
                          ids: seq<JobId>, done: nat, now: Time)
    requires done <= |ids|
  {
    && after.Keys == before.Keys
    && forall id :: id in before ==>
         if DueAt(before, id, now) && id in ids[..done] then works(id, before[id], after[id])
         else after[id] == before[id]
  }

  lemma DrainedNext(works: (JobId, Job, Job) -> bool, before: map<JobId, Job>, mid: map<JobId, Job>,
                    after: map<JobId, Job>, ids: seq<JobId>, i: nat, now: Time)
    requires i < |ids| && Distinct(ids) && ids[i] in before && Drained(works, before, mid, ids, i, now)
    requires after.Keys == mid.Keys && forall k :: k in mid && k != ids[i] ==> after[k] == mid[k]
    requires if DueAt(before, ids[i], now)
      then works(ids[i], before[ids[i]], after[ids[i]])
      else after[ids[i]] == before[ids[i]]
    ensures Drained(works, before, after, ids, i + 1, now)
  {
    assert ids[..i + 1] == ids[..i] + [ids[i]];
    assert ids[i] !in ids[..i];
  }

  /** The row the drain comes to is as it was fetched. */
  lemma NotYetTouched(works: (JobId, Job, Job) -> bool, before: map<JobId, Job>, mid: map<JobId, Job>, ids: seq<JobId>,
                      i: nat, now: Time)
    requires i < |ids| && Distinct(ids) && ids[i] in before && Drained(works, before, mid, ids, i, now)
    ensures ids[i] in mid && mid[ids[i]] == before[ids[i]]
  {
    assert ids[i] !in ids[..i];
  }

  lemma DrainedAll(cfg: Config, before: map<JobId, Job>, after: map<JobId, Job>, ids: seq<JobId>, now: Time,
                   env: JobId -> Env)
    requires Lists(ids, before, Queued) && Drained(WorksAt(cfg, now, env), before, after, ids, |ids|, now)
    ensures DrainedTo(cfg, before, now, true, env, after)
  {
    assert ids[..|ids|] == ids;
    forall id | DueAt(before, id, now) ensures WorkedTo(cfg, before[id], now, env(id), after[id]) {
      assert WorksAt(cfg, now, env)(id, before[id], after[id]);
    }
  }

  /** A drain that a failed claim ended. */
  lemma DrainedPart(cfg: Config, before: map<JobId, Job>, after: map<JobId, Job>, ids: seq<JobId>, done: nat, now: Time,
                    env: JobId -> Env)
    requires done < |ids| && Drained(WorksAt(cfg, now, env), before, after, ids, done, now)
    requires DueAt(before, ids[done], now) && !env(ids[done]).claimOk
    ensures DrainedTo(cfg, before, now, true, env, after) && !DrainWorks(before, now, true, env)
  {
    forall id | DueAt(before, id, now)
      ensures WorkedTo(cfg, before[id], now, env(id), after[id]) || after[id] == before[id]
    {
      if id in ids[..done] {
        assert WorksAt(cfg, now, env)(id, before[id], after[id]);
      }
    }
  }

  lemma SnapshotFacts(snaps: seq<Snap>, jobs: map<JobId, Job>, now: Time)
    requires Snapshots(snaps, jobs)
    ensures forall i :: 0 <= i < |snaps| ==>
      snaps[i].id in jobs && (DueAt(jobs, snaps[i].id, now) <==> SnapDue(snaps[i], now))
  {
    assert forall i :: 0 <= i < |snaps| ==> SnapIds(snaps)[i] in SnapIds(snaps);
  }

  /** A sweep over `ids` has reached position `done`; the writes of rows in `failing` fail. */
  ghost predicate SweptTo(before: map<JobId, Job>, after: map<JobId, Job>, ids: seq<JobId>, done: nat,
                          failing: set<JobId>)
    requires done <= |ids|
  {
    && after.Keys == before.Keys
    && forall id :: id in before ==>
         after[id] == if id in ids[..done] && id !in failing then Requeued(before[id]) else before[id]
  }

  lemma SweptNext(before: map<JobId, Job>, mid: map<JobId, Job>, after: map<JobId, Job>, ids: seq<JobId>, i: nat,
                  failing: set<JobId>)
    requires i < |ids| && Distinct(ids) && ids[i] in before && SweptTo(before, mid, ids, i, failing)
    requires after == if ids[i] !in failing then mid[ids[i] := Requeued(mid[ids[i]])] else mid
    ensures SweptTo(before, after, ids, i + 1, failing)
  {
    assert ids[..i + 1] == ids[..i] + [ids[i]];
    assert ids[i] !in ids[..i];
  }

  ghost predicate Untroubled(ids: seq<JobId>, done: nat, failing: set<JobId>)
    requires done <= |ids|
  {
    forall k :: 0 <= k < done ==> ids[k] !in failing
  }

  lemma SweptNothing(jobs: map<JobId, Job>, failing: set<JobId>)
    ensures Swept(jobs, false, failing) == jobs && !SweepWorks(jobs, false, failing)
  {
  }

  lemma SweptAll(before: map<JobId, Job>, after: map<JobId, Job>, ids: seq<JobId>, failing: set<JobId>)
    requires Lists(ids, before, InProgress) && SweptTo(before, after, ids, |ids|, failing)
    ensures after == Swept(before, true, failing)
    ensures Untroubled(ids, |ids|, failing) == SweepWorks(before, true, failing)
  {
    assert ids[..|ids|] == ids;
    assert forall k :: 0 <= k < |ids| ==> ids[k] in ids;
  }

  /** The scan works and no reset fails. */
  ghost predicate SweepWorks(jobs: map<JobId, Job>, scanOk: bool, failing: set<JobId>) {
    scanOk && forall id :: id in jobs && jobs[id].status == InProgress ==> id !in failing
  }

  function RemovedIn(ticks: seq<Tick>): set<JobId> {
    if ticks == [] then {}
    else RemovedIn(ticks[..|ticks| - 1]) + Elements(ticks[|ticks| - 1].removed)
  }

  lemma AllClaimed(jobs: map<JobId, Job>, ids: seq<JobId>, now: Time, env: JobId -> Env)
    requires Lists(ids, jobs, Queued)
    requires forall k :: 0 <= k < |ids| && DueAt(jobs, ids[k], now) ==> env(ids[k]).claimOk
    ensures DrainWorks(jobs, now, true, env)
  {
    forall id | DueAt(jobs, id, now) ensures env(id).claimOk {
      assert id in ids;
    }
  }

  ghost predicate SettledStay(before: map<JobId, Job>, after: map<JobId, Job>) {
    forall id :: id in before && id in after && before[id].Terminal() ==> after[id] == before[id]
  }

  lemma CapHolds(cfg: Config, r: Run<State, Action>, jobs: map<JobId, Job>)
    requires IsSingleRun(cfg, r, SELF) && r.states[|r.acts|].db.jobs == jobs
    ensures forall id :: id in jobs ==> WithinCap(cfg, jobs[id])
  {
    forall id | id in jobs ensures WithinCap(cfg, jobs[id]) {
      OneLoopCountsAttempts(cfg, r, SELF, |r.acts|, id);
    }
  }

  /** The worker has lived through the ticks: `tables` is the history, from the first table to this one; the jobs
      missing are the deleted ones, the enqueued ones have joined, and settled jobs are as they were. */
  ghost predicate Lived(cfg: Config, tables: seq<map<JobId, Job>>, firstId: JobId, ticks: seq<Tick>, next: JobId,
                        jobs: map<JobId, Job>) {
    && IsHistory(cfg, tables, firstId, ticks) && tables[|ticks|] == jobs
    && next == firstId + Arrived(ticks) && (forall id :: id in tables[0] ==> id < firstId)
    && Kept(tables[0].Keys, firstId, next, RemovedIn(ticks), jobs.Keys)
    && SettledStay(tables[0], jobs)
  }

  lemma LivedNext(cfg: Config, tables: seq<map<JobId, Job>>, firstId: JobId, ticks: seq<Tick>, tick: Tick, next: JobId,
                  jobs: map<JobId, Job>)
    requires IsHistory(cfg, tables, firstId, ticks) && forall id :: id in tables[0] ==> id < firstId
    requires TurnTo(cfg, BeforeTurn(tables[|ticks|], firstId + Arrived(ticks), tick), tick, jobs)
    requires next == firstId + Arrived(ticks) + |tick.arrivals| && SettledStay(tables[0], jobs)
    requires Kept(tables[0].Keys, firstId, next, RemovedIn(ticks) + Elements(tick.removed), jobs.Keys)
    ensures Lived(cfg, tables + [jobs], firstId, ticks + [tick], next, jobs)
  {
    HistoryNext(cfg, tables, firstId, ticks, tick, jobs);
    assert (ticks + [tick])[..|ticks|] == ticks;
  }

  lemma SettledThrough(cfg: Config, before: map<JobId, Job>, tick: Tick, after: map<JobId, Job>)
    requires TurnTo(cfg, before, tick, after)
    ensures after.Keys == before.Keys
    ensures forall id :: id in before && before[id].Terminal() ==> after[id] == before[id]
  {
    forall id | id in before && before[id].Terminal() ensures after[id] == before[id] {
      TurnKeepsSettled(cfg, before, tick, after, id);
    }
  }

  /** Of the keys there were and those from `first` up to `next`, only keys in `gone` are missing; of those there were,
      all of these. */
  ghost predicate Kept(before: set<JobId>, first: JobId, next: JobId, gone: set<JobId>, after: set<JobId>) {
    && (forall id :: id in after ==> id in before || first <= id < next)
    && (forall id :: id in before ==> (id in after <==> id !in gone))
    && (forall id :: first <= id < next && id !in gone ==> id in after)
  }

  lemma KeptNext(before: set<JobId>, first: JobId, next: JobId, gone: set<JobId>, mid: set<JobId>, next': JobId,
                 mid': set<JobId>,
                 removed: set<JobId>)
    requires Kept(before, first, next, gone, mid) && Joined(mid, next, next', mid') && first <= next <= next'
    requires forall id :: id in before ==> id < first
    ensures Kept(before, first, next', gone + removed, mid' - removed)
  {
  }

  class Worker {
    const cfg: Config
    var jobs: map<JobId, Job>
    var audit: seq<Audit>
    var nextId: JobId
    ghost var phase: Phase
    ghost var run: Run<State, Action>

    ghost function Table(): Db
      reads this
    {
      Db(jobs, audit, nextId)
    }

    ghost predicate Logged()
      reads this
    {
      && IsSingleRun(cfg, run, SELF)
      && run.states[|run.acts|].workers == map[SELF := phase]
    }

    /** The recorded steps are a run of one loop, and it ends in the present state. */
    ghost predicate Valid()
      reads this
    {
      Logged() && run.states[|run.acts|].db == Table()
    }

    constructor (cfg: Config)
      ensures Valid() && phase == Idle && jobs == map[] && audit == [] && this.cfg == cfg
    {
      this.cfg := cfg;
      jobs, audit, nextId := map[], [], 0;
      phase := Idle;
      run := Run([State(Db(map[], [], 0), map[SELF := Idle])], []);
    }

    /** Append one worker step to the record, once its effect on the table is in place. */
    ghost method Log(op: Op, ph: Phase)
      requires Logged() && WorkerStep(cfg, run.states[|run.acts|].db, phase, op, Table(), ph)
      modifies this`run, this`phase
      ensures Valid() && phase == ph
    {
      var s, s' := run.states[|run.acts|], State(Table(), map[SELF := ph]);
      assert s'.workers == s.workers[SELF := ph];
      assert Step(cfg, s, Work(SELF, op), s');
      run := Extend(Init, StepOf(cfg), run, Work(SELF, op), s');
      phase := ph;
    }

    /** `enqueue_outbound` and `enqueue_forward`: a fresh key, `Queued`, no attempt yet. */
    method EnqueueJob(messageId: nat, rcptTo: string, senderId: string) returns (id: JobId)
      requires Valid()
      modifies this
      ensures Valid() && phase == old(phase)
      ensures id == old(nextId) && nextId == id + 1
      ensures id !in old(jobs) && audit == old(audit)
      ensures jobs == old(jobs)[id := Job(messageId, rcptTo, senderId, Queued, 0, None, None)]
    {
      KeysBelowAlways(cfg, run, |run.acts|);
      id := nextId;
      ghost var s := run.states[|run.acts|];
      jobs := jobs[id := NewJob(messageId, rcptTo, senderId)];
      nextId := nextId + 1;
      ghost var a, s' := Enqueue(messageId, rcptTo, senderId), State(Table(), map[SELF := phase]);
      run := Extend(Init, StepOf(cfg), run, a, s');
    }

    /** Every row with a status, in no promised order. */
    method SelectByStatus(status: Status) returns (ids: seq<JobId>)
      ensures Lists(ids, jobs, status)
    {
      ids := [];
      var todo := jobs.Keys;
      while todo != {}
        invariant todo <= jobs.Keys && Distinct(ids)
        invariant forall id :: id in ids <==> id in jobs && id !in todo && jobs[id].status == status
        decreases todo
      {
        var id :| id in todo;
        todo := todo - {id};
        if jobs[id].status == status {
          ids := ids + [id];
        }
      }
    }

    /** One reset of a sweep: if it fails it is only logged. */
    method ResetJob(id: JobId, dbOk: bool, ghost rest: seq<JobId>, ghost clean: bool)
      requires Valid() && phase == Sweeping([id] + rest, clean)
      modifies this
      ensures Valid() && phase == Sweeping(rest, clean && dbOk)
      ensures audit == old(audit) && nextId == old(nextId)
      ensures jobs == if dbOk && id in old(jobs) then old(jobs)[id := Requeued(old(jobs)[id])] else old(jobs)
    {
      assert ([id] + rest)[1..] == rest;
      if dbOk && id in jobs {
        jobs := jobs[id := jobs[id].(status := Queued, nextAttemptAt := None, lastError := None)];
      }
      Log(Reset(dbOk), Sweeping(rest, clean && dbOk));
    }

    method ScanInProgress(scanOk: bool) returns (ids: seq<JobId>)
      requires Valid() && phase == Idle
      modifies this
      ensures Valid() && Table() == old(Table()) && phase == Sweeping(ids, scanOk)
      ensures if scanOk then Lists(ids, jobs, InProgress) else ids == []
    {
      if scanOk {
        ids := SelectByStatus(InProgress);
        Log(Scan(ids), Sweeping(ids, true));
      } else {
        ids := [];
        Log(ScanFails, Sweeping([], false));
      }
    }

    /** One turn of the loop of `reclaim_in_progress`. */
    method ResetAt(ids: seq<JobId>, i: nat, failing: set<JobId>, ghost before: map<JobId, Job>)
      requires i < |ids| && Lists(ids, before, InProgress) && SweptTo(before, jobs, ids, i, failing)
      requires Valid() && phase == Sweeping(ids[i..], Untroubled(ids, i, failing))
      modifies this
      ensures Valid() && phase == Sweeping(ids[i + 1..], Untroubled(ids, i + 1, failing))
      ensures audit == old(audit) && nextId == old(nextId) && SweptTo(before, jobs, ids, i + 1, failing)
    {
      assert ids[i..] == [ids[i]] + ids[i + 1..];
      assert ids[i] in ids;
      ResetJob(ids[i], ids[i] !in failing, ids[i + 1..], Untroubled(ids, i, failing));
      SweptNext(before, old(jobs), jobs, ids, i, failing);
    }

    method ResetAll(ids: seq<JobId>, failing: set<JobId>)
      requires Valid() && phase == Sweeping(ids, true) && Lists(ids, jobs, InProgress)
      modifies this
      ensures Valid() && phase == Sweeping([], SweepWorks(old(jobs), true, failing))
      ensures audit == old(audit) && nextId == old(nextId) && jobs == Swept(old(jobs), true, failing)
    {
      var i := 0;
      while i < |ids|
        invariant 0 <= i <= |ids| && Valid() && phase == Sweeping(ids[i..], Untroubled(ids, i, failing))
        invariant audit == old(audit) && nextId == old(nextId)
        invariant SweptTo(old(jobs), jobs, ids, i, failing)
      {
        ResetAt(ids, i, failing, old(jobs));
        i := i + 1;
      }
      SweptAll(old(jobs), jobs, ids, failing);
    }

    /** `reclaim_in_progress`: if the scan works, every `InProgress` row is put back, except those whose write fails. */
    method ReclaimInProgress(scanOk: bool, failing: set<JobId>)
      requires Valid() && phase == Idle
      modifies this
      ensures Valid() && phase == Sweeping([], SweepWorks(old(jobs), scanOk, failing))
      ensures audit == old(audit) && nextId == old(nextId)
      ensures jobs == Swept(old(jobs), scanOk, failing)
    {
      var ids := ScanInProgress(scanOk);
      if scanOk {
        ResetAll(ids, failing);
      } else {
        SweptNothing(jobs, failing);
      }
    }

    /** `claim`: re-read under the write lock, take the job only if it is still `Queued`. */
    method ClaimJob(ghost now: Time, ghost snaps: seq<Snap>, id: JobId, dbOk: bool) returns (r: ClaimResult)
      requires Valid() && phase == Draining(now, snaps) && snaps != [] && snaps[0].id == id && SnapDue(snaps[0], now)
      modifies this
      ensures Valid() && audit == old(audit) && nextId == old(nextId)
      ensures
        if !dbOk then r == ClaimError && jobs == old(jobs) && phase == Idle
        else if id !in old(jobs) || old(jobs)[id].status != Queued then
          r == Declined && jobs == old(jobs) && phase == Draining(now, snaps[1..])
        else
          var job := old(jobs)[id].(status := InProgress);
          && r == Taken(job) && jobs == old(jobs)[id := job]
          && phase == Delivering(now, snaps[1..], id, job, Loading)
    {
      if !dbOk {
        Log(ClaimFails, Idle);
        return ClaimError;
      }
      if id !in jobs || jobs[id].status != Queued {
        Log(Claim, Draining(now, snaps[1..]));
        return Declined;
      }
      var job := jobs[id].(status := InProgress);
      jobs := jobs[id := job];
      Log(Claim, Delivering(now, snaps[1..], id, job, Loading));
      r := Taken(job);
    }

    /** `fail_or_requeue`. */
    method FailOrRequeueJob(id: JobId, job: Job, now: Time, ghost snaps: seq<Snap>, reason: string, dbOk: bool)
      requires Valid() && phase == Delivering(now, snaps, id, job, Failing(reason)) && id in jobs && jobs[id] == job
      modifies this
      ensures Valid() && phase == Draining(now, snaps) && audit == old(audit) && nextId == old(nextId)
      ensures jobs == old(jobs)[id := if dbOk then MarkFailedOrQueued(cfg, job, job, now, reason) else job]
    {
      if dbOk {
        var attempts := job.attempts + 1;
        if attempts > cfg.maxAttempts {
          jobs := jobs[id := job.(status := Failed, attempts := attempts,
                                  nextAttemptAt := None, lastError := Some(reason))];
        } else {
          var delay := Backoff.Delay(cfg.baseBackoff, cfg.maxBackoff, attempts);
          jobs := jobs[id := job.(status := Queued, attempts := attempts,
                                  nextAttemptAt := Some(now + delay), lastError := Some(reason))];
        }
      }
      Log(FailOrRequeue(dbOk), Draining(now, snaps));
    }

    /** One target: build the transport, hand the message over, record the answer. `None` if the transport cannot be
        built or the audit row cannot be written. */
    method AttemptHost(id: JobId, ghost job: Job, ghost now: Time, ghost snaps: seq<Snap>, targets: seq<string>,
                       pos: nat, try: Try)
      returns (r: Option<Answer>)
      requires pos < |targets| && Valid() && phase == Delivering(now, snaps, id, job, Sending(targets, pos))
      modifies this
      ensures Valid() && jobs == old(jobs) && nextId == old(nextId)
      ensures match try
        case Recorded(answer) =>
          && r == Some(answer) && audit == old(audit) + [AuditRow(id, targets[pos], answer)]
          && phase == Delivering(now, snaps, id, job, AfterRecord(targets, pos, answer))
        case _ => r == None && audit == old(audit) && phase == Draining(now, snaps)
    {
      if try.NoTransport? {
        Log(TransportFails, Draining(now, snaps));
        return None;
      }
      var answer := try.answer;
      Log(Send(answer), Delivering(now, snaps, id, job, Recording(targets, pos, answer)));
      if try.Unrecorded? {
        Log(Record(false), Draining(now, snaps));
        return None;
      }
      audit := audit + [Audit(id, targets[pos], if answer.Accepted? then Some(250) else None)];
      Log(Record(true), Delivering(now, snaps, id, job, AfterRecord(targets, pos, answer)));
      r := Some(answer);
    }

    method SettleDelivered(id: JobId, job: Job, ghost now: Time, ghost snaps: seq<Snap>, dbOk: bool)
      requires Valid() && phase == Delivering(now, snaps, id, job, Settling) && id in jobs && jobs[id] == job
      modifies this
      ensures Valid() && phase == Draining(now, snaps) && audit == old(audit) && nextId == old(nextId)
      ensures jobs == old(jobs)[id := if dbOk then MarkDelivered(job, job) else job]
    {
      if dbOk {
        jobs := jobs[id := job.(status := Delivered, attempts := job.attempts + 1,
                                nextAttemptAt := None, lastError := None)];
      }
      Log(Settle(dbOk), Draining(now, snaps));
    }

    method ChooseTargets(id: JobId, job: Job, now: Time, ghost snaps: seq<Snap>, hosts: seq<string>)
      returns (targets: seq<string>)
      requires Valid() && phase == Delivering(now, snaps, id, job, Loading)
      modifies this
      ensures Valid() && Table() == old(Table()) && targets == Targets(cfg, hosts)
      ensures targets == if cfg.relayHost.Some? then [cfg.relayHost.value] else hosts
      ensures phase == Delivering(now, snaps, id, job, if targets == [] then Failing(NO_MX) else Sending(targets, 0))
    {
      targets := if cfg.relayHost.Some? then [cfg.relayHost.value] else hosts;
      Log(Resolve(hosts), Delivering(now, snaps, id, job, AfterResolve(cfg, hosts)));
    }

    /** One turn of the loop of `deliver_hosts`. */
    method TryNext(id: JobId, ghost job: Job, ghost now: Time, ghost snaps: seq<Snap>, targets: seq<string>,
                   answers: seq<Answer>, try: Try, ghost base: seq<Audit>)
      returns (r: Option<Answer>, reason: string)
      requires |answers| < |targets| && Valid() && audit == base + Trail(id, targets, answers)
      requires phase == Delivering(now, snaps, id, job, Sending(targets, |answers|))
      modifies this
      ensures Valid() && jobs == old(jobs) && nextId == old(nextId)
      ensures r == if try.Recorded? then Some(try.answer) else None
      ensures r.None? ==> audit == old(audit) && phase == Draining(now, snaps)
      ensures r.Some? ==> audit == base + Trail(id, targets, answers + [r.value])
      ensures r == Some(Accepted) ==> phase == Delivering(now, snaps, id, job, Settling)
      ensures r.Some? && r.value.Refused? ==>
        var n := |answers| + 1;
        && reason == LastReason(targets, answers + [r.value])
        && phase == Delivering(now, snaps, id, job, if n < |targets| then Sending(targets, n) else Failing(reason))
    {
      r := AttemptHost(id, job, now, snaps, targets, |answers|, try);
      reason := "";
      if r.Some? {
        TrailNext(id, targets, answers, r.value);
        if r.value.Refused? {
          reason := "via " + targets[|answers|] + ": " + r.value.error;
        }
      }
    }

    /** The loop of `deliver_hosts`: targets in order until one accepts or something fails, one audit row per answer.
        `ended` says that nothing failed. */
    method TryHosts(id: JobId, ghost job: Job, ghost now: Time, ghost snaps: seq<Snap>, targets: seq<string>, env: Env)
      returns (answers: seq<Answer>, reason: string, ended: bool)
      requires Valid()
      requires phase == Delivering(now, snaps, id, job, if targets == [] then Failing(NO_MX) else Sending(targets, 0))
      modifies this
      ensures Valid() && nextId == old(nextId) && jobs == old(jobs)
      ensures Tried(targets, env, answers, ended && env.writeOk)
      ensures audit == old(audit) + Trail(id, targets, answers)
      ensures
        if !ended then phase == Draining(now, snaps)
        else if Succeeded(answers) then phase == Delivering(now, snaps, id, job, Settling)
        else reason == LastReason(targets, answers) && phase == Delivering(now, snaps, id, job, Failing(reason))
    {
      answers, reason, ended := [], NO_MX, true;
      var pos := 0;
      while pos < |targets|
        invariant 0 <= pos <= |targets| && |answers| == pos && ended
        invariant reason == LastReason(targets, answers) && AllRefused(env, answers)
        invariant Valid() && nextId == old(nextId) && jobs == old(jobs)
        invariant phase ==
          Delivering(now, snaps, id, job, if pos < |targets| then Sending(targets, pos) else Failing(reason))
        invariant audit == old(audit) + Trail(id, targets, answers)
      {
        var r;
        r, reason := TryNext(id, job, now, snaps, targets, answers, env.tries(pos), old(audit));
        if r.None? {
          TriedBroken(targets, env, answers);
          ended := false;
          return;
        }
        if r.value.Accepted? {
          TriedAccepted(targets, env, answers);
          answers := answers + [Accepted];
          return;
        }
        RefusedNext(env, answers, r.value);
        answers := answers + [r.value];
        pos := pos + 1;
      }
      TriedAll(targets, env, answers);
    }

    /** `deliver_hosts`: one audit row per answer received and recorded, a `250` only on the last; then `Delivered`,
        or a counted failure. On an error the row is left as claimed. */
    method DeliverHosts(id: JobId, job: Job, now: Time, ghost snaps: seq<Snap>, hosts: seq<string>, env: Env)
      returns (ok: bool, answers: seq<Answer>)
      requires Valid() && phase == Delivering(now, snaps, id, job, Loading) && id in jobs && jobs[id] == job
      modifies this
      ensures Valid() && phase == Draining(now, snaps)
      ensures Cycled(cfg, id, job, now, hosts, env, answers, ok, old(Table()), Table())
    {
      var targets := ChooseTargets(id, job, now, snaps, hosts);
      var reason;
      answers, reason, ok := TryHosts(id, job, now, snaps, targets, env);
      if !ok {
        assert jobs == jobs[id := job];
        return;
      }
      ok := env.writeOk;
      if answers != [] && answers[|answers| - 1].Accepted? {
        SettleDelivered(id, job, now, snaps, ok);
      } else {
        FailOrRequeueJob(id, job, now, snaps, reason, ok);
      }
    }

    /** `deliver_one`: the message, the envelope and the MX hosts, then the handoff. */
    method DeliverOne(id: JobId, job: Job, now: Time, ghost snaps: seq<Snap>, env: Env)
      requires Valid() && phase == Delivering(now, snaps, id, job, Loading) && id in jobs && jobs[id] == job
      modifies this
      ensures Valid() && phase == Draining(now, snaps) && nextId == old(nextId)
      ensures env.hosts.None? ==> Table() == old(Table())
      ensures env.hosts.Some? ==> exists answers, ok ::
        Cycled(cfg, id, job, now, env.hosts.value, env, answers, ok, old(Table()), Table())
    {
      if env.hosts.Some? {
        var ok, answers := DeliverHosts(id, job, now, snaps, env.hosts.value, env);
        assert Cycled(cfg, id, job, now, env.hosts.value, env, answers, ok, old(Table()), Table());
      } else {
        Log(ResolveFails, Draining(now, snaps));
      }
    }

    /** The snapshot a drain works through. */
    method FetchQueued(now: Time, ghost clean: bool, fetchOk: bool) returns (snaps: seq<Snap>)
      requires Valid() && phase == Sweeping([], clean)
      modifies this
      ensures Valid() && Table() == old(Table())
      ensures if fetchOk then Snapshots(snaps, jobs) && phase == Draining(now, snaps) else phase == Idle
    {
      snaps := [];
      if fetchOk {
        var ids := SelectByStatus(Queued);
        while |snaps| < |ids|
          invariant |snaps| <= |ids|
          invariant forall k :: 0 <= k < |snaps| ==>
            ids[k] in jobs && snaps[k] == Snap(ids[k], jobs[ids[k]].nextAttemptAt)
        {
          assert ids[|snaps|] in ids;
          snaps := snaps + [Snap(ids[|snaps|], jobs[ids[|snaps|]].nextAttemptAt)];
        }
        assert SnapIds(snaps) == ids;
        Log(Fetch(now, snaps), Draining(now, snaps));
      } else {
        Log(FetchFails, Idle);
      }
    }

    /** Claimed and delivered. */
    method WorkOn(now: Time, id: JobId, job: Job, ghost row: Job, ghost rest: seq<Snap>, env: Env)
      requires Valid() && phase == Delivering(now, rest, id, job, Loading) && id in jobs && jobs[id] == job
      requires job == row.(status := InProgress)
      modifies this
      ensures Valid() && phase == Draining(now, rest) && nextId == old(nextId) && jobs.Keys == old(jobs).Keys
      ensures forall k :: k in jobs && k != id ==> jobs[k] == old(jobs)[k]
      ensures WorkedTo(cfg, row, now, env, jobs[id])
    {
      DeliverOne(id, job, now, rest, env);
      if env.hosts.Some? {
        ghost var answers, ok :| Cycled(cfg, id, job, now, env.hosts.value, env, answers, ok, old(Table()), Table());
        assert Handled(cfg, job, now, Targets(cfg, env.hosts.value), env, answers, ok, jobs[id]);
      }
    }

    /** One row of the snapshot: skipped if it is backing off, else claimed and delivered. */
    method DrainNext(now: Time, snap: Snap, ghost rest: seq<Snap>, env: Env) returns (ok: bool)
      requires Valid() && phase == Draining(now, [snap] + rest)
      modifies this
      ensures Valid() && nextId == old(nextId) && jobs.Keys == old(jobs).Keys
      ensures ok == (!SnapDue(snap, now) || env.claimOk)
      ensures phase == if ok then Draining(now, rest) else Idle
      ensures forall k :: k in jobs && k != snap.id ==> jobs[k] == old(jobs)[k]
      ensures snap.id in jobs ==>
        if ok && SnapDue(snap, now) && old(jobs)[snap.id].status == Queued
        then WorkedTo(cfg, old(jobs)[snap.id], now, env, jobs[snap.id])
        else jobs[snap.id] == old(jobs)[snap.id]
    {
      assert ([snap] + rest)[1..] == rest;
      if snap.nextAttemptAt.Some? && snap.nextAttemptAt.value > now {
        Log(NotDue, Draining(now, rest));
        return true;
      }
      var claimed := ClaimJob(now, [snap] + rest, snap.id, env.claimOk);
      match claimed {
        case ClaimError =>
          ok := false;
        case Declined =>
          ok := true;
        case Taken(job) =>
          WorkOn(now, snap.id, job, old(jobs)[snap.id], rest, env);
          ok := true;
      }
    }

    /** One turn of the loop of `drain_once`. */
    method DrainAt(now: Time, snaps: seq<Snap>, i: nat, env: JobId -> Env, ghost works: (JobId, Job, Job) -> bool,
                   ghost before: map<JobId, Job>)
      returns (ok: bool)
      requires i < |snaps| && Valid() && phase == Draining(now, snaps[i..]) && works == WorksAt(cfg, now, env)
      requires Snapshots(snaps, before) && Drained(works, before, jobs, SnapIds(snaps), i, now)
      modifies this
      ensures Valid() && nextId == old(nextId)
      ensures ok == (DueAt(before, snaps[i].id, now) ==> env(snaps[i].id).claimOk)
      ensures phase == if ok then Draining(now, snaps[i + 1..]) else Idle
      ensures Drained(works, before, jobs, SnapIds(snaps), if ok then i + 1 else i, now)
    {
      ghost var ids, mid := SnapIds(snaps), jobs;
      SnapshotFacts(snaps, before, now);
      NotYetTouched(works, before, jobs, ids, i, now);
      assert snaps[i..] == [snaps[i]] + snaps[i + 1..];
      ok := DrainNext(now, snaps[i], snaps[i + 1..], env(snaps[i].id));
      if ok {
        assert DueAt(before, ids[i], now) ==> works(ids[i], before[ids[i]], jobs[ids[i]]);
        DrainedNext(works, before, mid, jobs, ids, i, now);
      } else {
        assert jobs == mid;
      }
    }

    /** `drain_once`: only jobs that were queued and due at `now` are touched, and a drain whose fetch and claims
        all work has worked on every one of them once. */
    method DrainOnce(now: Time, ghost clean: bool, fetchOk: bool, env: JobId -> Env) returns (ok: bool)
      requires Valid() && phase == Sweeping([], clean)
      modifies this
      ensures Valid() && phase == Idle && nextId == old(nextId)
      ensures ok == DrainWorks(old(jobs), now, fetchOk, env)
      ensures DrainedTo(cfg, old(jobs), now, fetchOk, env, jobs)
    {
      var snaps := FetchQueued(now, clean, fetchOk);
      if !fetchOk {
        return false;
      }
      ghost var works := WorksAt(cfg, now, env);
      ghost var ids := SnapIds(snaps);
      var i := 0;
      while i < |snaps|
        invariant 0 <= i <= |snaps| && Valid() && phase == Draining(now, snaps[i..]) && nextId == old(nextId)
        invariant Drained(works, old(jobs), jobs, ids, i, now)
        invariant forall k :: 0 <= k < i && DueAt(old(jobs), ids[k], now) ==> env(ids[k]).claimOk
      {
        ok := DrainAt(now, snaps, i, env, works, old(jobs));
        if !ok {
          DrainedPart(cfg, old(jobs), jobs, ids, i, now, env);
          return;
        }
        i := i + 1;
      }
      Log(DrainDone, Idle);
      ok := true;
      DrainedAll(cfg, old(jobs), jobs, ids, now, env);
      AllClaimed(old(jobs), ids, now, env);
    }

    /** One turn: sweep, then drain. */
    method Turn(tick: Tick)
      requires Valid() && phase == Idle
      modifies this
      ensures Valid() && phase == Idle && nextId == old(nextId)
      ensures TurnTo(cfg, old(jobs), tick, jobs)
    {
      ghost var clean := SweepWorks(jobs, tick.scanOk, tick.failing);
      ReclaimInProgress(tick.scanOk, tick.failing);
      var _ := DrainOnce(tick.now, clean, tick.fetchOk, tick.env);
    }

    /** What the producers enqueue between two turns of the loop. */
    method EnqueueAll(arrivals: seq<Arrival>)
      requires Valid()
      modifies this
      ensures Valid() && phase == old(phase) && audit == old(audit) && nextId == old(nextId) + |arrivals|
      ensures jobs == WithArrivals(old(jobs), old(nextId), arrivals)
      ensures Joined(old(jobs).Keys, old(nextId), nextId, jobs.Keys)
      ensures forall id :: id in old(jobs) ==> jobs[id] == old(jobs)[id]
      ensures forall i :: 0 <= i < |arrivals| ==>
        jobs[old(nextId) + i]
        == Job(arrivals[i].messageId, arrivals[i].rcptTo, arrivals[i].senderId, Queued, 0, None, None)
    {
      KeysBelowAlways(cfg, run, |run.acts|);
      var i := 0;
      while i < |arrivals|
        invariant 0 <= i <= |arrivals| && Valid() && phase == old(phase)
        invariant audit == old(audit) && nextId == old(nextId) + i
        invariant jobs == WithArrivals(old(jobs), old(nextId), arrivals[..i])
      {
        var _ := EnqueueJob(arrivals[i].messageId, arrivals[i].rcptTo, arrivals[i].senderId);
        assert arrivals[..i + 1][..i] == arrivals[..i];
        i := i + 1;
      }
      TakeAll(arrivals);
      ArrivalsMean(old(jobs), old(nextId), arrivals);
    }

    /** Deletion of a message takes its jobs and their audit rows. */
    method RemoveJob(id: JobId)
      requires Valid()
      modifies this
      ensures Valid() && phase == old(phase) && nextId == old(nextId)
      ensures jobs == old(jobs) - {id} && audit == WithoutJob(old(audit), id)
    {
      jobs, audit := jobs - {id}, WithoutJob(audit, id);
      ghost var s' := State(Table(), map[SELF := phase]);
      run := Extend(Init, StepOf(cfg), run, Remove(id), s');
    }

    /** What the API deletes between two turns of the loop. */
    method RemoveAll(removed: seq<JobId>)
      requires Valid()
      modifies this
      ensures Valid() && phase == old(phase) && nextId == old(nextId)
      ensures jobs == old(jobs) - Elements(removed)
    {
      var i := 0;
      while i < |removed|
        invariant 0 <= i <= |removed| && Valid() && phase == old(phase) && nextId == old(nextId)
        invariant jobs == old(jobs) - Elements(removed[..i])
      {
        RemoveJob(removed[i]);
        TakeNext(removed, i);
        i := i + 1;
      }
      TakeAll(removed);
    }

    /** What happens to the table between two turns. */
    method Between(tick: Tick, ghost before: set<JobId>, ghost first: JobId, ghost gone: set<JobId>)
      requires Valid() && first <= nextId && Kept(before, first, nextId, gone, jobs.Keys)
      requires forall id :: id in before ==> id < first
      modifies this
      ensures Valid() && phase == old(phase) && nextId == old(nextId) + |tick.arrivals|
      ensures jobs == BeforeTurn(old(jobs), old(nextId), tick)
      ensures Kept(before, first, nextId, gone + Elements(tick.removed), jobs.Keys)
      ensures forall id :: id in old(jobs) && id in jobs ==> jobs[id] == old(jobs)[id]
    {
      EnqueueAll(tick.arrivals);
      KeptNext(before, first, old(nextId), gone, old(jobs).Keys, nextId, jobs.Keys, Elements(tick.removed));
      RemoveAll(tick.removed);
    }

    /** What comes between two turns, then the turn. */
    method OneTick(tick: Tick, ghost done: seq<Tick>, ghost tables: seq<map<JobId, Job>>, ghost firstId: JobId)
      requires Valid() && phase == Idle && Lived(cfg, tables, firstId, done, nextId, jobs)
      modifies this
      ensures Valid() && phase == Idle && Lived(cfg, tables + [jobs], firstId, done + [tick], nextId, jobs)
    {
      Between(tick, tables[0].Keys, firstId, RemovedIn(done));
      ghost var mid := jobs;
      Turn(tick);
      SettledThrough(cfg, mid, tick, jobs);
      LivedNext(cfg, tables, firstId, done, tick, nextId, jobs);
    }

    /** `run_outbound_worker` for as many turns as there are ticks, producers and deletions at work in between: the
        tables on the way follow from each other turn by turn. Whatever failed: only deleted jobs are missing, the
        enqueued ones have joined, settled jobs are untouched, and the retry cap holds of every row. */
    method RunOutboundWorker(ticks: seq<Tick>) returns (ghost tables: seq<map<JobId, Job>>)
      requires Valid() && phase == Idle
      modifies this
      ensures Valid() && phase == Idle && Lived(cfg, tables, old(nextId), ticks, nextId, jobs) && tables[0] == old(jobs)
      ensures forall id :: id in jobs ==> WithinCap(cfg, jobs[id])
    {
      KeysBelowAlways(cfg, run, |run.acts|);
      tables := [jobs];
      var i := 0;
      while i < |ticks|
        invariant 0 <= i <= |ticks| && Valid() && phase == Idle
        invariant Lived(cfg, tables, old(nextId), ticks[..i], nextId, jobs) && tables[0] == old(jobs)
      {
        OneTick(ticks[i], ticks[..i], tables, old(nextId));
        tables := tables + [jobs];
        TakeNext(ticks, i);
        i := i + 1;
      }
      TakeAll(ticks);
      CapHolds(cfg, run, jobs);
    }
  }
}
