/** What one turn of the worker loop makes of the job table, given how the network and the database treat each call. */
module OutboundTurns {
  import opened Prelude
  import opened OutboundProtocol
  import Backoff

  /** One host: the transport cannot be built, or the host answers and its audit row is or is not written. */
  datatype Try = NoTransport | Unrecorded(answer: Answer) | Recorded(answer: Answer)

  /** How the world treats one job in one drain: whether the claim transaction works; the hosts of its recipient, or
      `None` if the message, the envelope or the lookup fails; what happens at each target; and whether the final
      update of the row works. */
  datatype Env = Env(claimOk: bool, hosts: Option<seq<string>>, tries: nat -> Try, writeOk: bool)

  /** A message handed to the queue. */
  datatype Arrival = Arrival(messageId: nat, rcptTo: string, senderId: string)

  /** One turn of the loop: what the producers enqueued and the API deleted since the last one, the time its drain
      starts, whether the scan and the fetch work, the rows whose reset fails, and how each job fares. */
  datatype Tick = Tick(arrivals: seq<Arrival>, removed: seq<JobId>, now: Time, scanOk: bool, failing: set<JobId>,
                       fetchOk: bool, env: JobId -> Env)

  // ---------------------------------------------------------------------------
  // One cycle
  // ---------------------------------------------------------------------------

  predicate Succeeded(answers: seq<Answer>) {
    answers != [] && answers[|answers| - 1].Accepted?
  }

  /** The answers received and recorded, and whether the cycle ended without an error: targets in order, on after a
      refusal, until one accepts, something fails or there is none left. */
  ghost predicate Tried(targets: seq<string>, env: Env, answers: seq<Answer>, ok: bool) {
    && |answers| <= |targets|
    && (forall i :: 0 <= i < |answers| ==> env.tries(i) == Recorded(answers[i]))
    && (forall i :: 0 <= i < |answers| - 1 ==> answers[i].Refused?)
    && if Succeeded(answers) || |answers| == |targets| then ok == env.writeOk
       else !ok && !env.tries(|answers|).Recorded?
  }

  /** So far every target has been reached, recorded, and refused. */
  ghost predicate AllRefused(env: Env, answers: seq<Answer>) {
    forall i :: 0 <= i < |answers| ==> answers[i].Refused? && env.tries(i) == Recorded(answers[i])
  }

  lemma RefusedNext(env: Env, answers: seq<Answer>, answer: Answer)
    requires AllRefused(env, answers) && answer.Refused? && env.tries(|answers|) == Recorded(answer)
    ensures AllRefused(env, answers + [answer])
  {
  }

  lemma TriedBroken(targets: seq<string>, env: Env, answers: seq<Answer>)
    requires AllRefused(env, answers) && |answers| < |targets| && !env.tries(|answers|).Recorded?
    ensures Tried(targets, env, answers, false) && !Succeeded(answers)
  {
  }

  lemma TriedAccepted(targets: seq<string>, env: Env, answers: seq<Answer>)
    requires AllRefused(env, answers) && |answers| < |targets| && env.tries(|answers|) == Recorded(Accepted)
    ensures Tried(targets, env, answers + [Accepted], env.writeOk) && Succeeded(answers + [Accepted])
  {
  }

  lemma TriedAll(targets: seq<string>, env: Env, answers: seq<Answer>)
    requires AllRefused(env, answers) && |answers| == |targets|
    ensures Tried(targets, env, answers, env.writeOk) && !Succeeded(answers)
  {
  }

  lemma TriedNoLonger(targets: seq<string>, env: Env, a: seq<Answer>, ok: bool, b: seq<Answer>, ok': bool)
    requires Tried(targets, env, a, ok) && Tried(targets, env, b, ok')
    ensures |b| <= |a|
  {
    assert forall i :: 0 <= i < |a| ==> env.tries(i) == Recorded(a[i]);
    assert forall i :: 0 <= i < |b| ==> env.tries(i) == Recorded(b[i]);
  }

  /** The world leaves the code no choice. */
  lemma TriedIsOne(targets: seq<string>, env: Env, a: seq<Answer>, ok: bool, b: seq<Answer>, ok': bool)
    requires Tried(targets, env, a, ok) && Tried(targets, env, b, ok')
    ensures a == b && ok == ok'
  {
    TriedNoLonger(targets, env, a, ok, b, ok');
    TriedNoLonger(targets, env, b, ok', a, ok);
    forall i | 0 <= i < |a| ensures a[i] == b[i] {
      assert env.tries(i) == Recorded(a[i]) && env.tries(i) == Recorded(b[i]);
    }
  }

  /** The audit rows of one cycle: one per answer, in target order. */
  ghost function Trail(id: JobId, targets: seq<string>, answers: seq<Answer>): seq<Audit>
    requires |answers| <= |targets|
  {
    seq(|answers|, i requires 0 <= i < |answers| => AuditRow(id, targets[i], answers[i]))
  }

  lemma TrailNext(id: JobId, targets: seq<string>, answers: seq<Answer>, answer: Answer)
    requires |answers| < |targets|
    ensures Trail(id, targets, answers + [answer])
         == Trail(id, targets, answers) + [AuditRow(id, targets[|answers|], answer)]
  {
  }

  /** The error text a failed cycle stores: the last refusal, or that there was no target. */
  function LastReason(targets: seq<string>, answers: seq<Answer>): string
    requires |answers| <= |targets|
  {
    if answers == [] || answers[|answers| - 1].Accepted? then NO_MX
    else "via " + targets[|answers| - 1] + ": " + answers[|answers| - 1].error
  }

  /** The claimed row after the cycle. */
  function RowAfter(cfg: Config, job: Job, now: Time, targets: seq<string>, answers: seq<Answer>, ok: bool): Job
    requires |answers| <= |targets|
  {
    if !ok then job
    else if Succeeded(answers) then MarkDelivered(job, job)
    else MarkFailedOrQueued(cfg, job, job, now, LastReason(targets, answers))
  }

  /** What one handoff makes of the table and the trail. */
  ghost predicate Cycled(cfg: Config, id: JobId, job: Job, now: Time, hosts: seq<string>, env: Env,
                         answers: seq<Answer>, ok: bool, before: Db, after: Db) {
    var targets := Targets(cfg, hosts);
    && Tried(targets, env, answers, ok)
    && after.nextId == before.nextId && after.audit == before.audit + Trail(id, targets, answers)
    && id in before.jobs && before.jobs[id] == job
    && after.jobs == before.jobs[id := RowAfter(cfg, job, now, targets, answers, ok)]
  }

  /** The trail without the model's own helpers: one row per answer, for the targets in order, a 250 for an
      acceptance. */
  lemma TrailMeans(id: JobId, targets: seq<string>, answers: seq<Answer>)
    requires |answers| <= |targets|
    ensures |Trail(id, targets, answers)| == |answers|
    ensures forall i :: 0 <= i < |answers| ==>
      Trail(id, targets, answers)[i] == Audit(id, targets[i], if answers[i].Accepted? then Some(250) else None)
  {
  }

  /** And the row: left as claimed if something failed; `Delivered` after an acceptance; else queued again or
      failed, with the last refusal as its error; the counter one higher whenever it is written. */
  lemma RowMeans(cfg: Config, job: Job, now: Time, targets: seq<string>, answers: seq<Answer>, ok: bool)
    requires |answers| <= |targets|
    ensures
      var row, n := RowAfter(cfg, job, now, targets, answers, ok), |answers|;
      if !ok then row == job
      else if n > 0 && answers[n - 1].Accepted? then
        row == job.(status := Delivered, attempts := job.attempts + 1, nextAttemptAt := None, lastError := None)
      else
        var reason := if n == 0 then "no MX records for domain"
                      else "via " + targets[n - 1] + ": " + answers[n - 1].error;
        if job.attempts + 1 > cfg.maxAttempts then
          row == job.(status := Failed, attempts := job.attempts + 1, nextAttemptAt := None,
                      lastError := Some(reason))
        else
          var delay := Backoff.Delay(cfg.baseBackoff, cfg.maxBackoff, job.attempts + 1);
          row == job.(status := Queued, attempts := job.attempts + 1, nextAttemptAt := Some(now + delay),
                      lastError := Some(reason))
  {
  }

  /** A handoff goes to the relay alone if there is one, else to the hosts in order; its answers are those the world
      gives, each a refusal but possibly the last; the trail and the row are as above, and no other row changes. */
  lemma CycledMeans(cfg: Config, id: JobId, job: Job, now: Time, hosts: seq<string>, env: Env, answers: seq<Answer>,
                    ok: bool, before: Db, after: Db)
    requires Cycled(cfg, id, job, now, hosts, env, answers, ok, before, after)
    ensures
      var targets := if cfg.relayHost.Some? then [cfg.relayHost.value] else hosts;
      && |answers| <= |targets|
      && (forall i :: 0 <= i < |answers| ==> env.tries(i) == Recorded(answers[i]))
      && (forall i :: 0 <= i < |answers| && answers[i].Accepted? ==> i == |answers| - 1)
      && (ok && (answers == [] || answers[|answers| - 1].Refused?) ==> |answers| == |targets|)
      && after.audit == before.audit + Trail(id, targets, answers)
      && after.jobs.Keys == before.jobs.Keys
      && (forall k :: k in before.jobs && k != id ==> after.jobs[k] == before.jobs[k])
      && after.jobs[id] == RowAfter(cfg, job, now, targets, answers, ok)
  {
  }

  // ---------------------------------------------------------------------------
  // One job in a drain
  // ---------------------------------------------------------------------------

  /** What a drain at `now` makes of a job that it claims. */
  ghost predicate WorkedTo(cfg: Config, row: Job, now: Time, env: Env, row': Job) {
    var job := row.(status := InProgress);
    if env.hosts.None? then row' == job
    else exists answers, ok :: Handled(cfg, job, now, Targets(cfg, env.hosts.value), env, answers, ok, row')
  }

  ghost predicate Handled(cfg: Config, job: Job, now: Time, targets: seq<string>, env: Env, answers: seq<Answer>,
                          ok: bool,
                          row': Job) {
    Tried(targets, env, answers, ok) && row' == RowAfter(cfg, job, now, targets, answers, ok)
  }

  /** The relay, or the hosts of the recipient as far as they are known. */
  function HostsFor(cfg: Config, env: Env): seq<string> {
    match cfg.relayHost
    case Some(h) => [h]
    case None => if env.hosts.Some? then env.hosts.value else []
  }

  /** Some host the job is to go to accepts it. */
  ghost predicate SomeAccepts(cfg: Config, env: Env) {
    exists i :: 0 <= i < |HostsFor(cfg, env)| && env.tries(i) == Recorded(Accepted)
  }

  /** The world around one job works: the message loads, every target is reached and recorded, the row is written. */
  ghost predicate Works(cfg: Config, env: Env) {
    && env.claimOk && env.hosts.Some? && env.writeOk
    && forall i :: 0 <= i < |HostsFor(cfg, env)| ==> env.tries(i).Recorded?
  }

  lemma WorkingCycle(cfg: Config, env: Env, answers: seq<Answer>, ok: bool)
    requires Works(cfg, env) && Tried(HostsFor(cfg, env), env, answers, ok)
    ensures ok && (Succeeded(answers) <==> SomeAccepts(cfg, env))
  {
    var targets := HostsFor(cfg, env);
    if Succeeded(answers) {
      assert env.tries(|answers| - 1) == Recorded(Accepted);
    } else {
      assert |answers| == |targets|;
      forall i | 0 <= i < |targets| ensures env.tries(i) != Recorded(Accepted) {
        assert env.tries(i) == Recorded(answers[i]);
      }
    }
  }

  /** Where everything works, the job is `Delivered` if and only if some target accepts; else it is queued for later, or
      failed past the cap; and one more attempt is counted either way. */
  lemma WorkedMeans(cfg: Config, row: Job, now: Time, env: Env, row': Job)
    requires WorkedTo(cfg, row, now, env, row') && Works(cfg, env)
    ensures row'.SameEnvelope(row) && row'.attempts == row.attempts + 1
    ensures row'.status == Delivered <==> SomeAccepts(cfg, env)
    ensures row'.status != Delivered ==>
      if row'.attempts > cfg.maxAttempts then row'.status == Failed && row'.nextAttemptAt == None
      else
        && row'.status == Queued
        && row'.nextAttemptAt == Some(now + Backoff.Delay(cfg.baseBackoff, cfg.maxBackoff, row'.attempts))
  {
    var job, targets := row.(status := InProgress), Targets(cfg, env.hosts.value);
    var answers, ok :| Handled(cfg, job, now, targets, env, answers, ok, row');
    WorkingCycle(cfg, env, answers, ok);
    RowMeans(cfg, job, now, targets, answers, ok);
  }

  /** Whatever fails, the job keeps its envelope and is left as claimed or has one attempt more. */
  lemma WorkedKeeps(cfg: Config, row: Job, now: Time, env: Env, row': Job)
    requires WorkedTo(cfg, row, now, env, row')
    ensures row'.SameEnvelope(row)
    ensures row' == row.(status := InProgress) || row'.attempts == row.attempts + 1
  {
  }

  // ---------------------------------------------------------------------------
  // One turn
  // ---------------------------------------------------------------------------

  /** The table after the sweep. */
  ghost function Swept(jobs: map<JobId, Job>, scanOk: bool, failing: set<JobId>): (swept: map<JobId, Job>)
    ensures swept.Keys == jobs.Keys
    ensures forall id :: id in jobs ==>
      if scanOk && jobs[id].status == InProgress && id !in failing
      then swept[id] == jobs[id].(status := Queued, nextAttemptAt := None, lastError := None)
      else swept[id] == jobs[id]
  {
    map id | id in jobs ::
      if scanOk && jobs[id].status == InProgress && id !in failing then Requeued(jobs[id]) else jobs[id]
  }

  ghost predicate DueAt(jobs: map<JobId, Job>, id: JobId, now: Time) {
    id in jobs && jobs[id].status == Queued && (jobs[id].nextAttemptAt.None? || jobs[id].nextAttemptAt.value <= now)
  }

  /** The fetch works, and so does the claim of every due job. */
  ghost predicate DrainWorks(jobs: map<JobId, Job>, now: Time, fetchOk: bool, env: JobId -> Env) {
    fetchOk && forall id :: DueAt(jobs, id, now) ==> env(id).claimOk
  }

  /** The table after a drain: only due jobs are worked on; all of them if the fetch and every claim work; none if the
      fetch fails; and if a claim fails, the drain ends there. */
  ghost predicate DrainedTo(cfg: Config, before: map<JobId, Job>, now: Time, fetchOk: bool, env: JobId -> Env,
                            after: map<JobId, Job>) {
    && after.Keys == before.Keys
    && (!fetchOk ==> after == before)
    && (forall id :: id in before && !DueAt(before, id, now) ==> after[id] == before[id])
    && (forall id :: DueAt(before, id, now) ==>
          || WorkedTo(cfg, before[id], now, env(id), after[id])
          || (after[id] == before[id] && !DrainWorks(before, now, fetchOk, env)))
  }

  ghost predicate TurnTo(cfg: Config, before: map<JobId, Job>, tick: Tick, after: map<JobId, Job>) {
    DrainedTo(cfg, Swept(before, tick.scanOk, tick.failing), tick.now, tick.fetchOk, tick.env, after)
  }

  /** A turn in which everything works leaves no job in progress, attempts every job that was in progress or queued and
      due, delivers exactly those that some target accepts, and touches no other. */
  lemma WorkingTurn(cfg: Config, before: map<JobId, Job>, tick: Tick, after: map<JobId, Job>, id: JobId)
    requires TurnTo(cfg, before, tick, after) && id in before
    requires tick.scanOk && tick.failing == {} && tick.fetchOk
    requires forall k :: k in before ==> Works(cfg, tick.env(k))
    ensures id in after && after[id].status != InProgress
    ensures
      var row := before[id];
      if row.status == InProgress || DueAt(before, id, tick.now) then
        && after[id].attempts == row.attempts + 1
        && (after[id].status == Delivered <==> SomeAccepts(cfg, tick.env(id)))
      else after[id] == row
  {
    var swept := Swept(before, true, {});
    if DueAt(swept, id, tick.now) {
      WorkedMeans(cfg, swept[id], tick.now, tick.env(id), after[id]);
    }
  }

  /** Settled jobs are never touched. */
  lemma TurnKeepsSettled(cfg: Config, before: map<JobId, Job>, tick: Tick, after: map<JobId, Job>, id: JobId)
    requires TurnTo(cfg, before, tick, after) && id in before && before[id].Terminal()
    ensures id in after && after[id] == before[id]
  {
  }

  // ---------------------------------------------------------------------------
  // Between turns
  // ---------------------------------------------------------------------------

  function Elements(ids: seq<JobId>): set<JobId> {
    set id | id in ids
  }

  /** One fresh row per arrival, under consecutive keys. */
  function WithArrivals(jobs: map<JobId, Job>, next: JobId, arrivals: seq<Arrival>): map<JobId, Job> {
    if arrivals == [] then jobs
    else
      var last := |arrivals| - 1;
      var a := arrivals[last];
      var row := Job(a.messageId, a.rcptTo, a.senderId, Queued, 0, None, None);
      WithArrivals(jobs, next, arrivals[..last])[next + last := row]
  }

  /** The keys from `first` up to `next` have joined those there were. */
  ghost predicate Joined(before: set<JobId>, first: JobId, next: JobId, after: set<JobId>) {
    forall id :: id in after <==> id in before || first <= id < next
  }

  /** The rows there were are as they were; each arrival has a row of its own, as given, queued, and never tried. */
  lemma {:induction false} ArrivalsMean(jobs: map<JobId, Job>, next: JobId, arrivals: seq<Arrival>)
    requires forall id :: id in jobs ==> id < next
    ensures
      var after := WithArrivals(jobs, next, arrivals);
      && Joined(jobs.Keys, next, next + |arrivals|, after.Keys)
      && (forall id :: id in jobs ==> after[id] == jobs[id])
      && (forall i :: 0 <= i < |arrivals| ==>
            after[next + i]
            == Job(arrivals[i].messageId, arrivals[i].rcptTo, arrivals[i].senderId, Queued, 0, None, None))
  {
    if arrivals != [] {
      ArrivalsMean(jobs, next, arrivals[..|arrivals| - 1]);
    }
  }

  function BeforeTurn(jobs: map<JobId, Job>, next: JobId, tick: Tick): map<JobId, Job> {
    WithArrivals(jobs, next, tick.arrivals) - Elements(tick.removed)
  }

  function Arrived(ticks: seq<Tick>): nat {
    if ticks == [] then 0 else Arrived(ticks[..|ticks| - 1]) + |ticks[|ticks| - 1].arrivals|
  }

  /** The tables before each turn's arrivals, and at the end: each follows from the one before by the arrivals and
      deletions of its tick and then the turn. */
  ghost predicate IsHistory(cfg: Config, tables: seq<map<JobId, Job>>, next: JobId, ticks: seq<Tick>)
    decreases |ticks|
  {
    && |tables| == |ticks| + 1
    && (ticks != [] ==>
          var n := |ticks| - 1;
          var before := ticks[..n];
          && IsHistory(cfg, tables[..|tables| - 1], next, before)
          && TurnTo(cfg, BeforeTurn(tables[n], next + Arrived(before), ticks[n]), ticks[n], tables[n + 1]))
  }

  lemma HistoryNext(cfg: Config, tables: seq<map<JobId, Job>>, next: JobId, ticks: seq<Tick>, tick: Tick,
                    table: map<JobId, Job>)
    requires IsHistory(cfg, tables, next, ticks)
    requires TurnTo(cfg, BeforeTurn(tables[|ticks|], next + Arrived(ticks), tick), tick, table)
    ensures IsHistory(cfg, tables + [table], next, ticks + [tick])
  {
    assert (ticks + [tick])[..|ticks|] == ticks && (tables + [table])[..|tables|] == tables;
  }
}
