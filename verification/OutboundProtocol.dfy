/** The outbound delivery queue of src/send.rs as a transition system: a shared table of jobs, an audit trail to
    which workers only append and from which a deleted job takes its rows, and any number of worker loops that
    interleave with each other, with the producers and with message deletion. Every step is one database operation
    or one network call, so a crash or a database error can fall between any two writes. */
module OutboundProtocol {
  import opened Prelude
  import Backoff

  type JobId = nat
  type WorkerId = nat
  /** Seconds. */
  type Time = int

  datatype Status = Queued | InProgress | Delivered | Failed

  /** One `Outbound` row. */
  datatype Job = Job(
    messageId: nat,
    rcptTo: string,
    senderId: string,
    status: Status,
    attempts: nat,
    nextAttemptAt: Option<Time>,
    lastError: Option<string>)
  {
    predicate Terminal() {
      status == Delivered || status == Failed
    }

    /** Due at `now`: no backoff, or one that has elapsed. */
    predicate Due(now: Time) {
      nextAttemptAt.None? || nextAttemptAt.value <= now
    }

    /** The columns the queue never rewrites. */
    predicate SameEnvelope(other: Job) {
      messageId == other.messageId && rcptTo == other.rcptTo && senderId == other.senderId
    }
  }

  /** One `DeliveryStatus` row: `code` is `Some(250)` for an accepted handoff, else `None`. */
  datatype Audit = Audit(jobId: JobId, host: string, code: Option<nat>)

  datatype Config = Config(maxAttempts: U64, baseBackoff: U64, maxBackoff: U64, relayHost: Option<string>)

  /** `nextId` is the next automatic key: keys are never reused. */
  datatype Db = Db(jobs: map<JobId, Job>, audit: seq<Audit>, nextId: JobId)

  /** What `drain_once` keeps of a fetched row: the claim re-reads everything else. */
  datatype Snap = Snap(id: JobId, nextAttemptAt: Option<Time>)

  /** What the SMTP transport reports for one host. */
  datatype Answer = Accepted | Refused(error: string)

  datatype Stage =
    | Loading                                                     // message, envelope and MX not resolved yet
    | Sending(targets: seq<string>, pos: nat)                     // about to contact targets[pos]
    | Recording(targets: seq<string>, pos: nat, answer: Answer)   // answer known, audit row not written
    | Settling                                                    // 250 recorded, job not marked Delivered
    | Failing(reason: string)                                     // no target accepted, counter not bumped

  /** The program counter and local variables of one worker loop. */
  datatype Phase =
    | Idle
    | Sweeping(todo: seq<JobId>, clean: bool)                     // `clean`: the scan and every reset so far succeeded
    | Draining(now: Time, snaps: seq<Snap>)
    | Delivering(now: Time, snaps: seq<Snap>, id: JobId, job: Job, stage: Stage)

  datatype State = State(db: Db, workers: map<WorkerId, Phase>)

  datatype Op =
    | Scan(ids: seq<JobId>)
    | ScanFails
    | Reset(ok: bool)
    | Fetch(at: Time, fetched: seq<Snap>)
    | FetchFails
    | NotDue
    | Claim
    | ClaimFails
    | DrainDone
    | Resolve(hosts: seq<string>)
    | ResolveFails
    | TransportFails
    | Send(answer: Answer)
    | Record(ok: bool)
    | Settle(ok: bool)
    | FailOrRequeue(ok: bool)
    | Crash

  datatype Action =
    | Work(worker: WorkerId, op: Op)
    | Enqueue(messageId: nat, rcptTo: string, senderId: string)
    | Remove(id: JobId)

  // ---------------------------------------------------------------------------
  // Row updates
  // ---------------------------------------------------------------------------

  /** The reset a sweep writes: attempts survive, backoff and error do not. */
  function Requeued(job: Job): Job {
    job.(status := Queued, nextAttemptAt := None, lastError := None)
  }

  /** The columns `deliver_hosts` writes after a 250; the counter comes from the claimed copy. */
  function MarkDelivered(row: Job, copy: Job): Job {
    row.(status := Delivered, attempts := copy.attempts + 1, nextAttemptAt := None, lastError := None)
  }

  /** The columns `fail_or_requeue` writes; the cap test is strictly greater. */
  function MarkFailedOrQueued(cfg: Config, row: Job, copy: Job, now: Time, reason: string): Job {
    var attempts := copy.attempts + 1;
    if attempts > cfg.maxAttempts then
      row.(status := Failed, attempts := attempts, nextAttemptAt := None, lastError := Some(reason))
    else
      row.(status := Queued, attempts := attempts,
           nextAttemptAt := Some(now + Backoff.Delay(cfg.baseBackoff, cfg.maxBackoff, attempts)),
           lastError := Some(reason))
  }

  /** An update by primary key: a row that is gone stays gone. */
  function WriteJob(db: Db, id: JobId, job: Job): Db {
    if id in db.jobs then db.(jobs := db.jobs[id := job]) else db
  }

  function Targets(cfg: Config, hosts: seq<string>): seq<string> {
    if cfg.relayHost.Some? then [cfg.relayHost.value] else hosts
  }

  const NO_MX := "no MX records for domain"

  function AfterResolve(cfg: Config, hosts: seq<string>): Stage {
    var targets := Targets(cfg, hosts);
    if targets == [] then Failing(NO_MX) else Sending(targets, 0)
  }

  function AfterRecord(targets: seq<string>, pos: nat, answer: Answer): Stage
    requires pos < |targets|
  {
    if answer.Accepted? then Settling
    else if pos + 1 < |targets| then Sending(targets, pos + 1)
    else Failing("via " + targets[pos] + ": " + answer.error)
  }

  function AuditRow(id: JobId, host: string, answer: Answer): Audit {
    Audit(id, host, if answer.Accepted? then Some(250) else None)
  }

  /** The audit rows of one job, in order. */
  function AuditOf(audit: seq<Audit>, id: JobId): seq<Audit> {
    if audit == [] then []
    else
      var last := audit[|audit| - 1];
      AuditOf(audit[..|audit| - 1], id) + (if last.jobId == id then [last] else [])
  }

  /** What the deletion of a job leaves of the trail: its own rows go with it. */
  function WithoutJob(audit: seq<Audit>, id: JobId): seq<Audit> {
    if audit == [] then []
    else
      var last := audit[|audit| - 1];
      WithoutJob(audit[..|audit| - 1], id) + (if last.jobId == id then [] else [last])
  }

  // ---------------------------------------------------------------------------
  // Steps
  // ---------------------------------------------------------------------------

  ghost predicate Lists(ids: seq<JobId>, jobs: map<JobId, Job>, status: Status) {
    && Distinct(ids)
    && forall id :: id in ids <==> id in jobs && jobs[id].status == status
  }

  function SnapIds(snaps: seq<Snap>): (ids: seq<JobId>)
    ensures |ids| == |snaps|
    ensures forall i :: 0 <= i < |ids| ==> ids[i] == snaps[i].id
  {
    seq(|snaps|, i requires 0 <= i < |snaps| => snaps[i].id)
  }

  ghost predicate Snapshots(snaps: seq<Snap>, jobs: map<JobId, Job>) {
    && Lists(SnapIds(snaps), jobs, Queued)
    && forall i :: 0 <= i < |snaps| ==> snaps[i].id in jobs && jobs[snaps[i].id].nextAttemptAt == snaps[i].nextAttemptAt
  }

  predicate SnapDue(snap: Snap, now: Time) {
    snap.nextAttemptAt.None? || snap.nextAttemptAt.value <= now
  }

  predicate Claimable(jobs: map<JobId, Job>, id: JobId) {
    id in jobs && jobs[id].status == Queued
  }

  /** One step of one worker loop: `run_outbound_worker`, `reclaim_in_progress`, `drain_once`, `claim`,
      `deliver_one`, `deliver_hosts` and `fail_or_requeue`, cut at every database or network call. */
  ghost predicate WorkerStep(cfg: Config, db: Db, ph: Phase, op: Op, db': Db, ph': Phase) {
    match op
    case Scan(ids) =>
      ph.Idle? && Lists(ids, db.jobs, InProgress) && db' == db && ph' == Sweeping(ids, true)
    case ScanFails =>
      ph.Idle? && db' == db && ph' == Sweeping([], false)
    case Reset(ok) =>
      ph.Sweeping? && ph.todo != [] &&
      var id := ph.todo[0];
      && ph' == Sweeping(ph.todo[1..], ph.clean && ok)
      && db' == if ok && id in db.jobs then WriteJob(db, id, Requeued(db.jobs[id])) else db
    case Fetch(at, fetched) =>
      ph.Sweeping? && ph.todo == [] && Snapshots(fetched, db.jobs) && db' == db && ph' == Draining(at, fetched)
    case FetchFails =>
      ph.Sweeping? && ph.todo == [] && db' == db && ph' == Idle
    case NotDue =>
      && ph.Draining? && ph.snaps != [] && !SnapDue(ph.snaps[0], ph.now)
      && db' == db && ph' == Draining(ph.now, ph.snaps[1..])
    case Claim =>
      ph.Draining? && ph.snaps != [] && SnapDue(ph.snaps[0], ph.now) &&
      var id := ph.snaps[0].id;
      if Claimable(db.jobs, id) then
        var job := db.jobs[id].(status := InProgress);
        db' == WriteJob(db, id, job) && ph' == Delivering(ph.now, ph.snaps[1..], id, job, Loading)
      else
        db' == db && ph' == Draining(ph.now, ph.snaps[1..])
    case ClaimFails =>   // nothing committed; a commit that only reports failure is Claim then Crash
      ph.Draining? && ph.snaps != [] && SnapDue(ph.snaps[0], ph.now) && db' == db && ph' == Idle
    case DrainDone =>
      ph.Draining? && ph.snaps == [] && db' == db && ph' == Idle
    case Resolve(hosts) =>
      ph.Delivering? && ph.stage.Loading? && db' == db && ph' == ph.(stage := AfterResolve(cfg, hosts))
    case ResolveFails =>
      ph.Delivering? && ph.stage.Loading? && db' == db && ph' == Draining(ph.now, ph.snaps)
    case TransportFails =>
      ph.Delivering? && ph.stage.Sending? && db' == db && ph' == Draining(ph.now, ph.snaps)
    case Send(answer) =>
      && ph.Delivering? && ph.stage.Sending? && ph.stage.pos < |ph.stage.targets|
      && db' == db && ph' == ph.(stage := Recording(ph.stage.targets, ph.stage.pos, answer))
    case Record(ok) =>
      && ph.Delivering? && ph.stage.Recording? && ph.stage.pos < |ph.stage.targets|
      && if ok then
        && db' == db.(audit := db.audit + [AuditRow(ph.id, ph.stage.targets[ph.stage.pos], ph.stage.answer)])
        && ph' == ph.(stage := AfterRecord(ph.stage.targets, ph.stage.pos, ph.stage.answer))
      else
        db' == db && ph' == Draining(ph.now, ph.snaps)
    case Settle(ok) =>
      && ph.Delivering? && ph.stage.Settling? && ph' == Draining(ph.now, ph.snaps)
      && db' == if ok && ph.id in db.jobs then WriteJob(db, ph.id, MarkDelivered(db.jobs[ph.id], ph.job)) else db
    case FailOrRequeue(ok) =>
      && ph.Delivering? && ph.stage.Failing? && ph' == Draining(ph.now, ph.snaps)
      && db' == if ok && ph.id in db.jobs
                then WriteJob(db, ph.id, MarkFailedOrQueued(cfg, db.jobs[ph.id], ph.job, ph.now, ph.stage.reason))
                else db
    case Crash =>
      db' == db && ph' == Idle
  }

  function NewJob(messageId: nat, rcptTo: string, senderId: string): Job {
    Job(messageId, rcptTo, senderId, Queued, 0, None, None)
  }

  /** A job as the producers enqueue it. */
  predicate IsNew(job: Job) {
    job == NewJob(job.messageId, job.rcptTo, job.senderId)
  }

  ghost predicate Step(cfg: Config, s: State, a: Action, s': State) {
    match a
    case Work(w, op) =>
      && w in s.workers && w in s'.workers
      && s'.workers == s.workers[w := s'.workers[w]]
      && WorkerStep(cfg, s.db, s.workers[w], op, s'.db, s'.workers[w])
    case Enqueue(messageId, rcptTo, senderId) =>
      && s'.workers == s.workers
      && s'.db == Db(s.db.jobs[s.db.nextId := NewJob(messageId, rcptTo, senderId)], s.db.audit, s.db.nextId + 1)
    case Remove(id) =>
      && s'.workers == s.workers
      && s'.db == s.db.(jobs := s.db.jobs - {id}, audit := WithoutJob(s.db.audit, id))
  }

  /** An empty database and a fixed set of idle loops; a process restart is a Crash step. */
  ghost predicate Init(s: State) {
    && s.db == Db(map[], [], 0)
    && forall w :: w in s.workers ==> s.workers[w] == Idle
  }

  ghost function StepOf(cfg: Config): (State, Action, State) -> bool {
    (s, a, s') => Step(cfg, s, a, s')
  }

  ghost predicate IsRun(cfg: Config, r: Run<State, Action>) {
    Follows(Init, StepOf(cfg), r)
  }

  // ---------------------------------------------------------------------------
  // Vocabulary for statements about steps and runs
  // ---------------------------------------------------------------------------

  /** Worker `w` is carrying job `id` through a delivery cycle. */
  predicate Carries(s: State, w: WorkerId, id: JobId) {
    w in s.workers && s.workers[w].Delivering? && s.workers[w].id == id
  }

  /** The step is a claim that takes job `id`. */
  predicate Claims(s: State, a: Action, id: JobId) {
    && a.Work? && a.op.Claim? && a.worker in s.workers
    && var ph := s.workers[a.worker];
       ph.Draining? && ph.snaps != [] && ph.snaps[0].id == id && Claimable(s.db.jobs, id)
  }

  /** The step is a reset write that reaches the row of job `id`. */
  predicate Resets(s: State, a: Action, id: JobId) {
    && a.Work? && a.op == Reset(true) && a.worker in s.workers
    && var ph := s.workers[a.worker];
       ph.Sweeping? && ph.todo != [] && ph.todo[0] == id && id in s.db.jobs
  }

  /** The step ends a cycle of job `id` with a written outcome: a counted cycle. */
  predicate Counts(s: State, a: Action, id: JobId) {
    && a.Work? && (a.op == Settle(true) || a.op == FailOrRequeue(true)) && a.worker in s.workers
    && var ph := s.workers[a.worker];
       ph.Delivering? && ph.id == id && id in s.db.jobs
  }

  /** The step is a counted failure that puts job `id` back in the queue. */
  predicate RetriesLater(cfg: Config, s: State, a: Action, id: JobId) {
    && Counts(s, a, id) && a.op.FailOrRequeue?
    && s.workers[a.worker].job.attempts + 1 <= cfg.maxAttempts
  }

  /** The step is a reset that takes job `id` out of progress. */
  predicate Reclaims(s: State, a: Action, id: JobId) {
    Resets(s, a, id) && s.db.jobs[id].status == InProgress
  }

  /** The step hands the message of job `id` to a host that accepts it. */
  predicate Accepts(s: State, a: Action, id: JobId) {
    a.Work? && a.op == Send(Accepted) && Carries(s, a.worker, id) && id in s.db.jobs
  }

  /** The worker knows of an acceptance that the job row does not show yet. */
  predicate HoldsAcceptance(ph: Phase) {
    ph.Delivering? && (ph.stage.Settling? || (ph.stage.Recording? && ph.stage.answer.Accepted?))
  }

  /** The step ends a cycle of job `id` after a host accepted the message and before the row says so: a crash, a
      failed audit insert or a failed update. */
  predicate LosesAcceptance(s: State, a: Action, id: JobId) {
    && a.Work? && (a.op.Crash? || a.op == Record(false) || a.op == Settle(false))
    && Carries(s, a.worker, id) && HoldsAcceptance(s.workers[a.worker]) && id in s.db.jobs
  }

  function AsOne(b: bool): nat {
    if b then 1 else 0
  }

  /** How many of the first `n` steps did `what` to job `id`. */
  ghost function Times(r: Run<State, Action>, what: (State, Action, JobId) -> bool, id: JobId, n: nat): nat
    requires n <= |r.acts| <= |r.states|
  {
    if n == 0 then 0 else Times(r, what, id, n - 1) + AsOne(what(r.states[n - 1], r.acts[n - 1], id))
  }

  /** The operation is an error or a crash. A refusal by an SMTP host is neither. */
  predicate Fails(op: Op) {
    match op
    case Reset(ok) => !ok
    case Record(ok) => !ok
    case Settle(ok) => !ok
    case FailOrRequeue(ok) => !ok
    case ScanFails => true
    case FetchFails => true
    case ClaimFails => true
    case ResolveFails => true
    case TransportFails => true
    case Crash => true
    case _ => false
  }

  ghost predicate NoFailure(r: Run<State, Action>) {
    forall k :: 0 <= k < |r.acts| && r.acts[k].Work? ==> !Fails(r.acts[k].op)
  }
}
