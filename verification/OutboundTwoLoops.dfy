/** Two worker loops on one database: what the unconditional sweep can do, and runs that do it. */
module OutboundTwoLoops {
  import opened Prelude
  import opened OutboundProtocol
  import opened OutboundSafety
  import opened OutboundReceipts
  import OutboundWitnesses
  import Backoff

  /** The steps of worker `v` that are no error. */
  ghost function StepsAlone(cfg: Config, v: WorkerId): (State, Action, State) -> bool {
    (s: State, a: Action, s': State) => a.Work? && a.worker == v && !Fails(a.op) && Step(cfg, s, a, s')
  }

  /** Keys in any order: some listing exists. */
  lemma {:induction false} ListKeys(keys: set<JobId>) returns (ids: seq<JobId>)
    ensures Distinct(ids) && forall id :: id in ids <==> id in keys
  {
    if keys == {} {
      ids := [];
    } else {
      var k :| k in keys;
      var rest := ListKeys(keys - {k});
      ids := [k] + rest;
    }
  }

  lemma SnapshotFrom(jobs: map<JobId, Job>, id: JobId) returns (snaps: seq<Snap>)
    requires Claimable(jobs, id)
    ensures Snapshots(snaps, jobs) && snaps != [] && snaps[0] == Snap(id, jobs[id].nextAttemptAt)
  {
    var rest := ListKeys(set k | k in jobs && jobs[k].status == Queued && k != id);
    var ids := [id] + rest;
    assert Distinct(ids) by {
      forall i, j | 0 <= i < j < |ids| ensures ids[i] != ids[j] {
        assert ids[j] == rest[j - 1] && ids[j] in rest;
      }
    }
    snaps := seq(|ids|, i requires 0 <= i < |ids| =>
      Snap(ids[i], if ids[i] in jobs then jobs[ids[i]].nextAttemptAt else None));
    assert SnapIds(snaps) == ids;
  }

  /** The rest of a sweep, then a fetch and a claim: `v` picks up any queued job that is not backing off. */
  lemma {:induction false} SweepsOnToClaim(cfg: Config, v: WorkerId, s: State, id: JobId)
    returns (t: State)
    requires v in s.workers && s.workers[v].Sweeping?
    requires Claimable(s.db.jobs, id) && s.db.jobs[id].nextAttemptAt == None
    ensures Leads(StepsAlone(cfg, v), s, t) && Carries(t, v, id)
    ensures forall w, x: JobId :: w != v && Carries(s, w, x) ==> Carries(t, w, x)
    decreases |s.workers[v].todo|
  {
    var ph := s.workers[v];
    if ph.todo == [] {
      var snaps := SnapshotFrom(s.db.jobs, id);
      var drain := Draining(0, snaps);
      var m := State(s.db, s.workers[v := drain]);
      assert Step(cfg, s, Work(v, Fetch(0, snaps)), m);
      var job := s.db.jobs[id].(status := InProgress);
      t := State(WriteJob(s.db, id, job), s.workers[v := Delivering(0, snaps[1..], id, job, Loading)]);
      assert Step(cfg, m, Work(v, Claim), t);
      Here(StepsAlone(cfg, v), t);
      First(StepsAlone(cfg, v), m, Work(v, Claim), t, t);
      First(StepsAlone(cfg, v), s, Work(v, Fetch(0, snaps)), m, t);
    } else {
      var head := ph.todo[0];
      var db' := if head in s.db.jobs then WriteJob(s.db, head, Requeued(s.db.jobs[head])) else s.db;
      var m := State(db', s.workers[v := Sweeping(ph.todo[1..], ph.clean)]);
      assert Step(cfg, s, Work(v, Reset(true)), m);
      t := SweepsOnToClaim(cfg, v, m, id);
      First(StepsAlone(cfg, v), s, Work(v, Reset(true)), m, t);
    }
  }

  /** Every hazardous reset is live: the sweeping worker, running on alone and without any error, takes the job
      it reset, which was already settled or is still carried by another worker. */
  lemma HazardLeadsToSecondDelivery(cfg: Config, s: State, a: Action, s': State)
    requires Step(cfg, s, a, s') && Hazard(s, a)
    ensures exists id, t ::
      && Resets(s, a, id) && Leads(StepsAlone(cfg, a.worker), s', t) && Carries(t, a.worker, id)
      && (s.db.jobs[id].Terminal() || exists w :: w != a.worker && Carries(t, w, id))
  {
    var id :| Resets(s, a, id) && (s.db.jobs[id].Terminal() || exists w :: Carries(s, w, id));
    var t := SweepsOnToClaim(cfg, a.worker, s', id);
    if !s.db.jobs[id].Terminal() {
      var w :| Carries(s, w, id);
      assert w != a.worker && Carries(s', w, id);
      assert Carries(t, w, id);
    }
  }

  // ---------------------------------------------------------------------------
  // Runs of two loops, for any job and any MX host
  // ---------------------------------------------------------------------------

  function Two(db: Db, p: Phase, q: Phase): State {
    State(db, map[0 := p, 1 := q])
  }

  function OneRow(job: Job): Db {
    Db(map[0 := job], [], 1)
  }

  function Carrying(job: Job, stage: Stage): Phase {
    Delivering(0, [], 0, job, stage)
  }

  /** The steps that are no error and no crash and, if `calm`, no hazardous reset. */
  ghost function StepsQuietly(cfg: Config, calm: bool): (State, Action, State) -> bool {
    (s: State, a: Action, s': State) => Step(cfg, s, a, s') && (a.Work? ==> !Fails(a.op)) && (calm ==> !Hazard(s, a))
  }

  const START := Two(Db(map[], [], 0), Idle, Idle)

  /** The two loops can reach `s` by such steps. */
  ghost predicate Reachable(cfg: Config, s: State, calm: bool) {
    Leads(StepsQuietly(cfg, calm), START, s)
  }

  function Last(r: Run<State, Action>): State
    requires r.states != []
  {
    r.states[|r.states| - 1]
  }

  lemma Append(cfg: Config, r: Run<State, Action>, a: Action, s': State) returns (r': Run<State, Action>)
    requires IsRun(cfg, r) && NoFailure(r) && Step(cfg, Last(r), a, s') && (a.Work? ==> !Fails(a.op))
    ensures IsRun(cfg, r') && NoFailure(r') && r'.states == r.states + [s'] && r'.acts == r.acts + [a]
    ensures NoHazard(r, |r.acts|) && !Hazard(Last(r), a) ==> NoHazard(r', |r'.acts|)
  {
    r' := Extend(Init, StepOf(cfg), r, a, s');
  }

  lemma {:induction false} RunOfActs(cfg: Config, s: State, acts: seq<Action>, calm: bool)
    returns (r: Run<State, Action>)
    requires Takes(StepsQuietly(cfg, calm), START, acts, s)
    ensures IsRun(cfg, r) && NoFailure(r) && r.acts == acts && Last(r) == s
    ensures r.states[0].workers.Keys == {0, 1}
    ensures calm ==> NoHazard(r, |acts|)
    decreases |acts|
  {
    if acts == [] {
      r := Run([s], []);
    } else {
      var n := |acts| - 1;
      var m :| Takes(StepsQuietly(cfg, calm), START, acts[..n], m) && StepsQuietly(cfg, calm)(m, acts[n], s);
      var q := RunOfActs(cfg, m, acts[..n], calm);
      r := Append(cfg, q, acts[n], s);
    }
  }

  lemma RunOf(cfg: Config, s: State, calm: bool) returns (r: Run<State, Action>)
    requires Reachable(cfg, s, calm)
    ensures IsRun(cfg, r) && NoFailure(r) && Last(r) == s
    ensures r.states[0].workers.Keys == {0, 1}
    ensures calm ==> NoHazard(r, |r.acts|)
  {
    var acts :| Takes(StepsQuietly(cfg, calm), START, acts, s);
    r := RunOfActs(cfg, s, acts, calm);
  }

  /** The first loop steps. */
  lemma Move0(cfg: Config, calm: bool, op: Op, db: Db, p: Phase, q: Phase, db': Db, p': Phase)
    requires Reachable(cfg, Two(db, p, q), calm) && !Fails(op) && (calm ==> !op.Reset?)
    requires WorkerStep(cfg, db, p, op, db', p')
    ensures Reachable(cfg, Two(db', p', q), calm)
  {
    assert map[0 := p, 1 := q][0 := p'] == map[0 := p', 1 := q];
    assert Step(cfg, Two(db, p, q), Work(0, op), Two(db', p', q));
    Then(StepsQuietly(cfg, calm), START, Two(db, p, q), Work(0, op), Two(db', p', q));
  }

  /** The second loop steps. */
  lemma Move1(cfg: Config, calm: bool, op: Op, db: Db, p: Phase, q: Phase, db': Db, q': Phase)
    requires Reachable(cfg, Two(db, p, q), calm) && !Fails(op) && (calm ==> !op.Reset?)
    requires WorkerStep(cfg, db, q, op, db', q')
    ensures Reachable(cfg, Two(db', p, q'), calm)
  {
    assert map[0 := p, 1 := q][1 := q'] == map[0 := p, 1 := q'];
    assert Step(cfg, Two(db, p, q), Work(1, op), Two(db', p, q'));
    Then(StepsQuietly(cfg, calm), START, Two(db, p, q), Work(1, op), Two(db', p, q'));
  }

  lemma OneJobQueued(cfg: Config, first: Job, calm: bool)
    requires IsNew(first)
    ensures Reachable(cfg, Two(OneRow(first), Idle, Idle), calm)
  {
    assert map[][0 := first] == map[0 := first];
    assert Step(cfg, START, Enqueue(first.messageId, first.rcptTo, first.senderId), Two(OneRow(first), Idle, Idle));
    Here(StepsQuietly(cfg, calm), START);
    Then(StepsQuietly(cfg, calm), START, START, Enqueue(first.messageId, first.rcptTo, first.senderId),
         Two(OneRow(first), Idle, Idle));
  }

  /** The first loop fetches the job and stops just before the claim. */
  lemma FirstLoopFetches(cfg: Config, first: Job, calm: bool)
    requires IsNew(first)
    ensures Reachable(cfg, Two(OneRow(first), Draining(0, [Snap(0, None)]), Idle), calm)
  {
    var snap := [Snap(0, None)];
    OutboundWitnesses.SnapshotOfOne(first);
    OneJobQueued(cfg, first, calm);
    var db := OneRow(first);
    Move0(cfg, calm, Scan([]), db, Idle, Idle, db, Sweeping([], true));
    Move0(cfg, calm, Fetch(0, snap), db, Sweeping([], true), Idle, db, Draining(0, snap));
  }

  /** The first loop claims the job and hands it over. */
  lemma FirstLoopSends(cfg: Config, first: Job, mx: string)
    requires IsNew(first)
    ensures var taken := first.(status := InProgress);
      Reachable(cfg, Two(OneRow(taken), Carrying(taken, Recording(Targets(cfg, [mx]), 0, Accepted)), Idle), false)
  {
    var taken := first.(status := InProgress);
    var snap := [Snap(0, None)];
    ClaimOfOne(cfg, [], first, 0, snap, Draining(0, snap));
    FirstLoopFetches(cfg, first, false);
    var db := OneRow(taken);
    var loading, sending := Carrying(taken, Loading), Carrying(taken, Sending(Targets(cfg, [mx]), 0));
    Move0(cfg, false, Claim, OneRow(first), Draining(0, snap), Idle, db, loading);
    Move0(cfg, false, Resolve([mx]), db, loading, Idle, db, sending);
    Move0(cfg, false, Send(Accepted), db, sending, Idle,
          db, Carrying(taken, Recording(Targets(cfg, [mx]), 0, Accepted)));
  }

  /** The second loop's sweep resets the job under the first, and its drain fetches it. */
  lemma SecondLoopResets(cfg: Config, first: Job, mx: string)
    requires IsNew(first)
    ensures var taken := first.(status := InProgress);
      var sent := Carrying(taken, Recording(Targets(cfg, [mx]), 0, Accepted));
      Reachable(cfg, Two(OneRow(first), sent, Draining(0, [Snap(0, None)])), false)
  {
    var taken := first.(status := InProgress);
    var snap := [Snap(0, None)];
    var sent := Carrying(taken, Recording(Targets(cfg, [mx]), 0, Accepted));
    FirstLoopSends(cfg, first, mx);
    OutboundWitnesses.SnapshotOfOne(first);
    var db, db' := OneRow(taken), OneRow(first);
    assert WriteJob(db, 0, Requeued(taken)) == db';
    Move1(cfg, false, Scan([0]), db, sent, Idle, db, Sweeping([0], true));
    Move1(cfg, false, Reset(true), db, sent, Sweeping([0], true), db', Sweeping([], true));
    Move1(cfg, false, Fetch(0, snap), db', sent, Sweeping([], true), db', Draining(0, snap));
  }

  /** The second loop claims the job and hands it over too. */
  lemma BothSend(cfg: Config, first: Job, mx: string)
    requires IsNew(first)
    ensures var taken := first.(status := InProgress);
      var sent := Carrying(taken, Recording(Targets(cfg, [mx]), 0, Accepted));
      Reachable(cfg, Two(OneRow(taken), sent, sent), false)
  {
    var taken := first.(status := InProgress);
    var snap := [Snap(0, None)];
    var sent := Carrying(taken, Recording(Targets(cfg, [mx]), 0, Accepted));
    SecondLoopResets(cfg, first, mx);
    ClaimOfOne(cfg, [], first, 0, snap, Draining(0, snap));
    var db := OneRow(taken);
    var loading, sending := Carrying(taken, Loading), Carrying(taken, Sending(Targets(cfg, [mx]), 0));
    Move1(cfg, false, Claim, OneRow(first), sent, Draining(0, snap), db, loading);
    Move1(cfg, false, Resolve([mx]), db, sent, loading, db, sending);
    Move1(cfg, false, Send(Accepted), db, sent, sending, db, sent);
  }

  /** Under every configuration: a run of two loops, free of errors and crashes, that hands one message to its relay
      or MX host twice. The second loop's sweep resets the job while the first is sending it. */
  lemma TwoLoopsSendTwice(cfg: Config, first: Job, mx: string) returns (r: Run<State, Action>)
    requires IsNew(first)
    ensures IsRun(cfg, r) && r.states[0].workers.Keys == {0, 1}
    ensures NoFailure(r)
    ensures Carries(Last(r), 0, 0) && Last(r).workers[0].stage == Recording(Targets(cfg, [mx]), 0, Accepted)
    ensures Carries(Last(r), 1, 0) && Last(r).workers[1].stage == Recording(Targets(cfg, [mx]), 0, Accepted)
  {
    var taken := first.(status := InProgress);
    var sent := Carrying(taken, Recording(Targets(cfg, [mx]), 0, Accepted));
    BothSend(cfg, first, mx);
    r := RunOf(cfg, Two(OneRow(taken), sent, sent), false);
  }

  /** Both loops record their 250. */
  lemma BothRecord(cfg: Config, first: Job, mx: string)
    requires IsNew(first)
    ensures var taken, row := first.(status := InProgress), Audit(0, Targets(cfg, [mx])[0], Some(250));
      var settling := Carrying(taken, Settling);
      Reachable(cfg, Two(Db(map[0 := taken], [row, row], 1), settling, settling), false)
  {
    var taken, row := first.(status := InProgress), Audit(0, Targets(cfg, [mx])[0], Some(250));
    var sent, settling := Carrying(taken, Recording(Targets(cfg, [mx]), 0, Accepted)), Carrying(taken, Settling);
    BothSend(cfg, first, mx);
    var db, db', db'' := OneRow(taken), Db(map[0 := taken], [row], 1), Db(map[0 := taken], [row, row], 1);
    assert [] + [row] == [row] && [row] + [row] == [row, row];
    Move0(cfg, false, Record(true), db, sent, sent, db', settling);
    Move1(cfg, false, Record(true), db', settling, sent, db'', settling);
  }

  lemma BothSettle(cfg: Config, taken: Job, done: Job, audit: seq<Audit>)
    requires taken.status == InProgress && done == MarkDelivered(taken, taken)
    ensures
      var db, db' := Db(map[0 := taken], audit, 1), Db(map[0 := done], audit, 1);
      var settling, rest := Carrying(taken, Settling), Draining(0, []);
      && Step(cfg, Two(db, settling, settling), Work(0, Settle(true)), Two(db', rest, settling))
      && Step(cfg, Two(db', rest, settling), Work(1, Settle(true)), Two(db', rest, rest))
  {
    var db, db' := Db(map[0 := taken], audit, 1), Db(map[0 := done], audit, 1);
    var settling, rest := Carrying(taken, Settling), Draining(0, []);
    assert WriteJob(db, 0, done) == db' && WriteJob(db', 0, done) == db';
    assert map[0 := settling, 1 := settling][0 := rest] == map[0 := rest, 1 := settling];
    assert map[0 := rest, 1 := settling][1 := rest] == map[0 := rest, 1 := rest];
  }

  lemma CountsTwice(cfg: Config, q: Run<State, Action>, taken: Job, done: Job, audit: seq<Audit>)
    returns (r: Run<State, Action>)
    requires taken.status == InProgress && done == MarkDelivered(taken, taken) && IsRun(cfg, q) && NoFailure(q)
    requires Last(q) == Two(Db(map[0 := taken], audit, 1), Carrying(taken, Settling), Carrying(taken, Settling))
    ensures IsRun(cfg, r) && NoFailure(r) && r.states[0] == q.states[0]
    ensures Last(r).db == Db(map[0 := done], audit, 1) && Times(r, Counts, 0, |r.acts|) >= 2
  {
    var db, settling, rest := Db(map[0 := done], audit, 1), Carrying(taken, Settling), Draining(0, []);
    BothSettle(cfg, taken, done, audit);
    var q' := Append(cfg, q, Work(0, Settle(true)), Two(db, rest, settling));
    r := Append(cfg, q', Work(1, Settle(true)), Two(db, rest, rest));
  }

  /** A third effect of the hazardous reset, under every configuration: a run of two loops without errors in which two
      cycles of a job count, two receipts are recorded, and the row says one attempt. The counter is written from the
      claimed copy. */
  lemma TwoLoopsLoseACount(cfg: Config, first: Job, mx: string) returns (r: Run<State, Action>)
    requires IsNew(first)
    ensures IsRun(cfg, r) && r.states[0].workers.Keys == {0, 1} && NoFailure(r)
    ensures Last(r).db.jobs == map[0 := first.(status := Delivered, attempts := 1)]
    ensures Times(r, Counts, 0, |r.acts|) >= 2 && Receipts(Last(r).db.audit, 0) == 2
  {
    var taken, row := first.(status := InProgress), Audit(0, Targets(cfg, [mx])[0], Some(250));
    BothRecord(cfg, first, mx);
    var settling := Carrying(taken, Settling);
    var q := RunOf(cfg, Two(Db(map[0 := taken], [row, row], 1), settling, settling), false);
    r := CountsTwice(cfg, q, taken, taken.(status := Delivered, attempts := 1), [row, row]);
    TwoReceipts(row);
  }

  lemma TwoReceipts(row: Audit)
    requires IsReceipt(row, 0)
    ensures Receipts([row, row], 0) == 2
  {
    ReceiptsOneMore([], row, 0);
    ReceiptsOneMore([row], row, 0);
    assert [] + [row] == [row] && [row] + [row] == [row, row];
  }

  lemma ClaimOfOne(cfg: Config, audit: seq<Audit>, job: Job, now: Time, snaps: seq<Snap>, ph: Phase)
    requires job.status == Queued && |snaps| == 1 && snaps[0].id == 0 && SnapDue(snaps[0], now)
    requires ph == Draining(now, snaps)
    ensures var taken := job.(status := InProgress);
      WorkerStep(cfg, Db(map[0 := job], audit, 1), ph, Claim,
                 Db(map[0 := taken], audit, 1), Delivering(now, [], 0, taken, Loading))
  {
    var taken := job.(status := InProgress);
    assert WriteJob(Db(map[0 := job], audit, 1), 0, taken) == Db(map[0 := taken], audit, 1);
    assert snaps[1..] == [];
  }

  /** Both loops fetch the job; the second claims it. */
  lemma BothFetch(cfg: Config, first: Job)
    requires IsNew(first)
    ensures var taken := first.(status := InProgress);
      Reachable(cfg, Two(OneRow(taken), Draining(0, [Snap(0, None)]), Carrying(taken, Loading)), true)
  {
    var taken := first.(status := InProgress);
    var ready := Draining(0, [Snap(0, None)]);
    FirstLoopFetches(cfg, first, true);
    OutboundWitnesses.SnapshotOfOne(first);
    ClaimOfOne(cfg, [], first, 0, [Snap(0, None)], ready);
    var db := OneRow(first);
    Move1(cfg, true, Scan([]), db, ready, Idle, db, Sweeping([], true));
    Move1(cfg, true, Fetch(0, [Snap(0, None)]), db, ready, Sweeping([], true), db, ready);
    Move1(cfg, true, Claim, db, ready, ready, OneRow(taken), Carrying(taken, Loading));
  }

  /** A first failure is retried, and after a real wait. */
  predicate BacksOff(cfg: Config) {
    cfg.maxAttempts >= 1 && Backoff.Delay(cfg.baseBackoff, cfg.maxBackoff, 1) > 0
  }

  /** The second loop finds no MX host, or a relay that refuses. */
  lemma SecondLoopIsRefused(cfg: Config, first: Job) returns (audit: seq<Audit>, reason: string)
    requires IsNew(first)
    ensures var taken := first.(status := InProgress);
      var failing := Carrying(taken, Failing(reason));
      Reachable(cfg, Two(Db(map[0 := taken], audit, 1), Draining(0, [Snap(0, None)]), failing), true)
  {
    var taken := first.(status := InProgress);
    var ready := Draining(0, [Snap(0, None)]);
    BothFetch(cfg, first);
    var db := OneRow(taken);
    var resolved := Carrying(taken, AfterResolve(cfg, []));
    Move1(cfg, true, Resolve([]), db, ready, Carrying(taken, Loading), db, resolved);
    if cfg.relayHost.None? {
      audit, reason := [], NO_MX;
    } else {
      var targets, answer := [cfg.relayHost.value], Refused("");
      var recording := Carrying(taken, Recording(targets, 0, answer));
      Move1(cfg, true, Send(answer), db, ready, resolved, db, recording);
      audit, reason := [AuditRow(0, targets[0], answer)], "via " + targets[0] + ": " + answer.error;
      assert [] + audit == audit;
      Move1(cfg, true, Record(true), db, ready, recording,
            Db(map[0 := taken], audit, 1), Carrying(taken, Failing(reason)));
    }
  }

  /** It requeues the job with a backoff; the first still holds its old list. */
  lemma SecondLoopBacksOff(cfg: Config, first: Job) returns (audit: seq<Audit>, later: Job)
    requires IsNew(first) && BacksOff(cfg)
    ensures later.status == Queued && !later.Due(0)
    ensures Reachable(cfg, Two(Db(map[0 := later], audit, 1), Draining(0, [Snap(0, None)]), Draining(0, [])), true)
  {
    var taken := first.(status := InProgress);
    var reason;
    audit, reason := SecondLoopIsRefused(cfg, first);
    later := MarkFailedOrQueued(cfg, taken, taken, 0, reason);
    var db, db' := Db(map[0 := taken], audit, 1), Db(map[0 := later], audit, 1);
    assert WriteJob(db, 0, later) == db';
    Move1(cfg, true, FailOrRequeue(true), db, Draining(0, [Snap(0, None)]), Carrying(taken, Failing(reason)),
          db', Draining(0, []));
  }

  /** Under every configuration that backs off at all: a run of two loops, with no error and no hazardous
      reset, in which a job is claimed before the time stored in its row. The claim re-reads the status, not the
      backoff. */
  lemma TwoLoopsClaimEarly(cfg: Config, first: Job) returns (r: Run<State, Action>)
    requires IsNew(first) && BacksOff(cfg)
    ensures IsRun(cfg, r) && r.states[0].workers.Keys == {0, 1} && |r.acts| > 0
    ensures NoFailure(r) && NoHazard(r, |r.acts|)
    ensures
      var k := |r.acts| - 1;
      && Claims(r.states[k], r.acts[k], 0)
      && !r.states[k].db.jobs[0].Due(r.states[k].workers[r.acts[k].worker].now)
  {
    var ready := Draining(0, [Snap(0, None)]);
    var audit, later := SecondLoopBacksOff(cfg, first);
    var again := later.(status := InProgress);
    var s := Two(Db(map[0 := later], audit, 1), ready, Draining(0, []));
    var s' := Two(Db(map[0 := again], audit, 1), Carrying(again, Loading), Draining(0, []));
    var q := RunOf(cfg, s, true);
    ClaimOfOne(cfg, audit, later, 0, [Snap(0, None)], ready);
    assert s'.workers == s.workers[0 := s'.workers[0]];
    r := Append(cfg, q, Work(0, Claim), s');
  }
}
