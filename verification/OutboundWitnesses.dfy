/** Runs of one loop that attain the bounds and show why the conditions are needed, for every configuration and job. */
module OutboundWitnesses {
  import opened Prelude
  import opened OutboundProtocol
  import opened OutboundSafety
  import opened OutboundSingle
  import opened OutboundReceipts
  import Backoff

  /** One loop and one job. */
  function One(audit: seq<Audit>, job: Job, ph: Phase): State {
    State(Db(map[0 := job], audit, 1), map[0 := ph])
  }

  predicate IsFetch(a: Action) {
    a.Work? && a.op.Fetch?
  }

  /** Drain start times never fall, and none is later than `clock`. */
  ghost predicate Timely(r: Run<State, Action>, clock: Time) {
    && (forall i :: 0 <= i < |r.acts| && IsFetch(r.acts[i]) ==> r.acts[i].op.at <= clock)
    && (forall i, j :: 0 <= i < j < |r.acts| && IsFetch(r.acts[i]) && IsFetch(r.acts[j]) ==>
          r.acts[i].op.at <= r.acts[j].op.at)
  }

  /** How often job 0 was claimed, counted and accepted; `clean` if nothing failed. */
  datatype Tally = Tally(claims: nat, counted: nat, accepted: nat, clean: bool, clock: Time)

  /** `r` is a run of one loop that ends in `s` with the tally `t`. */
  ghost predicate Stands(cfg: Config, r: Run<State, Action>, s: State, t: Tally) {
    && IsSingleRun(cfg, r, 0) && r.states[|r.acts|] == s
    && Times(r, Claims, 0, |r.acts|) == t.claims && Times(r, Counts, 0, |r.acts|) == t.counted
    && Times(r, Accepts, 0, |r.acts|) == t.accepted
    && (t.clean ==> NoFailure(r)) && Timely(r, t.clock)
  }

  ghost predicate Reaches(cfg: Config, s: State, t: Tally) {
    exists r :: Stands(cfg, r, s, t)
  }

  lemma {:induction false} TalliesOfPrefix(r: Run<State, Action>, r': Run<State, Action>,
                                           what: (State, Action, JobId) -> bool, id: JobId, n: nat)
    requires n <= |r.acts| <= |r.states| && |r'.acts| <= |r'.states| && r.states <= r'.states && r.acts <= r'.acts
    ensures Times(r', what, id, n) == Times(r, what, id, n)
  {
    if n > 0 {
      TalliesOfPrefix(r, r', what, id, n - 1);
    }
  }

  function Tallied(t: Tally, s: State, a: Action): Tally {
    Tally(t.claims + AsOne(Claims(s, a, 0)), t.counted + AsOne(Counts(s, a, 0)), t.accepted + AsOne(Accepts(s, a, 0)),
          t.clean && (a.Work? ==> !Fails(a.op)), if IsFetch(a) then a.op.at else t.clock)
  }

  lemma Advance(cfg: Config, s: State, t: Tally, a: Action, s': State)
    requires Reaches(cfg, s, t) && Step(cfg, s, a, s') && (IsFetch(a) ==> t.clock <= a.op.at)
    ensures Reaches(cfg, s', Tallied(t, s, a))
  {
    var r :| Stands(cfg, r, s, t);
    var r' := Extend(Init, StepOf(cfg), r, a, s');
    TalliesOfPrefix(r, r', Claims, 0, |r.acts|);
    TalliesOfPrefix(r, r', Counts, 0, |r.acts|);
    TalliesOfPrefix(r, r', Accepts, 0, |r.acts|);
    assert Stands(cfg, r', s', Tallied(t, s, a));
  }

  lemma StepOne(cfg: Config, op: Op, audit: seq<Audit>, job: Job, ph: Phase, audit': seq<Audit>, job': Job, ph': Phase)
    requires WorkerStep(cfg, Db(map[0 := job], audit, 1), ph, op, Db(map[0 := job'], audit', 1), ph')
    ensures Step(cfg, One(audit, job, ph), Work(0, op), One(audit', job', ph'))
  {
    assert map[0 := ph][0 := ph'] == map[0 := ph'];
  }

  /** One step of the loop that is no claim, no counted outcome and no acceptance. */
  lemma Go(cfg: Config, t: Tally, op: Op, audit: seq<Audit>, job: Job, ph: Phase, audit': seq<Audit>, job': Job,
           ph': Phase)
    requires Reaches(cfg, One(audit, job, ph), t) && (op.Fetch? ==> t.clock <= op.at)
    requires WorkerStep(cfg, Db(map[0 := job], audit, 1), ph, op, Db(map[0 := job'], audit', 1), ph')
    requires !op.Claim? && op != Settle(true) && op != FailOrRequeue(true) && op != Send(Accepted)
    ensures Reaches(cfg, One(audit', job', ph'),
                    t.(clean := t.clean && !Fails(op), clock := if op.Fetch? then op.at else t.clock))
  {
    StepOne(cfg, op, audit, job, ph, audit', job', ph');
    Advance(cfg, One(audit, job, ph), t, Work(0, op), One(audit', job', ph'));
  }

  /** The producer enqueues the job and the first sweep finds nothing. */
  lemma Enqueued(cfg: Config, job: Job)
    requires IsNew(job)
    ensures Reaches(cfg, One([], job, Sweeping([], true)), Tally(0, 0, 0, true, 0))
  {
    var s0 := State(Db(map[], [], 0), map[0 := Idle]);
    assert Stands(cfg, Run([s0], []), s0, Tally(0, 0, 0, true, 0));
    assert map[][0 := job] == map[0 := job];
    Advance(cfg, s0, Tally(0, 0, 0, true, 0), Enqueue(job.messageId, job.rcptTo, job.senderId), One([], job, Idle));
    Go(cfg, Tally(0, 0, 0, true, 0), Scan([]), [], job, Idle, [], job, Sweeping([], true));
  }

  lemma SnapshotOfOne(job: Job)
    requires job.status == Queued
    ensures Snapshots([Snap(0, job.nextAttemptAt)], map[0 := job])
  {
    assert SnapIds([Snap(0, job.nextAttemptAt)]) == [0];
  }

  lemma ClaimTally(t: Tally, audit: seq<Audit>, job: Job, at: Time)
    requires job.status == Queued
    ensures Tallied(t, One(audit, job, Draining(at, [Snap(0, job.nextAttemptAt)])), Work(0, Claim))
         == t.(claims := t.claims + 1)
  {
  }

  lemma GoClaim(cfg: Config, t: Tally, audit: seq<Audit>, job: Job, at: Time)
    requires job.status == Queued && job.Due(at)
    requires Reaches(cfg, One(audit, job, Draining(at, [Snap(0, job.nextAttemptAt)])), t)
    ensures var taken := job.(status := InProgress);
      Reaches(cfg, One(audit, taken, Delivering(at, [], 0, taken, Loading)), t.(claims := t.claims + 1))
  {
    var taken, snaps := job.(status := InProgress), [Snap(0, job.nextAttemptAt)];
    var ready, carrying := Draining(at, snaps), Delivering(at, [], 0, taken, Loading);
    assert WriteJob(Db(map[0 := job], audit, 1), 0, taken) == Db(map[0 := taken], audit, 1) && snaps[1..] == [];
    StepOne(cfg, Claim, audit, job, ready, audit, taken, carrying);
    ClaimTally(t, audit, job, at);
    Advance(cfg, One(audit, job, ready), t, Work(0, Claim), One(audit, taken, carrying));
  }

  /** Fetch and claim at a time when the job is due. */
  lemma Claimed(cfg: Config, t: Tally, audit: seq<Audit>, job: Job, at: Time)
    requires Reaches(cfg, One(audit, job, Sweeping([], true)), t)
    requires job.status == Queued && job.Due(at) && t.clock <= at
    ensures var taken := job.(status := InProgress);
      Reaches(cfg, One(audit, taken, Delivering(at, [], 0, taken, Loading)), t.(claims := t.claims + 1, clock := at))
  {
    var snaps := [Snap(0, job.nextAttemptAt)];
    SnapshotOfOne(job);
    Go(cfg, t, Fetch(at, snaps), audit, job, Sweeping([], true), audit, job, Draining(at, snaps));
    GoClaim(cfg, t.(clock := at), audit, job, at);
  }

  /** The next tick's sweep puts an abandoned job back, its counter as it was. */
  lemma SweptBack(cfg: Config, t: Tally, audit: seq<Audit>, taken: Job)
    requires Reaches(cfg, One(audit, taken, Idle), t) && taken.status == InProgress
    ensures Reaches(cfg, One(audit, Requeued(taken), Sweeping([], true)), t)
  {
    Go(cfg, t, Scan([0]), audit, taken, Idle, audit, taken, Sweeping([0], true));
    assert WriteJob(Db(map[0 := taken], audit, 1), 0, Requeued(taken)) == Db(map[0 := Requeued(taken)], audit, 1);
    Go(cfg, t, Reset(true), audit, taken, Sweeping([0], true), audit, Requeued(taken), Sweeping([], true));
  }

  // ---------------------------------------------------------------------------
  // Cycles that do not count
  // ---------------------------------------------------------------------------

  /** A claim lost to a failed message load, envelope or MX lookup. */
  lemma FutileCycle(cfg: Config, t: Tally, job: Job)
    requires IsNew(job) && Reaches(cfg, One([], job, Sweeping([], true)), t)
    ensures Reaches(cfg, One([], job, Sweeping([], true)), t.(claims := t.claims + 1, clean := false))
  {
    var taken := job.(status := InProgress);
    var carrying, t' := Delivering(t.clock, [], 0, taken, Loading), t.(claims := t.claims + 1);
    Claimed(cfg, t, [], job, t.clock);
    Go(cfg, t', ResolveFails, [], taken, carrying, [], taken, Draining(t.clock, []));
    Go(cfg, t'.(clean := false), DrainDone, [], taken, Draining(t.clock, []), [], taken, Idle);
    SweptBack(cfg, t'.(clean := false), [], taken);
    assert Requeued(taken) == job;
  }

  lemma {:induction false} FutileCycles(cfg: Config, job: Job, n: nat)
    requires IsNew(job)
    ensures Reaches(cfg, One([], job, Sweeping([], true)), Tally(n, 0, 0, n == 0, 0))
  {
    if n == 0 {
      Enqueued(cfg, job);
    } else {
      FutileCycles(cfg, job, n - 1);
      FutileCycle(cfg, Tally(n - 1, 0, 0, n - 1 == 0, 0), job);
    }
  }

  /** The attempt cap bounds counted cycles only. Under every configuration and for every `n` there is a run of one
      loop that claims a job `n` times and leaves it `Queued` with no attempt counted: a cycle that ends in a failed
      message load, envelope or MX lookup is put back by the next sweep and forgotten. */
  lemma UncountedCyclesAreUnbounded(cfg: Config, job: Job, n: nat) returns (r: Run<State, Action>)
    requires IsNew(job)
    ensures IsSingleRun(cfg, r, 0) && Times(r, Claims, 0, |r.acts|) == n && Times(r, Counts, 0, |r.acts|) == 0
    ensures r.states[|r.acts|] == One([], job, Sweeping([], true))
  {
    FutileCycles(cfg, job, n);
    r :| Stands(cfg, r, One([], job, Sweeping([], true)), Tally(n, 0, 0, n == 0, 0));
  }

  // ---------------------------------------------------------------------------
  // The cap is attained
  // ---------------------------------------------------------------------------

  /** No MX host, or a relay that refuses. */
  lemma Refusal(cfg: Config, t: Tally, audit: seq<Audit>, taken: Job, at: Time)
    returns (audit': seq<Audit>, reason: string)
    requires Reaches(cfg, One(audit, taken, Delivering(at, [], 0, taken, Loading)), t)
    ensures Reaches(cfg, One(audit', taken, Delivering(at, [], 0, taken, Failing(reason))), t)
  {
    var loading := Delivering(at, [], 0, taken, Loading);
    var resolved := Delivering(at, [], 0, taken, AfterResolve(cfg, []));
    Go(cfg, t, Resolve([]), audit, taken, loading, audit, taken, resolved);
    if cfg.relayHost.None? {
      audit', reason := audit, NO_MX;
    } else {
      var targets, answer := [cfg.relayHost.value], Refused("");
      var recording := Delivering(at, [], 0, taken, Recording(targets, 0, answer));
      Go(cfg, t, Send(answer), audit, taken, resolved, audit, taken, recording);
      audit', reason := audit + [AuditRow(0, targets[0], answer)], "via " + targets[0] + ": " + answer.error;
      Go(cfg, t, Record(true), audit, taken, recording, audit', taken, Delivering(at, [], 0, taken, Failing(reason)));
    }
  }

  /** One counted failure, and the sweep of the next tick. */
  lemma CountedFailure(cfg: Config, t: Tally, audit: seq<Audit>, job: Job, at: Time)
    returns (audit': seq<Audit>, reason: string)
    requires Reaches(cfg, One(audit, job, Sweeping([], true)), t)
    requires job.status == Queued && job.Due(at) && t.clock <= at
    ensures var taken := job.(status := InProgress);
      Reaches(cfg, One(audit', MarkFailedOrQueued(cfg, taken, taken, at, reason), Sweeping([], true)),
              Tally(t.claims + 1, t.counted + 1, t.accepted, t.clean, at))
  {
    var taken, t' := job.(status := InProgress), t.(claims := t.claims + 1, clock := at);
    Claimed(cfg, t, audit, job, at);
    audit', reason := Refusal(cfg, t', audit, taken, at);
    var job' := MarkFailedOrQueued(cfg, taken, taken, at, reason);
    Settled(cfg, t', audit', taken, at, reason, job');
    var t'' := t'.(counted := t.counted + 1);
    Go(cfg, t'', DrainDone, audit', job', Draining(at, []), audit', job', Idle);
    Go(cfg, t'', Scan([]), audit', job', Idle, audit', job', Sweeping([], true));
  }

  lemma FailureTally(t: Tally, audit: seq<Audit>, taken: Job, at: Time, reason: string)
    ensures Tallied(t, One(audit, taken, Delivering(at, [], 0, taken, Failing(reason))), Work(0, FailOrRequeue(true)))
         == t.(counted := t.counted + 1)
  {
  }

  lemma Settled(cfg: Config, t: Tally, audit: seq<Audit>, taken: Job, at: Time, reason: string, job: Job)
    requires Reaches(cfg, One(audit, taken, Delivering(at, [], 0, taken, Failing(reason))), t)
    requires job == MarkFailedOrQueued(cfg, taken, taken, at, reason)
    ensures Reaches(cfg, One(audit, job, Draining(at, [])), t.(counted := t.counted + 1))
  {
    var failing := Delivering(at, [], 0, taken, Failing(reason));
    assert WriteJob(Db(map[0 := taken], audit, 1), 0, job) == Db(map[0 := job], audit, 1);
    FailureTally(t, audit, taken, at, reason);
    StepOne(cfg, FailOrRequeue(true), audit, taken, failing, audit, job, Draining(at, []));
    Advance(cfg, One(audit, taken, failing), t, Work(0, FailOrRequeue(true)), One(audit, job, Draining(at, [])));
  }

  lemma {:induction false} CountedFailures(cfg: Config, job: Job, n: nat)
    returns (audit: seq<Audit>, job': Job, clock: Time)
    requires IsNew(job) && n <= cfg.maxAttempts
    ensures job'.status == Queued && job'.attempts == n
    ensures job'.nextAttemptAt.Some? ==> clock <= job'.nextAttemptAt.value
    ensures Reaches(cfg, One(audit, job', Sweeping([], true)), Tally(n, n, 0, true, clock))
  {
    if n == 0 {
      Enqueued(cfg, job);
      audit, job', clock := [], job, 0;
    } else {
      var a, j, c := CountedFailures(cfg, job, n - 1);
      clock := if j.nextAttemptAt.Some? then j.nextAttemptAt.value else c;
      var reason;
      audit, reason := CountedFailure(cfg, Tally(n - 1, n - 1, 0, true, c), a, j, clock);
      var taken := j.(status := InProgress);
      job' := MarkFailedOrQueued(cfg, taken, taken, clock, reason);
    }
  }

  /** The bound of `AttemptsAreCounted` is attained, so `maxAttempts` is not the number of attempts before a job fails.
      Under every configuration there is a run of one loop, without any error and with drain times that never fall,
      whose job ends `Failed` after `maxAttempts + 1` claims, all of them counted. */
  lemma FailsAfterOneMore(cfg: Config, job: Job) returns (r: Run<State, Action>)
    requires IsNew(job)
    ensures IsSingleRun(cfg, r, 0) && NoFailure(r) && exists clock :: Timely(r, clock)
    ensures
      var jobs := r.states[|r.acts|].db.jobs;
      && 0 in jobs && jobs[0].status == Failed
      && jobs[0].attempts == Times(r, Counts, 0, |r.acts|) == Times(r, Claims, 0, |r.acts|) == cfg.maxAttempts + 1
  {
    var n: nat := cfg.maxAttempts;
    var audit, last, c := CountedFailures(cfg, job, n);
    var at := if last.nextAttemptAt.Some? then last.nextAttemptAt.value else c;
    var audit', reason := CountedFailure(cfg, Tally(n, n, 0, true, c), audit, last, at);
    var taken := last.(status := InProgress);
    var s := One(audit', MarkFailedOrQueued(cfg, taken, taken, at, reason), Sweeping([], true));
    r :| Stands(cfg, r, s, Tally(n + 1, n + 1, 0, true, at));
  }

  // ---------------------------------------------------------------------------
  // A lost acceptance and a dropped receipt
  // ---------------------------------------------------------------------------

  lemma AcceptTally(t: Tally, audit: seq<Audit>, taken: Job, targets: seq<string>)
    ensures Tallied(t, One(audit, taken, Delivering(0, [], 0, taken, Sending(targets, 0))), Work(0, Send(Accepted)))
         == t.(accepted := t.accepted + 1)
  {
  }

  lemma GoAccept(cfg: Config, t: Tally, audit: seq<Audit>, taken: Job, targets: seq<string>)
    requires targets != [] && Reaches(cfg, One(audit, taken, Delivering(0, [], 0, taken, Sending(targets, 0))), t)
    ensures Reaches(cfg, One(audit, taken, Delivering(0, [], 0, taken, Recording(targets, 0, Accepted))),
                    t.(accepted := t.accepted + 1))
  {
    var sending := Delivering(0, [], 0, taken, Sending(targets, 0));
    var recording := Delivering(0, [], 0, taken, Recording(targets, 0, Accepted));
    AcceptTally(t, audit, taken, targets);
    StepOne(cfg, Send(Accepted), audit, taken, sending, audit, taken, recording);
    Advance(cfg, One(audit, taken, sending), t, Work(0, Send(Accepted)), One(audit, taken, recording));
  }

  /** The message is handed over and accepted; nothing is written yet. */
  lemma HandedOver(cfg: Config, t: Tally, audit: seq<Audit>, taken: Job, mx: string)
    requires Reaches(cfg, One(audit, taken, Delivering(0, [], 0, taken, Loading)), t)
    ensures Reaches(cfg, One(audit, taken, Delivering(0, [], 0, taken, Recording(Targets(cfg, [mx]), 0, Accepted))),
                    t.(accepted := t.accepted + 1))
  {
    var targets := Targets(cfg, [mx]);
    var sending := Delivering(0, [], 0, taken, Sending(targets, 0));
    Go(cfg, t, Resolve([mx]), audit, taken, Delivering(0, [], 0, taken, Loading), audit, taken, sending);
    GoAccept(cfg, t, audit, taken, targets);
  }

  /** The cycle ends there, by a crash or by the failure `op`. The next sweep puts the job back. */
  lemma Dropped(cfg: Config, t: Tally, audit: seq<Audit>, taken: Job, stage: Stage, op: Op, crash: bool)
    requires Reaches(cfg, One(audit, taken, Delivering(0, [], 0, taken, stage)), t) && taken.status == InProgress
    requires
      || (op == Record(false) && stage.Recording? && stage.pos < |stage.targets|)
      || (op == Settle(false) && stage.Settling?)
    ensures Reaches(cfg, One(audit, Requeued(taken), Sweeping([], true)), t.(clean := false))
  {
    var holding := Delivering(0, [], 0, taken, stage);
    if crash {
      Go(cfg, t, Crash, audit, taken, holding, audit, taken, Idle);
    } else {
      Go(cfg, t, op, audit, taken, holding, audit, taken, Draining(0, []));
      Go(cfg, t.(clean := false), DrainDone, audit, taken, Draining(0, []), audit, taken, Idle);
    }
    SweptBack(cfg, t.(clean := false), audit, taken);
  }

  /** Enqueued, claimed and handed over for the first time. */
  lemma FirstHandoff(cfg: Config, job: Job, mx: string)
    requires IsNew(job)
    ensures
      var taken := job.(status := InProgress);
      var holding := Delivering(0, [], 0, taken, Recording(Targets(cfg, [mx]), 0, Accepted));
      Reaches(cfg, One([], taken, holding), Tally(1, 0, 1, true, 0))
  {
    Enqueued(cfg, job);
    Claimed(cfg, Tally(0, 0, 0, true, 0), [], job, 0);
    HandedOver(cfg, Tally(1, 0, 0, true, 0), [], job.(status := InProgress), mx);
  }

  /** And the 250 recorded. */
  lemma FirstReceipt(cfg: Config, job: Job, mx: string)
    requires IsNew(job)
    ensures
      var taken, audit := job.(status := InProgress), [Audit(0, Targets(cfg, [mx])[0], Some(250))];
      Reaches(cfg, One(audit, taken, Delivering(0, [], 0, taken, Settling)), Tally(1, 0, 1, true, 0))
  {
    var taken, targets := job.(status := InProgress), Targets(cfg, [mx]);
    var audit := [Audit(0, targets[0], Some(250))];
    FirstHandoff(cfg, job, mx);
    assert [] + audit == audit;
    Go(cfg, Tally(1, 0, 1, true, 0), Record(true),
       [], taken, Delivering(0, [], 0, taken, Recording(targets, 0, Accepted)),
       audit, taken, Delivering(0, [], 0, taken, Settling));
  }

  /** Even one loop can drop a receipt, by a crash or by a failed update: under every configuration there is a run that
      ends with a 250 row on a job that is `Queued`, due, and has no attempt counted. */
  lemma ReceiptCanBeDropped(cfg: Config, job: Job, mx: string, crash: bool) returns (r: Run<State, Action>)
    requires IsNew(job)
    ensures IsSingleRun(cfg, r, 0)
    ensures r.states[|r.acts|].db.jobs == map[0 := job] && Receipts(r.states[|r.acts|].db.audit, 0) == 1
  {
    var taken, t := job.(status := InProgress), Tally(1, 0, 1, true, 0);
    var audit := [Audit(0, Targets(cfg, [mx])[0], Some(250))];
    FirstReceipt(cfg, job, mx);
    Dropped(cfg, t, audit, taken, Settling, Settle(false), crash);
    assert Requeued(taken) == job;
    r :| Stands(cfg, r, One(audit, job, Sweeping([], true)), t.(clean := false));
    ReceiptsOneMore([], audit[0], 0);
  }

  /** Even one loop can send a message twice, with no hazardous reset: under every configuration there is a run
      in which a host accepts the message, the loop crashes or cannot write the audit row, the next sweep puts the job
      back, and the next drain hands the message to the same host again. No audit row shows the first handoff. */
  lemma OneLoopSendsTwice(cfg: Config, job: Job, mx: string, crash: bool) returns (r: Run<State, Action>)
    requires IsNew(job)
    ensures IsSingleRun(cfg, r, 0) && NoHazard(r, |r.acts|)
    ensures Times(r, Accepts, 0, |r.acts|) == 2 && r.states[|r.acts|].db.audit == []
    ensures Carries(r.states[|r.acts|], 0, 0)
    ensures r.states[|r.acts|].workers[0].stage == Recording(Targets(cfg, [mx]), 0, Accepted)
  {
    var taken, t := job.(status := InProgress), Tally(1, 0, 1, true, 0);
    var stage := Recording(Targets(cfg, [mx]), 0, Accepted);
    FirstHandoff(cfg, job, mx);
    Dropped(cfg, t, [], taken, stage, Record(false), crash);
    assert Requeued(taken) == job;
    Claimed(cfg, t.(clean := false), [], job, 0);
    HandedOver(cfg, t.(claims := 2, clean := false), [], taken, mx);
    var t' := t.(claims := 2, accepted := 2, clean := false);
    r :| Stands(cfg, r, One([], taken, Delivering(0, [], 0, taken, stage)), t');
    OneLoopHasNoHazard(cfg, r, 0);
  }
}
