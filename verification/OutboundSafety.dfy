/** What holds of the outbound queue in every interleaving of any number of worker loops. */
module OutboundSafety {
  import opened Prelude
  import opened OutboundProtocol
  import Backoff

  // ---------------------------------------------------------------------------
  // What one step can do
  // ---------------------------------------------------------------------------

  /** Only a claim, a reset or a counted outcome ever rewrites an existing row, and each in one way. */
  lemma RowStep(cfg: Config, s: State, a: Action, s': State, id: JobId)
    requires Step(cfg, s, a, s')
    requires id in s.db.jobs && id in s'.db.jobs && id < s.db.nextId
    ensures Claims(s, a, id) ==> s'.db.jobs[id] == s.db.jobs[id].(status := InProgress)
    ensures Resets(s, a, id) ==> s'.db.jobs[id] == Requeued(s.db.jobs[id])
    ensures Counts(s, a, id) && a.op.Settle? ==>
      s'.db.jobs[id] == MarkDelivered(s.db.jobs[id], s.workers[a.worker].job)
    ensures Counts(s, a, id) && a.op.FailOrRequeue? ==>
      var ph := s.workers[a.worker];
      ph.stage.Failing? &&
      s'.db.jobs[id] == MarkFailedOrQueued(cfg, s.db.jobs[id], ph.job, ph.now, ph.stage.reason)
    ensures !Claims(s, a, id) && !Resets(s, a, id) && !Counts(s, a, id) ==> s'.db.jobs[id] == s.db.jobs[id]
  {
  }

  /** The same, column by column. A claim writes the status. A reset keeps the counter and clears backoff and error. An
      outcome counts one attempt beyond the claimed copy: a delivery clears backoff and error; a failure stores its
      reason and, up to the cap, queues the job for the drain's start plus the delay, past the cap fails it. Nothing
      writes message, recipient or sender. */
  lemma ColumnsStep(cfg: Config, s: State, a: Action, s': State, id: JobId)
    requires Step(cfg, s, a, s')
    requires id in s.db.jobs && id in s'.db.jobs && id < s.db.nextId
    ensures
      var was, now := s.db.jobs[id], s'.db.jobs[id];
      && now.messageId == was.messageId && now.rcptTo == was.rcptTo && now.senderId == was.senderId
      && (Claims(s, a, id) ==>
            && now.status == InProgress && now.attempts == was.attempts
            && now.nextAttemptAt == was.nextAttemptAt && now.lastError == was.lastError)
      && (Resets(s, a, id) ==>
            && now.status == Queued && now.attempts == was.attempts
            && now.nextAttemptAt == None && now.lastError == None)
      && (Counts(s, a, id) ==> now.attempts == s.workers[a.worker].job.attempts + 1)
      && (Counts(s, a, id) && a.op.Settle? ==>
            now.status == Delivered && now.nextAttemptAt == None && now.lastError == None)
      && (Counts(s, a, id) && a.op.FailOrRequeue? ==>
            && s.workers[a.worker].stage.Failing? && now.lastError == Some(s.workers[a.worker].stage.reason)
            && if now.attempts > cfg.maxAttempts then now.status == Failed && now.nextAttemptAt == None
               else
                 && now.status == Queued
                 && now.nextAttemptAt ==
                    Some(s.workers[a.worker].now + Backoff.Delay(cfg.baseBackoff, cfg.maxBackoff, now.attempts)))
  {
    RowStep(cfg, s, a, s', id);
  }

  /** A producer's row: as given, `Queued`, no attempt, no backoff, no error. */
  lemma BirthStep(cfg: Config, s: State, messageId: nat, rcptTo: string, senderId: string, s': State)
    requires Step(cfg, s, Enqueue(messageId, rcptTo, senderId), s')
    ensures s.db.nextId in s'.db.jobs
    ensures s'.db.jobs[s.db.nextId] == Job(messageId, rcptTo, senderId, Queued, 0, None, None)
  {
  }

  /** A worker step neither adds nor drops a row; the other steps touch one key. */
  lemma KeysStep(cfg: Config, s: State, a: Action, s': State)
    requires Step(cfg, s, a, s')
    ensures s'.workers.Keys == s.workers.Keys
    ensures a.Work? ==> s'.db.jobs.Keys == s.db.jobs.Keys && s'.db.nextId == s.db.nextId
    ensures a.Enqueue? ==> s'.db.jobs.Keys == s.db.jobs.Keys + {s.db.nextId} && s'.db.nextId == s.db.nextId + 1
    ensures a.Remove? ==> s'.db.jobs.Keys == s.db.jobs.Keys - {a.id} && s'.db.nextId == s.db.nextId
    ensures a.Work? ==> s.db.audit <= s'.db.audit
    ensures a.Enqueue? ==> s'.db.audit == s.db.audit
    ensures a.Remove? ==> s'.db.audit == WithoutJob(s.db.audit, a.id)
  {
  }

  /** A worker starts to carry a job only by claiming it, and the copy it carries is the row it wrote. */
  lemma CarryStep(cfg: Config, s: State, a: Action, s': State, w: WorkerId, id: JobId)
    requires Step(cfg, s, a, s')
    requires Carries(s', w, id)
    ensures
      || (Carries(s, w, id) && s'.workers[w].job == s.workers[w].job && s'.workers[w].now == s.workers[w].now)
      || (a.Work? && a.worker == w && Claims(s, a, id) && id in s'.db.jobs && s'.workers[w].job == s'.db.jobs[id])
  {
  }

  // ---------------------------------------------------------------------------
  // Conservation
  // ---------------------------------------------------------------------------

  ghost predicate KeysBelow(s: State) {
    forall id :: id in s.db.jobs ==> id < s.db.nextId
  }

  lemma {:induction false} KeysBelowAlways(cfg: Config, r: Run<State, Action>, n: nat)
    requires IsRun(cfg, r) && n < |r.states|
    ensures KeysBelow(r.states[n])
  {
    if n > 0 {
      KeysBelowAlways(cfg, r, n - 1);
      assert Step(cfg, r.states[n - 1], r.acts[n - 1], r.states[n]);
      KeysStep(cfg, r.states[n - 1], r.acts[n - 1], r.states[n]);
    }
  }

  lemma {:induction false} AuditOfPrefix(shorter: seq<Audit>, longer: seq<Audit>, id: JobId)
    requires shorter <= longer
    ensures AuditOf(shorter, id) <= AuditOf(longer, id)
    decreases |longer|
  {
    if shorter != longer {
      assert shorter <= longer[..|longer| - 1];
      AuditOfPrefix(shorter, longer[..|longer| - 1], id);
    }
  }

  lemma {:induction false} AuditOfOthers(audit: seq<Audit>, gone: JobId, id: JobId)
    ensures AuditOf(WithoutJob(audit, gone), id) == if id == gone then [] else AuditOf(audit, id)
  {
    if audit != [] {
      var init, last := audit[..|audit| - 1], audit[|audit| - 1];
      AuditOfOthers(init, gone, id);
      var rest := WithoutJob(init, gone);
      assert (rest + [last])[..|rest|] == rest && rest + [] == rest;
    }
  }

  /** `later` follows `earlier`: of the jobs still there, none has changed message, recipient or sender, none was ever
      away, and each has all its audit rows, with new ones only at the end. */
  ghost predicate Conserved(earlier: Db, later: Db) {
    && earlier.nextId <= later.nextId
    && (forall id :: id in later.jobs && id < earlier.nextId ==>
          && id in earlier.jobs && later.jobs[id].SameEnvelope(earlier.jobs[id])
          && AuditOf(earlier.audit, id) <= AuditOf(later.audit, id))
  }

  lemma ConservedStep(cfg: Config, s: State, a: Action, s': State)
    requires Step(cfg, s, a, s')
    ensures Conserved(s.db, s'.db)
  {
    KeysStep(cfg, s, a, s');
    forall id | id in s'.db.jobs && id < s.db.nextId
      ensures s'.db.jobs[id].SameEnvelope(s.db.jobs[id]) && AuditOf(s.db.audit, id) <= AuditOf(s'.db.audit, id)
    {
      RowStep(cfg, s, a, s', id);
      if a.Remove? {
        AuditOfOthers(s.db.audit, a.id, id);
      } else {
        AuditOfPrefix(s.db.audit, s'.db.audit, id);
      }
    }
  }

  lemma ConservedTransitive(a: Db, b: Db, c: Db)
    requires Conserved(a, b) && Conserved(b, c)
    ensures Conserved(a, c)
  {
  }

  /** Across any stretch of any run, crashes and database errors included. */
  lemma {:induction false} JobsAreConserved(cfg: Config, r: Run<State, Action>, i: nat, j: nat)
    requires IsRun(cfg, r) && i <= j < |r.states|
    ensures Conserved(r.states[i].db, r.states[j].db)
    decreases j
  {
    if i < j {
      JobsAreConserved(cfg, r, i, j - 1);
      assert Step(cfg, r.states[j - 1], r.acts[j - 1], r.states[j]);
      ConservedStep(cfg, r.states[j - 1], r.acts[j - 1], r.states[j]);
      ConservedTransitive(r.states[i].db, r.states[j - 1].db, r.states[j].db);
    }
  }

  /** A stretch of worker steps, however many workers and however it fails, neither adds nor drops a job. */
  lemma {:induction false} WorkersKeepEveryJob(cfg: Config, r: Run<State, Action>, i: nat, j: nat)
    requires IsRun(cfg, r) && i <= j < |r.states|
    requires forall k :: i <= k < j ==> r.acts[k].Work?
    ensures r.states[j].db.jobs.Keys == r.states[i].db.jobs.Keys
    decreases j
  {
    if i < j {
      WorkersKeepEveryJob(cfg, r, i, j - 1);
      assert Step(cfg, r.states[j - 1], r.acts[j - 1], r.states[j]);
      KeysStep(cfg, r.states[j - 1], r.acts[j - 1], r.states[j]);
    }
  }

  // ---------------------------------------------------------------------------
  // Claims are separated by a write that puts the row back
  // ---------------------------------------------------------------------------

  lemma OffQueueStep(cfg: Config, s: State, a: Action, s': State, id: JobId)
    requires Step(cfg, s, a, s') && KeysBelow(s)
    requires id < s.db.nextId && !Claimable(s.db.jobs, id)
    requires !Resets(s, a, id) && !RetriesLater(cfg, s, a, id)
    ensures id < s'.db.nextId && !Claimable(s'.db.jobs, id)
  {
    KeysStep(cfg, s, a, s');
    if id in s'.db.jobs {
      RowStep(cfg, s, a, s', id);
    }
  }

  /** A row that is not `Queued` and is neither reset nor requeued stays not `Queued`. */
  lemma {:induction false} StaysOffQueue(cfg: Config, r: Run<State, Action>, i: nat, j: nat, id: JobId)
    requires IsRun(cfg, r) && i <= j < |r.states|
    requires id < r.states[i].db.nextId && !Claimable(r.states[i].db.jobs, id)
    requires forall k :: i <= k < j ==>
      !Resets(r.states[k], r.acts[k], id) && !RetriesLater(cfg, r.states[k], r.acts[k], id)
    ensures id < r.states[j].db.nextId && !Claimable(r.states[j].db.jobs, id)
    decreases j
  {
    if i < j {
      StaysOffQueue(cfg, r, i, j - 1, id);
      KeysBelowAlways(cfg, r, j - 1);
      assert Step(cfg, r.states[j - 1], r.acts[j - 1], r.states[j]);
      OffQueueStep(cfg, r.states[j - 1], r.acts[j - 1], r.states[j], id);
    }
  }

  /** In every interleaving, between two successful claims of one job lies a write that put its row back to
      `Queued`: a sweep's reset or a counted failure below the cap. */
  lemma ClaimsAreSeparated(cfg: Config, r: Run<State, Action>, i: nat, j: nat, id: JobId)
    requires IsRun(cfg, r) && i < j < |r.acts|
    requires Claims(r.states[i], r.acts[i], id) && Claims(r.states[j], r.acts[j], id)
    ensures exists k ::
      i < k < j && (Resets(r.states[k], r.acts[k], id) || RetriesLater(cfg, r.states[k], r.acts[k], id))
  {
    assert Step(cfg, r.states[i], r.acts[i], r.states[i + 1]);
    KeysBelowAlways(cfg, r, i);
    KeysStep(cfg, r.states[i], r.acts[i], r.states[i + 1]);
    RowStep(cfg, r.states[i], r.acts[i], r.states[i + 1], id);
    if forall k :: i < k < j ==> !Resets(r.states[k], r.acts[k], id) && !RetriesLater(cfg, r.states[k], r.acts[k], id) {
      StaysOffQueue(cfg, r, i + 1, j, id);
    }
  }

  // ---------------------------------------------------------------------------
  // Exclusive delivery, and the one step that can break it
  // ---------------------------------------------------------------------------

  /** A reset write that lands on a settled row, or on a row some worker is still delivering. The sweep does
      not test for either. */
  ghost predicate Hazard(s: State, a: Action) {
    exists id :: Resets(s, a, id) && (s.db.jobs[id].Terminal() || exists w :: Carries(s, w, id))
  }

  ghost predicate NoHazard(r: Run<State, Action>, n: nat)
    requires n <= |r.acts| <= |r.states|
  {
    forall k :: 0 <= k < n ==> !Hazard(r.states[k], r.acts[k])
  }

  /** No two workers carry one job. */
  ghost predicate Exclusive(s: State) {
    forall w, v, id: JobId :: Carries(s, w, id) && Carries(s, v, id) ==> w == v
  }

  /** A carried job's row, while it exists, is `InProgress` and equal to the carrier's copy. */
  ghost predicate CopiesFresh(s: State) {
    forall w, id: JobId :: Carries(s, w, id) ==>
      && id < s.db.nextId
      && s.workers[w].job.status == InProgress
      && (id in s.db.jobs ==> s.db.jobs[id] == s.workers[w].job)
  }

  ghost predicate Owned(s: State) {
    KeysBelow(s) && Exclusive(s) && CopiesFresh(s)
  }

  lemma OwnedStep(cfg: Config, s: State, a: Action, s': State)
    requires Step(cfg, s, a, s') && Owned(s) && !Hazard(s, a)
    ensures Owned(s')
  {
    KeysStep(cfg, s, a, s');
    forall w, v, id: JobId | Carries(s', w, id) && Carries(s', v, id) ensures w == v {
      CarryStep(cfg, s, a, s', w, id);
      CarryStep(cfg, s, a, s', v, id);
    }
    forall w, id: JobId | Carries(s', w, id)
      ensures id < s'.db.nextId && s'.workers[w].job.status == InProgress
      ensures id in s'.db.jobs ==> s'.db.jobs[id] == s'.workers[w].job
    {
      CarryStep(cfg, s, a, s', w, id);
      if Carries(s, w, id) && id in s'.db.jobs {
        assert id in s.db.jobs;
        RowStep(cfg, s, a, s', id);
        if Counts(s, a, id) {
          assert Carries(s, a.worker, id);
        }
      }
    }
  }

  lemma {:induction false} OwnedAlways(cfg: Config, r: Run<State, Action>, n: nat)
    requires IsRun(cfg, r) && n <= |r.acts| && NoHazard(r, n)
    ensures Owned(r.states[n])
  {
    if n > 0 {
      OwnedAlways(cfg, r, n - 1);
      assert Step(cfg, r.states[n - 1], r.acts[n - 1], r.states[n]);
      OwnedStep(cfg, r.states[n - 1], r.acts[n - 1], r.states[n]);
    }
  }

  /** Any number of loops, any crashes and errors: as long as no hazardous reset has happened, at most one
      worker is delivering a given job. */
  lemma DeliveryIsExclusive(cfg: Config, r: Run<State, Action>, n: nat, w: WorkerId, v: WorkerId, id: JobId)
    requires IsRun(cfg, r) && n <= |r.acts| && NoHazard(r, n)
    requires Carries(r.states[n], w, id) && Carries(r.states[n], v, id)
    ensures w == v
  {
    OwnedAlways(cfg, r, n);
  }

  /** The row of `id` is `job`, or has been deleted for good. */
  ghost predicate RowIs(s: State, id: JobId, job: Job) {
    id < s.db.nextId && (id in s.db.jobs ==> s.db.jobs[id] == job)
  }

  lemma SettledStep(cfg: Config, s: State, a: Action, s': State, id: JobId, job: Job)
    requires Step(cfg, s, a, s') && Owned(s) && !Hazard(s, a)
    requires RowIs(s, id, job) && job.Terminal()
    ensures RowIs(s', id, job)
  {
    KeysStep(cfg, s, a, s');
    if id in s'.db.jobs {
      RowStep(cfg, s, a, s', id);
      if Counts(s, a, id) {
        assert Carries(s, a.worker, id);
      }
    }
  }

  /** Under the same condition a settled job never changes again (it can only be deleted). */
  lemma {:induction false} SettledIsFinal(cfg: Config, r: Run<State, Action>, i: nat, j: nat, id: JobId)
    requires IsRun(cfg, r) && i <= j <= |r.acts| && NoHazard(r, j)
    requires id in r.states[i].db.jobs && r.states[i].db.jobs[id].Terminal()
    ensures RowIs(r.states[j], id, r.states[i].db.jobs[id])
    decreases j
  {
    if i == j {
      KeysBelowAlways(cfg, r, i);
    } else {
      SettledIsFinal(cfg, r, i, j - 1, id);
      OwnedAlways(cfg, r, j - 1);
      assert Step(cfg, r.states[j - 1], r.acts[j - 1], r.states[j]);
      SettledStep(cfg, r.states[j - 1], r.acts[j - 1], r.states[j], id, r.states[i].db.jobs[id]);
    }
  }

  ghost predicate SettledKept(s: State, s': State) {
    forall id :: id in s.db.jobs && s.db.jobs[id].Terminal() && id in s'.db.jobs ==> s'.db.jobs[id] == s.db.jobs[id]
  }

  /** The condition is exact, step by step: a step keeps ownership and settled rows if and only if it is not a
      hazardous reset. */
  lemma HazardIsExact(cfg: Config, s: State, a: Action, s': State)
    requires Step(cfg, s, a, s') && Owned(s)
    ensures Owned(s') && SettledKept(s, s') <==> !Hazard(s, a)
  {
    if Hazard(s, a) {
      var id :| Resets(s, a, id) && (s.db.jobs[id].Terminal() || exists w :: Carries(s, w, id));
      KeysStep(cfg, s, a, s');
      RowStep(cfg, s, a, s', id);
      if !s.db.jobs[id].Terminal() {
        var w :| Carries(s, w, id);
        assert w != a.worker;
        assert Carries(s', w, id);
      }
    } else {
      OwnedStep(cfg, s, a, s');
      forall id | id in s.db.jobs && s.db.jobs[id].Terminal() && id in s'.db.jobs
        ensures s'.db.jobs[id] == s.db.jobs[id]
      {
        SettledStep(cfg, s, a, s', id, s.db.jobs[id]);
      }
    }
  }

  // ---------------------------------------------------------------------------
  // Accounting
  // ---------------------------------------------------------------------------

  ghost predicate WithinCap(cfg: Config, job: Job) {
    match job.status
    case Queued => job.attempts <= cfg.maxAttempts
    case InProgress => job.attempts <= cfg.maxAttempts
    case Delivered => 1 <= job.attempts <= cfg.maxAttempts + 1
    case Failed => job.attempts == cfg.maxAttempts + 1
  }

  lemma {:induction false} NothingBeforeBirth(cfg: Config, r: Run<State, Action>,
                                              what: (State, Action, JobId) -> bool, n: nat, id: JobId)
    requires IsRun(cfg, r) && n <= |r.acts|
    requires id >= r.states[n].db.nextId
    requires forall s: State, a: Action :: what(s, a, id) ==> id in s.db.jobs
    ensures Times(r, what, id, n) == 0
  {
    if n > 0 {
      JobsAreConserved(cfg, r, n - 1, n);
      KeysBelowAlways(cfg, r, n - 1);
      NothingBeforeBirth(cfg, r, what, n - 1, id);
    }
  }

  lemma AttemptsStep(cfg: Config, s: State, a: Action, s': State, id: JobId)
    requires Step(cfg, s, a, s') && Owned(s) && !Hazard(s, a)
    requires id in s.db.jobs && id in s'.db.jobs && WithinCap(cfg, s.db.jobs[id])
    ensures s'.db.jobs[id].attempts == s.db.jobs[id].attempts + (if Counts(s, a, id) then 1 else 0)
    ensures WithinCap(cfg, s'.db.jobs[id])
  {
    RowStep(cfg, s, a, s', id);
    if Counts(s, a, id) {
      assert Carries(s, a.worker, id);
    }
  }

  /** In a run without a hazardous reset: `attempts` is the number of counted cycles, and the cap admits one more
      than it says: a live job has at most `maxAttempts`, a failed one exactly `maxAttempts + 1`. */
  lemma {:induction false} AttemptsAreCounted(cfg: Config, r: Run<State, Action>, n: nat, id: JobId)
    requires IsRun(cfg, r) && n <= |r.acts| && NoHazard(r, n)
    requires id in r.states[n].db.jobs
    ensures r.states[n].db.jobs[id].attempts == Times(r, Counts, id, n)
    ensures WithinCap(cfg, r.states[n].db.jobs[id])
  {
    if n > 0 {
      var s, a, s' := r.states[n - 1], r.acts[n - 1], r.states[n];
      assert Step(cfg, s, a, s');
      KeysStep(cfg, s, a, s');
      if id in s.db.jobs {
        AttemptsAreCounted(cfg, r, n - 1, id);
        OwnedAlways(cfg, r, n - 1);
        AttemptsStep(cfg, s, a, s', id);
      } else {
        KeysBelowAlways(cfg, r, n - 1);
        NothingBeforeBirth(cfg, r, Counts, n - 1, id);
      }
    }
  }

  /** In a run without a hazardous reset: a job is terminal once `maxAttempts + 1` of its cycles have counted, and no
      further cycle ever counts. */
  lemma CyclesAreBounded(cfg: Config, r: Run<State, Action>, n: nat, id: JobId)
    requires IsRun(cfg, r) && n <= |r.acts| && NoHazard(r, n)
    requires id in r.states[n].db.jobs
    ensures Times(r, Counts, id, n) <= cfg.maxAttempts + 1
    ensures Times(r, Counts, id, n) == cfg.maxAttempts + 1 ==> r.states[n].db.jobs[id].Terminal()
    ensures r.states[n].db.jobs[id].status == Failed ==> Times(r, Counts, id, n) == cfg.maxAttempts + 1
  {
    AttemptsAreCounted(cfg, r, n, id);
  }

  lemma ProgressStep(cfg: Config, s: State, a: Action, s': State, id: JobId)
    requires Step(cfg, s, a, s') && Owned(s) && !Hazard(s, a) && id in s.db.jobs && id in s'.db.jobs
    ensures AsOne(s'.db.jobs[id].status == InProgress) + AsOne(Counts(s, a, id)) + AsOne(Reclaims(s, a, id))
         == AsOne(s.db.jobs[id].status == InProgress) + AsOne(Claims(s, a, id))
  {
    RowStep(cfg, s, a, s', id);
    if Counts(s, a, id) {
      assert Carries(s, a.worker, id);
    }
  }

  /** Every claim is accounted for: in a run without a hazardous reset a claim of a job ends in a counted outcome or in
      a reset, or the job is still in progress. */
  lemma {:induction false} ClaimsAreAccounted(cfg: Config, r: Run<State, Action>, n: nat, id: JobId)
    requires IsRun(cfg, r) && n <= |r.acts| && NoHazard(r, n)
    requires id in r.states[n].db.jobs
    ensures Times(r, Claims, id, n) ==
      Times(r, Counts, id, n) + Times(r, Reclaims, id, n) + AsOne(r.states[n].db.jobs[id].status == InProgress)
  {
    if n > 0 {
      var s, a, s' := r.states[n - 1], r.acts[n - 1], r.states[n];
      assert Step(cfg, s, a, s');
      KeysStep(cfg, s, a, s');
      KeysBelowAlways(cfg, r, n - 1);
      if id in s.db.jobs {
        ClaimsAreAccounted(cfg, r, n - 1, id);
        OwnedAlways(cfg, r, n - 1);
        ProgressStep(cfg, s, a, s', id);
      } else {
        NothingBeforeBirth(cfg, r, Claims, n - 1, id);
        NothingBeforeBirth(cfg, r, Counts, n - 1, id);
        NothingBeforeBirth(cfg, r, Reclaims, n - 1, id);
      }
    }
  }

  /** So a job is claimed at most `maxAttempts + 1` times more often than it is reclaimed, and one that was never
      reclaimed is terminal when its claim number `maxAttempts + 1` is over. */
  lemma ClaimsAreBounded(cfg: Config, r: Run<State, Action>, n: nat, id: JobId)
    requires IsRun(cfg, r) && n <= |r.acts| && NoHazard(r, n)
    requires id in r.states[n].db.jobs
    ensures Times(r, Claims, id, n) <= cfg.maxAttempts + 1 + Times(r, Reclaims, id, n)
    ensures Times(r, Claims, id, n) == cfg.maxAttempts + 1 + Times(r, Reclaims, id, n) ==>
      r.states[n].db.jobs[id].status == InProgress || r.states[n].db.jobs[id].Terminal()
  {
    ClaimsAreAccounted(cfg, r, n, id);
    AttemptsAreCounted(cfg, r, n, id);
  }

  // ---------------------------------------------------------------------------
  // One attempt per drain
  // ---------------------------------------------------------------------------

  function Pending(ph: Phase): seq<Snap> {
    if ph.Draining? || ph.Delivering? then ph.snaps else []
  }

  ghost predicate Waits(s: State, w: WorkerId, id: JobId) {
    w in s.workers && id in SnapIds(Pending(s.workers[w]))
  }

  ghost predicate SnapsDistinct(s: State) {
    forall w :: w in s.workers ==> Distinct(SnapIds(Pending(s.workers[w])))
  }

  /** Outside a fetch, a drain only drops the head of its list. */
  lemma PendingStep(cfg: Config, s: State, a: Action, s': State, w: WorkerId)
    requires Step(cfg, s, a, s') && w in s.workers
    ensures w in s'.workers
    ensures
      var before, after := SnapIds(Pending(s.workers[w])), SnapIds(Pending(s'.workers[w]));
      || after == before || after == []
      || (before != [] && after == before[1..])
      || (a.Work? && a.worker == w && a.op.Fetch? && Distinct(after))
  {
    var before, after := SnapIds(Pending(s.workers[w])), SnapIds(Pending(s'.workers[w]));
    if a.Work? && a.worker == w && (a.op.Claim? || a.op.NotDue?) {
      assert after == before[1..];
    }
  }

  lemma {:induction false} SnapsDistinctAlways(cfg: Config, r: Run<State, Action>, n: nat)
    requires IsRun(cfg, r) && n < |r.states|
    ensures SnapsDistinct(r.states[n])
  {
    if n > 0 {
      SnapsDistinctAlways(cfg, r, n - 1);
      assert Step(cfg, r.states[n - 1], r.acts[n - 1], r.states[n]);
      KeysStep(cfg, r.states[n - 1], r.acts[n - 1], r.states[n]);
      forall w | w in r.states[n].workers ensures Distinct(SnapIds(Pending(r.states[n].workers[w]))) {
        PendingStep(cfg, r.states[n - 1], r.acts[n - 1], r.states[n], w);
      }
    }
  }

  ghost predicate Fetches(a: Action, w: WorkerId) {
    a.Work? && a.worker == w && a.op.Fetch?
  }

  lemma {:induction false} StaysOffList(cfg: Config, r: Run<State, Action>, i: nat, j: nat, w: WorkerId, id: JobId)
    requires IsRun(cfg, r) && i <= j < |r.states| && w in r.states[i].workers
    requires !Waits(r.states[i], w, id)
    requires forall k :: i <= k < j ==> !Fetches(r.acts[k], w)
    ensures w in r.states[j].workers && !Waits(r.states[j], w, id)
    decreases j
  {
    if i < j {
      StaysOffList(cfg, r, i, j - 1, w, id);
      assert Step(cfg, r.states[j - 1], r.acts[j - 1], r.states[j]);
      PendingStep(cfg, r.states[j - 1], r.acts[j - 1], r.states[j], w);
    }
  }

  /** In every interleaving a worker that claims one job twice has started a new drain in between. */
  lemma OneAttemptPerDrain(cfg: Config, r: Run<State, Action>, i: nat, j: nat, id: JobId)
    requires IsRun(cfg, r) && i < j < |r.acts|
    requires Claims(r.states[i], r.acts[i], id) && Claims(r.states[j], r.acts[j], id)
    requires r.acts[i].worker == r.acts[j].worker
    ensures exists k :: i < k < j && Fetches(r.acts[k], r.acts[i].worker)
  {
    var w := r.acts[i].worker;
    var s, s' := r.states[i], r.states[i + 1];
    assert Step(cfg, s, r.acts[i], s');
    SnapsDistinctAlways(cfg, r, i);
    assert SnapIds(Pending(s.workers[w]))[0] == id;
    assert !Waits(s', w, id) by {
      assert SnapIds(Pending(s'.workers[w])) == SnapIds(Pending(s.workers[w]))[1..];
    }
    assert Waits(r.states[j], w, id) by {
      assert SnapIds(Pending(r.states[j].workers[w]))[0] == id;
    }
    if forall k :: i < k < j ==> !Fetches(r.acts[k], w) {
      StaysOffList(cfg, r, i + 1, j, w, id);
    }
  }
}
