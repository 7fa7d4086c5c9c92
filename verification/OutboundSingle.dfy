/** One worker loop on the queue: its own order of steps makes every sweep safe and every claim timely. */
module OutboundSingle {
  import opened Prelude
  import opened OutboundProtocol
  import opened OutboundSafety
  import Backoff

  ghost predicate IsSingleRun(cfg: Config, r: Run<State, Action>, w: WorkerId) {
    IsRun(cfg, r) && r.states[0].workers.Keys == {w}
  }

  /** What the loop knows about rows it has read but not yet written. */
  ghost predicate LocalsFresh(s: State, w: WorkerId)
    requires w in s.workers
  {
    var ph := s.workers[w];
    && (ph.Sweeping? ==>
          && Distinct(ph.todo)
          && (forall id :: id in ph.todo ==>
                id < s.db.nextId && (id in s.db.jobs ==> s.db.jobs[id].status == InProgress))
          && (ph.clean ==> forall id :: id in s.db.jobs && s.db.jobs[id].status == InProgress ==> id in ph.todo))
    && (ph.Draining? || ph.Delivering? ==>
          && Distinct(SnapIds(ph.snaps))
          && (forall i :: 0 <= i < |ph.snaps| ==> SnapFresh(s.db, ph.snaps[i])))
    && (ph.Delivering? ==> ph.id !in SnapIds(ph.snaps))
  }

  ghost predicate SnapFresh(db: Db, snap: Snap) {
    && snap.id < db.nextId
    && (snap.id in db.jobs ==>
          db.jobs[snap.id].status == Queued && db.jobs[snap.id].nextAttemptAt == snap.nextAttemptAt)
  }

  ghost predicate Alone(s: State, w: WorkerId) {
    s.workers.Keys == {w} && Owned(s) && LocalsFresh(s, w)
  }

  lemma AloneHasNoHazard(s: State, w: WorkerId, a: Action)
    requires Alone(s, w)
    ensures !Hazard(s, a)
  {
  }

  lemma SweepingFresh(cfg: Config, s: State, op: Op, s': State, w: WorkerId)
    requires Alone(s, w) && Step(cfg, s, Work(w, op), s')
    requires s'.workers[w].Sweeping?
    ensures LocalsFresh(s', w)
  {
    KeysStep(cfg, s, Work(w, op), s');
    if op.Reset? {
      var todo := s.workers[w].todo;
      forall x | x in todo[1..] ensures x in todo && x != todo[0] {
        var i :| 0 <= i < |todo[1..]| && todo[1..][i] == x;
        assert todo[i + 1] == x;
      }
      assert todo == [todo[0]] + todo[1..];
    }
  }

  lemma DrainingFresh(cfg: Config, s: State, op: Op, s': State, w: WorkerId)
    requires Alone(s, w) && Step(cfg, s, Work(w, op), s')
    requires s'.workers[w].Draining? || s'.workers[w].Delivering?
    ensures LocalsFresh(s', w)
  {
    var ph, ph' := s.workers[w], s'.workers[w];
    if op.Fetch? {
      assert forall i :: 0 <= i < |ph'.snaps| ==> SnapIds(ph'.snaps)[i] in SnapIds(ph'.snaps);
    } else if op.Claim? || op.NotDue? {
      assert SnapIds(ph'.snaps) == SnapIds(ph.snaps)[1..];
      assert SnapIds(ph.snaps)[0] == ph.snaps[0].id;
    } else {
      assert ph.Delivering? && ph'.snaps == ph.snaps;
      assert Carries(s, w, ph.id);
      forall i | 0 <= i < |ph.snaps| ensures SnapFresh(s'.db, ph.snaps[i]) {
        assert SnapIds(ph.snaps)[i] != ph.id;
        assert SnapFresh(s.db, ph.snaps[i]);
      }
    }
  }

  lemma OthersKeepFresh(cfg: Config, s: State, a: Action, s': State, w: WorkerId)
    requires Alone(s, w) && Step(cfg, s, a, s') && !a.Work?
    ensures LocalsFresh(s', w)
  {
    var snaps := Pending(s.workers[w]);
    forall i | 0 <= i < |snaps| ensures SnapFresh(s'.db, snaps[i]) {
      assert SnapFresh(s.db, snaps[i]);
    }
  }

  lemma AloneStep(cfg: Config, s: State, a: Action, s': State, w: WorkerId)
    requires Alone(s, w) && Step(cfg, s, a, s')
    ensures Alone(s', w)
  {
    AloneHasNoHazard(s, w, a);
    OwnedStep(cfg, s, a, s');
    KeysStep(cfg, s, a, s');
    if a.Work? {
      if s'.workers[w].Sweeping? {
        SweepingFresh(cfg, s, a.op, s', w);
      } else if !s'.workers[w].Idle? {
        DrainingFresh(cfg, s, a.op, s', w);
      }
    } else {
      OthersKeepFresh(cfg, s, a, s', w);
    }
  }

  lemma {:induction false} AloneAlways(cfg: Config, r: Run<State, Action>, w: WorkerId, n: nat)
    requires IsSingleRun(cfg, r, w) && n < |r.states|
    ensures Alone(r.states[n], w)
  {
    if n > 0 {
      AloneAlways(cfg, r, w, n - 1);
      assert Step(cfg, r.states[n - 1], r.acts[n - 1], r.states[n]);
      AloneStep(cfg, r.states[n - 1], r.acts[n - 1], r.states[n], w);
    }
  }

  /** In a run of one loop no reset ever meets a settled row or a row in delivery, so everything proved for
      hazard-free runs holds of it outright. */
  lemma OneLoopHasNoHazard(cfg: Config, r: Run<State, Action>, w: WorkerId)
    requires IsSingleRun(cfg, r, w)
    ensures NoHazard(r, |r.acts|)
  {
    forall k | 0 <= k < |r.acts| ensures !Hazard(r.states[k], r.acts[k]) {
      AloneAlways(cfg, r, w, k);
      AloneHasNoHazard(r.states[k], w, r.acts[k]);
    }
  }

  /** `Delivered` and `Failed` are absorbing in every run of one loop. */
  lemma OneLoopSettlesForGood(cfg: Config, r: Run<State, Action>, w: WorkerId, i: nat, j: nat, id: JobId)
    requires IsSingleRun(cfg, r, w) && i <= j <= |r.acts|
    requires id in r.states[i].db.jobs && r.states[i].db.jobs[id].Terminal()
    ensures id in r.states[j].db.jobs ==> r.states[j].db.jobs[id] == r.states[i].db.jobs[id]
  {
    OneLoopHasNoHazard(cfg, r, w);
    SettledIsFinal(cfg, r, i, j, id);
  }

  /** In every run of one loop, `attempts` counts cycles and the retry cap holds. */
  lemma OneLoopCountsAttempts(cfg: Config, r: Run<State, Action>, w: WorkerId, n: nat, id: JobId)
    requires IsSingleRun(cfg, r, w) && n <= |r.acts| && id in r.states[n].db.jobs
    ensures r.states[n].db.jobs[id].attempts == Times(r, Counts, id, n) <= cfg.maxAttempts + 1
    ensures WithinCap(cfg, r.states[n].db.jobs[id])
    ensures
      var job := r.states[n].db.jobs[id];
      && (job.status == Queued || job.status == InProgress ==> job.attempts <= cfg.maxAttempts)
      && (job.status == Failed ==> job.attempts == cfg.maxAttempts + 1)
      && (job.status == Delivered ==> 1 <= job.attempts <= cfg.maxAttempts + 1)
  {
    OneLoopHasNoHazard(cfg, r, w);
    AttemptsAreCounted(cfg, r, n, id);
    CyclesAreBounded(cfg, r, n, id);
  }

  /** When a sweep whose scan and resets all succeeded is over, no row is `InProgress`: whatever a crash or an
      error abandoned, every job that is not settled is back in the queue. */
  lemma CleanSweepRecoversAll(cfg: Config, r: Run<State, Action>, w: WorkerId, n: nat, id: JobId)
    requires IsSingleRun(cfg, r, w) && n < |r.states|
    requires w in r.states[n].workers && r.states[n].workers[w] == Sweeping([], true)
    requires id in r.states[n].db.jobs
    ensures r.states[n].db.jobs[id].status == Queued || r.states[n].db.jobs[id].Terminal()
  {
    AloneAlways(cfg, r, w, n);
  }

  /** One loop never claims a job before the time stored in its row. */
  lemma OneLoopIsNeverEarly(cfg: Config, r: Run<State, Action>, w: WorkerId, n: nat, id: JobId)
    requires IsSingleRun(cfg, r, w) && n < |r.acts|
    requires Claims(r.states[n], r.acts[n], id)
    ensures r.states[n].db.jobs[id].Due(r.states[n].workers[r.acts[n].worker].now)
  {
    AloneAlways(cfg, r, w, n);
    assert Step(cfg, r.states[n], r.acts[n], r.states[n + 1]);
    assert SnapFresh(r.states[n].db, r.states[n].workers[w].snaps[0]);
  }

  lemma WaitingStep(cfg: Config, s: State, a: Action, s': State, w: WorkerId, id: JobId, job: Job)
    requires Alone(s, w) && Step(cfg, s, a, s') && !Claims(s, a, id)
    requires RowIs(s, id, job) && job.status == Queued
    ensures RowIs(s', id, job)
  {
    KeysStep(cfg, s, a, s');
    if id in s'.db.jobs {
      RowStep(cfg, s, a, s', id);
      assert Counts(s, a, id) ==> Carries(s, a.worker, id);
    }
  }

  /** A queued row is left alone until it is claimed. */
  lemma {:induction false} WaitsUntouched(cfg: Config, r: Run<State, Action>, w: WorkerId, i: nat, j: nat, id: JobId)
    requires IsSingleRun(cfg, r, w) && i <= j < |r.states|
    requires id in r.states[i].db.jobs && r.states[i].db.jobs[id].status == Queued
    requires forall k :: i <= k < j ==> !Claims(r.states[k], r.acts[k], id)
    ensures RowIs(r.states[j], id, r.states[i].db.jobs[id])
    decreases j
  {
    if i == j {
      KeysBelowAlways(cfg, r, i);
    } else {
      WaitsUntouched(cfg, r, w, i, j - 1, id);
      AloneAlways(cfg, r, w, j - 1);
      assert Step(cfg, r.states[j - 1], r.acts[j - 1], r.states[j]);
      WaitingStep(cfg, r.states[j - 1], r.acts[j - 1], r.states[j], w, id, r.states[i].db.jobs[id]);
    }
  }

  lemma RequeuedWith(cfg: Config, s: State, a: Action, s': State, id: JobId)
    requires Step(cfg, s, a, s') && Owned(s) && RetriesLater(cfg, s, a, id)
    ensures id in s'.db.jobs && s'.db.jobs[id].status == Queued
    ensures s'.db.jobs[id].attempts == s.db.jobs[id].attempts + 1 <= cfg.maxAttempts
    ensures s'.db.jobs[id].nextAttemptAt ==
      Some(s.workers[a.worker].now + Backoff.Delay(cfg.baseBackoff, cfg.maxBackoff, s'.db.jobs[id].attempts))
  {
    KeysStep(cfg, s, a, s');
    RowStep(cfg, s, a, s', id);
    assert Carries(s, a.worker, id);
  }

  /** The sending strategy of section 4.5.4.1 of RFC 5321 as this queue keeps it: after a counted failure, the
      next attempt on that job belongs to a drain that starts no sooner than the failing drain's start plus the
      backoff for the new attempt count. */
  lemma RetriesAreSpaced(cfg: Config, r: Run<State, Action>, w: WorkerId, i: nat, j: nat, id: JobId)
    requires IsSingleRun(cfg, r, w) && i < j < |r.acts|
    requires RetriesLater(cfg, r.states[i], r.acts[i], id) && Claims(r.states[j], r.acts[j], id)
    requires forall k :: i < k < j ==> !Claims(r.states[k], r.acts[k], id)
    ensures
      var attempts := r.states[i].db.jobs[id].attempts + 1;
      && attempts <= cfg.maxAttempts
      && r.states[j].workers[r.acts[j].worker].now >=
         r.states[i].workers[r.acts[i].worker].now + Backoff.Delay(cfg.baseBackoff, cfg.maxBackoff, attempts)
  {
    AloneAlways(cfg, r, w, i);
    assert Step(cfg, r.states[i], r.acts[i], r.states[i + 1]);
    RequeuedWith(cfg, r.states[i], r.acts[i], r.states[i + 1], id);
    WaitsUntouched(cfg, r, w, i + 1, j, id);
    OneLoopIsNeverEarly(cfg, r, w, j, id);
  }

  // ---------------------------------------------------------------------------
  // Claims and resets
  // ---------------------------------------------------------------------------

  /** One loop never resets a row that is not in progress. */
  lemma AloneReclaims(s: State, w: WorkerId, a: Action, id: JobId)
    requires Alone(s, w)
    ensures Resets(s, a, id) == Reclaims(s, a, id)
  {
    if Resets(s, a, id) {
      assert id in s.workers[w].todo;
    }
  }

  lemma OneLoopReclaims(cfg: Config, r: Run<State, Action>, w: WorkerId, k: nat, id: JobId)
    requires IsSingleRun(cfg, r, w) && k < |r.acts|
    ensures Resets(r.states[k], r.acts[k], id) == Reclaims(r.states[k], r.acts[k], id)
  {
    AloneAlways(cfg, r, w, k);
    AloneReclaims(r.states[k], w, r.acts[k], id);
  }

  lemma {:induction false} ResetsAreReclaims(cfg: Config, r: Run<State, Action>, w: WorkerId, n: nat, id: JobId)
    requires IsSingleRun(cfg, r, w) && n <= |r.acts|
    ensures Times(r, Reclaims, id, n) == Times(r, Resets, id, n)
  {
    if n > 0 {
      ResetsAreReclaims(cfg, r, w, n - 1, id);
      OneLoopReclaims(cfg, r, w, n - 1, id);
    }
  }

  /** The exact account of one loop: each claim of a job has ended in a counted outcome or in a reset, or the job is in
      progress. The claims beyond the resets number at most `maxAttempts + 1`, and a job whose cycles all counted is
      terminal after that many. */
  lemma OneLoopAccountsForClaims(cfg: Config, r: Run<State, Action>, w: WorkerId, n: nat, id: JobId)
    requires IsSingleRun(cfg, r, w) && n <= |r.acts| && id in r.states[n].db.jobs
    ensures Times(r, Claims, id, n) ==
      Times(r, Counts, id, n) + Times(r, Resets, id, n) + AsOne(r.states[n].db.jobs[id].status == InProgress)
    ensures Times(r, Claims, id, n) <= cfg.maxAttempts + 1 + Times(r, Resets, id, n)
    ensures Times(r, Claims, id, n) == cfg.maxAttempts + 1 + Times(r, Resets, id, n) ==>
      r.states[n].db.jobs[id].status == InProgress || r.states[n].db.jobs[id].Terminal()
  {
    OneLoopHasNoHazard(cfg, r, w);
    ResetsAreReclaims(cfg, r, w, n, id);
    ClaimsAreAccounted(cfg, r, n, id);
    ClaimsAreBounded(cfg, r, n, id);
  }
}
