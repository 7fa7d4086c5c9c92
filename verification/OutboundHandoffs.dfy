/** Accepted handoffs, written down or not: when a message is sent once, and how often it is sent otherwise. */
module OutboundHandoffs {
  import opened Prelude
  import opened OutboundProtocol
  import opened OutboundSafety
  import opened OutboundSingle
  import opened OutboundReceipts

  /** Some worker that carries the job knows of an acceptance. */
  ghost predicate Held(s: State, id: JobId) {
    exists w :: Carries(s, w, id) && HoldsAcceptance(s.workers[w])
  }

  /** The acceptance shows: the job is `Delivered`, or its worker still knows. */
  ghost predicate Shows(s: State, id: JobId) {
    id in s.db.jobs && (s.db.jobs[id].status == Delivered || Held(s, id))
  }

  // ---------------------------------------------------------------------------
  // One step
  // ---------------------------------------------------------------------------

  /** What a step does to the acceptance one worker holds. */
  lemma HoldStep(cfg: Config, s: State, a: Action, s': State, w: WorkerId, id: JobId)
    requires Step(cfg, s, a, s') && id in s.db.jobs && id in s'.db.jobs
    ensures Carries(s', w, id) && HoldsAcceptance(s'.workers[w]) ==>
      || (Carries(s, w, id) && HoldsAcceptance(s.workers[w]))
      || (Accepts(s, a, id) && a.worker == w)
    ensures Accepts(s, a, id) && a.worker == w ==>
      Carries(s', w, id) && HoldsAcceptance(s'.workers[w]) && !HoldsAcceptance(s.workers[w])
    ensures Carries(s, w, id) && HoldsAcceptance(s.workers[w]) ==>
      if a.Work? && a.worker == w && (LosesAcceptance(s, a, id) || Counts(s, a, id)) then !Carries(s', w, id)
      else Carries(s', w, id) && HoldsAcceptance(s'.workers[w])
    ensures Counts(s, a, id) && a.worker == w ==> (HoldsAcceptance(s.workers[w]) <==> a.op.Settle?)
  {
  }

  lemma StillHeld(cfg: Config, s: State, a: Action, s': State, id: JobId)
    requires Step(cfg, s, a, s') && Owned(s) && id in s.db.jobs && id in s'.db.jobs
    requires !Accepts(s, a, id) && !LosesAcceptance(s, a, id) && !Counts(s, a, id)
    ensures Held(s', id) <==> Held(s, id)
  {
    if w :| Carries(s, w, id) && HoldsAcceptance(s.workers[w]) {
      HoldStep(cfg, s, a, s', w, id);
    }
    if w :| Carries(s', w, id) && HoldsAcceptance(s'.workers[w]) {
      HoldStep(cfg, s, a, s', w, id);
    }
  }

  /** After a loss or a counted outcome nobody holds an acceptance of the job; before it, the worker did exactly if it
      lost it or settled. */
  lemma NoLongerHeld(cfg: Config, s: State, a: Action, s': State, id: JobId)
    requires Step(cfg, s, a, s') && Owned(s) && id in s.db.jobs && id in s'.db.jobs
    requires LosesAcceptance(s, a, id) || Counts(s, a, id)
    ensures !Held(s', id) && (Held(s, id) <==> LosesAcceptance(s, a, id) || a.op.Settle?)
  {
    assert Carries(s, a.worker, id);
    HoldStep(cfg, s, a, s', a.worker, id);
    if w :| Carries(s', w, id) && HoldsAcceptance(s'.workers[w]) {
      HoldStep(cfg, s, a, s', w, id);
    }
  }

  lemma NewlyHeld(cfg: Config, s: State, a: Action, s': State, id: JobId)
    requires Step(cfg, s, a, s') && Owned(s) && id in s.db.jobs && id in s'.db.jobs && Accepts(s, a, id)
    ensures Held(s', id) && !Held(s, id) && s.db.jobs[id].status == InProgress
  {
    HoldStep(cfg, s, a, s', a.worker, id);
    assert Carries(s, a.worker, id);
  }

  /** In a step that is no hazardous reset: acceptances shown after, plus those lost, are those shown before plus the
      new one. */
  lemma AcceptanceStep(cfg: Config, s: State, a: Action, s': State, id: JobId)
    requires Step(cfg, s, a, s') && Owned(s) && !Hazard(s, a) && id in s.db.jobs && id in s'.db.jobs
    ensures AsOne(Shows(s', id)) + AsOne(LosesAcceptance(s, a, id)) == AsOne(Shows(s, id)) + AsOne(Accepts(s, a, id))
  {
    RowStep(cfg, s, a, s', id);
    if Accepts(s, a, id) {
      NewlyHeld(cfg, s, a, s', id);
    } else if LosesAcceptance(s, a, id) || Counts(s, a, id) {
      assert Carries(s, a.worker, id);
      NoLongerHeld(cfg, s, a, s', id);
    } else {
      StillHeld(cfg, s, a, s', id);
      if Claims(s, a, id) {
        assert !Held(s, id);
      }
    }
  }

  lemma BornUnsent(cfg: Config, s: State, a: Action, s': State, id: JobId)
    requires Step(cfg, s, a, s') && Owned(s) && id !in s.db.jobs && id in s'.db.jobs
    ensures !Shows(s', id)
  {
    KeysStep(cfg, s, a, s');
    if w :| Carries(s', w, id) && HoldsAcceptance(s'.workers[w]) {
      assert Carries(s, w, id);
    }
  }

  // ---------------------------------------------------------------------------
  // Whole runs
  // ---------------------------------------------------------------------------

  /** The exact account, for any number of loops without a hazardous reset: how often hosts have accepted the message of
      an existing job is how often the acceptance was lost, plus one if it shows. */
  lemma {:induction false} HandoffsAreAccounted(cfg: Config, r: Run<State, Action>, n: nat, id: JobId)
    requires IsRun(cfg, r) && n <= |r.acts| && NoHazard(r, n) && id in r.states[n].db.jobs
    ensures Times(r, Accepts, id, n) == Times(r, LosesAcceptance, id, n) + AsOne(Shows(r.states[n], id))
  {
    if n > 0 {
      var s, a, s' := r.states[n - 1], r.acts[n - 1], r.states[n];
      assert Step(cfg, s, a, s');
      OwnedAlways(cfg, r, n - 1);
      KeysStep(cfg, s, a, s');
      if id in s.db.jobs {
        HandoffsAreAccounted(cfg, r, n - 1, id);
        AcceptanceStep(cfg, s, a, s', id);
      } else {
        NothingBeforeBirth(cfg, r, Accepts, n - 1, id);
        NothingBeforeBirth(cfg, r, LosesAcceptance, n - 1, id);
        BornUnsent(cfg, s, a, s', id);
      }
    }
  }

  /** Every existing job has been sent exactly once if its acceptance shows, and not at all otherwise. */
  ghost predicate SentAsShown(r: Run<State, Action>, n: nat)
    requires n <= |r.acts| < |r.states|
  {
    forall id :: id in r.states[n].db.jobs ==> Times(r, Accepts, id, n) == AsOne(Shows(r.states[n], id))
  }

  /** The step loses the acceptance of some job that stays. */
  ghost predicate LosesSome(s: State, a: Action) {
    exists id :: LosesAcceptance(s, a, id)
  }

  lemma SentStep(cfg: Config, r: Run<State, Action>, n: nat, id: JobId)
    requires IsRun(cfg, r) && n < |r.acts| && NoHazard(r, n + 1) && SentAsShown(r, n)
    requires id in r.states[n + 1].db.jobs
    ensures Times(r, Accepts, id, n + 1) ==
      AsOne(Shows(r.states[n + 1], id)) + AsOne(LosesAcceptance(r.states[n], r.acts[n], id))
  {
    var s, a, s' := r.states[n], r.acts[n], r.states[n + 1];
    assert Step(cfg, s, a, s');
    OwnedAlways(cfg, r, n);
    KeysStep(cfg, s, a, s');
    if id in s.db.jobs {
      AcceptanceStep(cfg, s, a, s', id);
    } else {
      NothingBeforeBirth(cfg, r, Accepts, n, id);
      BornUnsent(cfg, s, a, s', id);
    }
  }

  /** The condition is exact, step by step: short of a hazardous reset, a step keeps every message sent at most
      once, and exactly if it shows, if and only if it does not lose an acceptance. */
  lemma LossIsExact(cfg: Config, r: Run<State, Action>, n: nat)
    requires IsRun(cfg, r) && n < |r.acts| && NoHazard(r, n + 1) && SentAsShown(r, n)
    ensures SentAsShown(r, n + 1) <==> !LosesSome(r.states[n], r.acts[n])
  {
    var s, a, s' := r.states[n], r.acts[n], r.states[n + 1];
    assert Step(cfg, s, a, s');
    KeysStep(cfg, s, a, s');
    if id :| LosesAcceptance(s, a, id) {
      assert id in s'.db.jobs;
      SentStep(cfg, r, n, id);
    } else {
      forall id | id in s'.db.jobs ensures Times(r, Accepts, id, n + 1) == AsOne(Shows(s', id)) {
        SentStep(cfg, r, n, id);
      }
    }
  }

  /** Any number of loops: as long as no reset has hit a settled row or a row in delivery and no acceptance was
      lost, no message has been accepted twice, and one has been accepted exactly if its job is `Delivered` or its
      worker is about to write that down. */
  lemma {:induction false} MessagesAreSentOnce(cfg: Config, r: Run<State, Action>, n: nat)
    requires IsRun(cfg, r) && n <= |r.acts| && NoHazard(r, n)
    requires forall k :: 0 <= k < n ==> !LosesSome(r.states[k], r.acts[k])
    ensures SentAsShown(r, n)
  {
    if n > 0 {
      MessagesAreSentOnce(cfg, r, n - 1);
      LossIsExact(cfg, r, n - 1);
    }
  }

  /** One loop needs only the second condition, and sends a message once more for each acceptance it lost. */
  lemma OneLoopSendsOncePerLoss(cfg: Config, r: Run<State, Action>, w: WorkerId, n: nat, id: JobId)
    requires IsSingleRun(cfg, r, w) && n <= |r.acts| && id in r.states[n].db.jobs
    ensures Times(r, Accepts, id, n) == Times(r, LosesAcceptance, id, n) + AsOne(Shows(r.states[n], id))
  {
    OneLoopHasNoHazard(cfg, r, w);
    HandoffsAreAccounted(cfg, r, n, id);
  }

  // ---------------------------------------------------------------------------
  // One loop without errors
  // ---------------------------------------------------------------------------

  /** In every run of one loop without errors, and whenever no cycle is open: a job that exists has exactly one 250 row
      and was accepted exactly once if it is `Delivered`, and has none and was never accepted if it is not. */
  lemma OneLoopWithoutErrors(cfg: Config, r: Run<State, Action>, w: WorkerId, n: nat, id: JobId)
    requires IsSingleRun(cfg, r, w) && n <= |r.acts| && NoFailure(r) && id in r.states[n].db.jobs
    requires w in r.states[n].workers && !r.states[n].workers[w].Delivering?
    ensures Receipts(r.states[n].db.audit, id) == Times(r, Accepts, id, n)
    ensures Times(r, Accepts, id, n) == AsOne(r.states[n].db.jobs[id].status == Delivered)
  {
    AloneAlways(cfg, r, w, n);
    OneLoopHasNoHazard(cfg, r, w);
    NoFailureDropsNothing(r, n);
    ReceiptMeansDelivered(cfg, r, n);
    assert ReceiptMatches(r.states[n], id);
    MessagesAreSentOnce(cfg, r, n);
  }

  lemma NoFailureDropsNothing(r: Run<State, Action>, n: nat)
    requires NoFailure(r) && n <= |r.acts| <= |r.states|
    ensures NoDroppedReceipt(r, n) && forall k :: 0 <= k < n ==> !LosesSome(r.states[k], r.acts[k])
  {
  }
}
