/** The audit trail against the job table: a `250` row is a receipt, and a receipt means `Delivered`. */
module OutboundReceipts {
  import opened Prelude
  import opened OutboundProtocol
  import opened OutboundSafety

  predicate IsReceipt(row: Audit, id: JobId) {
    row.jobId == id && row.code == Some(250)
  }

  function Receipts(audit: seq<Audit>, id: JobId): nat {
    if audit == [] then 0
    else Receipts(audit[..|audit| - 1], id) + (if IsReceipt(audit[|audit| - 1], id) then 1 else 0)
  }

  lemma ReceiptsOneMore(audit: seq<Audit>, row: Audit, id: JobId)
    ensures Receipts(audit + [row], id) == Receipts(audit, id) + AsOne(IsReceipt(row, id))
  {
    assert (audit + [row])[..|audit|] == audit;
  }

  lemma {:induction false} ReceiptsOfOthers(audit: seq<Audit>, gone: JobId, id: JobId)
    requires id != gone
    ensures Receipts(WithoutJob(audit, gone), id) == Receipts(audit, id)
  {
    if audit != [] {
      var init, last := audit[..|audit| - 1], audit[|audit| - 1];
      ReceiptsOfOthers(init, gone, id);
      ReceiptsOneMore(WithoutJob(init, gone), last, id);
      assert WithoutJob(init, gone) + [] == WithoutJob(init, gone);
    }
  }

  lemma {:induction false} WithoutJobIsPart(audit: seq<Audit>, gone: JobId, row: Audit)
    requires row in WithoutJob(audit, gone)
    ensures row in audit
  {
    if row != audit[|audit| - 1] {
      WithoutJobIsPart(audit[..|audit| - 1], gone, row);
    }
  }

  /** Some worker has recorded the 250 of `id` and is about to mark the job. */
  ghost predicate AwaitsSettling(s: State, id: JobId) {
    exists w :: Carries(s, w, id) && s.workers[w].stage.Settling?
  }

  ghost predicate AuditBelow(s: State) {
    forall i :: 0 <= i < |s.db.audit| ==> s.db.audit[i].jobId < s.db.nextId
  }

  ghost predicate ReceiptMatches(s: State, id: JobId) {
    id in s.db.jobs ==>
      Receipts(s.db.audit, id) == if s.db.jobs[id].status == Delivered || AwaitsSettling(s, id) then 1 else 0
  }

  ghost predicate ReceiptsMatch(s: State) {
    AuditBelow(s) && forall id: JobId :: ReceiptMatches(s, id)
  }

  /** The cycle ends between writing the receipt and marking the job: a crash, or a failed update. */
  ghost predicate DropsReceipt(s: State, a: Action) {
    && a.Work? && (a.op.Crash? || a.op == Settle(false)) && a.worker in s.workers
    && s.workers[a.worker].Delivering? && s.workers[a.worker].stage.Settling?
    && s.workers[a.worker].id in s.db.jobs
  }

  ghost predicate NoDroppedReceipt(r: Run<State, Action>, n: nat)
    requires n <= |r.acts| <= |r.states|
  {
    forall k :: 0 <= k < n ==> !DropsReceipt(r.states[k], r.acts[k])
  }

  lemma {:induction false} NoReceiptBeforeBirth(audit: seq<Audit>, id: JobId)
    requires forall i :: 0 <= i < |audit| ==> audit[i].jobId != id
    ensures Receipts(audit, id) == 0
  {
    if audit != [] {
      NoReceiptBeforeBirth(audit[..|audit| - 1], id);
    }
  }

  /** The step writes the audit row of job `id`. */
  ghost predicate Audits(s: State, a: Action, id: JobId) {
    a.Work? && a.op == Record(true) && Carries(s, a.worker, id)
  }

  /** Only a recording step changes the trail, by one row about the carried job. */
  lemma AuditStep(cfg: Config, s: State, a: Action, s': State, id: JobId)
    requires Step(cfg, s, a, s')
    ensures Audits(s, a, id) ==>
      && s'.db.jobs == s.db.jobs && s.workers[a.worker].stage.Recording? && Carries(s', a.worker, id)
      && s'.workers[a.worker].stage.Settling? == s.workers[a.worker].stage.answer.Accepted?
      && Receipts(s'.db.audit, id) ==
         Receipts(s.db.audit, id) + (if s.workers[a.worker].stage.answer.Accepted? then 1 else 0)
    ensures !Audits(s, a, id) && a != Remove(id) ==> Receipts(s'.db.audit, id) == Receipts(s.db.audit, id)
  {
    if a.Remove? && a.id != id {
      ReceiptsOfOthers(s.db.audit, a.id, id);
    }
    if a.Work? && a.op == Record(true) {
      var audit, audit' := s.db.audit, s'.db.audit;
      assert audit'[..|audit'| - 1] == audit;
    }
  }

  lemma AuditBelowStep(cfg: Config, s: State, a: Action, s': State)
    requires Step(cfg, s, a, s') && Owned(s) && AuditBelow(s)
    ensures AuditBelow(s')
  {
    if a.Work? && a.op == Record(true) {
      assert Carries(s, a.worker, s.workers[a.worker].id);
    }
    if a.Remove? {
      forall i | 0 <= i < |s'.db.audit| ensures s'.db.audit[i].jobId < s'.db.nextId {
        WithoutJobIsPart(s.db.audit, a.id, s'.db.audit[i]);
      }
    }
  }

  /** Where a carrier that awaits settling comes from, and where it can go. */
  lemma SettlingStep(cfg: Config, s: State, a: Action, s': State, id: JobId)
    requires Step(cfg, s, a, s') && Owned(s) && id in s.db.jobs
    requires !Audits(s, a, id) && !DropsReceipt(s, a)
    ensures AwaitsSettling(s', id) ==> AwaitsSettling(s, id)
    ensures AwaitsSettling(s, id) ==> AwaitsSettling(s', id) || (Counts(s, a, id) && a.op.Settle?)
    ensures Counts(s, a, id) ==> !AwaitsSettling(s', id)
    ensures Counts(s, a, id) ==> AwaitsSettling(s, id) == a.op.Settle?
  {
    assert Counts(s, a, id) ==> Carries(s, a.worker, id);
    if AwaitsSettling(s', id) {
      var w :| Carries(s', w, id) && s'.workers[w].stage.Settling?;
      assert Carries(s, w, id) && s.workers[w].stage.Settling?;
    }
    if AwaitsSettling(s, id) {
      var w :| Carries(s, w, id) && s.workers[w].stage.Settling?;
      assert (a.Work? && a.worker == w) || (Carries(s', w, id) && s'.workers[w].stage.Settling?);
    }
  }

  lemma RecordedReceipt(cfg: Config, s: State, a: Action, s': State, id: JobId)
    requires Step(cfg, s, a, s') && Owned(s) && ReceiptMatches(s, id)
    requires id in s.db.jobs && Audits(s, a, id)
    ensures ReceiptMatches(s', id)
  {
    AuditStep(cfg, s, a, s', id);
    var w := a.worker;
    assert !AwaitsSettling(s, id);
    if AwaitsSettling(s', id) {
      var v :| Carries(s', v, id) && s'.workers[v].stage.Settling?;
      assert Carries(s, v, id);
    }
  }

  lemma ReceiptStep(cfg: Config, s: State, a: Action, s': State, id: JobId)
    requires Step(cfg, s, a, s') && Owned(s) && ReceiptMatches(s, id)
    requires !Hazard(s, a) && !DropsReceipt(s, a)
    requires id in s.db.jobs
    ensures ReceiptMatches(s', id)
  {
    if Audits(s, a, id) {
      RecordedReceipt(cfg, s, a, s', id);
    } else if id in s'.db.jobs {
      AuditStep(cfg, s, a, s', id);
      SettlingStep(cfg, s, a, s', id);
      RowStep(cfg, s, a, s', id);
      if Counts(s, a, id) {
        assert Carries(s, a.worker, id);
      }
    }
  }

  lemma BornWithoutReceipt(cfg: Config, s: State, a: Action, s': State, id: JobId)
    requires Step(cfg, s, a, s') && Owned(s) && AuditBelow(s)
    requires id !in s.db.jobs
    ensures ReceiptMatches(s', id)
  {
    KeysStep(cfg, s, a, s');
    if id in s'.db.jobs {
      NoReceiptBeforeBirth(s.db.audit, id);
      if AwaitsSettling(s', id) {
        var w :| Carries(s', w, id) && s'.workers[w].stage.Settling?;
        assert Carries(s, w, id);
      }
    }
  }

  /** In every run without a hazardous reset and without a dropped receipt, an existing job has a `250` row
      exactly when it is `Delivered` or its worker is about to mark it so, and then exactly one. */
  lemma {:induction false} ReceiptMeansDelivered(cfg: Config, r: Run<State, Action>, n: nat)
    requires IsRun(cfg, r) && n <= |r.acts| && NoHazard(r, n) && NoDroppedReceipt(r, n)
    ensures ReceiptsMatch(r.states[n])
  {
    if n > 0 {
      ReceiptMeansDelivered(cfg, r, n - 1);
      OwnedAlways(cfg, r, n - 1);
      var s, a, s' := r.states[n - 1], r.acts[n - 1], r.states[n];
      assert Step(cfg, s, a, s');
      AuditBelowStep(cfg, s, a, s');
      forall id: JobId ensures ReceiptMatches(s', id) {
        if id in s.db.jobs {
          ReceiptStep(cfg, s, a, s', id);
        } else {
          BornWithoutReceipt(cfg, s, a, s', id);
        }
      }
    }
  }

  /** The second condition is exact too: dropping a receipt leaves a `250` row on a job that is not
      `Delivered`, and the job will be sent again. */
  lemma DroppedReceiptIsExact(cfg: Config, s: State, a: Action, s': State)
    requires Step(cfg, s, a, s') && Owned(s) && ReceiptsMatch(s) && !Hazard(s, a)
    ensures ReceiptsMatch(s') <==> !DropsReceipt(s, a)
  {
    if DropsReceipt(s, a) {
      var id := s.workers[a.worker].id;
      assert Carries(s, a.worker, id) && AwaitsSettling(s, id);
      assert ReceiptMatches(s, id);
      if AwaitsSettling(s', id) {
        var w :| Carries(s', w, id) && s'.workers[w].stage.Settling?;
        assert Carries(s, w, id);
      }
      assert !ReceiptMatches(s', id);
    } else {
      AuditBelowStep(cfg, s, a, s');
      forall id: JobId ensures ReceiptMatches(s', id) {
        if id in s.db.jobs {
          ReceiptStep(cfg, s, a, s', id);
        } else {
          BornWithoutReceipt(cfg, s, a, s', id);
        }
      }
    }
  }
}
