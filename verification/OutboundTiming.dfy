/** Backoff in every interleaving of any number of loops: when exactly a claim comes before the stored time. */
module OutboundTiming {
  import opened Prelude
  import opened OutboundProtocol
  import opened OutboundSafety
  import Backoff

  /** The step puts job `id` back with a time that a drain started at `now` has not reached. */
  ghost predicate PushesPast(cfg: Config, s: State, a: Action, id: JobId, now: Time) {
    && RetriesLater(cfg, s, a, id)
    && var ph := s.workers[a.worker];
       ph.now + Backoff.Delay(cfg.baseBackoff, cfg.maxBackoff, ph.job.attempts + 1) > now
  }

  /** The step writes the stored time of job `id`: a reset or a counted outcome. */
  ghost predicate WritesTime(s: State, a: Action, id: JobId) {
    Resets(s, a, id) || Counts(s, a, id)
  }

  lemma DueStep(cfg: Config, s: State, a: Action, s': State, id: JobId, now: Time)
    requires Step(cfg, s, a, s') && id < s.db.nextId && id in s.db.jobs && id in s'.db.jobs
    ensures !s'.db.jobs[id].Due(now) <==>
      PushesPast(cfg, s, a, id, now) || (!WritesTime(s, a, id) && !s.db.jobs[id].Due(now))
  {
    RowStep(cfg, s, a, s', id);
  }

  /** After step `k` and before `j` nothing writes the stored time. */
  ghost predicate TimeKept(r: Run<State, Action>, k: nat, j: nat, id: JobId)
    requires j <= |r.acts| <= |r.states|
  {
    forall m :: k < m < j ==> !WritesTime(r.states[m], r.acts[m], id)
  }

  /** Some step of `[i, j)` pushed the job past `now`, and no later one wrote its time. */
  ghost predicate PushedPast(cfg: Config, r: Run<State, Action>, i: nat, j: nat, id: JobId, now: Time)
    requires i <= j <= |r.acts| <= |r.states|
  {
    exists k :: i <= k < j && PushesPast(cfg, r.states[k], r.acts[k], id, now) && TimeKept(r, k, j, id)
  }

  lemma PushedNow(cfg: Config, r: Run<State, Action>, i: nat, j: nat, id: JobId, now: Time)
    requires i < j <= |r.acts| <= |r.states| && PushesPast(cfg, r.states[j - 1], r.acts[j - 1], id, now)
    ensures PushedPast(cfg, r, i, j, id, now)
  {
    assert TimeKept(r, j - 1, j, id);
  }

  lemma PushedBefore(cfg: Config, r: Run<State, Action>, i: nat, j: nat, id: JobId, now: Time)
    requires i < j <= |r.acts| <= |r.states| && !PushesPast(cfg, r.states[j - 1], r.acts[j - 1], id, now)
    ensures PushedPast(cfg, r, i, j, id, now) <==>
      PushedPast(cfg, r, i, j - 1, id, now) && !WritesTime(r.states[j - 1], r.acts[j - 1], id)
  {
    forall k | i <= k < j - 1
      ensures TimeKept(r, k, j, id) <==> TimeKept(r, k, j - 1, id) && !WritesTime(r.states[j - 1], r.acts[j - 1], id)
    {
    }
  }

  /** A row that is there at both ends is there in between. */
  lemma StillThere(cfg: Config, r: Run<State, Action>, i: nat, k: nat, j: nat, id: JobId)
    requires IsRun(cfg, r) && i <= k <= j < |r.states| && id in r.states[i].db.jobs && id in r.states[j].db.jobs
    ensures id in r.states[k].db.jobs && id < r.states[k].db.nextId
  {
    KeysBelowAlways(cfg, r, i);
    JobsAreConserved(cfg, r, i, k);
    JobsAreConserved(cfg, r, k, j);
  }

  /** A row due at state `i` is not due at state `j` exactly when it was pushed past `now` in between. */
  lemma {:induction false} NotDueExactly(cfg: Config, r: Run<State, Action>, i: nat, j: nat, id: JobId, now: Time)
    requires IsRun(cfg, r) && i <= j <= |r.acts|
    requires id in r.states[i].db.jobs && r.states[i].db.jobs[id].Due(now) && id in r.states[j].db.jobs
    ensures !r.states[j].db.jobs[id].Due(now) <==> PushedPast(cfg, r, i, j, id, now)
    decreases j
  {
    if i < j {
      StillThere(cfg, r, i, j - 1, j, id);
      NotDueExactly(cfg, r, i, j - 1, id, now);
      assert Step(cfg, r.states[j - 1], r.acts[j - 1], r.states[j]);
      DueStep(cfg, r.states[j - 1], r.acts[j - 1], r.states[j], id, now);
      if PushesPast(cfg, r.states[j - 1], r.acts[j - 1], id, now) {
        PushedNow(cfg, r, i, j, id, now);
      } else {
        PushedBefore(cfg, r, i, j, id, now);
      }
    }
  }

  /** What a worker holds of its list was fetched by its last fetch, at step `f`. */
  ghost predicate Holds(r: Run<State, Action>, f: nat, n: nat, w: WorkerId)
    requires f < n < |r.states| && n <= |r.acts|
  {
    && Fetches(r.acts[f], w) && w in r.states[n].workers
    && (forall k :: f < k < n ==> !Fetches(r.acts[k], w))
    && var ph := r.states[n].workers[w];
       && (ph.Draining? || ph.Delivering?) && ph.now == r.acts[f].op.at
       && forall x :: x in ph.snaps ==> x in r.acts[f].op.fetched
  }

  lemma HoldsStep(cfg: Config, r: Run<State, Action>, f: nat, n: nat, w: WorkerId)
    requires IsRun(cfg, r) && f < n < |r.acts| && Holds(r, f, n, w)
    requires !Fetches(r.acts[n], w)
    requires var ph := r.states[n + 1].workers; w in ph && (ph[w].Draining? || ph[w].Delivering?)
    ensures Holds(r, f, n + 1, w)
  {
    assert Step(cfg, r.states[n], r.acts[n], r.states[n + 1]);
  }

  /** A worker with a list has fetched it. */
  lemma {:induction false} LastFetch(cfg: Config, r: Run<State, Action>, n: nat, w: WorkerId) returns (f: nat)
    requires IsRun(cfg, r) && n <= |r.acts| && w in r.states[n].workers
    requires r.states[n].workers[w].Draining? || r.states[n].workers[w].Delivering?
    ensures f < n && Holds(r, f, n, w)
  {
    assert n > 0;
    assert Step(cfg, r.states[n - 1], r.acts[n - 1], r.states[n]);
    if Fetches(r.acts[n - 1], w) {
      f := n - 1;
    } else {
      f := LastFetch(cfg, r, n - 1, w);
      HoldsStep(cfg, r, f, n - 1, w);
    }
  }

  /** In every interleaving of any number of loops, a claim comes before the time stored in the row if and only if,
      since the claiming worker's fetch, a counted failure pushed the job past the start of that drain and no later
      write of the row replaced or cleared the time. */
  lemma EarlyClaimExactly(cfg: Config, r: Run<State, Action>, n: nat, id: JobId) returns (f: nat)
    requires IsRun(cfg, r) && n < |r.acts| && Claims(r.states[n], r.acts[n], id)
    ensures f < n && Holds(r, f, n, r.acts[n].worker)
    ensures var now := r.acts[f].op.at;
      !r.states[n].db.jobs[id].Due(now) <==> PushedPast(cfg, r, f + 1, n, id, now)
  {
    var w := r.acts[n].worker;
    f := LastFetch(cfg, r, n, w);
    var now, snap := r.acts[f].op.at, r.states[n].workers[w].snaps[0];
    assert Step(cfg, r.states[n], r.acts[n], r.states[n + 1]);
    assert Step(cfg, r.states[f], r.acts[f], r.states[f + 1]);
    assert snap in r.states[n].workers[w].snaps;
    var i :| 0 <= i < |r.acts[f].op.fetched| && r.acts[f].op.fetched[i] == snap;
    assert r.states[f + 1].db.jobs[id].Due(now);
    NotDueExactly(cfg, r, f + 1, n, id, now);
  }
}
