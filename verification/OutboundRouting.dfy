/** Where messages go, in every interleaving of any number of loops: the relay and nothing else if one is configured,
    else the hosts the lookup of the cycle gave, in order, one after the other. */
module OutboundRouting {
  import opened Prelude
  import opened OutboundProtocol
  import opened OutboundSafety
  import opened OutboundReceipts

  /** The hosts a cycle has before it, and how many it has done with. */
  predicate Contacts(ph: Phase) {
    ph.Delivering? && (ph.stage.Sending? || ph.stage.Recording?)
  }

  // ---------------------------------------------------------------------------
  // With a relay
  // ---------------------------------------------------------------------------

  ghost predicate OnlyHost(s: State, h: string) {
    && (forall w :: w in s.workers && Contacts(s.workers[w]) ==> s.workers[w].stage.targets == [h])
    && forall row :: row in s.db.audit ==> row.host == h
  }

  lemma RelayWorkerStep(cfg: Config, db: Db, ph: Phase, op: Op, db': Db, ph': Phase, h: string)
    requires cfg.relayHost == Some(h) && WorkerStep(cfg, db, ph, op, db', ph')
    requires Contacts(ph) ==> ph.stage.targets == [h]
    ensures Contacts(ph') ==> ph'.stage.targets == [h]
    ensures forall row :: row in db'.audit ==> row in db.audit || row.host == h
  {
  }

  lemma RelayStep(cfg: Config, s: State, a: Action, s': State, h: string)
    requires cfg.relayHost == Some(h) && Step(cfg, s, a, s') && OnlyHost(s, h)
    ensures OnlyHost(s', h)
  {
    match a {
      case Work(w, op) => RelayWorkerStep(cfg, s.db, s.workers[w], op, s'.db, s'.workers[w], h);
      case Enqueue(_, _, _) =>
      case Remove(id) =>
        forall row | row in s'.db.audit ensures row.host == h {
          WithoutJobIsPart(s.db.audit, id, row);
        }
    }
  }

  /** In every run under a configuration with a relay, every host contacted or about to be, and every host in the audit
      trail, is that relay. */
  lemma {:induction false} RelayTakesAll(cfg: Config, r: Run<State, Action>, n: nat, h: string)
    requires IsRun(cfg, r) && n < |r.states| && cfg.relayHost == Some(h)
    ensures OnlyHost(r.states[n], h)
  {
    if n > 0 {
      RelayTakesAll(cfg, r, n - 1, h);
      assert Step(cfg, r.states[n - 1], r.acts[n - 1], r.states[n]);
      RelayStep(cfg, r.states[n - 1], r.acts[n - 1], r.states[n], h);
    }
  }

  // ---------------------------------------------------------------------------
  // The hosts of a cycle
  // ---------------------------------------------------------------------------

  /** The audit row that worker `w` writes in step `k`, if it writes one: the last of the trail right after it. */
  ghost function RowBy(r: Run<State, Action>, w: WorkerId, k: nat): seq<Audit>
    requires k < |r.acts| && |r.states| == |r.acts| + 1
  {
    var audit := r.states[k + 1].db.audit;
    if r.acts[k] == Work(w, Record(true)) && audit != [] then [audit[|audit| - 1]] else []
  }

  /** The rows that worker `w` wrote in the steps from `d` up to `n`. */
  ghost function RowsBy(r: Run<State, Action>, w: WorkerId, d: nat, n: nat): seq<Audit>
    requires d <= n <= |r.acts| && |r.states| == |r.acts| + 1
    decreases n
  {
    if n == d then [] else RowsBy(r, w, d, n - 1) + RowBy(r, w, n - 1)
  }

  /** The first `n` targets were contacted, in order, and refused. */
  function Refusals(id: JobId, targets: seq<string>, n: nat): seq<Audit>
    requires n <= |targets|
  {
    seq(n, i requires 0 <= i < n => Audit(id, targets[i], None))
  }

  /** Where a cycle for `id` over `targets` stands, and the audit rows it has written so far. */
  ghost predicate InOrder(ph: Phase, id: JobId, targets: seq<string>, rows: seq<Audit>) {
    && ph.Delivering? && ph.id == id
    && match ph.stage
       case Loading => false
       case Sending(t, pos) => t == targets && pos < |t| && rows == Refusals(id, targets, pos)
       case Recording(t, pos, _) => t == targets && pos < |t| && rows == Refusals(id, targets, pos)
       case Settling => exists pos: nat ::
         pos < |targets| && rows == Refusals(id, targets, pos) + [Audit(id, targets[pos], Some(250))]
       case Failing(reason) =>
         && rows == Refusals(id, targets, |targets|)
         && (targets == [] ==> reason == "no MX records for domain")
         && (targets != [] ==> "via " + targets[|targets| - 1] + ": " <= reason)
  }

  /** The hosts a cycle is to try, given what the lookup of its recipient gave. */
  predicate AreTargets(cfg: Config, hosts: seq<string>, targets: seq<string>) {
    && (cfg.relayHost.None? ==> targets == hosts)
    && (cfg.relayHost.Some? ==> targets == [cfg.relayHost.value])
  }

  lemma ResolvedInOrder(cfg: Config, db: Db, ph: Phase, hosts: seq<string>, db': Db, ph': Phase)
    returns (targets: seq<string>)
    requires WorkerStep(cfg, db, ph, Resolve(hosts), db', ph')
    ensures AreTargets(cfg, hosts, targets) && InOrder(ph', ph.id, targets, [])
  {
    targets := if cfg.relayHost.Some? then [cfg.relayHost.value] else hosts;
    assert Refusals(ph.id, targets, 0) == [];
  }

  lemma RecordedInOrder(cfg: Config, db: Db, ph: Phase, db': Db, ph': Phase, targets: seq<string>, rows: seq<Audit>)
    requires WorkerStep(cfg, db, ph, Record(true), db', ph') && InOrder(ph, ph.id, targets, rows)
    ensures db'.audit != [] && InOrder(ph', ph.id, targets, rows + [db'.audit[|db'.audit| - 1]])
  {
    var id, pos, answer := ph.id, ph.stage.pos, ph.stage.answer;
    var row := db'.audit[|db'.audit| - 1];
    if answer.Accepted? {
      assert row == Audit(id, targets[pos], Some(250));
    } else {
      assert row == Audit(id, targets[pos], None);
      assert Refusals(id, targets, pos) + [row] == Refusals(id, targets, pos + 1);
      assert pos + 1 == |targets| ==> ph'.stage.reason == "via " + targets[pos] + ": " + answer.error;
    }
  }

  /** Another step of the same worker that leaves it in the cycle writes no row and only moves on from sending. */
  lemma OtherInOrder(cfg: Config, db: Db, ph: Phase, op: Op, db': Db, ph': Phase, targets: seq<string>,
                     rows: seq<Audit>)
    requires WorkerStep(cfg, db, ph, op, db', ph') && op != Record(true) && ph'.Delivering?
    requires ph.Delivering? && InOrder(ph, ph.id, targets, rows)
    ensures InOrder(ph', ph.id, targets, rows)
  {
  }

  /** Since step `k`, in which worker `w` learned `hosts`, it has been in that cycle. */
  ghost predicate LearnedAt(r: Run<State, Action>, k: nat, n: nat, w: WorkerId, id: JobId, hosts: seq<string>)
    requires n <= |r.acts| < |r.states|
  {
    && k < n && r.acts[k] == Work(w, Resolve(hosts))
    && forall m :: k < m <= n ==> Carries(r.states[m], w, id) && !r.states[m].workers[w].stage.Loading?
  }

  lemma CycleNext(cfg: Config, r: Run<State, Action>, k: nat, n: nat, w: WorkerId, id: JobId, hosts: seq<string>,
                  targets: seq<string>)
    requires IsRun(cfg, r) && n < |r.acts| && LearnedAt(r, k, n, w, id, hosts)
    requires InOrder(r.states[n].workers[w], id, targets, RowsBy(r, w, k + 1, n))
    requires Carries(r.states[n + 1], w, id) && !r.states[n + 1].workers[w].stage.Loading?
    ensures LearnedAt(r, k, n + 1, w, id, hosts)
    ensures InOrder(r.states[n + 1].workers[w], id, targets, RowsBy(r, w, k + 1, n + 1))
  {
    var s, a, s' := r.states[n], r.acts[n], r.states[n + 1];
    assert Step(cfg, s, a, s');
    var rows := RowsBy(r, w, k + 1, n);
    assert rows + [] == rows;
    if a.Work? && a.worker == w {
      if a.op == Record(true) {
        RecordedInOrder(cfg, s.db, s.workers[w], s'.db, s'.workers[w], targets, rows);
      } else {
        OtherInOrder(cfg, s.db, s.workers[w], a.op, s'.db, s'.workers[w], targets, rows);
      }
    }
  }

  /** A worker past the lookup has just learned its hosts, or was past it before. */
  lemma LearnsOrKnows(cfg: Config, r: Run<State, Action>, k: nat, w: WorkerId, id: JobId)
    requires IsRun(cfg, r) && k < |r.acts| && Carries(r.states[k + 1], w, id)
    requires !r.states[k + 1].workers[w].stage.Loading?
    ensures Carries(r.states[k], w, id)
    ensures r.states[k].workers[w].stage.Loading? ==>
      r.acts[k].Work? && r.acts[k].worker == w && r.acts[k].op.Resolve?
  {
    assert Step(cfg, r.states[k], r.acts[k], r.states[k + 1]);
  }

  lemma CycleBegins(cfg: Config, r: Run<State, Action>, k: nat, w: WorkerId, id: JobId, hosts: seq<string>)
    returns (targets: seq<string>)
    requires IsRun(cfg, r) && k < |r.acts| && Carries(r.states[k], w, id) && r.acts[k] == Work(w, Resolve(hosts))
    ensures LearnedAt(r, k, k + 1, w, id, hosts) && AreTargets(cfg, hosts, targets)
    ensures InOrder(r.states[k + 1].workers[w], id, targets, [])
  {
    var s, s' := r.states[k], r.states[k + 1];
    assert Step(cfg, s, r.acts[k], s');
    targets := ResolvedInOrder(cfg, s.db, s.workers[w], hosts, s'.db, s'.workers[w]);
  }

  /** In every interleaving of any number of loops: a worker past the lookup of its cycle goes through the relay if
      there is one, else through exactly the hosts that lookup gave, in order; the audit rows it has written since
      are one per host it is done with, in that order, for its job, every one a refusal but a final 250. */
  lemma {:induction false} CycleIsInOrder(cfg: Config, r: Run<State, Action>, n: nat, w: WorkerId, id: JobId)
    returns (k: nat, hosts: seq<string>, targets: seq<string>)
    requires IsRun(cfg, r) && n <= |r.acts| && Carries(r.states[n], w, id) && !r.states[n].workers[w].stage.Loading?
    ensures LearnedAt(r, k, n, w, id, hosts) && AreTargets(cfg, hosts, targets)
    ensures InOrder(r.states[n].workers[w], id, targets, RowsBy(r, w, k + 1, n))
  {
    assert n > 0;
    LearnsOrKnows(cfg, r, n - 1, w, id);
    if r.states[n - 1].workers[w].stage.Loading? {
      k, hosts := n - 1, r.acts[n - 1].op.hosts;
      targets := CycleBegins(cfg, r, k, w, id, hosts);
    } else {
      k, hosts, targets := CycleIsInOrder(cfg, r, n - 1, w, id);
      CycleNext(cfg, r, k, n - 1, w, id, hosts, targets);
    }
  }
}
