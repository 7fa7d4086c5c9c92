/** The listener control plane of src/services.rs. Every `start` and `stop` runs under one lock, so any
    interleaving of the larger operations is a sequence of these two. */
module Services {
  import opened Prelude

  datatype Service = Api | Smtp | Smtps | Dns

  datatype Status = Idle | Running

  datatype BootMode = Full | ApiOnly | SmtpOnly | DnsOnly | Off

  type TaskId = nat

  datatype Slot = Slot(status: Status, handle: Option<TaskId>)

  datatype Slots = Slots(api: Slot, dns: Slot, smtp: Slot, smtps: Slot) {
    function Get(svc: Service): Slot {
      match svc
      case Api => api
      case Dns => dns
      case Smtp => smtp
      case Smtps => smtps
    }

    function Set(svc: Service, slot: Slot): Slots {
      match svc
      case Api => this.(api := slot)
      case Dns => this.(dns := slot)
      case Smtp => this.(smtp := slot)
      case Smtps => this.(smtps := slot)
    }
  }

  /** `live` holds the tasks spawned and not aborted; `smtps` says whether an SMTPS address is configured. */
  datatype Plane = Plane(slots: Slots, live: set<TaskId>, nextTask: TaskId, smtps: bool)

  const IDLE := Slot(Idle, None)

  lemma EveryServiceListed()
    ensures forall svc: Service :: svc in [Api, Smtp, Smtps, Dns]
  {
    var all := [Api, Smtp, Smtps, Dns];
    forall svc: Service ensures svc in all {
      match svc {
        case Api => assert all[0] == svc;
        case Smtp => assert all[1] == svc;
        case Smtps => assert all[2] == svc;
        case Dns => assert all[3] == svc;
      }
    }
  }

  /** Every service, in the order `apply_mode` and `stop_all` visit them. */
  function AllServices(): (all: seq<Service>)
    ensures all == [Api, Smtp, Smtps, Dns] && Distinct(all) && forall svc: Service :: svc in all
  {
    EveryServiceListed();
    [Api, Smtp, Smtps, Dns]
  }

  function ModeServices(mode: BootMode): set<Service> {
    match mode
    case Full => {Api, Smtp, Dns}
    case ApiOnly => {Api}
    case SmtpOnly => {Smtp}
    case DnsOnly => {Dns}
    case Off => {}
  }

  predicate Wanted(mode: BootMode, smtps: bool, svc: Service) {
    if svc == Smtps then smtps && Smtp in ModeServices(mode) else svc in ModeServices(mode)
  }

  // ---------------------------------------------------------------------------
  // The two locked operations
  // ---------------------------------------------------------------------------

  /** `Start` carries what the spawn function would answer if it is called. */
  datatype Op = Start(svc: Service, spawns: bool) | Stop(svc: Service)

  datatype Outcome = Done(status: Status, changed: bool) | Refused

  function Apply(p: Plane, op: Op): (Plane, Outcome) {
    match op
    case Start(svc, spawns) =>
      if svc == Smtps && !p.smtps then (p, Refused)
      else if p.slots.Get(svc).status == Running then (p, Done(Running, false))
      else if !spawns then (p, Refused)
      else (p.(slots := p.slots.Set(svc, Slot(Running, Some(p.nextTask))),
               live := p.live + {p.nextTask}, nextTask := p.nextTask + 1), Done(Running, true))
    case Stop(svc) =>
      match p.slots.Get(svc).handle
      case Some(task) => (p.(slots := p.slots.Set(svc, IDLE), live := p.live - {task}), Done(Idle, true))
      case None => (p, Done(Idle, false))
  }

  predicate AllIdle(p: Plane) {
    p.slots == Slots(IDLE, IDLE, IDLE, IDLE) && p.live == {}
  }

  /** The plane after a sequence of locked operations. */
  ghost function After(p: Plane, ops: seq<Op>): (q: Plane)
    ensures q.smtps == p.smtps
    decreases |ops|
  {
    if ops == [] then p else Apply(After(p, ops[..|ops| - 1]), ops[|ops| - 1]).0
  }

  predicate Sound(slot: Slot) {
    slot.status == Running <==> slot.handle.Some?
  }

  predicate Holds(slots: Slots, t: TaskId) {
    || slots.api.handle == Some(t) || slots.dns.handle == Some(t)
    || slots.smtp.handle == Some(t) || slots.smtps.handle == Some(t)
  }

  predicate Apart(a: Slot, b: Slot) {
    a.handle.Some? ==> a.handle != b.handle
  }

  /** A slot is `Running` exactly when it holds a handle; the live tasks are exactly those held, each by one slot. */
  ghost predicate Consistent(p: Plane) {
    && Sound(p.slots.api) && Sound(p.slots.dns) && Sound(p.slots.smtp) && Sound(p.slots.smtps)
    && Apart(p.slots.api, p.slots.dns) && Apart(p.slots.api, p.slots.smtp) && Apart(p.slots.api, p.slots.smtps)
    && Apart(p.slots.dns, p.slots.smtp) && Apart(p.slots.dns, p.slots.smtps) && Apart(p.slots.smtp, p.slots.smtps)
    && forall t: TaskId :: (t in p.live <==> Holds(p.slots, t)) && (t in p.live ==> t < p.nextTask)
  }

  /** Each operation touches one slot. */
  lemma SlotStep(p: Plane, op: Op, svc: Service)
    requires Sound(p.slots.Get(svc))
    ensures var q := Apply(p, op).0;
      && Sound(q.slots.Get(svc))
      && (svc != op.svc ==> q.slots.Get(svc) == p.slots.Get(svc))
      && (op == Stop(svc) && p.slots.Get(svc).handle.Some? ==> q.slots.Get(svc) == IDLE)
      && (op == Stop(svc) && p.slots.Get(svc).handle.None? ==> q.slots.Get(svc) == p.slots.Get(svc))
      && (op.Start? && op.svc == svc ==>
            if p.slots.Get(svc).status == Running || !op.spawns || (svc == Smtps && !p.smtps)
            then q.slots.Get(svc) == p.slots.Get(svc)
            else q.slots.Get(svc) == Slot(Running, Some(p.nextTask)))
  {
  }

  lemma StartConsistent(p: Plane, svc: Service)
    requires Consistent(p) && p.slots.Get(svc).handle.None?
    ensures Consistent(p.(slots := p.slots.Set(svc, Slot(Running, Some(p.nextTask))),
                          live := p.live + {p.nextTask}, nextTask := p.nextTask + 1))
  {
    assert p.nextTask !in p.live;
  }

  lemma StopConsistent(p: Plane, svc: Service, task: TaskId)
    requires Consistent(p) && p.slots.Get(svc).handle == Some(task)
    ensures Consistent(p.(slots := p.slots.Set(svc, IDLE), live := p.live - {task}))
  {
  }

  lemma ConsistentStep(p: Plane, op: Op)
    requires Consistent(p)
    ensures Consistent(Apply(p, op).0)
  {
    var slot := p.slots.Get(op.svc);
    if slot.handle.None? {
      StartConsistent(p, op.svc);
    } else {
      StopConsistent(p, op.svc, slot.handle.value);
    }
  }

  lemma {:induction false} ConsistentAfter(p: Plane, ops: seq<Op>)
    requires Consistent(p)
    ensures Consistent(After(p, ops))
    decreases |ops|
  {
    if ops != [] {
      ConsistentAfter(p, ops[..|ops| - 1]);
      ConsistentStep(After(p, ops[..|ops| - 1]), ops[|ops| - 1]);
    }
  }

  /** The starts with `changed` minus the stops with `changed`, for one service. */
  ghost function Balance(p: Plane, ops: seq<Op>, svc: Service): int
    decreases |ops|
  {
    if ops == [] then 0
    else
      var m := After(p, ops[..|ops| - 1]);
      var op := ops[|ops| - 1];
      Balance(p, ops[..|ops| - 1], svc) +
      (if op.svc == svc && Apply(m, op).1 == Done(Running, true) then 1
       else if op.svc == svc && Apply(m, op).1 == Done(Idle, true) then -1
       else 0)
  }

  lemma {:induction false} BalanceIsRunning(p: Plane, ops: seq<Op>, svc: Service)
    requires p.slots.Get(svc) == IDLE
    ensures Sound(After(p, ops).slots.Get(svc))
    ensures Balance(p, ops, svc) == if After(p, ops).slots.Get(svc).status == Running then 1 else 0
    decreases |ops|
  {
    if ops != [] {
      BalanceIsRunning(p, ops[..|ops| - 1], svc);
      SlotStep(After(p, ops[..|ops| - 1]), ops[|ops| - 1], svc);
    }
  }

  /** Over every interleaving from boot: no task leaks, none is held twice, and for each service the changes
      reported to callers add up to whether it is running. */
  lemma EveryInterleavingIsConsistent(p: Plane, ops: seq<Op>, svc: Service)
    requires AllIdle(p)
    ensures Consistent(After(p, ops))
    ensures Balance(p, ops, svc) == if After(p, ops).slots.Get(svc).status == Running then 1 else 0
  {
    ConsistentAfter(p, ops);
    BalanceIsRunning(p, ops, svc);
  }

  // ---------------------------------------------------------------------------
  // Modes
  // ---------------------------------------------------------------------------

  /** What `apply_mode` does with one service; `ok` are those whose spawn would succeed. */
  function ModeOp(mode: BootMode, smtps: bool, ok: set<Service>, svc: Service): Op {
    if Wanted(mode, smtps, svc) then Start(svc, svc in ok) else Stop(svc)
  }

  /** What `apply_mode` issues for the listed services. */
  function ModeScript(mode: BootMode, smtps: bool, ok: set<Service>, svcs: seq<Service>): (ops: seq<Op>)
    ensures |ops| == |svcs|
    ensures forall i :: 0 <= i < |ops| ==> ops[i] == ModeOp(mode, smtps, ok, svcs[i])
  {
    seq(|svcs|, i requires 0 <= i < |svcs| => ModeOp(mode, smtps, ok, svcs[i]))
  }

  ghost predicate SlotAfter(before: Slot, after: Slot, want: bool, spawns: bool) {
    if want then
      if before.status == Running then after == before
      else if spawns then after.status == Running
      else after == before
    else after == IDLE
  }

  lemma ScriptInit(mode: BootMode, smtps: bool, ok: set<Service>, svcs: seq<Service>)
    requires svcs != []
    ensures
      var ops := ModeScript(mode, smtps, ok, svcs);
      && ops[..|ops| - 1] == ModeScript(mode, smtps, ok, svcs[..|svcs| - 1])
      && ops[|ops| - 1] == ModeOp(mode, smtps, ok, svcs[|svcs| - 1])
  {
  }

  lemma ScriptNext(p: Plane, mode: BootMode, ok: set<Service>, svcs: seq<Service>, svc: Service)
    ensures After(p, ModeScript(mode, p.smtps, ok, svcs + [svc]))
         == Apply(After(p, ModeScript(mode, p.smtps, ok, svcs)), ModeOp(mode, p.smtps, ok, svc)).0
  {
    ScriptInit(mode, p.smtps, ok, svcs + [svc]);
    assert (svcs + [svc])[..|svcs|] == svcs;
  }

  /** Run alone from any state: services already in the wanted state are untouched, the others end as the mode and
      their own spawn say. */
  lemma {:induction false} ModeScriptOutcome(p: Plane, mode: BootMode, ok: set<Service>, svcs: seq<Service>,
                                             svc: Service)
    requires Sound(p.slots.Get(svc)) && Distinct(svcs)
    ensures var slot := After(p, ModeScript(mode, p.smtps, ok, svcs)).slots.Get(svc);
      && (svc in svcs ==> SlotAfter(p.slots.Get(svc), slot, Wanted(mode, p.smtps, svc), svc in ok))
      && (svc !in svcs ==> slot == p.slots.Get(svc))
      && Sound(slot)
    decreases |svcs|
  {
    if svcs != [] {
      var init, last := svcs[..|svcs| - 1], svcs[|svcs| - 1];
      var m := After(p, ModeScript(mode, p.smtps, ok, init));
      ScriptInit(mode, p.smtps, ok, svcs);
      ModeScriptOutcome(p, mode, ok, init, svc);
      LastMember(svcs, svc);
      SlotStep(m, ModeOp(mode, p.smtps, ok, last), svc);
    }
  }

  lemma LastMember(svcs: seq<Service>, svc: Service)
    requires svcs != [] && Distinct(svcs)
    ensures svc in svcs <==> svc in svcs[..|svcs| - 1] || svc == svcs[|svcs| - 1]
    ensures svcs[|svcs| - 1] !in svcs[..|svcs| - 1]
  {
    assert svcs == svcs[..|svcs| - 1] + [svcs[|svcs| - 1]];
  }

  /** With successful spawns the statuses after `apply_mode` are those of the mode, whatever ran before. */
  lemma ApplyModeForgetsThePast(p: Plane, mode: BootMode, ok: set<Service>, svc: Service)
    requires Consistent(p)
    requires forall s: Service :: Wanted(mode, p.smtps, s) ==> s in ok || p.slots.Get(s).status == Running
    ensures After(p, ModeScript(mode, p.smtps, ok, AllServices())).slots.Get(svc).status ==
      if Wanted(mode, p.smtps, svc) then Running else Idle
  {
    ModeScriptOutcome(p, mode, ok, AllServices(), svc);
  }

  predicate SettledFor(p: Plane, mode: BootMode, ok: set<Service>, s: Service) {
    if Wanted(mode, p.smtps, s) then p.slots.Get(s).status == Running || s !in ok else p.slots.Get(s).handle.None?
  }

  /** Nothing is left for `apply_mode` to do: what the mode wants runs or would not spawn, the rest is idle. */
  ghost predicate Settled(p: Plane, mode: BootMode, ok: set<Service>) {
    forall s: Service :: SettledFor(p, mode, ok, s)
  }

  lemma {:induction false} SettledScriptIsIdle(p: Plane, mode: BootMode, ok: set<Service>, svcs: seq<Service>)
    requires Consistent(p) && Settled(p, mode, ok)
    ensures After(p, ModeScript(mode, p.smtps, ok, svcs)) == p
    decreases |svcs|
  {
    if svcs != [] {
      var ops := ModeScript(mode, p.smtps, ok, svcs);
      ScriptInit(mode, p.smtps, ok, svcs);
      SettledScriptIsIdle(p, mode, ok, svcs[..|svcs| - 1]);
      var last := svcs[|svcs| - 1];
      assert SettledFor(p, mode, ok, last);
    }
  }

  /** Nothing that failed to spawn the first time would spawn now. */
  ghost predicate NothingLeftToSpawn(p: Plane, mode: BootMode, ok: set<Service>, again: set<Service>) {
    forall s: Service :: Wanted(mode, p.smtps, s) && p.slots.Get(s).status == Idle && s !in ok ==> s !in again
  }

  lemma SettledAfter(p: Plane, mode: BootMode, ok: set<Service>, again: set<Service>)
    requires Consistent(p) && NothingLeftToSpawn(p, mode, ok, again)
    ensures Settled(After(p, ModeScript(mode, p.smtps, ok, AllServices())), mode, again)
  {
    var q := After(p, ModeScript(mode, p.smtps, ok, AllServices()));
    forall s: Service ensures SettledFor(q, mode, again, s) {
      ModeScriptOutcome(p, mode, ok, AllServices(), s);
    }
  }

  lemma SpawnsAgain(p: Plane, mode: BootMode, ok: set<Service>, again: set<Service>, s: Service)
    requires Consistent(p) && Wanted(mode, p.smtps, s) && p.slots.Get(s).status == Idle && s !in ok && s in again
    ensures
      var q := After(p, ModeScript(mode, p.smtps, ok, AllServices()));
      After(q, ModeScript(mode, p.smtps, again, AllServices())).slots.Get(s) != q.slots.Get(s)
  {
    var q := After(p, ModeScript(mode, p.smtps, ok, AllServices()));
    ModeScriptOutcome(p, mode, ok, AllServices(), s);
    ModeScriptOutcome(q, mode, again, AllServices(), s);
  }

  /** A repeated `apply_mode` spawns and aborts nothing, except that it retries the spawns that failed. */
  lemma ApplyModeTwice(p: Plane, mode: BootMode, ok: set<Service>, again: set<Service>)
    requires Consistent(p)
    ensures
      var q := After(p, ModeScript(mode, p.smtps, ok, AllServices()));
      After(q, ModeScript(mode, p.smtps, again, AllServices())) == q <==> NothingLeftToSpawn(p, mode, ok, again)
  {
    var q := After(p, ModeScript(mode, p.smtps, ok, AllServices()));
    ConsistentAfter(p, ModeScript(mode, p.smtps, ok, AllServices()));
    if NothingLeftToSpawn(p, mode, ok, again) {
      SettledAfter(p, mode, ok, again);
      SettledScriptIsIdle(q, mode, again, AllServices());
    } else {
      var s: Service :| Wanted(mode, p.smtps, s) && p.slots.Get(s).status == Idle && s !in ok && s in again;
      SpawnsAgain(p, mode, ok, again, s);
    }
  }

  /** What `boot` issues: the mode's services in whatever order the set yields them, then SMTPS if it follows. */
  function BootScript(mode: BootMode, smtps: bool, ok: set<Service>, order: seq<Service>): seq<Op> {
    ModeScript(mode, smtps, ok, order + if smtps && Smtp in ModeServices(mode) then [Smtps] else [])
  }

  /** From all idle, `boot` in any order leaves the same statuses as `apply_mode`. */
  lemma BootAgreesWithApplyMode(p: Plane, mode: BootMode, ok: set<Service>, order: seq<Service>, svc: Service)
    requires AllIdle(p)
    requires Distinct(order) && forall s: Service :: s in order <==> s in ModeServices(mode)
    ensures After(p, BootScript(mode, p.smtps, ok, order)).slots.Get(svc).status
         == After(p, ModeScript(mode, p.smtps, ok, AllServices())).slots.Get(svc).status
  {
    var list := order + if p.smtps && Smtp in ModeServices(mode) then [Smtps] else [];
    assert Distinct(list) by {
      assert Smtps !in order;
    }
    ModeScriptOutcome(p, mode, ok, list, svc);
    ModeScriptOutcome(p, mode, ok, AllServices(), svc);
    assert Wanted(mode, p.smtps, svc) <==> svc in list;
  }

  // ---------------------------------------------------------------------------
  // The manager
  // ---------------------------------------------------------------------------

  /** How a slot ends up: a wanted one keeps its task if it runs, else runs a new one if the spawn succeeds; an unwanted
      one is idle. */
  ghost predicate Ends(before: Slot, after: Slot, want: bool, spawns: bool) {
    && (want && before.status == Running ==> after == before)
    && (want && before.status == Idle && spawns ==> after.status == Running)
    && (want && before.status == Idle && !spawns ==> after == before)
    && (!want ==> after.status == Idle && after.handle == None)
  }

  lemma FourSlots(mode: BootMode, smtps: bool, ok: set<Service>, before: Slots, after: Slots)
    requires forall svc: Service ::
      SlotAfter(before.Get(svc), after.Get(svc), Wanted(mode, smtps, svc), svc in ok)
    ensures Ends(before.api, after.api, mode in {Full, ApiOnly}, Api in ok)
    ensures Ends(before.smtp, after.smtp, mode in {Full, SmtpOnly}, Smtp in ok)
    ensures Ends(before.smtps, after.smtps, smtps && mode in {Full, SmtpOnly}, Smtps in ok)
    ensures Ends(before.dns, after.dns, mode in {Full, DnsOnly}, Dns in ok)
  {
    assert SlotAfter(before.Get(Api), after.Get(Api), Wanted(mode, smtps, Api), Api in ok);
    assert SlotAfter(before.Get(Smtp), after.Get(Smtp), Wanted(mode, smtps, Smtp), Smtp in ok);
    assert SlotAfter(before.Get(Smtps), after.Get(Smtps), Wanted(mode, smtps, Smtps), Smtps in ok);
    assert SlotAfter(before.Get(Dns), after.Get(Dns), Wanted(mode, smtps, Dns), Dns in ok);
  }

  class ServiceManager {
    var slots: Slots
    var live: set<TaskId>
    var nextTask: TaskId
    const smtps: bool

    ghost function View(): Plane
      reads this
    {
      Plane(slots, live, nextTask, smtps)
    }

    constructor (smtps: bool)
      ensures AllIdle(View()) && Consistent(View()) && this.smtps == smtps
    {
      slots := Slots(IDLE, IDLE, IDLE, IDLE);
      live, nextTask := {}, 0;
      this.smtps := smtps;
    }

    method StartService(svc: Service, spawns: bool) returns (r: Outcome)
      modifies this
      ensures (View(), r) == old(Apply(View(), Start(svc, spawns)))
      ensures
        var refused := svc == Smtps && !smtps;
        if refused || old(slots.Get(svc).status) == Running || !spawns then
          && View() == old(View())
          && r == if !refused && old(slots.Get(svc).status) == Running then Done(Running, false) else Refused
        else
          && r == Done(Running, true) && slots.Get(svc) == Slot(Running, Some(old(nextTask)))
          && (forall other: Service :: other != svc ==> slots.Get(other) == old(slots).Get(other))
          && live == old(live) + {old(nextTask)} && nextTask == old(nextTask) + 1
    {
      if svc == Smtps && !smtps {
        return Refused;
      }
      if slots.Get(svc).status == Running {
        return Done(Running, false);
      }
      if !spawns {
        return Refused;
      }
      live := live + {nextTask};
      slots := slots.Set(svc, Slot(Running, Some(nextTask)));
      nextTask := nextTask + 1;
      r := Done(Running, true);
    }

    method StopService(svc: Service) returns (r: Outcome)
      modifies this
      ensures (View(), r) == old(Apply(View(), Stop(svc)))
      ensures match old(slots.Get(svc).handle)
        case None => View() == old(View()) && r == Done(Idle, false)
        case Some(task) =>
          && r == Done(Idle, true) && slots.Get(svc) == Slot(Idle, None)
          && (forall other: Service :: other != svc ==> slots.Get(other) == old(slots).Get(other))
          && live == old(live) - {task} && nextTask == old(nextTask)
    {
      var handle := slots.Get(svc).handle;
      if handle.Some? {
        live := live - {handle.value};
        slots := slots.Set(svc, IDLE);
        return Done(Idle, true);
      }
      r := Done(Idle, false);
    }

    /** `apply_mode`, run alone; `ok` are the services whose spawn would succeed. */
    method ApplyMode(mode: BootMode, ok: set<Service>) returns (report: seq<(Service, Status)>)
      requires Consistent(View())
      modifies this
      ensures View() == After(old(View()), ModeScript(mode, smtps, ok, AllServices())) && Consistent(View())
      ensures report ==
        [(Api, slots.api.status), (Smtp, slots.smtp.status), (Smtps, slots.smtps.status), (Dns, slots.dns.status)]
      ensures Ends(old(slots.api), slots.api, mode in {Full, ApiOnly}, Api in ok)
      ensures Ends(old(slots.smtp), slots.smtp, mode in {Full, SmtpOnly}, Smtp in ok)
      ensures Ends(old(slots.smtps), slots.smtps, smtps && mode in {Full, SmtpOnly}, Smtps in ok)
      ensures Ends(old(slots.dns), slots.dns, mode in {Full, DnsOnly}, Dns in ok)
    {
      var wanted := ModeServices(mode);
      var smtpsWanted := smtps && Smtp in wanted;
      var all := AllServices();
      var i := 0;
      while i < |all|
        invariant 0 <= i <= |all|
        invariant View() == After(old(View()), ModeScript(mode, smtps, ok, all[..i]))
      {
        var svc := all[i];
        ScriptNext(old(View()), mode, ok, all[..i], svc);
        TakeNext(all, i);
        if (if svc == Smtps then smtpsWanted else svc in wanted) {
          var _ := StartService(svc, svc in ok);
        } else {
          var _ := StopService(svc);
        }
        i := i + 1;
      }
      TakeAll(all);
      ConsistentAfter(old(View()), ModeScript(mode, smtps, ok, all));
      forall svc: Service ensures SlotAfter(old(slots).Get(svc), slots.Get(svc), Wanted(mode, smtps, svc), svc in ok) {
        ModeScriptOutcome(old(View()), mode, ok, all, svc);
      }
      FourSlots(mode, smtps, ok, old(slots), slots);
      report := [];
      for j := 0 to |all|
        invariant |report| == j && forall k :: 0 <= k < j ==> report[k] == (all[k], slots.Get(all[k]).status)
      {
        report := report + [(all[j], slots.Get(all[j]).status)];
      }
    }

    /** `boot`: the mode's services in some order, then SMTPS if it is configured and follows. */
    method Boot(mode: BootMode, ok: set<Service>) returns (ghost order: seq<Service>)
      modifies this
      ensures Distinct(order) && forall s: Service :: s in order <==> s in ModeServices(mode)
      ensures View() == After(old(View()), BootScript(mode, smtps, ok, order))
    {
      order := [];
      var todo := ModeServices(mode);
      while todo != {}
        invariant todo <= ModeServices(mode) && Distinct(order)
        invariant forall s: Service :: s in order <==> s in ModeServices(mode) && s !in todo
        invariant View() == After(old(View()), ModeScript(mode, smtps, ok, order))
        decreases todo
      {
        var svc :| svc in todo;
        todo := todo - {svc};
        ScriptNext(old(View()), mode, ok, order, svc);
        order := order + [svc];
        var _ := StartService(svc, svc in ok);
      }
      if smtps && Smtp in ModeServices(mode) {
        ScriptNext(old(View()), mode, ok, order, Smtps);
        var _ := StartService(Smtps, Smtps in ok);
      } else {
        assert order + [] == order;
      }
    }

    /** `stop_all`: afterwards nothing is running and no task is alive. */
    method StopAll()
      requires Consistent(View())
      modifies this
      ensures AllIdle(View()) && Consistent(View())
    {
      var all := AllServices();
      var i := 0;
      while i < |all|
        invariant 0 <= i <= |all| && Consistent(View())
        invariant forall k :: 0 <= k < i ==> slots.Get(all[k]) == IDLE
      {
        ConsistentStep(View(), Stop(all[i]));
        var _ := StopService(all[i]);
        i := i + 1;
      }
      forall svc: Service ensures slots.Get(svc) == IDLE {
        assert svc in all;
      }
      assert slots.Get(Api) == slots.Get(Dns) == slots.Get(Smtp) == slots.Get(Smtps) == IDLE;
    }
  }
}
