/** Any number of SMTP connections at once, each with its own handler, beside the outbound producers and message
    deletion. Every database call is a step: the lookup by Message-ID and the insert are two, with no transaction and no
    unique constraint around them. */
module InboundConnections {
  import opened Prelude
  import opened InboundMail

  type ConnId = nat

  datatype Phase =
    | Waiting
    | Looking(e: Email, targets: seq<string>)
    | Inserting(e: Email, targets: seq<string>, looked: bool)      // `looked`: the lookup worked and found nothing
    | Linking(id: MessageId, targets: seq<string>, done: nat)
    | Forwarding(id: MessageId, targets: seq<string>, done: nat)

  /** `reply` is the answer to the last email of the connection. */
  datatype Conn = Conn(recipients: seq<string>, phase: Phase, reply: Option<bool>)

  datatype State = State(store: Store, conns: map<ConnId, Conn>, mailboxes: Mailboxes)

  datatype Action =
    | Open(conn: ConnId)
    | Accept(conn: ConnId, rcpt: string)
    | Data(conn: ConnId, e: Email)
    | Look(conn: ConnId, ok: bool, found: Option<MessageId>)
    | Insert(conn: ConnId, outcome: StoreOutcome)
    | AddLink(conn: ConnId, ok: bool)
    | AddForward(conn: ConnId, ok: bool)                           // `ok`: the mailbox lookup and the enqueue work
    | Reply(conn: ConnId)
    | Close(conn: ConnId)
    | Produce(header: Option<string>, raw: seq<bv8>)               // the outbound producer stores a message
    | Remove(id: MessageId)                                        // the API deletes one
    | Provision(address: string, forwardTo: Option<string>)        // the API creates or changes a mailbox
    | Unprovision(address: string)

  // ---------------------------------------------------------------------------
  // Steps
  // ---------------------------------------------------------------------------

  function Begun(e: Email, targets: seq<string>): Phase {
    if DedupKey(e.header).Some? then Looking(e, targets) else Inserting(e, targets, false)
  }

  function NextLink(id: MessageId, targets: seq<string>, done: nat): Phase {
    if done < |targets| then Linking(id, targets, done) else Forwarding(id, targets, 0)
  }

  function In(s: State, c: ConnId): Phase {
    if c in s.conns then s.conns[c].phase else Waiting
  }

  function Put(s: State, store: Store, c: ConnId, phase: Phase, reply: Option<bool>): State
    requires c in s.conns
  {
    s.(store := store, conns := s.conns[c := Conn(s.conns[c].recipients, phase, reply)])
  }

  ghost predicate Step(s: State, a: Action, s': State) {
    match a
    case Open(c) =>
      c !in s.conns && s' == s.(conns := s.conns[c := Conn([], Waiting, None)])
    case Accept(c, rcpt) =>
      && c in s.conns && s.conns[c].phase == Waiting && rcpt in s.mailboxes
      && s' == s.(conns := s.conns[c := s.conns[c].(recipients := s.conns[c].recipients + [rcpt])])
    case Data(c, e) =>
      && c in s.conns && s.conns[c].phase == Waiting
      && s' == s.(conns := s.conns[c := Conn([], Begun(e, Targets(s.conns[c].recipients)), None)])
    case Look(c, ok, found) =>
      c in s.conns && s.conns[c].phase.Looking? &&
      var ph := s.conns[c].phase;
      && (found.Some? ==> ok && Reusable(s.store, ph.e, found.value))
      && (found.None? && ok ==> !CanReuse(s.store, ph.e))
      && s' == Put(s, s.store, c,
                   if found.Some? then NextLink(found.value, ph.targets, 0) else Inserting(ph.e, ph.targets, ok), None)
    case Insert(c, outcome) =>
      c in s.conns && s.conns[c].phase.Inserting? &&
      var ph := s.conns[c].phase;
      s' == Put(s, if outcome == NotStored then s.store else WithMessage(s.store, ph.e), c,
                if outcome == Stored then NextLink(s.store.nextId, ph.targets, 0) else Waiting,
                if outcome == Stored then None else Some(false))
    case AddLink(c, ok) =>
      c in s.conns && s.conns[c].phase.Linking? && s.conns[c].phase.done < |s.conns[c].phase.targets| &&
      var ph := s.conns[c].phase;
      s' == if ok then Put(s, s.store.(links := s.store.links + [Link(ph.id, ph.targets[ph.done])]), c,
                           NextLink(ph.id, ph.targets, ph.done + 1), None)
            else Put(s, s.store, c, Waiting, Some(false))
    case AddForward(c, ok) =>
      c in s.conns && s.conns[c].phase.Forwarding? && s.conns[c].phase.done < |s.conns[c].phase.targets| &&
      var ph := s.conns[c].phase;
      var more := ForwardOf(ph.id, ph.targets[ph.done], s.mailboxes, ok);
      s' == Put(s, s.store.(forwards := s.store.forwards + more), c, Forwarding(ph.id, ph.targets, ph.done + 1), None)
    case Reply(c) =>
      && c in s.conns && s.conns[c].phase.Forwarding? && s.conns[c].phase.done == |s.conns[c].phase.targets|
      && s' == Put(s, s.store, c, Waiting, Some(true))
    case Close(c) =>
      s' == s.(conns := s.conns - {c})
    case Produce(header, raw) =>
      s' == s.(store := s.store.(messages := s.store.messages[s.store.nextId := Message(header, raw, false)],
                                 nextId := s.store.nextId + 1))
    case Remove(id) =>
      && s'.conns == s.conns && s'.mailboxes == s.mailboxes && s'.store.nextId == s.store.nextId
      && s'.store.messages == s.store.messages - {id}
      && (forall f :: f in s'.store.forwards ==> f in s.store.forwards)
    case Provision(address, forwardTo) =>
      s' == s.(mailboxes := s.mailboxes[address := forwardTo])
    case Unprovision(address) =>
      s' == s.(mailboxes := s.mailboxes - {address})
  }

  ghost predicate Init(s: State) {
    s.store.messages == map[] && s.store.forwards == [] && s.conns == map[]
  }

  ghost predicate IsRun(r: Run<State, Action>) {
    Follows(Init, Step, r)
  }

  // ---------------------------------------------------------------------------
  // Messages are born once and never rewritten
  // ---------------------------------------------------------------------------

  /** The step stores a message whose Message-ID is `h`, by a handler. */
  ghost predicate Stores(s: State, a: Action, h: string) {
    a.Insert? && a.outcome != NotStored && In(s, a.conn).Inserting? && In(s, a.conn).e.header == Some(h)
  }

  /** A message a handler stored under the Message-ID `h`. */
  ghost predicate IsCopy(s: Store, id: MessageId, h: string) {
    HasHeader(s, id, h) && s.messages[id].byHandler
  }

  lemma {:induction false} KeysBelowAlways(r: Run<State, Action>, n: nat)
    requires IsRun(r) && n < |r.states|
    ensures KeysBelow(r.states[n].store)
  {
    if n > 0 {
      KeysBelowAlways(r, n - 1);
      assert Step(r.states[n - 1], r.acts[n - 1], r.states[n]);
    }
  }

  lemma CopyStep(s: State, a: Action, s': State, id: MessageId, h: string)
    requires Step(s, a, s') && KeysBelow(s.store)
    ensures s.store.nextId <= s'.store.nextId
    ensures IsCopy(s'.store, id, h) ==> IsCopy(s.store, id, h) || (id == s.store.nextId && Stores(s, a, h))
    ensures IsCopy(s.store, id, h) && id in s'.store.messages ==> IsCopy(s'.store, id, h)
    ensures Stores(s, a, h) ==> IsCopy(s'.store, s.store.nextId, h)
  {
  }

  lemma StillStored(r: Run<State, Action>, k: nat, id: MessageId)
    requires IsRun(r) && k < |r.acts| && id in r.states[k + 1].store.messages && id < r.states[k].store.nextId
    ensures id in r.states[k].store.messages
  {
    assert Step(r.states[k], r.acts[k], r.states[k + 1]);
  }

  lemma CopyStaysOne(r: Run<State, Action>, k: nat, id: MessageId, h: string)
    requires IsRun(r) && k < |r.acts| && IsCopy(r.states[k].store, id, h) && id in r.states[k + 1].store.messages
    ensures IsCopy(r.states[k + 1].store, id, h)
  {
    KeysBelowAlways(r, k);
    assert Step(r.states[k], r.acts[k], r.states[k + 1]);
    CopyStep(r.states[k], r.acts[k], r.states[k + 1], id, h);
  }

  /** A copy that is there now and was not there then was stored in between, and has not been removed. */
  lemma {:induction false} Birth(r: Run<State, Action>, i: nat, j: nat, id: MessageId, h: string) returns (m: nat)
    requires IsRun(r) && i <= j < |r.states| && !IsCopy(r.states[i].store, id, h) && IsCopy(r.states[j].store, id, h)
    ensures i <= m < j && Stores(r.states[m], r.acts[m], h) && r.states[m].store.nextId == id
    decreases j
  {
    assert Step(r.states[j - 1], r.acts[j - 1], r.states[j]);
    KeysBelowAlways(r, j - 1);
    CopyStep(r.states[j - 1], r.acts[j - 1], r.states[j], id, h);
    if IsCopy(r.states[j - 1].store, id, h) {
      m := Birth(r, i, j - 1, id, h);
    } else {
      m := j - 1;
    }
  }

  /** A stored copy that is still there is still the same copy. */
  lemma {:induction false} CopyStays(r: Run<State, Action>, i: nat, j: nat, id: MessageId, h: string)
    requires IsRun(r) && i <= j < |r.states| && id < r.states[i].store.nextId
    requires IsCopy(r.states[i].store, id, h) && id in r.states[j].store.messages
    ensures IsCopy(r.states[j].store, id, h)
    decreases j
  {
    if i < j {
      NextIdGrows(r, i, j - 1);
      StillStored(r, j - 1, id);
      CopyStays(r, i, j - 1, id, h);
      CopyStaysOne(r, j - 1, id, h);
    }
  }

  lemma {:induction false} NextIdGrows(r: Run<State, Action>, i: nat, j: nat)
    requires IsRun(r) && i <= j < |r.states|
    ensures r.states[i].store.nextId <= r.states[j].store.nextId
    decreases j
  {
    if i < j {
      NextIdGrows(r, i, j - 1);
      assert Step(r.states[j - 1], r.acts[j - 1], r.states[j]);
    }
  }

  // ---------------------------------------------------------------------------
  // The window between lookup and insert
  // ---------------------------------------------------------------------------

  /** Step `l` is the lookup that the insert of connection `c` at state `n` rests on. */
  ghost predicate RestsOn(r: Run<State, Action>, l: nat, n: nat, c: ConnId)
    requires l < n < |r.states| && n <= |r.acts|
  {
    && r.acts[l].Look? && r.acts[l].conn == c && r.acts[l].found == None
    && In(r.states[n], c).Inserting? && In(r.states[n], c).looked == r.acts[l].ok
    && In(r.states[l], c).Looking? && In(r.states[l], c).e == In(r.states[n], c).e
    && forall k :: l < k <= n ==> In(r.states[k], c) == In(r.states[n], c)
  }

  /** A handler about to insert an email with a usable Message-ID has looked it up. */
  lemma {:induction false} LookedUp(r: Run<State, Action>, n: nat, c: ConnId) returns (l: nat)
    requires IsRun(r) && n < |r.states| && In(r.states[n], c).Inserting? && DedupKey(In(r.states[n], c).e.header).Some?
    ensures l < n && RestsOn(r, l, n, c)
  {
    assert n > 0;
    assert Step(r.states[n - 1], r.acts[n - 1], r.states[n]);
    if In(r.states[n - 1], c) == In(r.states[n], c) {
      l := LookedUp(r, n - 1, c);
    } else {
      l := n - 1;
    }
  }

  /** Another connection stored the Message-ID `h` at step `m`, after the lookup at `l` and before the insert at
      `n`, and its copy has not been removed. */
  ghost predicate RacedBy(r: Run<State, Action>, l: nat, m: nat, n: nat, c: ConnId, h: string)
    requires n < |r.states| && n <= |r.acts|
  {
    && l < m < n && Stores(r.states[m], r.acts[m], h) && r.acts[m].conn != c
    && r.states[m].store.nextId in r.states[n].store.messages
  }

  /** Between its lookup and its insert a connection stores nothing itself. */
  lemma StoredByAnother(r: Run<State, Action>, l: nat, m: nat, n: nat, c: ConnId, h: string)
    requires IsRun(r) && l < m < n < |r.states| && RestsOn(r, l, n, c) && Stores(r.states[m], r.acts[m], h)
    ensures r.acts[m].conn != c
  {
    assert Step(r.states[m], r.acts[m], r.states[m + 1]);
    assert In(r.states[m], c) == In(r.states[n], c) && In(r.states[m + 1], c) == In(r.states[n], c);
  }

  /** In every interleaving of any number of connections: an insert that rests on a working lookup meets a copy of its
      Message-ID that a handler stored, if and only if another connection stored one between that lookup and the insert
      and it is still there. */
  lemma SecondCopyIsARace(r: Run<State, Action>, n: nat, c: ConnId, h: string) returns (l: nat)
    requires IsRun(r) && n < |r.states| && In(r.states[n], c).Inserting?
    requires In(r.states[n], c).looked && In(r.states[n], c).e.header == Some(h) && Recognisable(h)
    ensures l < n && RestsOn(r, l, n, c)
    ensures (exists id: MessageId :: IsCopy(r.states[n].store, id, h)) <==> exists m: nat :: RacedBy(r, l, m, n, c, h)
  {
    l := LookedUp(r, n, c);
    if id: MessageId :| IsCopy(r.states[n].store, id, h) {
      assert Step(r.states[l], r.acts[l], r.states[l + 1]);
      assert !Reusable(r.states[l].store, In(r.states[n], c).e, id);
      var m := Birth(r, l + 1, n, id, h);
      StoredByAnother(r, l, m, n, c, h);
      assert RacedBy(r, l, m, n, c, h);
    }
    if m: nat :| RacedBy(r, l, m, n, c, h) {
      assert Step(r.states[m], r.acts[m], r.states[m + 1]);
      KeysBelowAlways(r, m);
      var id := r.states[m].store.nextId;
      CopyStep(r.states[m], r.acts[m], r.states[m + 1], id, h);
      CopyStays(r, m + 1, n, id, h);
    }
  }

  // ---------------------------------------------------------------------------
  // At most one copy
  // ---------------------------------------------------------------------------

  /** The handlers have stored at most one message per recognisable Message-ID. */
  ghost predicate OnePerMessageId(s: Store) {
    forall a: MessageId, b: MessageId, h :: Recognisable(h) && IsCopy(s, a, h) && IsCopy(s, b, h) ==> a == b
  }

  ghost predicate LookupsWork(r: Run<State, Action>, n: nat)
    requires n <= |r.acts|
  {
    forall k :: 0 <= k < n && r.acts[k].Look? ==> r.acts[k].ok
  }

  /** Step `n` stores a recognisable Message-ID that another connection stored at step `m`, after the lookup at `l`. */
  ghost predicate Overtaken(r: Run<State, Action>, l: nat, m: nat, n: nat, h: string)
    requires n < |r.acts| < |r.states|
  {
    && Recognisable(h) && Stores(r.states[n], r.acts[n], h)
    && l < n && RestsOn(r, l, n, r.acts[n].conn) && RacedBy(r, l, m, n, r.acts[n].conn, h)
  }

  ghost predicate Races(r: Run<State, Action>, n: nat)
    requires n < |r.acts| < |r.states|
  {
    exists h, l: nat, m: nat :: Overtaken(r, l, m, n, h)
  }

  lemma OneCopyStep(s: State, a: Action, s': State)
    requires Step(s, a, s') && KeysBelow(s.store) && OnePerMessageId(s.store)
    ensures OnePerMessageId(s'.store) <==>
      !exists h, id: MessageId :: Recognisable(h) && Stores(s, a, h) && IsCopy(s.store, id, h)
  {
    if h, id: MessageId :| Recognisable(h) && Stores(s, a, h) && IsCopy(s.store, id, h) {
      CopyStep(s, a, s', id, h);
      assert IsCopy(s'.store, id, h) && IsCopy(s'.store, s.store.nextId, h);
    } else {
      forall x: MessageId, y: MessageId, h | Recognisable(h) && IsCopy(s'.store, x, h) && IsCopy(s'.store, y, h)
        ensures x == y
      {
        CopyStep(s, a, s', x, h);
        CopyStep(s, a, s', y, h);
      }
    }
  }

  lemma RestsOnOne(r: Run<State, Action>, l: nat, k: nat, n: nat, c: ConnId)
    requires IsRun(r) && l < n < |r.states| && k < n && RestsOn(r, l, n, c) && RestsOn(r, k, n, c)
    ensures l == k
  {
  }

  /** Step `n` stores a recognisable Message-ID without a working lookup, and a handler has stored it before. */
  ghost predicate InsertsBlindly(s: State, a: Action) {
    exists h, id: MessageId ::
      Recognisable(h) && Stores(s, a, h) && !In(s, a.conn).looked && IsCopy(s.store, id, h)
  }

  lemma RaceMakesCopy(r: Run<State, Action>, n: nat)
    requires IsRun(r) && n < |r.acts| && Races(r, n) && In(r.states[n], r.acts[n].conn).looked
    ensures exists h, id: MessageId ::
      Recognisable(h) && Stores(r.states[n], r.acts[n], h) && IsCopy(r.states[n].store, id, h)
  {
    var h, l: nat, m: nat :| Overtaken(r, l, m, n, h);
    var k := SecondCopyIsARace(r, n, r.acts[n].conn, h);
    RestsOnOne(r, l, k, n, r.acts[n].conn);
  }

  lemma CopyMeansRace(r: Run<State, Action>, n: nat, h: string, id: MessageId)
    requires IsRun(r) && n < |r.acts| && Recognisable(h) && Stores(r.states[n], r.acts[n], h)
    requires In(r.states[n], r.acts[n].conn).looked && IsCopy(r.states[n].store, id, h)
    ensures Races(r, n)
  {
    var l := SecondCopyIsARace(r, n, r.acts[n].conn, h);
    var m: nat :| RacedBy(r, l, m, n, r.acts[n].conn, h);
    assert Overtaken(r, l, m, n, h);
  }

  /** Step `n` stores a Message-ID that another connection stored since a working lookup of this one. */
  ghost predicate RacesAfterLook(r: Run<State, Action>, n: nat)
    requires n < |r.acts| < |r.states|
  {
    Races(r, n) && In(r.states[n], r.acts[n].conn).looked
  }

  /** The condition is exact, step by step, in every interleaving: a step keeps at most one copy per Message-ID if and
      only if it is neither an insert that another connection has overtaken since its lookup, nor an insert after a
      failed lookup of a Message-ID that a handler has already stored. */
  lemma DuplicateIsExact(r: Run<State, Action>, n: nat)
    requires IsRun(r) && n < |r.acts| && OnePerMessageId(r.states[n].store)
    ensures OnePerMessageId(r.states[n + 1].store) <==> !RacesAfterLook(r, n) && !InsertsBlindly(r.states[n], r.acts[n])
  {
    var s, a := r.states[n], r.acts[n];
    assert Step(s, a, r.states[n + 1]);
    KeysBelowAlways(r, n);
    OneCopyStep(s, a, r.states[n + 1]);
    if h, id: MessageId :| Recognisable(h) && Stores(s, a, h) && IsCopy(s.store, id, h) {
      if In(s, a.conn).looked {
        CopyMeansRace(r, n, h, id);
      }
    }
    if RacesAfterLook(r, n) {
      RaceMakesCopy(r, n);
    }
  }

  /** With working lookups only the race is left. */
  lemma RaceIsExact(r: Run<State, Action>, n: nat)
    requires IsRun(r) && n < |r.acts| && LookupsWork(r, n) && OnePerMessageId(r.states[n].store)
    ensures OnePerMessageId(r.states[n + 1].store) <==> !Races(r, n)
  {
    DuplicateIsExact(r, n);
    var s, a := r.states[n], r.acts[n];
    if h :| Recognisable(h) && Stores(s, a, h) {
      var _ := LookedUp(r, n, a.conn);
    }
  }

  lemma {:induction false} OneCopyWithoutRaces(r: Run<State, Action>, n: nat)
    requires IsRun(r) && n <= |r.acts| && LookupsWork(r, n) && forall k :: 0 <= k < n ==> !Races(r, k)
    ensures OnePerMessageId(r.states[n].store)
  {
    if n > 0 {
      OneCopyWithoutRaces(r, n - 1);
      RaceIsExact(r, n - 1);
    }
  }

  /** Emails are handled one after the other: at no time are two connections in the middle of one. */
  ghost predicate Sequential(r: Run<State, Action>) {
    forall n, c: ConnId, d: ConnId ::
      0 <= n < |r.states| && In(r.states[n], c) != Waiting && In(r.states[n], d) != Waiting ==> c == d
  }

  /** So over every sequence of handled messages, productions and deletions in which the lookups work, at any time the
      handlers have stored at most one message per recognisable Message-ID. */
  lemma HandlerStoresOnePerMessageId(r: Run<State, Action>, n: nat)
    requires IsRun(r) && n <= |r.acts| && LookupsWork(r, n) && Sequential(r)
    ensures OnePerMessageId(r.states[n].store)
  {
    forall k | 0 <= k < n ensures !Races(r, k) {
      if h, l: nat, m: nat :| Overtaken(r, l, m, k, h) {
        assert In(r.states[m], r.acts[k].conn) == In(r.states[k], r.acts[k].conn);
        assert In(r.states[m], r.acts[m].conn) != Waiting;
      }
    }
    OneCopyWithoutRaces(r, n);
  }

  // ---------------------------------------------------------------------------
  // Two connections, two copies
  // ---------------------------------------------------------------------------

  const EMPTY := Store(map[], 0, [], [])

  function Two(store: Store, p: Phase, q: Phase): State {
    State(store, map[0 := Conn([], p, None), 1 := Conn([], q, None)], map[])
  }

  /** Two connections are open. */
  lemma BothOpen() returns (r: Run<State, Action>)
    ensures IsRun(r) && LookupsWork(r, |r.acts|) && NoInsert(r)
    ensures r.states[|r.acts|] == Two(EMPTY, Waiting, Waiting)
  {
    var s0, s1 := State(EMPTY, map[], map[]), Solo(EMPTY, Waiting);
    assert map[][0 := Conn([], Waiting, None)] == s1.conns;
    r := Extend(Init, Step, Run([s0], []), Open(0), s1);
    assert s1.conns[1 := Conn([], Waiting, None)] == Two(EMPTY, Waiting, Waiting).conns;
    r := Extend(Init, Step, r, Open(1), Two(EMPTY, Waiting, Waiting));
  }

  ghost predicate NoInsert(r: Run<State, Action>) {
    forall k :: 0 <= k < |r.acts| ==> !r.acts[k].Insert?
  }

  /** Both receive an email with the Message-ID. */
  lemma BothReceive(h: string, e: Email, f: Email) returns (r: Run<State, Action>)
    requires Recognisable(h) && e.header == f.header == Some(h)
    ensures IsRun(r) && LookupsWork(r, |r.acts|) && NoInsert(r)
    ensures r.states[|r.acts|] == Two(EMPTY, Looking(e, [UNKNOWN]), Looking(f, [UNKNOWN]))
  {
    var p, q := Looking(e, [UNKNOWN]), Looking(f, [UNKNOWN]);
    r := BothOpen();
    TwoStep(EMPTY, EMPTY, Waiting, p, Waiting, q);
    r := Extend(Init, Step, r, Data(0, e), Two(EMPTY, p, Waiting));
    r := Extend(Init, Step, r, Data(1, f), Two(EMPTY, p, q));
  }

  /** Both look it up before either stores it. */
  lemma BothLook(h: string, e: Email, f: Email) returns (r: Run<State, Action>)
    requires Recognisable(h) && e.header == f.header == Some(h)
    ensures IsRun(r) && LookupsWork(r, |r.acts|) && NoInsert(r)
    ensures r.states[|r.acts|] == Two(EMPTY, Inserting(e, [UNKNOWN], true), Inserting(f, [UNKNOWN], true))
  {
    var p, q := Inserting(e, [UNKNOWN], true), Inserting(f, [UNKNOWN], true);
    r := BothReceive(h, e, f);
    TwoStep(EMPTY, EMPTY, Looking(e, [UNKNOWN]), p, Looking(f, [UNKNOWN]), q);
    r := Extend(Init, Step, r, Look(0, true, None), Two(EMPTY, p, Looking(f, [UNKNOWN])));
    r := Extend(Init, Step, r, Look(1, true, None), Two(EMPTY, p, q));
  }

  lemma TwoStep(store: Store, store': Store, p: Phase, p': Phase, q: Phase, q': Phase)
    ensures Two(store, p, q).conns[0 := Conn([], p', None)] == Two(store', p', q).conns
    ensures Two(store, p', q).conns[1 := Conn([], q', None)] == Two(store', p', q').conns
  {
  }

  /** One connection is about to store an email. */
  lemma AboutToStore(h: string, e: Email) returns (r: Run<State, Action>)
    requires Recognisable(h) && e.header == Some(h)
    ensures IsRun(r) && OneConnection(r) && r.states[|r.acts|] == Solo(EMPTY, Inserting(e, [UNKNOWN], true))
  {
    r := Extend(Init, Step, Run([State(EMPTY, map[], map[])], []), Open(0), Solo(EMPTY, Waiting));
    r := Extend(Init, Step, r, Data(0, e), Solo(EMPTY, Looking(e, [UNKNOWN])));
    r := Extend(Init, Step, r, Look(0, true, None), Solo(EMPTY, Inserting(e, [UNKNOWN], true)));
  }

  /** It stores the email, is closed, and opens again. */
  lemma StoredOnce(h: string, e: Email) returns (r: Run<State, Action>)
    requires Recognisable(h) && e.header == Some(h)
    ensures IsRun(r) && OneConnection(r) && r.states[|r.acts|] == Solo(WithMessage(EMPTY, e), Waiting)
  {
    var one := WithMessage(EMPTY, e);
    r := AboutToStore(h, e);
    r := Extend(Init, Step, r, Insert(0, Stored), Solo(one, Linking(0, [UNKNOWN], 0)));
    r := Extend(Init, Step, r, Close(0), State(one, map[], map[]));
    r := Extend(Init, Step, r, Open(0), Solo(one, Waiting));
  }

  ghost predicate OneConnection(r: Run<State, Action>) {
    forall k :: 0 <= k < |r.states| ==> r.states[k].conns.Keys <= {0}
  }

  function Solo(store: Store, phase: Phase): State {
    State(store, map[0 := Conn([], phase, None)], map[])
  }

  /** A single connection stores two messages under one Message-ID when one lookup fails: for every recognisable
      Message-ID and any two payloads. */
  lemma FailedLookupStoresTwice(h: string, e: Email, f: Email) returns (r: Run<State, Action>)
    requires Recognisable(h) && e.header == f.header == Some(h)
    ensures IsRun(r) && OneConnection(r)
    ensures
      var store := r.states[|r.acts|].store;
      IsCopy(store, 0, h) && IsCopy(store, 1, h) && !OnePerMessageId(store)
  {
    var targets := [UNKNOWN];
    var one, two := WithMessage(EMPTY, e), WithMessage(WithMessage(EMPTY, e), f);
    r := StoredOnce(h, e);
    r := Extend(Init, Step, r, Data(0, f), Solo(one, Looking(f, targets)));
    r := Extend(Init, Step, r, Look(0, false, None), Solo(one, Inserting(f, targets, false)));
    r := Extend(Init, Step, r, Insert(0, Stored), Solo(two, Linking(1, targets, 0)));
    assert IsCopy(two, 0, h) && IsCopy(two, 1, h);
  }

  /** A run of two connections, without any database error, that stores two messages under one Message-ID: for every
      recognisable Message-ID and any two payloads. */
  lemma TwoConnectionsStoreTwice(h: string, e: Email, f: Email) returns (r: Run<State, Action>)
    requires Recognisable(h) && e.header == f.header == Some(h)
    ensures IsRun(r) && LookupsWork(r, |r.acts|)
    ensures forall k :: 0 <= k < |r.acts| && r.acts[k].Insert? ==> r.acts[k].outcome == Stored
    ensures
      var store := r.states[|r.acts|].store;
      IsCopy(store, 0, h) && IsCopy(store, 1, h) && !OnePerMessageId(store)
  {
    var targets := [UNKNOWN];
    var one, two := WithMessage(EMPTY, e), WithMessage(WithMessage(EMPTY, e), f);
    var p, q := Inserting(e, targets, true), Inserting(f, targets, true);
    r := BothLook(h, e, f);
    TwoStep(EMPTY, one, p, Linking(0, targets, 0), q, q);
    TwoStep(one, two, p, Linking(0, targets, 0), q, Linking(1, targets, 0));
    r := Extend(Init, Step, r, Insert(0, Stored), Two(one, Linking(0, targets, 0), q));
    r := Extend(Init, Step, r, Insert(1, Stored), Two(two, Linking(0, targets, 0), Linking(1, targets, 0)));
    assert IsCopy(two, 0, h) && IsCopy(two, 1, h);
  }

  // ---------------------------------------------------------------------------
  // Links
  // ---------------------------------------------------------------------------

  /** The step is a link that connection `c` stores. */
  ghost predicate Links(s: State, a: Action, c: ConnId) {
    a == AddLink(c, true) && In(s, c).Linking? && In(s, c).done < |In(s, c).targets|
  }

  /** The links that connection `c` stored in the steps from `d` up to `n`, in order. */
  ghost function LinksBy(r: Run<State, Action>, c: ConnId, d: nat, n: nat): seq<Link>
    requires d <= n <= |r.acts| < |r.states|
    decreases n
  {
    if n == d then []
    else
      var s := r.states[n - 1];
      LinksBy(r, c, d, n - 1) +
      (if Links(s, r.acts[n - 1], c) then [Link(In(s, c).id, In(s, c).targets[In(s, c).done])] else [])
  }

  /** Such a step appends its link to the table, and no other step of a handler writes there. */
  lemma LinkStep(s: State, a: Action, s': State, c: ConnId)
    requires Step(s, a, s')
    ensures Links(s, a, c) ==>
      s'.store.links == s.store.links + [Link(In(s, c).id, In(s, c).targets[In(s, c).done])]
    ensures !a.AddLink? && !a.Remove? ==> s'.store.links == s.store.links
  {
  }

  /** How many links of its email the connection has stored, and on which message. */
  ghost predicate HasLinked(phase: Phase, targets: seq<string>, links: seq<Link>) {
    match phase
    case Waiting => false
    case Looking(_, t) => t == targets && links == []
    case Inserting(_, t, _) => t == targets && links == []
    case Linking(id, t, done) => t == targets && done < |t| && links == LinksTo(id, targets[..done])
    case Forwarding(id, t, _) => t == targets && links == LinksTo(id, targets)
  }

  /** Connection `c` began its present email at step `d`. */
  ghost predicate BeganAt(r: Run<State, Action>, d: nat, n: nat, c: ConnId)
    requires n <= |r.acts| < |r.states|
  {
    && d < n && r.acts[d].Data? && r.acts[d].conn == c && c in r.states[d].conns
    && forall k :: d < k <= n ==> In(r.states[k], c) != Waiting
  }

  lemma HasLinkedStep(s: State, a: Action, s': State, c: ConnId, targets: seq<string>, links: seq<Link>)
    requires Step(s, a, s') && targets != [] && HasLinked(In(s, c), targets, links) && In(s', c) != Waiting
    ensures HasLinked(In(s', c), targets,
      links + if Links(s, a, c) then [Link(In(s, c).id, In(s, c).targets[In(s, c).done])] else [])
  {
    assert links + [] == links;
    if Links(s, a, c) {
      var ph := In(s, c);
      var before, after := targets[..ph.done], targets[..ph.done + 1];
      assert LinksTo(ph.id, after) == LinksTo(ph.id, before) + [Link(ph.id, targets[ph.done])];
      TakeAll(targets);
    }
  }

  lemma BeginStep(s: State, a: Action, s': State, c: ConnId)
    requires Step(s, a, s') && In(s, c) == Waiting && In(s', c) != Waiting
    ensures a.Data? && a.conn == c && c in s.conns
    ensures HasLinked(In(s', c), Targets(s.conns[c].recipients), [])
  {
  }

  lemma BeginsNow(r: Run<State, Action>, d: nat, c: ConnId)
    requires IsRun(r) && d < |r.acts| && In(r.states[d], c) == Waiting && In(r.states[d + 1], c) != Waiting
    ensures BeganAt(r, d, d + 1, c)
    ensures HasLinked(In(r.states[d + 1], c), Targets(r.states[d].conns[c].recipients), [])
  {
    assert Step(r.states[d], r.acts[d], r.states[d + 1]);
    BeginStep(r.states[d], r.acts[d], r.states[d + 1], c);
  }

  lemma LinksNext(r: Run<State, Action>, d: nat, n: nat, c: ConnId)
    requires IsRun(r) && 0 < n <= |r.acts| && BeganAt(r, d, n - 1, c) && In(r.states[n], c) != Waiting
    requires HasLinked(In(r.states[n - 1], c), Targets(r.states[d].conns[c].recipients), LinksBy(r, c, d + 1, n - 1))
    ensures BeganAt(r, d, n, c)
    ensures HasLinked(In(r.states[n], c), Targets(r.states[d].conns[c].recipients), LinksBy(r, c, d + 1, n))
  {
    var s, a := r.states[n - 1], r.acts[n - 1];
    assert Step(s, a, r.states[n]);
    HasLinkedStep(s, a, r.states[n], c, Targets(r.states[d].conns[c].recipients), LinksBy(r, c, d + 1, n - 1));
  }

  lemma {:induction false} LinksSoFar(r: Run<State, Action>, n: nat, c: ConnId) returns (d: nat)
    requires IsRun(r) && n <= |r.acts| && In(r.states[n], c) != Waiting
    ensures BeganAt(r, d, n, c)
    ensures HasLinked(In(r.states[n], c), Targets(r.states[d].conns[c].recipients), LinksBy(r, c, d + 1, n))
  {
    assert n > 0;
    if In(r.states[n - 1], c) == Waiting {
      d := n - 1;
      BeginsNow(r, d, c);
    } else {
      d := LinksSoFar(r, n - 1, c);
      LinksNext(r, d, n, c);
    }
  }

  /** In every interleaving of any number of connections: when an email is accepted, its connection has stored, since it
      began that email, one link for each recipient it had accumulated, in order, all on one message, and no other. */
  lemma AcceptedEmailIsLinked(r: Run<State, Action>, n: nat, c: ConnId) returns (d: nat, id: MessageId)
    requires IsRun(r) && n < |r.acts| && r.acts[n] == Reply(c)
    ensures BeganAt(r, d, n, c)
    ensures LinksBy(r, c, d + 1, n) == LinksTo(id, Targets(r.states[d].conns[c].recipients))
  {
    assert Step(r.states[n], r.acts[n], r.states[n + 1]);
    d := LinksSoFar(r, n, c);
    id := In(r.states[n], c).id;
  }

  // ---------------------------------------------------------------------------
  // Recipients
  // ---------------------------------------------------------------------------

  /** In every interleaving, every recipient a connection has accumulated was a provisioned mailbox when it was
      accepted, by that connection. */
  lemma {:induction false} RecipientsWereMailboxes(r: Run<State, Action>, n: nat, c: ConnId, rcpt: string)
    returns (m: nat)
    requires IsRun(r) && n < |r.states| && c in r.states[n].conns && rcpt in r.states[n].conns[c].recipients
    ensures m < n && r.acts[m] == Accept(c, rcpt) && rcpt in r.states[m].mailboxes
  {
    assert n > 0;
    assert Step(r.states[n - 1], r.acts[n - 1], r.states[n]);
    if c in r.states[n - 1].conns && rcpt in r.states[n - 1].conns[c].recipients {
      m := RecipientsWereMailboxes(r, n - 1, c, rcpt);
    } else {
      m := n - 1;
    }
  }

  // ---------------------------------------------------------------------------
  // Forwards
  // ---------------------------------------------------------------------------

  /** The mailbox `f.senderId` forwards to `f.rcptTo` at this point. */
  ghost predicate ForwardsTo(s: State, f: Forward) {
    f.senderId in s.mailboxes && s.mailboxes[f.senderId] == Some(f.rcptTo)
  }

  /** A step stores at most one forward: of the message its connection has linked, from the recipient it has reached, to
      the address that recipient's mailbox forwards to at that point. It stores it whenever there is such an address and
      the database works. */
  lemma ForwardStep(s: State, a: Action, s': State)
    requires Step(s, a, s')
    ensures a.AddForward? ==> In(s, a.conn).Forwarding? && In(s, a.conn).done < |In(s, a.conn).targets|
    ensures a.AddForward? ==>
      var ph := In(s, a.conn);
      var rcpt := ph.targets[ph.done];
      if a.ok && rcpt in s.mailboxes && s.mailboxes[rcpt].Some? then
        s'.store.forwards == s.store.forwards + [Forward(ph.id, rcpt, s.mailboxes[rcpt].value)]
      else s'.store.forwards == s.store.forwards
    ensures !a.AddForward? && !a.Remove? ==> s'.store.forwards == s.store.forwards
  {
    if a.AddForward? {
      assert s.store.forwards + [] == s.store.forwards;
    }
  }

  /** In every interleaving, with mailboxes created, changed and deleted at any point: every forward in the table
      was stored by a connection for a recipient of the email it had accepted links for, at a point where the
      mailbox of that recipient forwarded to exactly that address. */
  lemma {:induction false} ForwardsGoWhereTheMailboxSays(r: Run<State, Action>, n: nat, f: Forward) returns (m: nat)
    requires IsRun(r) && n < |r.states| && f in r.states[n].store.forwards
    ensures m < n && r.acts[m].AddForward? && In(r.states[m], r.acts[m].conn).Forwarding?
    ensures
      var ph := In(r.states[m], r.acts[m].conn);
      f.messageId == ph.id && f.senderId in ph.targets && ForwardsTo(r.states[m], f)
  {
    assert n > 0;
    assert Step(r.states[n - 1], r.acts[n - 1], r.states[n]);
    ForwardStep(r.states[n - 1], r.acts[n - 1], r.states[n]);
    if f in r.states[n - 1].store.forwards {
      m := ForwardsGoWhereTheMailboxSays(r, n - 1, f);
    } else {
      m := n - 1;
    }
  }

  // ---------------------------------------------------------------------------
  // One email handled alone
  // ---------------------------------------------------------------------------

  /** Connection `c` has taken its recipients and stands in `phase`; the others wait as they were. */
  function Now(s: State, store: Store, c: ConnId, phase: Phase, reply: Option<bool>): State {
    s.(store := store, conns := s.conns[c := Conn([], phase, reply)])
  }

  lemma {:induction false} LinkRun(s: State, store: Store, c: ConnId, id: MessageId, targets: seq<string>, k: nat)
    requires k <= |targets| && Leads(Step, s, Now(s, store, c, NextLink(id, targets, 0), None))
    ensures var linked := store.(links := store.links + LinksTo(id, targets[..k]));
      Leads(Step, s, Now(s, linked, c, NextLink(id, targets, k), None))
    decreases k
  {
    if k == 0 {
      assert store.links + LinksTo(id, targets[..0]) == store.links;
    } else {
      LinkRun(s, store, c, id, targets, k - 1);
      var before, after := store.links + LinksTo(id, targets[..k - 1]), store.links + LinksTo(id, targets[..k]);
      assert after == before + [Link(id, targets[k - 1])];
      Then(Step, s, Now(s, store.(links := before), c, NextLink(id, targets, k - 1), None), AddLink(c, true),
           Now(s, store.(links := after), c, NextLink(id, targets, k), None));
    }
  }

  lemma ForwardsOne(s: State, store: Store, c: ConnId, id: MessageId, targets: seq<string>, k: nat, ok: bool)
    requires k < |targets|
    ensures var more := ForwardOf(id, targets[k], s.mailboxes, ok);
      Step(Now(s, store, c, Forwarding(id, targets, k), None), AddForward(c, ok),
           Now(s, store.(forwards := store.forwards + more), c, Forwarding(id, targets, k + 1), None))
  {
  }

  lemma LinkFails(s: State, store: Store, c: ConnId, id: MessageId, targets: seq<string>, k: nat)
    requires k < |targets|
    ensures Step(Now(s, store, c, Linking(id, targets, k), None), AddLink(c, false),
                 Now(s, store, c, Waiting, Some(false)))
  {
  }

  lemma Replies(s: State, store: Store, c: ConnId, id: MessageId, targets: seq<string>)
    ensures Step(Now(s, store, c, Forwarding(id, targets, |targets|), None), Reply(c),
                 Now(s, store, c, Waiting, Some(true)))
  {
  }

  lemma {:induction false} ForwardRun(s: State, store: Store, c: ConnId, id: MessageId, targets: seq<string>,
                                      ok: set<nat>, k: nat)
    requires k <= |targets| && Leads(Step, s, Now(s, store, c, Forwarding(id, targets, 0), None))
    ensures Leads(Step, s, Now(s, store.(forwards := store.forwards + ForwardsOf(id, targets[..k], s.mailboxes, ok)), c,
                         Forwarding(id, targets, k), None))
    decreases k
  {
    if k == 0 {
      assert store.forwards + [] == store.forwards;
    } else {
      ForwardRun(s, store, c, id, targets, ok, k - 1);
      var last, rcpt := targets[..k - 1], targets[k - 1];
      assert targets[..k][..k - 1] == last;
      var before := store.forwards + ForwardsOf(id, last, s.mailboxes, ok);
      var more := ForwardOf(id, rcpt, s.mailboxes, k - 1 in ok);
      assert store.forwards + ForwardsOf(id, targets[..k], s.mailboxes, ok) == before + more;
      ForwardsOne(s, store.(forwards := before), c, id, targets, k - 1, k - 1 in ok);
      Then(Step, s, Now(s, store.(forwards := before), c, Forwarding(id, targets, k - 1), None),
           AddForward(c, k - 1 in ok), Now(s, store.(forwards := before + more), c, Forwarding(id, targets, k), None));
    }
  }

  lemma LinkedRun(s: State, store: Store, c: ConnId, id: MessageId, targets: seq<string>,
                  o: Answers)
    requires Leads(Step, s, Now(s, store, c, NextLink(id, targets, 0), None))
    ensures var (store', ok) := LinkedUp(store, id, targets, s.mailboxes, o);
      Leads(Step, s, Now(s, store', c, Waiting, Some(ok)))
  {
    var k := Min(o.linksOk, |targets|);
    var linked := store.(links := store.links + LinksTo(id, targets[..k]));
    LinkRun(s, store, c, id, targets, k);
    if k < |targets| {
      assert linked.forwards + [] == linked.forwards;
      LinkFails(s, linked, c, id, targets, k);
      Then(Step, s, Now(s, linked, c, Linking(id, targets, k), None), AddLink(c, false),
           Now(s, linked, c, Waiting, Some(false)));
    } else {
      ForwardRun(s, linked, c, id, targets, o.forwardOk, |targets|);
      TakeAll(targets);
      var done := linked.(forwards := linked.forwards + ForwardsOf(id, targets, s.mailboxes, o.forwardOk));
      Replies(s, done, c, id, targets);
      Then(Step, s, Now(s, done, c, Forwarding(id, targets, |targets|), None), Reply(c),
           Now(s, done, c, Waiting, Some(true)));
    }
  }

  lemma FoundRun(s: State, c: ConnId, e: Email, id: MessageId)
    requires c in s.conns && s.conns[c].phase == Waiting && Reusable(s.store, e, id)
    ensures Leads(Step, s, Now(s, s.store, c, NextLink(id, Targets(s.conns[c].recipients), 0), None))
  {
    var targets := Targets(s.conns[c].recipients);
    Here(Step, s);
    Then(Step, s, s, Data(c, e), Now(s, s.store, c, Looking(e, targets), None));
    Then(Step, s, Now(s, s.store, c, Looking(e, targets), None), Look(c, true, Some(id)),
         Now(s, s.store, c, NextLink(id, targets, 0), None));
  }

  /** Up to the insert, when no copy is found. */
  lemma NotFoundRun(s: State, c: ConnId, e: Email, lookupOk: bool)
    requires c in s.conns && s.conns[c].phase == Waiting && (lookupOk ==> !CanReuse(s.store, e))
    ensures var looked := lookupOk && DedupKey(e.header).Some?;
      Leads(Step, s, Now(s, s.store, c, Inserting(e, Targets(s.conns[c].recipients), looked), None))
  {
    var targets := Targets(s.conns[c].recipients);
    Here(Step, s);
    Then(Step, s, s, Data(c, e), Now(s, s.store, c, Begun(e, targets), None));
    if DedupKey(e.header).Some? {
      Then(Step, s, Now(s, s.store, c, Looking(e, targets), None), Look(c, lookupOk, None),
           Now(s, s.store, c, Inserting(e, targets, lookupOk), None));
    }
  }

  /** An email handled alone is a run of the machine, from any state and beside any connections that wait. */
  lemma HandlingIsARun(s: State, c: ConnId, e: Email, o: Answers, store': Store, ok: bool)
    requires c in s.conns && s.conns[c].phase == Waiting
    requires Handled(s.store, s.conns[c].recipients, s.mailboxes, e, o, store', ok)
    ensures Leads(Step, s, Now(s, store', c, Waiting, Some(ok)))
  {
    var targets := Targets(s.conns[c].recipients);
    if o.lookupOk && CanReuse(s.store, e) {
      var id: MessageId :| Reusable(s.store, e, id) && (store', ok) == LinkedUp(s.store, id, targets, s.mailboxes, o);
      FoundRun(s, c, e, id);
      LinkedRun(s, s.store, c, id, targets, o);
    } else {
      NotFoundRun(s, c, e, o.lookupOk);
      var m := Now(s, s.store, c, Inserting(e, targets, o.lookupOk && DedupKey(e.header).Some?), None);
      if o.store == Stored {
        Then(Step, s, m, Insert(c, Stored),
             Now(s, WithMessage(s.store, e), c, NextLink(s.store.nextId, targets, 0), None));
        LinkedRun(s, WithMessage(s.store, e), c, s.store.nextId, targets, o);
      } else {
        Then(Step, s, m, Insert(c, o.store), Now(s, store', c, Waiting, Some(false)));
      }
    }
  }
}
