/** Record creation of src/api.rs under races: any number of `create_record` calls, patches and deletes over one
    table whose (domain, type, value) triple is unique. */
module Records {
  import opened Prelude
  import opened Text

  type RowId = nat
  type CallId = nat

  datatype Triple = Triple(domain: string, recordType: nat, value: string)

  datatype Record = Record(key: Triple, ttl: nat)

  /** 200 with the row, 409, 500 or 400. */
  datatype Response = Ok(id: RowId, row: Record) | Conflict | ServerError | BadRequest

  /** The body of a create request. */
  datatype NewRecord = NewRecord(domain: string, recordType: string, value: string, ttl: nat)

  /** The normalized request, or `None` if it is a 400: an unreadable body, an unknown type, an empty value or a
      domain that is not provisioned. `fold` is `to_lowercase`, `typeOf` reads a type name, `domains` are those a
      lookup finds. */
  function Normalized(body: Option<NewRecord>, fold: string -> string, typeOf: string -> Option<nat>,
                      domains: set<string>)
    : (want: Option<Record>)
    ensures want.None? <==>
      || body.None? || typeOf(Trim(body.value.recordType)).None?
      || Trim(Trim(body.value.value)) == "" || fold(Trim(body.value.domain)) !in domains
    ensures want.Some? ==>
      && want.value.key.domain == fold(Trim(body.value.domain)) && want.value.key.value == Trim(body.value.value)
      && Some(want.value.key.recordType) == typeOf(Trim(body.value.recordType)) && want.value.ttl == body.value.ttl
  {
    if body.None? then None
    else
      var domain, value := fold(Trim(body.value.domain)), Trim(body.value.value);
      var recordType := typeOf(Trim(body.value.recordType));
      if recordType.None? || Trim(value) == "" || domain !in domains then None
      else Some(Record(Triple(domain, recordType.value, value), body.value.ttl))
  }

  datatype Phase =
    | Checking                  // pre-check scan not done
    | Inserting                 // nothing found: about to insert
    | Rescanning                // the insert failed: about to look again
    | Finished(response: Response)

  /** `call.want` is the normalized, validated request. */
  datatype Call = Call(want: Record, phase: Phase)

  datatype State = State(table: map<RowId, Record>, nextId: RowId, calls: map<CallId, Call>)

  datatype Action =
    | Begin(call: CallId, want: Record)
    | Check(call: CallId, ok: bool)
    | Insert(call: CallId, ok: bool)
    | Rescan(call: CallId, ok: bool)
    | Patch(id: RowId, row: Record)
    | Delete(id: RowId)

  ghost predicate Has(table: map<RowId, Record>, key: Triple) {
    exists id :: id in table && table[id].key == key
  }

  /** The unique constraint. */
  ghost predicate Unique(table: map<RowId, Record>) {
    forall a, b :: a in table && b in table && table[a].key == table[b].key ==> a == b
  }

  /** `record_resolve` over the scanned rows: the first match decides. */
  ghost predicate Resolves(table: map<RowId, Record>, want: Record, response: Response) {
    exists id :: id in table && table[id].key == want.key
      && response == if table[id].ttl == want.ttl then Ok(id, table[id]) else Conflict
  }

  ghost predicate Moved(s: State, c: CallId, phase: Phase, s': State) {
    c in s.calls && s' == s.(calls := s.calls[c := s.calls[c].(phase := phase)])
  }

  ghost predicate At(s: State, c: CallId, phase: Phase) {
    c in s.calls && s.calls[c].phase == phase
  }

  ghost predicate Answers(s: State, c: CallId, s': State) {
    c in s'.calls && s'.calls[c].phase.Finished? && Resolves(s.table, s'.calls[c].want, s'.calls[c].phase.response)
    && Moved(s, c, s'.calls[c].phase, s')
  }

  ghost predicate Step(s: State, a: Action, s': State) {
    match a
    case Begin(c, want) =>
      c !in s.calls && s' == s.(calls := s.calls[c := Call(want, Checking)])
    case Check(c, ok) =>
      At(s, c, Checking) &&
      if !ok then Moved(s, c, Finished(ServerError), s')
      else if Has(s.table, s.calls[c].want.key) then Answers(s, c, s')
      else Moved(s, c, Inserting, s')
    case Insert(c, ok) =>
      At(s, c, Inserting) &&
      var want := s.calls[c].want;
      if Has(s.table, want.key) then Moved(s, c, Rescanning, s')
      else if ok then
        s' == State(s.table[s.nextId := want], s.nextId + 1,
                    s.calls[c := Call(want, Finished(Ok(s.nextId, want)))])
      else   // a fault: the row may be stored although the call reports an error
        || Moved(s, c, Rescanning, s')
        || s' == State(s.table[s.nextId := want], s.nextId + 1, s.calls[c := Call(want, Rescanning)])
    case Rescan(c, ok) =>
      At(s, c, Rescanning) &&
      if !ok then Moved(s, c, Finished(ServerError), s')
      else if Has(s.table, s.calls[c].want.key) then Answers(s, c, s')
      else Moved(s, c, Finished(ServerError), s')
    case Patch(id, row) =>
      && id in s.table && (forall k :: k in s.table && k != id ==> s.table[k].key != row.key)
      && s' == s.(table := s.table[id := row])
    case Delete(id) =>
      s' == s.(table := s.table - {id})
  }

  ghost predicate Init(s: State) {
    s.table == map[] && s.calls == map[]
  }

  ghost predicate IsRun(r: Run<State, Action>) {
    Follows(Init, Step, r)
  }

  // ---------------------------------------------------------------------------
  // Every 200 is honest
  // ---------------------------------------------------------------------------

  /** The step ends call `c` with a 200 that carries row `id`. */
  ghost predicate Confirms(s: State, s': State, c: CallId, id: RowId, row: Record) {
    (c in s.calls ==> !s.calls[c].phase.Finished?) && At(s', c, Finished(Ok(id, row)))
  }

  ghost predicate TableOk(s: State) {
    Unique(s.table) && forall id :: id in s.table ==> id < s.nextId
  }

  lemma TableStep(s: State, a: Action, s': State)
    requires TableOk(s) && Step(s, a, s')
    ensures TableOk(s')
  {
  }

  lemma {:induction false} TableAlways(r: Run<State, Action>, n: nat)
    requires IsRun(r) && n < |r.states|
    ensures TableOk(r.states[n])
  {
    if n > 0 {
      TableAlways(r, n - 1);
      assert Step(r.states[n - 1], r.acts[n - 1], r.states[n]);
      TableStep(r.states[n - 1], r.acts[n - 1], r.states[n]);
    }
  }

  /** In every interleaving of creates, patches, deletes and database faults: a 200 carries a row that is in the table
      when the call ends and equals the request in domain, type, value and ttl, and it is the only row of its triple. */
  lemma ConfirmedRowsMatch(r: Run<State, Action>, n: nat, c: CallId, id: RowId, row: Record)
    requires IsRun(r) && n < |r.acts| && Confirms(r.states[n], r.states[n + 1], c, id, row)
    ensures id in r.states[n + 1].table && r.states[n + 1].table[id] == row == r.states[n + 1].calls[c].want
    ensures Unique(r.states[n + 1].table)
  {
    TableAlways(r, n + 1);
    assert Step(r.states[n], r.acts[n], r.states[n + 1]);
  }

  /** And a 409 is genuine: the table holds a row of the triple, it is the only one, and its ttl is another. */
  lemma ConflictsAreGenuine(r: Run<State, Action>, n: nat, c: CallId)
    requires IsRun(r) && n < |r.acts|
    requires !At(r.states[n], c, Finished(Conflict)) && At(r.states[n + 1], c, Finished(Conflict))
    ensures
      var table, want := r.states[n + 1].table, r.states[n + 1].calls[c].want;
      && Has(table, want.key)
      && forall id :: id in table && table[id].key == want.key ==> table[id].ttl != want.ttl
  {
    TableAlways(r, n + 1);
    assert Step(r.states[n], r.acts[n], r.states[n + 1]);
  }

  // ---------------------------------------------------------------------------
  // Without patches, deletes and faults
  // ---------------------------------------------------------------------------

  ghost predicate Calm(a: Action) {
    match a
    case Begin(_, _) => true
    case Check(_, ok) => ok
    case Insert(_, ok) => ok
    case Rescan(_, ok) => ok
    case Patch(_, _) => false
    case Delete(_) => false
  }

  ghost predicate IsCalmRun(r: Run<State, Action>, n: nat) {
    IsRun(r) && n <= |r.acts| && forall k :: 0 <= k < n ==> Calm(r.acts[k])
  }

  ghost predicate CallOk(s: State, call: Call) {
    match call.phase
    case Rescanning => Has(s.table, call.want.key)
    case Finished(Ok(id, row)) => id in s.table && s.table[id] == row == call.want
    case Finished(ServerError) => false
    case _ => true
  }

  ghost predicate CallsOk(s: State) {
    TableOk(s) && forall c :: c in s.calls ==> CallOk(s, s.calls[c])
  }

  lemma CalmStep(s: State, a: Action, s': State)
    requires CallsOk(s) && Step(s, a, s') && Calm(a)
    ensures CallsOk(s')
    ensures forall id :: id in s.table ==> id in s'.table && s'.table[id] == s.table[id]
  {
    TableStep(s, a, s');
    forall c | c in s'.calls ensures CallOk(s', s'.calls[c]) {
      if c in s.calls {
        assert CallOk(s, s.calls[c]);
        if s.calls[c].phase.Rescanning? {
          var id :| id in s.table && s.table[id].key == s.calls[c].want.key;
          assert s'.table[id].key == s.calls[c].want.key;
        }
      }
    }
  }

  lemma {:induction false} CallsOkAlways(r: Run<State, Action>, n: nat)
    requires IsCalmRun(r, n)
    ensures CallsOk(r.states[n])
  {
    if n > 0 {
      CallsOkAlways(r, n - 1);
      assert Step(r.states[n - 1], r.acts[n - 1], r.states[n]);
      CalmStep(r.states[n - 1], r.acts[n - 1], r.states[n]);
    }
  }

  /** The call has ended in a 200. */
  predicate Confirmed(call: Call) {
    call.phase.Finished? && call.phase.response.Ok?
  }

  /** Only creates, any number of them, in any interleaving: no call ever ends in a 500, every 200 names a row that is
      still there, and all 200s for one triple name the same row. */
  lemma CreatesAgree(r: Run<State, Action>, n: nat, c: CallId, d: CallId)
    requires IsCalmRun(r, n) && c in r.states[n].calls && d in r.states[n].calls
    ensures r.states[n].calls[c].phase != Finished(ServerError)
    ensures
      var x, y := r.states[n].calls[c], r.states[n].calls[d];
      Confirmed(x) && Confirmed(y) && x.want.key == y.want.key ==> x.phase.response == y.phase.response
  {
    CallsOkAlways(r, n);
    assert CallOk(r.states[n], r.states[n].calls[c]) && CallOk(r.states[n], r.states[n].calls[d]);
  }

  // ---------------------------------------------------------------------------
  // Where a 500 can come from
  // ---------------------------------------------------------------------------

  lemma TripleStep(s: State, a: Action, s': State, key: Triple)
    requires Step(s, a, s') && TableOk(s) && !a.Patch? && !a.Delete? && Has(s.table, key)
    ensures Has(s'.table, key)
  {
    var id :| id in s.table && s.table[id].key == key;
    assert id in s'.table && s'.table[id].key == key;
  }

  ghost predicate Undisturbed(r: Run<State, Action>, i: nat, j: nat)
    requires j <= |r.acts|
  {
    forall k :: i <= k < j ==> !r.acts[k].Patch? && !r.acts[k].Delete?
  }

  /** From the failed insert on, nobody has taken the triple away. */
  lemma {:induction false} TripleStays(r: Run<State, Action>, i: nat, j: nat, key: Triple)
    requires IsRun(r) && i <= j < |r.states| && Has(r.states[i].table, key)
    requires Undisturbed(r, i, j)
    ensures Has(r.states[j].table, key)
    decreases j
  {
    if i < j {
      TripleStays(r, i, j - 1, key);
      TableAlways(r, j - 1);
      assert Step(r.states[j - 1], r.acts[j - 1], r.states[j]);
      TripleStep(r.states[j - 1], r.acts[j - 1], r.states[j], key);
    }
  }

  /** Without database faults, a call whose insert lost the race ends in a 500 exactly when the winning row is gone by
      the time it looks again, and then a patch or a delete fell in between. */
  lemma LostRaceFailsOnlyIfRowVanished(r: Run<State, Action>, i: nat, j: nat, c: CallId)
    requires IsRun(r) && i < j < |r.acts|
    requires r.acts[i] == Insert(c, true) && At(r.states[i + 1], c, Rescanning)
    requires r.acts[j] == Rescan(c, true)
    ensures At(r.states[j + 1], c, Finished(ServerError)) <==> !Has(r.states[j].table, r.states[j].calls[c].want.key)
    ensures At(r.states[j + 1], c, Finished(ServerError)) ==>
      exists k :: i < k < j && (r.acts[k].Patch? || r.acts[k].Delete?)
  {
    assert Step(r.states[i], r.acts[i], r.states[i + 1]);
    assert Step(r.states[j], r.acts[j], r.states[j + 1]);
    WantFixed(r, i, j, c);
    if forall k :: i < k < j ==> !r.acts[k].Patch? && !r.acts[k].Delete? {
      TripleStays(r, i + 1, j, r.states[i].calls[c].want.key);
    }
  }

  lemma {:induction false} WantFixed(r: Run<State, Action>, i: nat, j: nat, c: CallId)
    requires IsRun(r) && i <= j < |r.states| && c in r.states[i].calls
    ensures c in r.states[j].calls && r.states[j].calls[c].want == r.states[i].calls[c].want
    decreases j
  {
    if i < j {
      WantFixed(r, i, j - 1, c);
      assert Step(r.states[j - 1], r.acts[j - 1], r.states[j]);
    }
  }

  // ---------------------------------------------------------------------------
  // One call on its own
  // ---------------------------------------------------------------------------

  /** What happens to an insert: it is stored, it fails, or it is stored although the database reports an error. */
  datatype InsertOutcome = Stored | NotStored | Unreported

  function OrServerError(found: Option<Response>): Response {
    if found.Some? then found.value else ServerError
  }

  /** What `create_record` does with nothing else running; `scans`, `insert` and `rescans` say how the database
      answers. */
  ghost predicate Created(table: map<RowId, Record>, nextId: RowId, want: Record, scans: bool,
                          insert: InsertOutcome, rescans: bool,
                          table': map<RowId, Record>, nextId': RowId, response: Response) {
    var stores := scans && !Has(table, want.key) && insert != NotStored;
    && table' == (if stores then table[nextId := want] else table)
    && nextId' == (if stores then nextId + 1 else nextId)
    && if scans && Has(table, want.key) then Resolves(table, want, response)
       else if stores && (insert == Stored || rescans) then response == Ok(nextId, want)
       else response == ServerError
  }

  function Creating(s: State, c: CallId, want: Record, phase: Phase): State {
    s.(calls := s.calls[c := Call(want, phase)])
  }

  lemma Checked(s: State, c: CallId, want: Record, scans: bool, phase: Phase)
    requires c !in s.calls
    requires
      if !scans then phase == Finished(ServerError)
      else if Has(s.table, want.key) then phase.Finished? && Resolves(s.table, want, phase.response)
      else phase == Inserting
    ensures Leads(Step, s, Creating(s, c, want, phase))
  {
    Here(Step, s);
    var s1 := Creating(s, c, want, Checking);
    Then(Step, s, s, Begin(c, want), s1);
    Then(Step, s, s1, Check(c, scans), Creating(s, c, want, phase));
  }

  lemma Rescanned(s: State, m: State, c: CallId, want: Record, rescans: bool, response: Response)
    requires Leads(Step, s, Creating(m, c, want, Rescanning))
    requires !rescans || !Has(m.table, want.key) ==> response == ServerError
    requires rescans && Has(m.table, want.key) ==> Resolves(m.table, want, response)
    ensures Leads(Step, s, Creating(m, c, want, Finished(response)))
  {
    Then(Step, s, Creating(m, c, want, Rescanning), Rescan(c, rescans), Creating(m, c, want, Finished(response)));
  }

  /** A create run alone is a run of the machine, from any state and beside any calls that wait. */
  lemma CreateIsARun(s: State, c: CallId, want: Record, scans: bool, insert: InsertOutcome, rescans: bool,
                     table': map<RowId, Record>, nextId': RowId, response: Response)
    requires c !in s.calls && Created(s.table, s.nextId, want, scans, insert, rescans, table', nextId', response)
    ensures Leads(Step, s, State(table', nextId', s.calls[c := Call(want, Finished(response))]))
  {
    if !scans || Has(s.table, want.key) {
      Checked(s, c, want, scans, Finished(response));
    } else {
      Checked(s, c, want, scans, Inserting);
      var m := Creating(s, c, want, Inserting);
      var grown := State(s.table[s.nextId := want], s.nextId + 1, s.calls);
      match insert {
        case Stored =>
          Then(Step, s, m, Insert(c, true), Creating(grown, c, want, Finished(response)));
        case NotStored =>
          Then(Step, s, m, Insert(c, false), Creating(s, c, want, Rescanning));
          Rescanned(s, s, c, want, rescans, response);
        case Unreported =>
          Then(Step, s, m, Insert(c, false), Creating(grown, c, want, Rescanning));
          assert grown.table[s.nextId].key == want.key;
          Rescanned(s, grown, c, want, rescans, response);
      }
    }
  }

  class RecordTable {
    var table: map<RowId, Record>
    var nextId: RowId

    ghost predicate Valid()
      reads this
    {
      Unique(table) && forall id :: id in table ==> id < nextId
    }

    constructor ()
      ensures Valid() && table == map[]
    {
      table, nextId := map[], 0;
    }

    /** `record_resolve`: scan for the type and value, compare the ttl. `None` means no row of the triple. */
    method RecordResolve(want: Record) returns (response: Option<Response>)
      requires Valid()
      ensures response.None? <==> !Has(table, want.key)
      ensures response.None? <==> forall id :: id in table ==> table[id].key != want.key
      ensures response.Some? ==> Resolves(table, want, response.value)
      ensures response.Some? ==> exists id ::
        && id in table && table[id].key == want.key
        && response.value == if table[id].ttl == want.ttl then Ok(id, table[id]) else Conflict
    {
      var todo := table.Keys;
      while todo != {}
        invariant todo <= table.Keys
        invariant forall id :: id in table && id !in todo ==> table[id].key != want.key
        decreases todo
      {
        var id :| id in todo;
        if table[id].key == want.key {
          return Some(if table[id].ttl == want.ttl then Ok(id, table[id]) else Conflict);
        }
        todo := todo - {id};
      }
      return None;
    }

    /** `create_record`, run alone. */
    method CreateRecord(want: Record, scans: bool, insert: InsertOutcome, rescans: bool) returns (response: Response)
      requires Valid()
      modifies this
      ensures Valid() && old(nextId) !in old(table)
      ensures Created(old(table), old(nextId), want, scans, insert, rescans, table, nextId, response)
      ensures !scans ==> table == old(table) && response == ServerError
      ensures scans ==> forall id :: id in old(table) && old(table)[id].key == want.key ==>
        && table == old(table)
        && response == if old(table)[id].ttl == want.ttl then Ok(id, old(table)[id]) else Conflict
      ensures scans && (forall id :: id in old(table) ==> old(table)[id].key != want.key) ==> match insert
        case Stored => table == old(table)[old(nextId) := want] && response == Ok(old(nextId), want)
        case NotStored => table == old(table) && response == ServerError
        case Unreported =>
          && table == old(table)[old(nextId) := want]
          && response == if rescans then Ok(old(nextId), want) else ServerError
    {
      if !scans {
        return ServerError;
      }
      var found := RecordResolve(want);
      if found.Some? {
        return found.value;
      }
      if insert != NotStored {
        table := table[nextId := want];
        nextId := nextId + 1;
      }
      if insert == Stored {
        return Ok(nextId - 1, want);
      }
      if rescans {
        assert insert == Unreported ==> table[nextId - 1].key == want.key;
        found := RecordResolve(want);
        return OrServerError(found);
      }
      return ServerError;
    }

    /** `create_record` from the request on: a request that cannot be normalized is a 400 and touches nothing. */
    method HandleCreate(body: Option<NewRecord>, fold: string -> string, typeOf: string -> Option<nat>,
                        domains: set<string>,
                        scans: bool, insert: InsertOutcome, rescans: bool)
      returns (response: Response)
      requires Valid()
      modifies this
      ensures Valid()
      ensures match Normalized(body, fold, typeOf, domains)
        case None => response == BadRequest && table == old(table) && nextId == old(nextId)
        case Some(want) =>
          && response != BadRequest
          && Created(old(table), old(nextId), want, scans, insert, rescans, table, nextId, response)
    {
      if body.None? {
        return BadRequest;
      }
      var domain, value := fold(Trim(body.value.domain)), Trim(body.value.value);
      var recordType := typeOf(Trim(body.value.recordType));
      if recordType.None? {
        return BadRequest;
      }
      if Trim(value) == "" {
        return BadRequest;
      }
      if domain !in domains {
        return BadRequest;
      }
      response := CreateRecord(Record(Triple(domain, recordType.value, value), body.value.ttl), scans, insert, rescans);
    }
  }
}
