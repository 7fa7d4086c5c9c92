/** The refreshable verification-key cache of src/auth/keys.rs: concurrent `resolve` calls and background
    refreshes over one lock-guarded cache. */
module Keys {
  import opened Prelude

  type Time = int
  type CallId = nat

  /** `usable` says whether the entry converts to a decoding key. */
  datatype Jwk = Jwk(kid: Option<string>, material: nat, usable: bool)

  type JwkSet = seq<Jwk>

  datatype Cached = Cached(jwks: JwkSet, fetchedAt: Time)

  datatype Result = Key(jwk: Jwk) | UnknownKid | SourceUnavailable

  // ---------------------------------------------------------------------------
  // Key choice
  // ---------------------------------------------------------------------------

  function FirstWithKid(jwks: JwkSet, kid: string): Option<Jwk> {
    if jwks == [] then None
    else if jwks[0].kid == Some(kid) then Some(jwks[0])
    else FirstWithKid(jwks[1..], kid)
  }

  function Kidless(jwks: JwkSet): seq<Jwk> {
    if jwks == [] then []
    else if jwks[0].kid == None then [jwks[0]] + Kidless(jwks[1..])
    else Kidless(jwks[1..])
  }

  function Usable(jwk: Option<Jwk>): Option<Jwk> {
    if jwk.Some? && jwk.value.usable then jwk else None
  }

  /** `pick_key`. */
  function PickKey(jwks: JwkSet, kid: Option<string>): Option<Jwk> {
    match kid
    case Some(k) => Usable(FirstWithKid(jwks, k))
    case None => if |Kidless(jwks)| == 1 then Usable(Some(Kidless(jwks)[0])) else None
  }

  lemma {:induction false} FirstWithKidIsFirst(jwks: JwkSet, kid: string)
    ensures FirstWithKid(jwks, kid).None? <==> forall i :: 0 <= i < |jwks| ==> jwks[i].kid != Some(kid)
    ensures FirstWithKid(jwks, kid).Some? ==>
      exists i :: 0 <= i < |jwks| && jwks[i] == FirstWithKid(jwks, kid).value && jwks[i].kid == Some(kid)
        && forall j :: 0 <= j < i ==> jwks[j].kid != Some(kid)
  {
    if jwks != [] && jwks[0].kid != Some(kid) {
      FirstWithKidIsFirst(jwks[1..], kid);
      assert forall i :: 0 <= i < |jwks| - 1 ==> jwks[i + 1] == jwks[1..][i];
      if FirstWithKid(jwks, kid).Some? {
        var i :| 0 <= i < |jwks[1..]| && jwks[1..][i] == FirstWithKid(jwks, kid).value && jwks[1..][i].kid == Some(kid)
          && forall j :: 0 <= j < i ==> jwks[1..][j].kid != Some(kid);
        assert jwks[i + 1] == jwks[1..][i];
        assert forall j :: 1 <= j < i + 1 ==> jwks[j] == jwks[1..][j - 1];
      }
    }
  }

  lemma {:induction false} KidlessEntries(jwks: JwkSet)
    ensures forall x :: x in Kidless(jwks) <==> x in jwks && x.kid == None
    ensures |Kidless(jwks)| >= 1 <==> exists i :: 0 <= i < |jwks| && jwks[i].kid == None
    ensures |Kidless(jwks)| >= 2 <==> exists i, j :: 0 <= i < j < |jwks| && jwks[i].kid == None && jwks[j].kid == None
  {
    if jwks != [] {
      var rest := jwks[1..];
      KidlessEntries(rest);
      assert forall i :: 1 <= i < |jwks| ==> jwks[i] == rest[i - 1];
      assert forall i :: 0 <= i < |rest| ==> rest[i] == jwks[i + 1];
      if jwks[0].kid == None && Kidless(rest) != [] {
        assert Kidless(rest)[0] in rest;
        var j :| 0 <= j < |rest| && rest[j] == Kidless(rest)[0];
        assert jwks[j + 1] == rest[j];
      }
      if i, j :| 0 <= i < j < |rest| && rest[i].kid == None && rest[j].kid == None {
        assert jwks[i + 1] == rest[i] && jwks[j + 1] == rest[j];
      }
      if i, j :| 0 <= i < j < |jwks| && jwks[i].kid == None && jwks[j].kid == None {
        assert rest[j - 1] == jwks[j];
        assert rest[j - 1] in rest;
        if i > 0 {
          assert rest[i - 1] == jwks[i];
        }
      }
    }
  }

  /** Entry `i` is the one the token's `kid` names: the first with that `kid`, or the only one without any. */
  ghost predicate Names(jwks: JwkSet, kid: Option<string>, i: nat) {
    && i < |jwks| && jwks[i].kid == kid
    && forall j :: 0 <= j < |jwks| && jwks[j].kid == kid && j != i ==> kid.Some? && i < j
  }

  lemma NamedByKid(jwks: JwkSet, kid: string, i: nat)
    requires Names(jwks, Some(kid), i)
    ensures FirstWithKid(jwks, kid) == Some(jwks[i])
  {
    FirstWithKidIsFirst(jwks, kid);
  }

  lemma NamedWithoutKid(jwks: JwkSet, i: nat)
    requires Names(jwks, None, i)
    ensures Kidless(jwks) == [jwks[i]]
  {
    KidlessEntries(jwks);
    var k := Kidless(jwks);
    assert |k| == 1 && k[0] in k;
    assert jwks[i] in jwks && jwks[i] in k;
  }

  /** Section 4.5 of RFC 7517, as the code reads it: a token with a `kid` gets the first key of that `kid`; a token
      without one gets the only key without one, and nothing if there are two; an unusable entry is no key. */
  lemma PickKeyMatchesKid(jwks: JwkSet, kid: Option<string>, key: Jwk)
    ensures PickKey(jwks, kid) == Some(key) <==> exists i: nat :: Names(jwks, kid, i) && jwks[i] == key && key.usable
  {
    if i: nat :| Names(jwks, kid, i) && jwks[i] == key && key.usable {
      match kid {
        case Some(k) => NamedByKid(jwks, k, i);
        case None => NamedWithoutKid(jwks, i);
      }
    }
    if PickKey(jwks, kid) == Some(key) {
      match kid {
        case Some(k) =>
          FirstWithKidIsFirst(jwks, k);
          var i :|
            && 0 <= i < |jwks| && jwks[i] == key && jwks[i].kid == kid
            && forall j :: 0 <= j < i ==> jwks[j].kid != kid;
          assert Names(jwks, kid, i);
        case None =>
          KidlessEntries(jwks);
          assert key in Kidless(jwks);
          var i :| 0 <= i < |jwks| && jwks[i] == key;
          assert Names(jwks, kid, i);
      }
    }
  }

  // ---------------------------------------------------------------------------
  // The machine: every lock acquisition and every fetch is a step
  // ---------------------------------------------------------------------------

  datatype Phase =
    | Reading                       // fast path not tried yet
    | Deciding                      // missed; is a refetch due?
    | Fetching
    | Storing(jwks: JwkSet)         // fetched, not stored yet
    | Rechecking                    // stored, cache not re-read yet
    | FallingBack                   // last look at whatever is cached
    | Finished(result: Result)

  datatype Call = Call(kid: Option<string>, phase: Phase)

  /** `fetcher` is false for a static set; `source` is what is known to have come from the source: the static set or
      the fetcher's answers. `refresh` is the background task's set waiting to be stored. */
  datatype State = State(
    cache: Option<Cached>,
    fetcher: bool,
    ttl: Time,
    calls: map<CallId, Call>,
    refresh: Option<JwkSet>,
    source: set<JwkSet>,
    clock: Time)

  datatype Action =
    | Begin(call: CallId, kid: Option<string>)
    | Read(call: CallId)
    | Decide(call: CallId, now: Time)
    | FetchOk(call: CallId, jwks: JwkSet)
    | FetchErr(call: CallId)
    | Store(call: CallId, now: Time)
    | Recheck(call: CallId)
    | FallBack(call: CallId)
    | RefreshFetched(jwks: JwkSet)
    | RefreshStored(now: Time)

  function Look(cache: Option<Cached>, kid: Option<string>): Option<Jwk> {
    if cache.Some? then PickKey(cache.value.jwks, kid) else None
  }

  /** `should_refetch`. */
  predicate Stale(cache: Option<Cached>, ttl: Time, now: Time) {
    cache.None? || now - cache.value.fetchedAt >= ttl
  }

  predicate At(s: State, c: CallId, phase: Phase) {
    c in s.calls && s.calls[c].phase == phase
  }

  function Moved(s: State, c: CallId, phase: Phase): State
    requires c in s.calls
  {
    s.(calls := s.calls[c := s.calls[c].(phase := phase)])
  }

  function AnswerOr(key: Option<Jwk>, otherwise: Result): Result {
    if key.Some? then Key(key.value) else otherwise
  }

  ghost predicate Step(s: State, a: Action, s': State) {
    match a
    case Begin(c, kid) =>
      c !in s.calls && s' == s.(calls := s.calls[c := Call(kid, Reading)])
    case Read(c) =>
      At(s, c, Reading) &&
      var key := Look(s.cache, s.calls[c].kid);
      s' == Moved(s, c, if key.Some? then Finished(Key(key.value)) else Deciding)
    case Decide(c, now) =>
      && At(s, c, Deciding) && now >= s.clock
      && s' == Moved(s, c, if s.fetcher && Stale(s.cache, s.ttl, now) then Fetching else FallingBack).(clock := now)
    case FetchOk(c, jwks) =>
      At(s, c, Fetching) && s' == Moved(s, c, Storing(jwks)).(source := s.source + {jwks})
    case FetchErr(c) =>
      At(s, c, Fetching) && s' == Moved(s, c, FallingBack)
    case Store(c, now) =>
      && c in s.calls && s.calls[c].phase.Storing? && now >= s.clock
      && s' == Moved(s, c, Rechecking).(cache := Some(Cached(s.calls[c].phase.jwks, now)), clock := now)
    case Recheck(c) =>
      && At(s, c, Rechecking)
      && s' == Moved(s, c, Finished(AnswerOr(Look(s.cache, s.calls[c].kid), UnknownKid)))
    case FallBack(c) =>
      && At(s, c, FallingBack)
      && s' == Moved(s, c, Finished(AnswerOr(Look(s.cache, s.calls[c].kid),
                                             if s.cache.Some? then UnknownKid else SourceUnavailable)))
    case RefreshFetched(jwks) =>
      s.fetcher && s' == s.(refresh := Some(jwks), source := s.source + {jwks})
    case RefreshStored(now) =>
      && s.refresh.Some? && now >= s.clock
      && s' == s.(cache := Some(Cached(s.refresh.value, now)), refresh := None, clock := now)
  }

  /** A static set starts cached with a zero TTL and no fetcher; a remote one starts empty. */
  ghost predicate Init(s: State) {
    && s.calls == map[] && s.refresh == None
    && (if s.fetcher then s.cache == None && s.source == {}
        else s.cache.Some? && s.ttl == 0 && s.source == {s.cache.value.jwks})
    && (s.cache.Some? ==> s.cache.value.fetchedAt <= s.clock)
  }

  ghost predicate IsRun(r: Run<State, Action>) {
    Follows(Init, Step, r)
  }

  // ---------------------------------------------------------------------------
  // Provenance
  // ---------------------------------------------------------------------------

  ghost predicate FromSource(s: State, kid: Option<string>, key: Jwk) {
    exists jwks :: jwks in s.source && PickKey(jwks, kid) == Some(key)
  }

  ghost predicate CallSound(s: State, call: Call) {
    match call.phase
    case Storing(jwks) => jwks in s.source
    case Rechecking => s.cache.Some?
    case Finished(Key(key)) => FromSource(s, call.kid, key)
    case _ => true
  }

  ghost predicate Sound(s: State) {
    && CacheSound(s)
    && forall c :: c in s.calls ==> CallSound(s, s.calls[c])
  }

  ghost predicate CacheSound(s: State) {
    && (s.cache.Some? ==> s.cache.value.jwks in s.source && s.cache.value.fetchedAt <= s.clock)
    && (s.refresh.Some? ==> s.refresh.value in s.source)
  }

  lemma CacheSoundStep(s: State, a: Action, s': State)
    requires Sound(s) && Step(s, a, s')
    ensures CacheSound(s') && s.source <= s'.source && (s.cache.Some? ==> s'.cache.Some?)
  {
    if a.Store? {
      assert CallSound(s, s.calls[a.call]);
    }
  }

  /** A step leaves every call but its own as it was. */
  predicate IsOf(a: Action, c: CallId) {
    !a.RefreshFetched? && !a.RefreshStored? && a.call == c
  }

  lemma OtherCallStays(s: State, a: Action, s': State, c: CallId)
    requires Step(s, a, s') && c in s.calls && !IsOf(a, c)
    ensures c in s'.calls && s'.calls[c] == s.calls[c]
  {
  }

  lemma OtherCallSound(s: State, s': State, call: Call)
    requires CallSound(s, call) && s.source <= s'.source && (s.cache.Some? ==> s'.cache.Some?)
    ensures CallSound(s', call)
  {
    if call.phase.Finished? && call.phase.result.Key? {
      var jwks :| jwks in s.source && PickKey(jwks, call.kid) == Some(call.phase.result.jwk);
      assert jwks in s'.source;
    }
  }

  lemma OwnCallSound(s: State, a: Action, s': State, c: CallId)
    requires CacheSound(s) && Step(s, a, s') && IsOf(a, c)
    ensures c in s'.calls && CallSound(s', s'.calls[c])
  {
  }

  lemma SoundStep(s: State, a: Action, s': State)
    requires Sound(s) && Step(s, a, s')
    ensures Sound(s')
  {
    CacheSoundStep(s, a, s');
    forall c | c in s'.calls ensures CallSound(s', s'.calls[c]) {
      if IsOf(a, c) {
        OwnCallSound(s, a, s', c);
      } else {
        assert c in s.calls;
        OtherCallStays(s, a, s', c);
        OtherCallSound(s, s', s.calls[c]);
      }
    }
  }

  lemma {:induction false} SoundAlways(r: Run<State, Action>, n: nat)
    requires IsRun(r) && n < |r.states|
    ensures Sound(r.states[n])
  {
    if n > 0 {
      SoundAlways(r, n - 1);
      assert Step(r.states[n - 1], r.acts[n - 1], r.states[n]);
      SoundStep(r.states[n - 1], r.acts[n - 1], r.states[n]);
    }
  }

  /** Over every interleaving of calls and refreshes, a key that is returned is the one the choice rule picks from the
      static set or from a set the fetcher really returned, and it carries the token's `kid`. */
  lemma ReturnedKeysComeFromTheSource(r: Run<State, Action>, n: nat, c: CallId, key: Jwk)
    requires IsRun(r) && n < |r.states| && At(r.states[n], c, Finished(Key(key)))
    ensures FromSource(r.states[n], r.states[n].calls[c].kid, key)
    ensures key.kid == r.states[n].calls[c].kid && key.usable
  {
    SoundAlways(r, n);
    assert CallSound(r.states[n], r.states[n].calls[c]);
    var jwks :| jwks in r.states[n].source && PickKey(jwks, r.states[n].calls[c].kid) == Some(key);
    PickKeyMatchesKid(jwks, r.states[n].calls[c].kid, key);
  }

  // ---------------------------------------------------------------------------
  // Availability
  // ---------------------------------------------------------------------------

  lemma {:induction false} CacheStays(r: Run<State, Action>, i: nat, j: nat)
    requires IsRun(r) && i <= j < |r.states| && r.states[i].cache.Some?
    ensures r.states[j].cache.Some? && r.states[j].cache.value.fetchedAt >= r.states[i].cache.value.fetchedAt
    decreases j
  {
    if i < j {
      CacheStays(r, i, j - 1);
      SoundAlways(r, j - 1);
      assert Step(r.states[j - 1], r.acts[j - 1], r.states[j]);
    }
  }

  /** The step that ends call `c` with `SourceUnavailable`. */
  ghost predicate GivesUp(s: State, s': State, c: CallId) {
    c in s.calls && !At(s, c, Finished(SourceUnavailable)) && At(s', c, Finished(SourceUnavailable))
  }

  /** Once a set has been stored no call ends with `SourceUnavailable`, even one that began before; a static set
      never gives it. */
  lemma NeverUnavailableAfterStore(r: Run<State, Action>, i: nat, j: nat, c: CallId)
    requires IsRun(r) && i <= j < |r.acts| && r.states[i].cache.Some?
    ensures !GivesUp(r.states[j], r.states[j + 1], c)
  {
    CacheStays(r, i, j);
    assert Step(r.states[j], r.acts[j], r.states[j + 1]);
  }

  // ---------------------------------------------------------------------------
  // Pacing
  // ---------------------------------------------------------------------------

  ghost predicate Stores(a: Action) {
    a.Store? || a.RefreshStored?
  }

  /** The step in which a call decides to fetch. */
  ghost predicate Refetches(s: State, a: Action, s': State) {
    a.Decide? && At(s', a.call, Fetching)
  }

  /** In every interleaving, a call that decides to refetch after some set was stored does so at least one TTL after
      that store. */
  lemma RefetchesArePaced(r: Run<State, Action>, i: nat, d: nat)
    requires IsRun(r) && i < d < |r.acts| && Stores(r.acts[i])
    requires Refetches(r.states[d], r.acts[d], r.states[d + 1])
    ensures r.acts[d].now >= r.acts[i].now + r.states[0].ttl
  {
    assert Step(r.states[i], r.acts[i], r.states[i + 1]);
    CacheStays(r, i + 1, d);
    assert Step(r.states[d], r.acts[d], r.states[d + 1]);
    TtlFixed(r, d);
  }

  lemma {:induction false} ClockNeverFalls(r: Run<State, Action>, i: nat, j: nat)
    requires IsRun(r) && i <= j < |r.states|
    ensures r.states[i].clock <= r.states[j].clock
    decreases j
  {
    if i < j {
      ClockNeverFalls(r, i, j - 1);
      assert Step(r.states[j - 1], r.acts[j - 1], r.states[j]);
    }
  }

  /** So two successful fetches are at least one TTL apart whenever the later call made up its mind after the earlier
      set was stored. */
  lemma StoresArePaced(r: Run<State, Action>, i: nat, d: nat, j: nat)
    requires IsRun(r) && i < d < j < |r.acts| && Stores(r.acts[i])
    requires Refetches(r.states[d], r.acts[d], r.states[d + 1]) && r.acts[j].Store? && r.acts[j].call == r.acts[d].call
    ensures r.acts[j].now >= r.acts[i].now + r.states[0].ttl
  {
    RefetchesArePaced(r, i, d);
    assert Step(r.states[d], r.acts[d], r.states[d + 1]);
    ClockNeverFalls(r, d + 1, j);
    assert Step(r.states[j], r.acts[j], r.states[j + 1]);
  }

  lemma {:induction false} TtlFixed(r: Run<State, Action>, n: nat)
    requires IsRun(r) && n < |r.states|
    ensures r.states[n].ttl == r.states[0].ttl && r.states[n].fetcher == r.states[0].fetcher
  {
    if n > 0 {
      TtlFixed(r, n - 1);
      assert Step(r.states[n - 1], r.acts[n - 1], r.states[n]);
    }
  }

  /** Some set was stored at `at` before state `n`, and none later than that. */
  ghost predicate LastStored(r: Run<State, Action>, n: nat, at: Time)
    requires n <= |r.acts|
  {
    && (exists i :: 0 <= i < n && Stores(r.acts[i]) && r.acts[i].now == at)
    && (forall i :: 0 <= i < n && Stores(r.acts[i]) ==> r.acts[i].now <= at)
  }

  lemma LastStoredStep(r: Run<State, Action>, n: nat)
    requires IsRun(r) && 0 < n <= |r.acts| && Sound(r.states[n - 1])
    requires r.states[n - 1].cache.Some? ==> LastStored(r, n - 1, r.states[n - 1].cache.value.fetchedAt)
    requires r.states[n - 1].cache.None? ==> forall i :: 0 <= i < n - 1 ==> !Stores(r.acts[i])
    ensures r.states[n].cache.Some? ==> LastStored(r, n, r.states[n].cache.value.fetchedAt)
    ensures r.states[n].cache.None? ==> forall i :: 0 <= i < n ==> !Stores(r.acts[i])
  {
    var s, a := r.states[n - 1], r.acts[n - 1];
    assert Step(s, a, r.states[n]);
    if Stores(a) {
      assert r.states[n].cache.Some? && r.states[n].cache.value.fetchedAt == a.now;
    } else {
      assert r.states[n].cache == s.cache;
      if s.cache.Some? {
        var i :| 0 <= i < n - 1 && Stores(r.acts[i]) && r.acts[i].now == s.cache.value.fetchedAt;
      }
    }
  }

  /** A remote set's cache is as old as the last store, and empty before the first. */
  lemma {:induction false} CacheIsLastStore(r: Run<State, Action>, n: nat)
    requires IsRun(r) && n <= |r.acts| && r.states[0].fetcher
    ensures r.states[n].cache.Some? ==> LastStored(r, n, r.states[n].cache.value.fetchedAt)
    ensures r.states[n].cache.None? ==> forall i :: 0 <= i < n ==> !Stores(r.acts[i])
  {
    if n > 0 {
      CacheIsLastStore(r, n - 1);
      SoundAlways(r, n - 1);
      LastStoredStep(r, n);
    }
  }

  /** The exact condition, in every interleaving: a call that missed decides to fetch if and only if the set is
      remote and every store so far lies at least one TTL back. Before the first store that is every call. */
  lemma RefetchIsExact(r: Run<State, Action>, d: nat)
    requires IsRun(r) && d < |r.acts| && r.acts[d].Decide?
    ensures Refetches(r.states[d], r.acts[d], r.states[d + 1]) <==>
      && r.states[0].fetcher
      && forall i :: 0 <= i < d && Stores(r.acts[i]) ==> r.acts[d].now >= r.acts[i].now + r.states[0].ttl
  {
    assert Step(r.states[d], r.acts[d], r.states[d + 1]);
    TtlFixed(r, d);
    if r.states[0].fetcher {
      CacheIsLastStore(r, d);
    }
  }

  /** Calls run one after the other: at no time are two of them unfinished. */
  ghost predicate Sequential(r: Run<State, Action>) {
    forall n, c: CallId, d: CallId :: 0 <= n < |r.states| && Active(r.states[n], c) && Active(r.states[n], d) ==> c == d
  }

  ghost predicate Active(s: State, c: CallId) {
    c in s.calls && !s.calls[c].phase.Finished?
  }

  /** The call is past the point where it could fetch. */
  ghost predicate PastFetch(s: State, c: CallId) {
    c in s.calls && (s.calls[c].phase.Rechecking? || s.calls[c].phase.FallingBack? || s.calls[c].phase.Finished?)
  }

  lemma PastFetchStep(s: State, a: Action, s': State, c: CallId)
    requires Step(s, a, s') && PastFetch(s, c)
    ensures PastFetch(s', c)
  {
    if !IsOf(a, c) {
      OtherCallStays(s, a, s', c);
    }
  }

  lemma {:induction false} PastFetchStays(r: Run<State, Action>, i: nat, j: nat, c: CallId)
    requires IsRun(r) && i <= j < |r.states| && PastFetch(r.states[i], c)
    ensures PastFetch(r.states[j], c)
    decreases j
  {
    if i < j {
      PastFetchStays(r, i, j - 1, c);
      assert Step(r.states[j - 1], r.acts[j - 1], r.states[j]);
      PastFetchStep(r.states[j - 1], r.acts[j - 1], r.states[j], c);
    }
  }

  ghost predicate InFetch(s: State, c: CallId) {
    c in s.calls && (s.calls[c].phase.Fetching? || s.calls[c].phase.Storing?)
  }

  /** A call that began after state `i` and is fetching decided to do so after state `i`. */
  lemma {:induction false} DecidedSince(r: Run<State, Action>, i: nat, j: nat, c: CallId) returns (d: nat)
    requires IsRun(r) && i <= j < |r.states| && c !in r.states[i].calls && InFetch(r.states[j], c)
    ensures i <= d < j && Refetches(r.states[d], r.acts[d], r.states[d + 1]) && r.acts[d].call == c
    decreases j
  {
    assert Step(r.states[j - 1], r.acts[j - 1], r.states[j]);
    if InFetch(r.states[j - 1], c) {
      d := DecidedSince(r, i, j - 1, c);
    } else {
      d := j - 1;
    }
  }

  /** In every sequential run, background refreshes included, any two successful on-demand fetches are at least one TTL
      apart: the second is not even started before. */
  lemma SequentialFetchesArePaced(r: Run<State, Action>, i: nat, j: nat)
    requires IsRun(r) && Sequential(r) && i < j < |r.acts| && r.acts[i].Store? && r.acts[j].Store?
    ensures exists d ::
      && i < d < j && Refetches(r.states[d], r.acts[d], r.states[d + 1])
      && r.acts[d].call == r.acts[j].call && r.acts[d].now >= r.acts[i].now + r.states[0].ttl
    ensures r.acts[j].now >= r.acts[i].now + r.states[0].ttl
  {
    var c := r.acts[j].call;
    assert Step(r.states[i], r.acts[i], r.states[i + 1]);
    assert Step(r.states[j], r.acts[j], r.states[j + 1]);
    assert Active(r.states[i], r.acts[i].call);
    if c in r.states[i].calls {
      assert Active(r.states[i], c) ==> c == r.acts[i].call;
      PastFetchStays(r, i + 1, j, c);
      assert false;
    }
    var d := DecidedSince(r, i + 1, j, c);
    RefetchesArePaced(r, i, d);
    StoresArePaced(r, i, d, j);
  }

  /** The condition is needed: calls that all decide before any of them stores are not paced at all. For every TTL and
      every `n` there is a run with `n` on-demand fetches in flight at once. */
  lemma {:induction false} HerdIsUnbounded(ttl: Time, n: nat) returns (r: Run<State, Action>)
    ensures IsRun(r) && r.states[0].ttl == ttl
    ensures
      var end := r.states[|r.acts|];
      && end.cache == None && end.fetcher && end.ttl == ttl && end.clock == 0
      && (forall c: CallId :: c in end.calls <==> c < n)
      && (forall c :: c in end.calls ==> end.calls[c].phase == Fetching)
  {
    if n == 0 {
      r := Run([State(None, true, ttl, map[], None, {}, 0)], []);
    } else {
      r := HerdIsUnbounded(ttl, n - 1);
      var s := r.states[|r.acts|];
      var c := n - 1;
      var s1 := s.(calls := s.calls[c := Call(None, Reading)]);
      r := Extend(Init, Step, r, Begin(c, None), s1);
      var s2 := Moved(s1, c, Deciding);
      r := Extend(Init, Step, r, Read(c), s2);
      r := Extend(Init, Step, r, Decide(c, 0), Moved(s2, c, Fetching));
    }
  }

  // ---------------------------------------------------------------------------
  // One call on its own
  // ---------------------------------------------------------------------------

  /** What `resolve` leaves in the cache and answers with nothing else running: `answer` is what the fetcher would
      return, `stored` the time it is stored. */
  function Resolved(cache: Option<Cached>, fetcher: bool, ttl: Time, kid: Option<string>, now: Time,
                    answer: Option<JwkSet>, stored: Time): (Option<Cached>, Result) {
    var refetch := Look(cache, kid).None? && fetcher && Stale(cache, ttl, now) && answer.Some?;
    var cache' := if refetch then Some(Cached(answer.value, stored)) else cache;
    (cache', AnswerOr(Look(cache', kid), if cache'.Some? then UnknownKid else SourceUnavailable))
  }

  /** The state while a call runs alone. */
  function Resolving(s: State, c: CallId, kid: Option<string>, phase: Phase): State {
    s.(calls := s.calls[c := Call(kid, phase)])
  }

  lemma HitActs(s: State, c: CallId, kid: Option<string>)
    requires c !in s.calls && Look(s.cache, kid).Some?
    ensures Takes(Step, s, [Begin(c, kid), Read(c)], Resolving(s, c, kid, Finished(Key(Look(s.cache, kid).value))))
  {
    var reading := Resolving(s, c, kid, Reading);
    assert Takes(Step, s, [], s);
    TakesNext(Step, s, [], s, Begin(c, kid), reading);
    assert [] + [Begin(c, kid)] == [Begin(c, kid)] && [Begin(c, kid)] + [Read(c)] == [Begin(c, kid), Read(c)];
    TakesNext(Step, s, [Begin(c, kid)], reading, Read(c),
              Resolving(s, c, kid, Finished(Key(Look(s.cache, kid).value))));
  }

  lemma BegunActs(s: State, c: CallId, kid: Option<string>)
    requires c !in s.calls && Look(s.cache, kid).None?
    ensures Takes(Step, s, [Begin(c, kid), Read(c)], Resolving(s, c, kid, Deciding))
  {
    var reading := Resolving(s, c, kid, Reading);
    assert Takes(Step, s, [], s);
    TakesNext(Step, s, [], s, Begin(c, kid), reading);
    assert [] + [Begin(c, kid)] == [Begin(c, kid)] && [Begin(c, kid)] + [Read(c)] == [Begin(c, kid), Read(c)];
    TakesNext(Step, s, [Begin(c, kid)], reading, Read(c), Resolving(s, c, kid, Deciding));
  }

  /** Neither a hit nor fresh: the set is remote, and empty or at least one TTL old. */
  ghost predicate Due(s: State, kid: Option<string>, now: Time) {
    && Look(s.cache, kid).None? && s.fetcher
    && (s.cache.None? || now >= s.cache.value.fetchedAt + s.ttl)
  }

  lemma MissActs(s: State, c: CallId, kid: Option<string>, now: Time)
    requires c !in s.calls && s.clock <= now && Look(s.cache, kid).None?
    ensures
      var phase := if Due(s, kid, now) then Fetching else FallingBack;
      Takes(Step, s, [Begin(c, kid), Read(c)] + [Decide(c, now)], Resolving(s, c, kid, phase).(clock := now))
  {
    BegunActs(s, c, kid);
    var phase := if Due(s, kid, now) then Fetching else FallingBack;
    TakesNext(Step, s, [Begin(c, kid), Read(c)], Resolving(s, c, kid, Deciding), Decide(c, now),
              Resolving(s, c, kid, phase).(clock := now));
  }

  /** The fetch failed or was not due: the answer is what the cache still gives. */
  lemma FallBackActs(s: State, acts: seq<Action>, m: State, c: CallId, kid: Option<string>) returns (acts': seq<Action>)
    requires Takes(Step, s, acts, m) && (At(m, c, Fetching) || At(m, c, FallingBack))
    requires m.calls[c].kid == kid && Look(m.cache, kid).None?
    ensures acts' == acts + (if At(m, c, Fetching) then [FetchErr(c)] else []) + [FallBack(c)]
    ensures
      var result := if m.cache.Some? then UnknownKid else SourceUnavailable;
      Takes(Step, s, acts', Resolving(m, c, kid, Finished(result)))
  {
    var m' := Moved(m, c, FallingBack);
    acts' := acts;
    if At(m, c, Fetching) {
      TakesNext(Step, s, acts, m, FetchErr(c), m');
      acts' := acts + [FetchErr(c)];
    } else {
      assert m'.calls == m.calls;
      assert acts + [] == acts;
    }
    TakesNext(Step, s, acts', m', FallBack(c),
              Resolving(m, c, kid, Finished(if m.cache.Some? then UnknownKid else SourceUnavailable)));
    acts' := acts' + [FallBack(c)];
  }

  lemma StoreActs(s: State, acts: seq<Action>, m: State, c: CallId, kid: Option<string>, jwks: JwkSet, stored: Time)
    requires Takes(Step, s, acts, m) && At(m, c, Storing(jwks)) && m.calls[c].kid == kid && m.clock <= stored
    ensures
      var s' := Moved(m, c, Finished(AnswerOr(PickKey(jwks, kid), UnknownKid)));
      Takes(Step, s, acts + [Store(c, stored), Recheck(c)], s'.(cache := Some(Cached(jwks, stored)), clock := stored))
  {
    var m' := Moved(m, c, Rechecking).(cache := Some(Cached(jwks, stored)), clock := stored);
    TakesNext(Step, s, acts, m, Store(c, stored), m');
    var s' := Moved(m', c, Finished(AnswerOr(PickKey(jwks, kid), UnknownKid)));
    TakesNext(Step, s, acts + [Store(c, stored)], m', Recheck(c), s');
    assert acts + [Store(c, stored)] + [Recheck(c)] == acts + [Store(c, stored), Recheck(c)];
  }

  lemma FetchActs(s: State, acts: seq<Action>, m: State, c: CallId, kid: Option<string>, jwks: JwkSet, stored: Time)
    returns (s': State)
    requires Takes(Step, s, acts, m) && At(m, c, Fetching) && m.calls[c].kid == kid && m.clock <= stored
    ensures Takes(Step, s, acts + [FetchOk(c, jwks), Store(c, stored), Recheck(c)], s')
    ensures s'.cache == Some(Cached(jwks, stored))
    ensures s'.calls == m.calls[c := Call(kid, Finished(AnswerOr(PickKey(jwks, kid), UnknownKid)))]
  {
    var m' := Moved(m, c, Storing(jwks)).(source := m.source + {jwks});
    TakesNext(Step, s, acts, m, FetchOk(c, jwks), m');
    StoreActs(s, acts + [FetchOk(c, jwks)], m', c, kid, jwks, stored);
    assert acts + [FetchOk(c, jwks)] + [Store(c, stored), Recheck(c)]
        == acts + [FetchOk(c, jwks), Store(c, stored), Recheck(c)];
    s' := Moved(m', c, Finished(AnswerOr(PickKey(jwks, kid), UnknownKid)));
    s' := s'.(cache := Some(Cached(jwks, stored)), clock := stored);
  }

  lemma FetchRun(s: State, c: CallId, kid: Option<string>, now: Time, jwks: JwkSet, stored: Time)
    returns (acts: seq<Action>, s': State)
    requires c !in s.calls && s.clock <= now <= stored && Due(s, kid, now)
    ensures Takes(Step, s, [Begin(c, kid), Read(c)] + acts, s')
    ensures acts == [Decide(c, now), FetchOk(c, jwks), Store(c, stored), Recheck(c)]
    ensures s'.cache == Some(Cached(jwks, stored))
    ensures s'.calls == s.calls[c := Call(kid, Finished(AnswerOr(PickKey(jwks, kid), UnknownKid)))]
  {
    var begun := [Begin(c, kid), Read(c)];
    MissActs(s, c, kid, now);
    s' := FetchActs(s, begun + [Decide(c, now)], Resolving(s, c, kid, Fetching).(clock := now), c, kid, jwks, stored);
    acts := [Decide(c, now), FetchOk(c, jwks), Store(c, stored), Recheck(c)];
    assert begun + [Decide(c, now)] + [FetchOk(c, jwks), Store(c, stored), Recheck(c)] == begun + acts;
  }

  lemma FallBackRun(s: State, c: CallId, kid: Option<string>, now: Time) returns (acts: seq<Action>, s': State)
    requires c !in s.calls && s.clock <= now && Look(s.cache, kid).None?
    ensures Takes(Step, s, [Begin(c, kid), Read(c)] + acts, s')
    ensures acts == [Decide(c, now)] + (if Due(s, kid, now) then [FetchErr(c)] else []) + [FallBack(c)]
    ensures s'.cache == s.cache
    ensures s'.calls == s.calls[c := Call(kid, Finished(if s.cache.Some? then UnknownKid else SourceUnavailable))]
  {
    var begun := [Begin(c, kid), Read(c)];
    MissActs(s, c, kid, now);
    var m := Resolving(s, c, kid, if Due(s, kid, now) then Fetching else FallingBack).(clock := now);
    var all := FallBackActs(s, begun + [Decide(c, now)], m, c, kid);
    acts := [Decide(c, now)] + (if Due(s, kid, now) then [FetchErr(c)] else []) + [FallBack(c)];
    assert all == begun + acts;
    s' := Resolving(m, c, kid, Finished(if m.cache.Some? then UnknownKid else SourceUnavailable));
  }

  /** A call run alone is a run of the machine, from any state and beside any calls that wait: a hit reads and ends; a
      miss that is not due falls back; one that is due takes the fetcher's set and stores it, or meets a failed fetch
      exactly when the fetcher does not answer. */
  lemma ResolveIsARun(s: State, c: CallId, kid: Option<string>, now: Time, answer: Option<JwkSet>, stored: Time)
    returns (acts: seq<Action>, s': State)
    requires c !in s.calls && s.clock <= now <= stored
    ensures Takes(Step, s, [Begin(c, kid), Read(c)] + acts, s')
    ensures acts ==
      if Look(s.cache, kid).Some? then []
      else if !Due(s, kid, now) then [Decide(c, now), FallBack(c)]
      else if answer.Some? then [Decide(c, now), FetchOk(c, answer.value), Store(c, stored), Recheck(c)]
      else [Decide(c, now), FetchErr(c), FallBack(c)]
    ensures var (cache, result) := Resolved(s.cache, s.fetcher, s.ttl, kid, now, answer, stored);
      s'.cache == cache && s'.calls == s.calls[c := Call(kid, Finished(result))]
  {
    if Look(s.cache, kid).Some? {
      HitActs(s, c, kid);
      acts, s' := [], Resolving(s, c, kid, Finished(Key(Look(s.cache, kid).value)));
      assert [Begin(c, kid), Read(c)] + acts == [Begin(c, kid), Read(c)];
    } else if Due(s, kid, now) && answer.Some? {
      acts, s' := FetchRun(s, c, kid, now, answer.value, stored);
    } else {
      acts, s' := FallBackRun(s, c, kid, now);
    }
  }

  /** The cached set has a usable entry `key` that the token's `kid` names. */
  ghost predicate Offers(cache: Option<Cached>, kid: Option<string>, key: Jwk) {
    cache.Some? && exists i: nat :: Names(cache.value.jwks, kid, i) && cache.value.jwks[i] == key && key.usable
  }

  lemma LookIsOffer(cache: Option<Cached>, kid: Option<string>)
    ensures forall key :: Look(cache, kid) == Some(key) <==> Offers(cache, kid, key)
  {
    if cache.Some? {
      forall key ensures Look(cache, kid) == Some(key) <==> Offers(cache, kid, key) {
        PickKeyMatchesKid(cache.value.jwks, kid, key);
      }
    }
  }

  class KeySet {
    var cache: Option<Cached>
    const fetcher: bool
    const ttl: Time

    constructor Static(jwks: JwkSet, now: Time)
      ensures cache == Some(Cached(jwks, now)) && !fetcher && ttl == 0
    {
      cache, fetcher, ttl := Some(Cached(jwks, now)), false, 0;
    }

    constructor Remote(ttl: Time)
      ensures cache == None && fetcher && this.ttl == ttl
    {
      cache, fetcher, this.ttl := None, true, ttl;
    }

    /** `resolve`, run alone. A hit never fetches; a miss fetches only when stale; an error keeps the last good set. */
    method Resolve(kid: Option<string>, now: Time, answer: Option<JwkSet>, stored: Time) returns (r: Result)
      modifies this
      ensures (cache, r) == Resolved(old(cache), fetcher, ttl, kid, now, answer, stored)
      ensures
        var hit := exists key :: Offers(old(cache), kid, key);
        var due := fetcher && (old(cache).None? || now >= old(cache).value.fetchedAt + ttl);
        cache == if !hit && due && answer.Some? then Some(Cached(answer.value, stored)) else old(cache)
      ensures forall key :: r == Key(key) <==> Offers(cache, kid, key)
      ensures r == SourceUnavailable <==> cache.None?
    {
      LookIsOffer(cache, kid);
      if answer.Some? {
        LookIsOffer(Some(Cached(answer.value, stored)), kid);
      }
      if cache.Some? {
        var key := PickKey(cache.value.jwks, kid);
        if key.Some? {
          return Key(key.value);
        }
      }
      if fetcher && Stale(cache, ttl, now) {
        if answer.Some? {
          cache := Some(Cached(answer.value, stored));
          return AnswerOr(PickKey(answer.value, kid), UnknownKid);
        }
      }
      if cache.Some? {
        return AnswerOr(PickKey(cache.value.jwks, kid), UnknownKid);
      }
      return SourceUnavailable;
    }
  }
}
