/** Small shared vocabulary: optional values, duplicate-free sequences, whole runs. */
module Prelude {

  datatype Option<+T> = None | Some(value: T)

  const U64_MAX: nat := 0xFFFF_FFFF_FFFF_FFFF

  /** The range of Rust's `u64`. */
  type U64 = n: nat | n <= U64_MAX

  ghost predicate Distinct<T>(s: seq<T>) {
    forall i, j :: 0 <= i < j < |s| ==> s[i] != s[j]
  }

  function Min(a: int, b: int): int {
    if a <= b then a else b
  }

  lemma TakeNext<T>(s: seq<T>, i: nat)
    requires i < |s|
    ensures s[..i + 1] == s[..i] + [s[i]]
  {
  }

  lemma TakeAll<T>(s: seq<T>)
    ensures s[..|s|] == s
  {
  }

  /** A duplicate-free sequence drawn from a finite set is no longer than the set. */
  lemma {:induction false} DistinctBound<T>(s: seq<T>, universe: set<T>)
    requires Distinct(s)
    requires forall x :: x in s ==> x in universe
    ensures |s| <= |universe|
  {
    if s != [] {
      var last := s[|s| - 1];
      var rest := s[..|s| - 1];
      forall x | x in rest ensures x in universe - {last} {
        var i :| 0 <= i < |rest| && rest[i] == x;
        assert s[i] == x;
      }
      assert last in s;
      DistinctBound(rest, universe - {last});
    }
  }

  // ---------------------------------------------------------------------------
  // Transition systems
  // ---------------------------------------------------------------------------

  datatype Run<S, A> = Run(states: seq<S>, acts: seq<A>)

  /** The run starts in an initial state and takes steps of the system only. */
  ghost predicate Follows<S, A>(init: S -> bool, step: (S, A, S) -> bool, r: Run<S, A>) {
    && |r.states| == |r.acts| + 1
    && init(r.states[0])
    && forall i :: 0 <= i < |r.acts| ==> step(r.states[i], r.acts[i], r.states[i + 1])
  }

  lemma Extend<S, A>(init: S -> bool, step: (S, A, S) -> bool, r: Run<S, A>, a: A, s': S) returns (r': Run<S, A>)
    requires Follows(init, step, r) && step(r.states[|r.acts|], a, s')
    ensures Follows(init, step, r') && r' == Run(r.states + [s'], r.acts + [a])
  {
    r' := Run(r.states + [s'], r.acts + [a]);
    forall i | 0 <= i < |r'.acts| ensures step(r'.states[i], r'.acts[i], r'.states[i + 1]) {
      if i < |r.acts| {
        assert step(r.states[i], r.acts[i], r.states[i + 1]);
      }
    }
  }

  /** The actions lead from `s` to `s'`. */
  ghost predicate Takes<S(!new), A>(step: (S, A, S) -> bool, s: S, acts: seq<A>, s': S)
    decreases |acts|
  {
    if acts == [] then s == s'
    else
      var last := |acts| - 1;
      exists m :: Takes(step, s, acts[..last], m) && step(m, acts[last], s')
  }

  lemma TakesNext<S(!new), A>(step: (S, A, S) -> bool, s: S, acts: seq<A>, m: S, a: A, s': S)
    requires Takes(step, s, acts, m) && step(m, a, s')
    ensures Takes(step, s, acts + [a], s')
  {
    assert (acts + [a])[..|acts|] == acts;
  }

  /** Some actions do. */
  ghost predicate Leads<S(!new), A(!new)>(step: (S, A, S) -> bool, s: S, s': S) {
    exists acts :: Takes(step, s, acts, s')
  }

  lemma Here<S(!new), A(!new)>(step: (S, A, S) -> bool, s: S)
    ensures Leads(step, s, s)
  {
    assert Takes(step, s, [], s);
  }

  lemma Then<S(!new), A(!new)>(step: (S, A, S) -> bool, s: S, m: S, a: A, s': S)
    requires Leads(step, s, m) && step(m, a, s')
    ensures Leads(step, s, s')
  {
    var acts :| Takes(step, s, acts, m);
    TakesNext(step, s, acts, m, a, s');
  }

  lemma {:induction false} FirstIn<S(!new), A(!new)>(step: (S, A, S) -> bool, s: S, a: A, m: S, acts: seq<A>, s': S)
    requires step(s, a, m) && Takes(step, m, acts, s')
    ensures Takes(step, s, [a] + acts, s')
    decreases |acts|
  {
    if acts == [] {
      assert Takes(step, s, [], s);
      TakesNext(step, s, [], s, a, m);
      assert [] + [a] == [a] + acts;
    } else {
      var last := |acts| - 1;
      var k :| Takes(step, m, acts[..last], k) && step(k, acts[last], s');
      FirstIn(step, s, a, m, acts[..last], k);
      TakesNext(step, s, [a] + acts[..last], k, acts[last], s');
      assert [a] + acts[..last] + [acts[last]] == [a] + acts;
    }
  }

  lemma First<S(!new), A(!new)>(step: (S, A, S) -> bool, s: S, a: A, m: S, s': S)
    requires step(s, a, m) && Leads(step, m, s')
    ensures Leads(step, s, s')
  {
    var acts :| Takes(step, m, acts, s');
    FirstIn(step, s, a, m, acts, s');
  }
}
