/** The string operations the policy code uses, on sequences of characters. */
module Text {
  function LowerChar(c: char): char {
    if 'A' <= c <= 'Z' then ((c as int) + 32) as char else c
  }

  /** The letters `A` to `Z` and no other character change, to `a` to `z` in order. */
  lemma LowerCharTable(c: char)
    ensures 'A' <= c <= 'Z' ==> LowerChar(c) as int - 'a' as int == c as int - 'A' as int
    ensures !('A' <= c <= 'Z') ==> LowerChar(c) == c
  {
  }

  /** `to_ascii_lowercase`. */
  function Lower(s: string): (r: string)
    ensures |r| == |s| && forall i :: 0 <= i < |s| ==> r[i] == LowerChar(s[i])
  {
    seq(|s|, i requires 0 <= i < |s| => LowerChar(s[i]))
  }

  lemma LowerTwice(s: string)
    ensures Lower(Lower(s)) == Lower(s)
  {
  }

  /** Unicode `White_Space`, which `str::trim` strips. */
  predicate IsSpace(c: char) {
    var n := c as int;
    || 0x09 <= n <= 0x0D || n == 0x20 || n == 0x85 || n == 0xA0 || n == 0x1680
    || 0x2000 <= n <= 0x200A || n == 0x2028 || n == 0x2029 || n == 0x202F || n == 0x205F || n == 0x3000
  }

  /** Among the ASCII characters: blank, tab, line feed, vertical tab, form feed and carriage return. */
  lemma AsciiSpaces(c: char)
    requires c as int < 128
    ensures IsSpace(c) <==> c as int in {32, 9, 10, 11, 12, 13}
  {
  }

  /** `trim_start_matches`. */
  function TrimStart(s: string, drop: char -> bool): string {
    if s != [] && drop(s[0]) then TrimStart(s[1..], drop) else s
  }

  function TrimEnd(s: string, drop: char -> bool): string {
    if s != [] && drop(s[|s| - 1]) then TrimEnd(s[..|s| - 1], drop) else s
  }

  /** `trim_matches`. */
  function TrimBoth(s: string, drop: char -> bool): string {
    TrimEnd(TrimStart(s, drop), drop)
  }

  /** `str::trim`. */
  function Trim(s: string): string {
    TrimBoth(s, IsSpace)
  }

  // ---------------------------------------------------------------------------
  // What trimming leaves
  // ---------------------------------------------------------------------------

  /** `s[from..to]` is what is left of `s` when characters to drop are taken off both ends. */
  ghost predicate IsMiddle(s: string, drop: char -> bool, from: nat, to: nat) {
    && from <= to <= |s|
    && (forall i :: 0 <= i < from ==> drop(s[i]))
    && (forall i :: to <= i < |s| ==> drop(s[i]))
    && (from < to ==> !drop(s[from]) && !drop(s[to - 1]))
  }

  lemma {:induction false} TrimStartDrops(s: string, drop: char -> bool) returns (from: nat)
    ensures from <= |s| && TrimStart(s, drop) == s[from..]
    ensures (forall i :: 0 <= i < from ==> drop(s[i])) && (from < |s| ==> !drop(s[from]))
  {
    if s != [] && drop(s[0]) {
      var rest := TrimStartDrops(s[1..], drop);
      from := rest + 1;
      assert forall i :: 1 <= i < |s| ==> s[i] == s[1..][i - 1];
    } else {
      from := 0;
    }
  }

  lemma {:induction false} TrimEndDrops(s: string, drop: char -> bool) returns (to: nat)
    ensures to <= |s| && TrimEnd(s, drop) == s[..to]
    ensures (forall i :: to <= i < |s| ==> drop(s[i])) && (0 < to ==> !drop(s[to - 1]))
  {
    if s != [] && drop(s[|s| - 1]) {
      var init := s[..|s| - 1];
      to := TrimEndDrops(init, drop);
      assert forall i :: 0 <= i < |init| ==> s[i] == init[i];
    } else {
      to := |s|;
    }
  }

  lemma TrimIsMiddle(s: string, drop: char -> bool) returns (from: nat, to: nat)
    ensures IsMiddle(s, drop, from, to) && TrimBoth(s, drop) == s[from..to]
  {
    from := TrimStartDrops(s, drop);
    var rest := TrimStart(s, drop);
    var n := TrimEndDrops(rest, drop);
    to := from + n;
    assert forall i :: 0 <= i < |rest| ==> rest[i] == s[from + i];
    forall i | to <= i < |s| ensures drop(s[i]) {
      assert s[i] == rest[i - from];
    }
  }

  /** Nothing is taken off a string whose ends stay. */
  lemma TrimKeeps(s: string, drop: char -> bool)
    requires s != [] ==> !drop(s[0]) && !drop(s[|s| - 1])
    ensures TrimBoth(s, drop) == s
  {
  }

  lemma TrimTwice(s: string)
    ensures Trim(Trim(s)) == Trim(s)
    ensures Trim(s) != "" ==> !IsSpace(Trim(s)[0]) && !IsSpace(Trim(s)[|Trim(s)| - 1])
  {
    var from, to := TrimIsMiddle(s, IsSpace);
    TrimKeeps(Trim(s), IsSpace);
  }

  /** The position of the first `c`, or the length. */
  function IndexOf(s: string, c: char): (i: nat)
    ensures i <= |s| && c !in s[..i] && (i < |s| ==> s[i] == c)
  {
    if s == [] || s[0] == c then 0
    else
      var i := 1 + IndexOf(s[1..], c);
      assert s[..i] == [s[0]] + s[1..][..i - 1];
      i
  }
}
