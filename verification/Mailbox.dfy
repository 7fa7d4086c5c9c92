/** Message listing and pagination of src/api.rs. */
module Mailbox {
  import opened Prelude

  type MessageId = nat

  datatype Direction = Inbound | Outbound

  datatype Filter = OnlyInbound | OnlyOutbound | Both

  datatype Link = Link(messageId: MessageId, mailbox: string)

  datatype Item = Item(id: MessageId, direction: Option<Direction>)

  // ---------------------------------------------------------------------------
  // Sort and dedup
  // ---------------------------------------------------------------------------

  ghost predicate NonDecreasing(s: seq<nat>) {
    forall i, j :: 0 <= i < j < |s| ==> s[i] <= s[j]
  }

  ghost predicate StrictlyIncreasing(s: seq<nat>) {
    forall i, j :: 0 <= i < j < |s| ==> s[i] < s[j]
  }

  function Insert(x: nat, s: seq<nat>): (r: seq<nat>)
    requires NonDecreasing(s)
    ensures NonDecreasing(r) && |r| == |s| + 1
    ensures forall y :: y in r <==> y == x || y in s
  {
    if s == [] || x <= s[0] then [x] + s
    else
      assert s == [s[0]] + s[1..];
      var rest := Insert(x, s[1..]);
      assert forall i :: 0 <= i < |rest| ==> rest[i] in rest;
      [s[0]] + rest
  }

  /** What `sort_unstable` leaves: the same ids, as many of them, in order. */
  function Sorted(s: seq<nat>): (r: seq<nat>)
    ensures NonDecreasing(r) && |r| == |s|
    ensures forall y :: y in r <==> y in s
  {
    if s == [] then []
    else
      assert s == [s[0]] + s[1..];
      Insert(s[0], Sorted(s[1..]))
  }

  /** `dedup`: drop each element equal to its predecessor. */
  method Dedup(s: seq<nat>) returns (r: seq<nat>)
    requires NonDecreasing(s)
    ensures StrictlyIncreasing(r) && forall x :: x in r <==> x in s
  {
    r := [];
    var i := 0;
    while i < |s|
      invariant 0 <= i <= |s| && StrictlyIncreasing(r)
      invariant forall x :: x in r <==> x in s[..i]
      invariant r != [] ==> r[|r| - 1] in s[..i]
      invariant i > 0 ==> r != [] && r[|r| - 1] == s[i - 1]
    {
      assert s[..i + 1] == s[..i] + [s[i]];
      if i == 0 || s[i] != s[i - 1] {
        r := r + [s[i]];
      }
      i := i + 1;
    }
    assert s[..i] == s;
  }

  // ---------------------------------------------------------------------------
  // Listing
  // ---------------------------------------------------------------------------

  predicate WantsIn(filter: Filter) {
    filter != OnlyOutbound
  }

  predicate WantsOut(filter: Filter) {
    filter != OnlyInbound
  }

  ghost predicate Linked(links: seq<Link>, mailbox: string, id: MessageId) {
    exists i :: 0 <= i < |links| && links[i] == Link(id, mailbox)
  }

  /** The message is linked to the mailbox in a direction the filter asks for. */
  ghost predicate Listed(inbounds: seq<Link>, outbounds: seq<Link>, mailbox: string, filter: Filter, id: MessageId) {
    (WantsIn(filter) && Linked(inbounds, mailbox, id)) || (WantsOut(filter) && Linked(outbounds, mailbox, id))
  }

  /** A wanted outbound link decides the label. */
  ghost function Label(outbounds: seq<Link>, mailbox: string, filter: Filter, id: MessageId): Direction {
    if WantsOut(filter) && Linked(outbounds, mailbox, id) then Outbound else Inbound
  }

  function Ids(items: seq<Item>): (ids: seq<MessageId>)
    ensures |ids| == |items| && forall i :: 0 <= i < |ids| ==> ids[i] == items[i].id
  {
    seq(|items|, i requires 0 <= i < |items| => items[i].id)
  }

  /** The set specification of a listing. */
  ghost predicate IsListing(items: seq<Item>, inbounds: seq<Link>, outbounds: seq<Link>, messages: set<MessageId>,
                            mailbox: string, filter: Filter) {
    && StrictlyIncreasing(Ids(items))
    && (forall id :: id in Ids(items) <==> id in messages && Listed(inbounds, outbounds, mailbox, filter, id))
    && (forall i :: 0 <= i < |items| ==> items[i].direction == Some(Label(outbounds, mailbox, filter, items[i].id)))
  }

  /** One of the two link scans: collect ids and label them, a later label replacing an earlier one. */
  method Gather(links: seq<Link>, mailbox: string, tag: Direction, ids: seq<MessageId>, dirs: map<MessageId, Direction>)
    returns (ids': seq<MessageId>, dirs': map<MessageId, Direction>)
    ensures forall id :: id in ids' <==> id in ids || Linked(links, mailbox, id)
    ensures forall id :: id in dirs' <==> id in dirs || Linked(links, mailbox, id)
    ensures forall id :: id in dirs' ==> dirs'[id] == if Linked(links, mailbox, id) then tag else dirs[id]
  {
    ids', dirs' := ids, dirs;
    var i := 0;
    while i < |links|
      invariant 0 <= i <= |links|
      invariant forall id :: id in ids' <==> id in ids || Linked(links[..i], mailbox, id)
      invariant forall id :: id in dirs' <==> id in dirs || Linked(links[..i], mailbox, id)
      invariant forall id :: id in dirs' ==> dirs'[id] == if Linked(links[..i], mailbox, id) then tag else dirs[id]
    {
      LinkedNext(links, mailbox, i);
      if links[i].mailbox == mailbox {
        ids' := ids' + [links[i].messageId];
        dirs' := dirs'[links[i].messageId := tag];
      }
      i := i + 1;
    }
    assert links[..i] == links;
  }

  lemma LinkedNext(links: seq<Link>, mailbox: string, i: nat)
    requires i < |links|
    ensures forall id ::
      Linked(links[..i + 1], mailbox, id) <==> Linked(links[..i], mailbox, id) || links[i] == Link(id, mailbox)
  {
    forall id
      ensures Linked(links[..i + 1], mailbox, id) <==> Linked(links[..i], mailbox, id) || links[i] == Link(id, mailbox)
    {
      if Linked(links[..i], mailbox, id) {
        var k :| 0 <= k < i && links[..i][k] == Link(id, mailbox);
        assert links[..i + 1][k] == Link(id, mailbox);
      }
      if links[i] == Link(id, mailbox) {
        assert links[..i + 1][i] == Link(id, mailbox);
      }
      if Linked(links[..i + 1], mailbox, id) {
        var k :| 0 <= k < i + 1 && links[..i + 1][k] == Link(id, mailbox);
        if k < i {
          assert links[..i][k] == Link(id, mailbox);
        }
      }
    }
  }

  /** The scans the filter asks for, inbound first. */
  method GatherWanted(inbounds: seq<Link>, outbounds: seq<Link>, mailbox: string, filter: Filter)
    returns (ids: seq<MessageId>, dirs: map<MessageId, Direction>)
    ensures forall id :: id in ids <==>
      || (filter != OnlyOutbound && Linked(inbounds, mailbox, id))
      || (filter != OnlyInbound && Linked(outbounds, mailbox, id))
    ensures forall id :: id in dirs ==>
      dirs[id] == if filter != OnlyInbound && Linked(outbounds, mailbox, id) then Outbound else Inbound
    ensures forall id :: id in ids <==> Listed(inbounds, outbounds, mailbox, filter, id)
    ensures forall id :: id in dirs <==> Listed(inbounds, outbounds, mailbox, filter, id)
    ensures forall id :: id in dirs ==> dirs[id] == Label(outbounds, mailbox, filter, id)
  {
    ids, dirs := [], map[];
    if WantsIn(filter) {
      ids, dirs := Gather(inbounds, mailbox, Inbound, ids, dirs);
    }
    if WantsOut(filter) {
      ids, dirs := Gather(outbounds, mailbox, Outbound, ids, dirs);
    }
  }

  /** Look each id up and label it. A link whose message is gone is skipped, and so is one whose lookup fails for any
      other reason. */
  method Attach(ids: seq<MessageId>, messages: set<MessageId>, failing: set<MessageId>, dirs: map<MessageId, Direction>)
    returns (items: seq<Item>)
    requires StrictlyIncreasing(ids) && forall i :: 0 <= i < |ids| ==> ids[i] in dirs
    ensures StrictlyIncreasing(Ids(items))
    ensures forall id :: id in Ids(items) <==> id in ids && id in messages && id !in failing
    ensures forall k :: 0 <= k < |items| ==> items[k].id in dirs && items[k].direction == Some(dirs[items[k].id])
  {
    items := [];
    var i := 0;
    while i < |ids|
      invariant 0 <= i <= |ids| && StrictlyIncreasing(Ids(items))
      invariant forall id :: id in Ids(items) <==> id in ids[..i] && id in messages && id !in failing
      invariant forall k :: 0 <= k < |items| ==> items[k].id in dirs && items[k].direction == Some(dirs[items[k].id])
      invariant forall k :: 0 <= k < |items| && i < |ids| ==> items[k].id < ids[i]
    {
      var id := ids[i];
      assert ids[..i + 1] == ids[..i] + [id];
      if id in messages && id !in failing {
        ghost var before := Ids(items);
        items := items + [Item(id, Some(dirs[id]))];
        assert Ids(items) == before + [id];
      }
      i := i + 1;
    }
    assert ids[..i] == ids;
  }

  /** `load_mailbox_messages`: gather, sort, dedup, and skip messages that cannot be loaded. A failed link query
      ends it; `failing` are the messages whose lookup meets a database error, and `fold` is `to_lowercase`. */
  method LoadMailboxMessages(inbounds: seq<Link>, outbounds: seq<Link>, messages: set<MessageId>, mailboxId: string,
                             filter: Filter,
                             fold: string -> string, inOk: bool, outOk: bool, failing: set<MessageId>)
    returns (r: Option<seq<Item>>)
    ensures r.Some? ==> IsListing(r.value, inbounds, outbounds, messages - failing, fold(mailboxId), filter)
    ensures match filter
      case OnlyInbound =>
        && (r.None? <==> !inOk)
        && (r.Some? ==> forall x :: x in r.value <==>
              x.id in messages - failing && Linked(inbounds, fold(mailboxId), x.id) && x.direction == Some(Inbound))
      case OnlyOutbound =>
        && (r.None? <==> !outOk)
        && (r.Some? ==> forall x :: x in r.value <==>
              x.id in messages - failing && Linked(outbounds, fold(mailboxId), x.id) && x.direction == Some(Outbound))
      case Both =>
        && (r.None? <==> !inOk || !outOk)
        && (r.Some? ==> forall x :: x in r.value <==>
              && x.id in messages - failing
              && (Linked(inbounds, fold(mailboxId), x.id) || Linked(outbounds, fold(mailboxId), x.id))
              && x.direction == Some(if Linked(outbounds, fold(mailboxId), x.id) then Outbound else Inbound))
  {
    var mailbox := fold(mailboxId);
    if (WantsIn(filter) && !inOk) || (WantsOut(filter) && !outOk) {
      return None;
    }
    var ids, dirs := GatherWanted(inbounds, outbounds, mailbox, filter);
    var distinct := Dedup(Sorted(ids));
    assert forall i :: 0 <= i < |distinct| ==> distinct[i] in distinct;
    var items := Attach(distinct, messages, failing, dirs);
    assert forall i :: 0 <= i < |items| ==> Ids(items)[i] in Ids(items);
    r := Some(items);
    ListedItems(items, inbounds, outbounds, messages - failing, mailbox, filter);
  }

  /** A failed lookup drops its message without a word, and nothing else: the listing is the full one without
      exactly the messages that could not be loaded. */
  lemma FailedLookupsAreDropped(full: seq<Item>, got: seq<Item>, inbounds: seq<Link>, outbounds: seq<Link>,
                                messages: set<MessageId>, failing: set<MessageId>, mailbox: string, filter: Filter)
    requires IsListing(full, inbounds, outbounds, messages, mailbox, filter)
    requires IsListing(got, inbounds, outbounds, messages - failing, mailbox, filter)
    ensures forall x :: x in got <==> x in full && x.id !in failing
  {
    ListedItems(full, inbounds, outbounds, messages, mailbox, filter);
    ListedItems(got, inbounds, outbounds, messages - failing, mailbox, filter);
  }

  lemma ListedItems(items: seq<Item>, inbounds: seq<Link>, outbounds: seq<Link>, messages: set<MessageId>,
                    mailbox: string,
                    filter: Filter)
    requires IsListing(items, inbounds, outbounds, messages, mailbox, filter)
    ensures forall x :: x in items <==>
      && x.id in messages && Listed(inbounds, outbounds, mailbox, filter, x.id)
      && x.direction == Some(Label(outbounds, mailbox, filter, x.id))
  {
    forall x | x in items ensures x.id in Ids(items) {
      var i :| 0 <= i < |items| && items[i] == x;
      assert Ids(items)[i] == x.id;
    }
    forall x: Item | x.id in Ids(items) && x.direction == Some(Label(outbounds, mailbox, filter, x.id))
      ensures x in items
    {
      var i :| 0 <= i < |items| && Ids(items)[i] == x.id;
      assert items[i] == x;
    }
  }

  /** The listing of both directions is the union of the inbox and the sent listing. */
  lemma BothIsUnion(both: seq<Item>, inbox: seq<Item>, sent: seq<Item>, inbounds: seq<Link>, outbounds: seq<Link>,
                    messages: set<MessageId>, mailbox: string, id: MessageId)
    requires IsListing(both, inbounds, outbounds, messages, mailbox, Both)
    requires IsListing(inbox, inbounds, outbounds, messages, mailbox, OnlyInbound)
    requires IsListing(sent, inbounds, outbounds, messages, mailbox, OnlyOutbound)
    ensures id in Ids(both) <==> id in Ids(inbox) || id in Ids(sent)
  {
    assert Listed(inbounds, outbounds, mailbox, Both, id) <==>
      Listed(inbounds, outbounds, mailbox, OnlyInbound, id) || Listed(inbounds, outbounds, mailbox, OnlyOutbound, id);
  }

  ghost predicate SameElements(a: seq<nat>, b: seq<nat>) {
    forall x :: x in a <==> x in b
  }

  lemma SameHead(a: seq<nat>, b: seq<nat>)
    requires StrictlyIncreasing(a) && StrictlyIncreasing(b) && SameElements(a, b) && a != []
    ensures b != [] && a[0] == b[0]
  {
    assert a[0] in b;
    var i :| 0 <= i < |b| && b[i] == a[0];
    assert b[0] in a;
    var j :| 0 <= j < |a| && a[j] == b[0];
  }

  lemma TailElements(a: seq<nat>, x: nat)
    requires StrictlyIncreasing(a) && a != []
    ensures x in a[1..] <==> x in a && x != a[0]
  {
    assert a == [a[0]] + a[1..];
  }

  lemma {:induction false} IncreasingUnique(a: seq<nat>, b: seq<nat>)
    requires StrictlyIncreasing(a) && StrictlyIncreasing(b) && SameElements(a, b)
    ensures a == b
    decreases |a|
  {
    if a != [] {
      SameHead(a, b);
      forall x ensures x in a[1..] <==> x in b[1..] {
        TailElements(a, x);
        TailElements(b, x);
      }
      IncreasingUnique(a[1..], b[1..]);
      assert a == [a[0]] + a[1..] && b == [b[0]] + b[1..];
    } else if b != [] {
      SameHead(b, a);
    }
  }

  /** The specification leaves no choice: a mailbox has one listing. */
  lemma ListingIsUnique(x: seq<Item>, y: seq<Item>, inbounds: seq<Link>, outbounds: seq<Link>, messages: set<MessageId>,
                        mailbox: string, filter: Filter)
    requires IsListing(x, inbounds, outbounds, messages, mailbox, filter)
    requires IsListing(y, inbounds, outbounds, messages, mailbox, filter)
    ensures x == y
  {
    IncreasingUnique(Ids(x), Ids(y));
    forall i | 0 <= i < |x| ensures x[i] == y[i] {
      assert Ids(x)[i] == Ids(y)[i];
    }
  }

  // ---------------------------------------------------------------------------
  // Pagination
  // ---------------------------------------------------------------------------

  datatype Page<T> = Page(items: seq<T>, limit: nat, offset: nat, nextOffset: Option<nat>)

  const DEFAULT_LIMIT: nat := 50
  const MAX_LIMIT: nat := 200
  const MAX_OFFSET: nat := 0x7FFF_FFFF_FFFF_FFFF

  /** `page_params`: `None` is a missing or malformed parameter. */
  function PageParams(limit: Option<U64>, offset: Option<U64>): (r: (U64, U64))
    ensures 1 <= r.0 <= 200 && r.1 <= 0x7FFF_FFFF_FFFF_FFFF
    ensures limit.None? ==> r.0 == 50
    ensures limit.Some? && 1 <= limit.value <= 200 ==> r.0 == limit.value
    ensures limit.Some? && limit.value == 0 ==> r.0 == 1
    ensures limit.Some? && limit.value > 200 ==> r.0 == 200
    ensures offset.None? ==> r.1 == 0
    ensures offset.Some? && offset.value <= 0x7FFF_FFFF_FFFF_FFFF ==> r.1 == offset.value
    ensures offset.Some? && offset.value > 0x7FFF_FFFF_FFFF_FFFF ==> r.1 == 0x7FFF_FFFF_FFFF_FFFF
  {
    var n := if limit.Some? then limit.value else DEFAULT_LIMIT;
    (if n < 1 then 1 else Min(n, MAX_LIMIT), Min(if offset.Some? then offset.value else 0, MAX_OFFSET))
  }

  /** `Page::from_all`, with the saturating addition of `usize`. */
  function FromAll<T>(rows: seq<T>, limit: U64, offset: U64): (page: Page<T>)
    requires |rows| <= U64_MAX
    ensures page.limit == limit && page.offset == offset
    ensures page.nextOffset.Some? ==> page.nextOffset.value == offset + limit < |rows|
    ensures page.nextOffset.None? ==> offset + limit >= |rows|
    ensures page.items == rows[Min(offset, |rows|)..Min(offset + limit, |rows|)]
  {
    var end: U64 := Min(offset + limit, U64_MAX);
    var from := Min(offset, |rows|);
    Page(rows[from..from + Min(limit, |rows| - from)], limit, offset, if |rows| > end then Some(end) else None)
  }

  /** The pages a client sees when it follows `next_offset`. */
  function Follow<T>(rows: seq<T>, limit: U64, offset: U64): seq<Page<T>>
    requires |rows| <= U64_MAX && limit >= 1
    decreases |rows| - offset
  {
    var page := FromAll(rows, limit, offset);
    if page.nextOffset.None? then [page] else [page] + Follow(rows, limit, page.nextOffset.value)
  }

  function Concat<T>(pages: seq<Page<T>>): seq<T> {
    if pages == [] then [] else pages[0].items + Concat(pages[1..])
  }

  lemma {:induction false} FollowFrom<T>(rows: seq<T>, limit: U64, offset: U64)
    requires |rows| <= U64_MAX && limit >= 1 && offset <= |rows|
    ensures Concat(Follow(rows, limit, offset)) == rows[offset..]
    ensures |Follow(rows, limit, offset)| >= 1
    ensures (|Follow(rows, limit, offset)| - 1) * limit < |rows| - offset || |Follow(rows, limit, offset)| == 1
    ensures |rows| - offset <= |Follow(rows, limit, offset)| * limit
    decreases |rows| - offset
  {
    var page := FromAll(rows, limit, offset);
    var pages := Follow(rows, limit, offset);
    if page.nextOffset.Some? {
      var rest := Follow(rows, limit, offset + limit);
      FollowFrom(rows, limit, offset + limit);
      assert pages == [page] + rest && pages[1..] == rest;
      assert rows[offset..] == rows[offset..offset + limit] + rows[offset + limit..];
      MulSucc(|rest|, limit);
    } else {
      assert pages == [page] && pages[1..] == [];
    }
  }

  lemma MulSucc(n: nat, limit: nat)
    ensures (n + 1) * limit == n * limit + limit
    ensures n >= 1 ==> n * limit == (n - 1) * limit + limit
  {
  }

  /** With a limit of at least 1, following `next_offset` from 0 yields every row once, in order, in
      ceil(n / limit) pages, or one empty page if there is no row. */
  lemma FollowingPagesVisitsEveryRow<T>(rows: seq<T>, limit: U64)
    requires |rows| <= U64_MAX && limit >= 1
    ensures Concat(Follow(rows, limit, 0)) == rows
    ensures |Follow(rows, limit, 0)| == if rows == [] then 1 else (|rows| + limit - 1) / limit
  {
    FollowFrom(rows, limit, 0);
    var n := |Follow(rows, limit, 0)|;
    if rows != [] {
      MulSucc(n, limit);
      CeilDiv(|rows|, limit, n);
    }
  }

  lemma CeilDiv(rows: nat, limit: nat, n: nat)
    requires limit >= 1 && n >= 1 && (n - 1) * limit < rows <= n * limit
    ensures (rows + limit - 1) / limit == n
  {
    var r := rows - (n - 1) * limit - 1;
    assert rows + limit - 1 == n * limit + r by { MulSucc(n, limit); }
    assert 0 <= r < limit by { MulSucc(n, limit); }
    DivUnique(n, limit, r);
  }

  lemma MulLe(a: nat, b: nat, d: nat)
    requires a <= b
    ensures a * d <= b * d
  {
  }

  lemma DivUnique(q: nat, d: nat, r: nat)
    requires r < d
    ensures (q * d + r) / d == q
  {
    var x := (q * d + r) / d;
    assert q * d + r == x * d + (q * d + r) % d;
    if x < q {
      MulLe(x + 1, q, d);
    } else if x > q {
      MulLe(q + 1, x, d);
    }
  }

  /** The mailbox route takes the limit unclamped: a page makes progress exactly when the limit is at least 1, and at
      limit 0 `next_offset` points back at the same page. */
  lemma ProgressNeedsALimit<T>(rows: seq<T>, limit: U64, offset: U64)
    requires |rows| <= U64_MAX && FromAll(rows, limit, offset).nextOffset.Some?
    ensures FromAll(rows, limit, offset).nextOffset.value > offset <==> limit >= 1
    ensures limit == 0 ==>
      FromAll(rows, limit, offset).nextOffset == Some(offset) && FromAll(rows, limit, offset).items == []
  {
  }
}
