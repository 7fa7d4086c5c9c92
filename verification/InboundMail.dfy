/** The inbound SMTP handler of src/email.rs, one connection at work: accumulated recipients, Message-ID
    de-duplication, inbound links and forwarding. */
module InboundMail {
  import opened Prelude
  import opened Text

  type MessageId = nat

  /** `byHandler` tells messages stored by this handler from those the outbound producers store. */
  datatype Message = Message(header: Option<string>, raw: seq<bv8>, byHandler: bool)

  datatype Link = Link(messageId: MessageId, rcptTo: string)

  /** An enqueued forward: the mailbox that received the message is its sender. */
  datatype Forward = Forward(messageId: MessageId, senderId: string, rcptTo: string)

  datatype Store = Store(messages: map<MessageId, Message>, nextId: MessageId, links: seq<Link>, forwards: seq<Forward>)

  datatype Email = Email(header: Option<string>, raw: seq<bv8>)

  /** What happens to a message insert: it is stored, it fails, or it is stored although an error is reported. */
  datatype StoreOutcome = Stored | NotStored | Unreported

  /** How the database will answer: the lookup, the message insert, how many link inserts succeed before one fails, and
      the recipients, by position, whose mailbox lookup and forward insert succeed. */
  datatype Answers = Answers(lookupOk: bool, store: StoreOutcome, linksOk: nat, forwardOk: set<nat>)

  /** Provisioned addresses, each with its forwarding address if it has one. */
  type Mailboxes = map<string, Option<string>>

  const UNKNOWN := "unknown"

  /** The de-duplication key: the trimmed Message-ID, if it is not blank. */
  function DedupKey(header: Option<string>): Option<string> {
    if header.Some? && Trim(header.value) != "" then Some(Trim(header.value)) else None
  }

  function Targets(recipients: seq<string>): seq<string> {
    if recipients == [] then [UNKNOWN] else recipients
  }

  function LinksTo(id: MessageId, rcpts: seq<string>): (links: seq<Link>)
    ensures |links| == |rcpts| && forall i :: 0 <= i < |links| ==> links[i] == Link(id, rcpts[i])
  {
    seq(|rcpts|, i requires 0 <= i < |rcpts| => Link(id, rcpts[i]))
  }

  /** The forward of one recipient, if its mailbox has one and it could be enqueued. */
  function ForwardOf(id: MessageId, rcpt: string, mailboxes: Mailboxes, ok: bool): seq<Forward> {
    if ok && rcpt in mailboxes && mailboxes[rcpt].Some? then [Forward(id, rcpt, mailboxes[rcpt].value)] else []
  }

  function ForwardsOf(id: MessageId, rcpts: seq<string>, mailboxes: Mailboxes, ok: set<nat>): seq<Forward> {
    if rcpts == [] then []
    else
      var last := |rcpts| - 1;
      ForwardsOf(id, rcpts[..last], mailboxes, ok) + ForwardOf(id, rcpts[last], mailboxes, last in ok)
  }

  predicate Increasing(at: seq<nat>) {
    forall j, k :: 0 <= j < k < |at| ==> at[j] < at[k]
  }

  /** One forward for each position of `at`, in order: the message, from the mailbox at that position, to the
      address that mailbox forwards to. */
  ghost predicate AreForwards(forwards: seq<Forward>, id: MessageId, targets: seq<string>, mailboxes: Mailboxes,
                              at: seq<nat>) {
    && |forwards| == |at|
    && forall k :: 0 <= k < |at| ==>
         && at[k] < |targets| && forwards[k].messageId == id && forwards[k].senderId == targets[at[k]]
         && targets[at[k]] in mailboxes && mailboxes[targets[at[k]]] == Some(forwards[k].rcptTo)
  }

  lemma {:induction false} ForwardsMeaning(id: MessageId, rcpts: seq<string>, mailboxes: Mailboxes, ok: set<nat>)
    returns (at: seq<nat>)
    ensures forall i :: i in at <==> i < |rcpts| && i in ok && rcpts[i] in mailboxes && mailboxes[rcpts[i]].Some?
    ensures Increasing(at) && AreForwards(ForwardsOf(id, rcpts, mailboxes, ok), id, rcpts, mailboxes, at)
  {
    if rcpts == [] {
      at := [];
    } else {
      var last := |rcpts| - 1;
      var init := rcpts[..last];
      at := ForwardsMeaning(id, init, mailboxes, ok);
      assert forall k :: 0 <= k < |at| ==> at[k] in at;
      if last in ok && rcpts[last] in mailboxes && mailboxes[rcpts[last]].Some? {
        at := at + [last];
      }
    }
  }

  ghost predicate HasHeader(s: Store, id: MessageId, header: string) {
    id in s.messages && s.messages[id].header == Some(header)
  }

  /** A message that the lookup finds. */
  ghost predicate Reusable(s: Store, e: Email, id: MessageId) {
    DedupKey(e.header).Some? && HasHeader(s, id, DedupKey(e.header).value)
  }

  ghost predicate CanReuse(s: Store, e: Email) {
    exists id: MessageId :: Reusable(s, e, id)
  }

  function WithMessage(s: Store, e: Email): Store {
    s.(messages := s.messages[s.nextId := Message(e.header, e.raw, true)], nextId := s.nextId + 1)
  }

  /** Link recipients in order until a link fails; when all are linked, forward. */
  function LinkedUp(s: Store, id: MessageId, targets: seq<string>, mailboxes: Mailboxes, o: Answers): (Store, bool) {
    var ok := o.linksOk >= |targets|;
    (s.(links := s.links + LinksTo(id, targets[..Min(o.linksOk, |targets|)]),
        forwards := s.forwards + if ok then ForwardsOf(id, targets, mailboxes, o.forwardOk) else []), ok)
  }

  /** What handling one email, run alone, does to the store: reuse or insert the message, then link. */
  ghost predicate Handled(s: Store, recipients: seq<string>, mailboxes: Mailboxes, e: Email, o: Answers, s': Store,
                          ok: bool) {
    if o.lookupOk && CanReuse(s, e) then
      exists id: MessageId :: Reusable(s, e, id) && (s', ok) == LinkedUp(s, id, Targets(recipients), mailboxes, o)
    else match o.store
      case Stored => (s', ok) == LinkedUp(WithMessage(s, e), s.nextId, Targets(recipients), mailboxes, o)
      case NotStored => s' == s && !ok
      case Unreported => s' == WithMessage(s, e) && !ok
  }

  // ---------------------------------------------------------------------------
  // The handler
  // ---------------------------------------------------------------------------

  predicate IsBracket(c: char) {
    c == '<' || c == '>' || c == ' '
  }

  /** `to[from..end]` is the address without the angle brackets and blanks around it. */
  ghost predicate IsBare(to: string, from: nat, end: nat) {
    && from <= end <= |to|
    && (forall i :: 0 <= i < from || end <= i < |to| ==> to[i] in "<> ")
    && (from < end ==> to[from] !in "<> " && to[end - 1] !in "<> ")
  }

  class Handler {
    var recipients: seq<string>
    var messages: map<MessageId, Message>
    var nextId: MessageId
    var links: seq<Link>
    var forwards: seq<Forward>

    ghost function Db(): Store
      reads this
    {
      Store(messages, nextId, links, forwards)
    }

    constructor (store: Store)
      ensures Db() == store && recipients == []
    {
      recipients := [];
      messages, nextId, links, forwards := store.messages, store.nextId, store.links, store.forwards;
    }

    /** `handle_rcpt`: only a provisioned mailbox is accepted, under its cleaned address; `fold` is `to_lowercase`. */
    method HandleRcpt(to: string, mailboxes: Mailboxes, fold: string -> string) returns (accepted: bool)
      modifies this`recipients
      ensures exists from: nat, end: nat ::
        && IsBare(to, from, end)
        && accepted == (fold(to[from..end]) in mailboxes)
        && recipients == if accepted then old(recipients) + [fold(to[from..end])] else old(recipients)
    {
      var clean := fold(TrimBoth(to, IsBracket));
      ghost var from, end := TrimIsMiddle(to, IsBracket);
      assert IsBare(to, from, end);
      accepted := clean in mailboxes;
      if accepted {
        recipients := recipients + [clean];
      }
    }

    /** The lookup of `handle_email`: any message stored under the key. */
    method FindByHeader(key: string) returns (found: Option<MessageId>)
      ensures found.Some? ==> HasHeader(Db(), found.value, key)
      ensures found.None? ==> forall id: MessageId :: !HasHeader(Db(), id, key)
    {
      var todo := messages.Keys;
      while todo != {}
        invariant todo <= messages.Keys
        invariant forall id: MessageId :: HasHeader(Db(), id, key) ==> id in todo
        decreases todo
      {
        var id :| id in todo;
        if messages[id].header == Some(key) {
          return Some(id);
        }
        todo := todo - {id};
      }
      return None;
    }

    /** Look for a stored copy under a usable key. */
    method FindCopy(e: Email, lookupOk: bool) returns (found: Option<MessageId>)
      ensures found.Some? <==> lookupOk && CanReuse(Db(), e)
      ensures found.Some? ==> Reusable(Db(), e, found.value)
    {
      var key := DedupKey(e.header);
      found := None;
      if key.Some? && lookupOk {
        found := FindByHeader(key.value);
        assert found.Some? ==> Reusable(Db(), e, found.value);
      }
    }

    /** One link per recipient, in order, until one fails. */
    method AddLinks(id: MessageId, targets: seq<string>, linksOk: nat) returns (ok: bool)
      modifies this`links
      ensures ok == (linksOk >= |targets|)
      ensures links == old(links) + LinksTo(id, targets[..Min(linksOk, |targets|)])
    {
      var i := 0;
      while i < |targets| && i < linksOk
        invariant 0 <= i <= |targets| && i <= linksOk
        invariant links == old(links) + LinksTo(id, targets[..i])
      {
        links := links + [Link(id, targets[i])];
        assert links == old(links) + LinksTo(id, targets[..i + 1]);
        i := i + 1;
      }
      ok := i == |targets|;
    }

    /** Forwarding is best effort: a failure is logged and the next recipient is tried. `at` are the positions, in
        order, of the recipients whose mailbox has a forwarding address and whose enqueue succeeds; each gets one
        forward, to that address. */
    method AddForwards(id: MessageId, targets: seq<string>, mailboxes: Mailboxes, forwardOk: set<nat>)
      returns (ghost at: seq<nat>)
      modifies this`forwards
      ensures forwards == old(forwards) + ForwardsOf(id, targets, mailboxes, forwardOk)
      ensures forall i :: i in at <==>
        i < |targets| && i in forwardOk && targets[i] in mailboxes && mailboxes[targets[i]].Some?
      ensures Increasing(at) && old(forwards) <= forwards
      ensures AreForwards(forwards[|old(forwards)|..], id, targets, mailboxes, at)
    {
      var i := 0;
      while i < |targets|
        invariant 0 <= i <= |targets|
        invariant forwards == old(forwards) + ForwardsOf(id, targets[..i], mailboxes, forwardOk)
      {
        assert targets[..i + 1][..i] == targets[..i];
        if i in forwardOk && targets[i] in mailboxes && mailboxes[targets[i]].Some? {
          forwards := forwards + [Forward(id, targets[i], mailboxes[targets[i]].value)];
        }
        i := i + 1;
      }
      TakeAll(targets);
      at := ForwardsMeaning(id, targets, mailboxes, forwardOk);
    }

    method LinkAndForward(id: MessageId, targets: seq<string>, mailboxes: Mailboxes, o: Answers) returns (ok: bool)
      modifies this`links, this`forwards
      ensures (Db(), ok) == LinkedUp(old(Db()), id, targets, mailboxes, o)
    {
      ok := AddLinks(id, targets, o.linksOk);
      if ok {
        ghost var _ := AddForwards(id, targets, mailboxes, o.forwardOk);
      } else {
        assert forwards + [] == forwards;
      }
    }

    /** `handle_email`, run alone: the recipient list is taken whatever happens; on success there is one link per
        recipient, in order, all on one message. */
    method HandleEmail(e: Email, mailboxes: Mailboxes, o: Answers) returns (ok: bool)
      modifies this
      ensures recipients == []
      ensures Handled(old(Db()), old(recipients), mailboxes, e, o, Db(), ok)
    {
      var targets := recipients;
      recipients := [];
      if targets == [] {
        targets := [UNKNOWN];
      }
      var found := FindCopy(e, o.lookupOk);
      if found.None? {
        if o.store == NotStored {
          return false;
        }
        messages := messages[nextId := Message(e.header, e.raw, true)];
        nextId := nextId + 1;
        if o.store == Unreported {
          return false;
        }
        found := Some(nextId - 1);
      }
      assert o.lookupOk && CanReuse(old(Db()), e) ==> Reusable(old(Db()), e, found.value) && Db() == old(Db());
      ok := LinkAndForward(found.value, targets, mailboxes, o);
    }
  }

  /** Every target has one new link to `id`, in order; every target at a position of `at`, and these are the ones whose
      mailbox forwards and whose enqueue succeeded, has one new forward. */
  ghost predicate AreLinked(s: Store, s': Store, id: MessageId, targets: seq<string>, mailboxes: Mailboxes,
                            ok: set<nat>,
                            at: seq<nat>) {
    && |s'.links| == |s.links| + |targets| && s.links <= s'.links
    && (forall i :: 0 <= i < |targets| ==> s'.links[|s.links| + i] == Link(id, targets[i]))
    && s.forwards <= s'.forwards && AreForwards(s'.forwards[|s.forwards|..], id, targets, mailboxes, at)
    && Increasing(at)
    && forall i :: i in at <==>
         i < |targets| && i in ok && targets[i] in mailboxes && mailboxes[targets[i]].Some?
  }

  lemma LinkedMeans(s: Store, id: MessageId, targets: seq<string>, mailboxes: Mailboxes, o: Answers)
    returns (at: seq<nat>)
    requires o.linksOk >= |targets|
    ensures AreLinked(s, LinkedUp(s, id, targets, mailboxes, o).0, id, targets, mailboxes, o.forwardOk, at)
  {
    at := ForwardsMeaning(id, targets, mailboxes, o.forwardOk);
    TakeAll(targets);
    var s' := LinkedUp(s, id, targets, mailboxes, o).0;
    assert s'.forwards[|s.forwards|..] == ForwardsOf(id, targets, mailboxes, o.forwardOk);
  }

  ghost predicate StoredUnder(s: Store, key: string) {
    exists k: MessageId :: HasHeader(s, k, key)
  }

  lemma CanReuseMeans(s: Store, e: Email)
    ensures CanReuse(s, e) <==>
      e.header.Some? && Trim(e.header.value) != "" && StoredUnder(s, Trim(e.header.value))
  {
    if e.header.Some? && Trim(e.header.value) != "" && StoredUnder(s, Trim(e.header.value)) {
      var k: MessageId :| HasHeader(s, k, Trim(e.header.value));
      assert Reusable(s, e, k);
    }
  }

  /** What an accepted email has done, column by column: the message is a stored one under the trimmed Message-ID,
      left as it was, or a new row with the header and the bytes as received; every recipient, or `unknown` if there
      was none, has one new link to it, in order; and every recipient whose mailbox forwards, and whose enqueue
      succeeded, has one forward to the address it forwards to. */
  lemma AcceptedMeans(s: Store, recipients: seq<string>, mailboxes: Mailboxes, e: Email, o: Answers, s': Store)
    returns (id: MessageId, at: seq<nat>)
    requires Handled(s, recipients, mailboxes, e, o, s', true)
    ensures s'.nextId == s.nextId <==>
      && o.lookupOk && e.header.Some? && Trim(e.header.value) != ""
      && StoredUnder(s, Trim(e.header.value))
    ensures
      if s'.nextId == s.nextId then
        && s'.messages == s.messages && o.lookupOk && e.header.Some? && Trim(e.header.value) != ""
        && id in s.messages && s.messages[id].header == Some(Trim(e.header.value))
      else
        && id == s.nextId && s'.nextId == id + 1 && o.store == Stored
        && s'.messages == s.messages[id := Message(e.header, e.raw, true)]
    ensures AreLinked(s, s', id, if recipients == [] then ["unknown"] else recipients, mailboxes, o.forwardOk, at)
  {
    var targets := Targets(recipients);
    CanReuseMeans(s, e);
    if o.lookupOk && CanReuse(s, e) {
      id :| Reusable(s, e, id) && (s', true) == LinkedUp(s, id, targets, mailboxes, o);
    } else {
      id := s.nextId;
    }
    at := LinkedMeans(if s'.nextId == s.nextId then s else WithMessage(s, e), id, targets, mailboxes, o);
  }

  /** And a refused one: nothing is forwarded, the links are those of a proper prefix of the recipients, and no
      message is changed. */
  lemma RefusedMeans(s: Store, recipients: seq<string>, mailboxes: Mailboxes, e: Email, o: Answers, s': Store)
    requires Handled(s, recipients, mailboxes, e, o, s', false) && KeysBelow(s)
    ensures s'.forwards == s.forwards
    ensures forall id :: id in s.messages ==> id in s'.messages && s'.messages[id] == s.messages[id]
    ensures var targets := if recipients == [] then ["unknown"] else recipients;
      exists id: MessageId, n: nat :: n < |targets| && s'.links == s.links + LinksTo(id, targets[..n])
  {
    var targets := Targets(recipients);
    if o.lookupOk && CanReuse(s, e) {
      var id: MessageId :| Reusable(s, e, id) && (s', false) == LinkedUp(s, id, targets, mailboxes, o);
      assert s'.links == s.links + LinksTo(id, targets[..o.linksOk]);
    } else if o.store == Stored {
      assert s'.links == s.links + LinksTo(s.nextId, targets[..o.linksOk]);
    } else {
      assert s'.links == s.links + LinksTo(0, targets[..0]);
    }
  }

  // ---------------------------------------------------------------------------
  // Two copies, one after the other
  // ---------------------------------------------------------------------------

  /** A Message-ID that the handler can recognise again: not blank, and already trimmed. */
  predicate Recognisable(header: string) {
    header != "" && Trim(header) == header
  }

  ghost predicate KeysBelow(s: Store) {
    forall id :: id in s.messages ==> id < s.nextId
  }

  lemma MessagesAfter(s: Store, recipients: seq<string>, mailboxes: Mailboxes, e: Email, o: Answers, s': Store,
                      ok: bool)
    requires Handled(s, recipients, mailboxes, e, o, s', ok) && o.lookupOk && o.store != NotStored
    ensures (s'.messages, s'.nextId) ==
      if CanReuse(s, e) then (s.messages, s.nextId) else (WithMessage(s, e).messages, s.nextId + 1)
  {
  }

  /** Of two copies of one email handled back to back, the second adds no message if and only if its key is usable and
      either it was already trimmed or the trimmed form is stored. */
  lemma SecondCopyIsReusedExactly(s: Store, mailboxes: Mailboxes, e: Email, o: Answers, o': Answers, s': Store,
                                  s'': Store,
                                  to: seq<string>, cc: seq<string>, ok: bool, ok': bool)
    requires o.lookupOk && o'.lookupOk && o.store != NotStored && o'.store != NotStored && KeysBelow(s)
    requires Handled(s, to, mailboxes, e, o, s', ok) && Handled(s', cc, mailboxes, e, o', s'', ok')
    ensures s''.messages == s'.messages <==>
      DedupKey(e.header).Some? && (Recognisable(e.header.value) || CanReuse(s, e))
  {
    MessagesAfter(s, to, mailboxes, e, o, s', ok);
    MessagesAfter(s', cc, mailboxes, e, o', s'', ok');
    assert !CanReuse(s', e) ==> s'.nextId in s''.messages && s'.nextId !in s'.messages;
    ReusableAfter(s, e, s');
  }

  lemma ReusableAfter(s: Store, e: Email, s': Store)
    requires (s'.messages, s'.nextId) ==
      if CanReuse(s, e) then (s.messages, s.nextId) else (WithMessage(s, e).messages, s.nextId + 1)
    ensures CanReuse(s', e) <==> DedupKey(e.header).Some? && (Recognisable(e.header.value) || CanReuse(s, e))
  {
    if CanReuse(s, e) {
      var k :| Reusable(s, e, k);
      assert Reusable(s', e, k);
    } else {
      if DedupKey(e.header).Some? && Recognisable(e.header.value) {
        assert Reusable(s', e, s.nextId);
      }
      if k :| Reusable(s', e, k) && k != s.nextId {
        assert Reusable(s, e, k);
      }
    }
  }
}
