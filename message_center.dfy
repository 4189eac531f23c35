/**
  The message center: messages grouped into conversations by the other
  participant, conversations ordered by their latest message, the messages of
  the selected conversation, and the guard of the send form.  The insert, the
  read receipts and the lookup of a recipient by e-mail are backend calls and
  are outside the model.
 */
module MessageCenter {
  import opened Values
  import opened Seqs

  /** A message row; `created_at` is a timestamp, `sender`/`recipient` the joined profiles. */
  datatype Message = Message(
    id: Value,
    senderId: string,
    recipientId: string,
    sender: Value,
    recipient: Value,
    text: string,
    createdAt: int,
    readAt: Value)

  /** The other participant: the recipient of what the viewer sent, else the sender. */
  function Counterpart(m: Message, viewer: string): string
  {
    if m.senderId == viewer then m.recipientId else m.senderId
  }

  /** The other participant's profile, taken from the same side as `Counterpart`. */
  function Profile(m: Message, viewer: string): Value
  {
    if m.senderId == viewer then m.recipient else m.sender
  }

  /** Addressed to the viewer and not yet read. */
  predicate UnreadFor(m: Message, viewer: string)
  {
    m.recipientId == viewer && !Truthy(m.readAt)
  }

  function WithCounterpart(viewer: string, k: string): Message -> bool
  {
    (m: Message) => Counterpart(m, viewer) == k
  }

  function UnreadBy(viewer: string): Message -> bool
  {
    (m: Message) => UnreadFor(m, viewer)
  }

  datatype Conversation = Conversation(user: Value, messages: seq<Message>, lastMessage: Message, unreadCount: nat)

  /** The accumulator of the grouping: the counterparts in the order they were first met
      (the order `Object.entries` gives back) and the conversation of each. */
  datatype Groups = Groups(order: seq<string>, byUser: map<string, Conversation>)

  /** The conversation a message opens when its counterpart has none yet. */
  function Opened(m: Message, viewer: string): Conversation
  {
    Conversation(Profile(m, viewer), [], m, 0)
  }

  /** A message joins its conversation: appended, made the last message when strictly
      newer, and counted when unread by the viewer. */
  function Joined(c: Conversation, m: Message, viewer: string): Conversation
  {
    Conversation(
      c.user,
      c.messages + [m],
      if m.createdAt > c.lastMessage.createdAt then m else c.lastMessage,
      c.unreadCount + if UnreadFor(m, viewer) then 1 else 0)
  }

  /** One step of the `reduce`. */
  function Step(g: Groups, m: Message, viewer: string): Groups
  {
    var k := Counterpart(m, viewer);
    if k in g.byUser then Groups(g.order, g.byUser[k := Joined(g.byUser[k], m, viewer)])
    else Groups(g.order + [k], g.byUser[k := Joined(Opened(m, viewer), m, viewer)])
  }

  /** The conversations of a message list: the `reduce` over the messages from the left. */
  function Grouped(ms: seq<Message>, viewer: string): Groups
    decreases |ms|
  {
    if ms == [] then Groups([], map[])
    else Step(Grouped(ms[..|ms| - 1], viewer), ms[|ms| - 1], viewer)
  }

  /** `lm` is the first message of `group` with the greatest `created_at`. */
  ghost predicate FirstLatest(group: seq<Message>, lm: Message)
  {
    exists p :: 0 <= p < |group| && group[p] == lm &&
      (forall j :: 0 <= j < |group| ==> group[j].createdAt <= lm.createdAt) &&
      (forall j :: 0 <= j < p ==> group[j].createdAt < lm.createdAt)
  }

  /** Some message of `ms` is exchanged with `k`. */
  predicate HasCounterpart(ms: seq<Message>, viewer: string, k: string)
  {
    exists i :: 0 <= i < |ms| && Counterpart(ms[i], viewer) == k
  }

  /** There is one conversation per counterpart that occurs, and `order` lists each once. */
  lemma {:induction false} GroupedKeys(ms: seq<Message>, viewer: string)
    ensures NoDup(Grouped(ms, viewer).order)
    ensures forall k :: k in Grouped(ms, viewer).byUser <==> k in Grouped(ms, viewer).order
    ensures forall k :: k in Grouped(ms, viewer).byUser <==> HasCounterpart(ms, viewer, k)
    decreases |ms|
  {
    if ms != [] {
      var d := ms[..|ms| - 1];
      var m := ms[|ms| - 1];
      GroupedKeys(d, viewer);
      var k := Counterpart(m, viewer);
      forall k' ensures HasCounterpart(ms, viewer, k') <==> HasCounterpart(d, viewer, k') || k' == k {
        if HasCounterpart(d, viewer, k') {
          var i :| 0 <= i < |d| && Counterpart(d[i], viewer) == k';
          assert ms[i] == d[i];
        }
        if HasCounterpart(ms, viewer, k') && k' != k {
          var i :| 0 <= i < |ms| && Counterpart(ms[i], viewer) == k';
          assert i < |d| && d[i] == ms[i];
        }
        if k' == k {
          assert Counterpart(ms[|ms| - 1], viewer) == k;
        }
      }
    }
  }

  /** The conversation with `k` holds exactly the messages exchanged with `k`, in input order. */
  lemma {:induction false} GroupedMessages(ms: seq<Message>, viewer: string, k: string)
    requires k in Grouped(ms, viewer).byUser
    ensures Grouped(ms, viewer).byUser[k].messages == Filter(ms, WithCounterpart(viewer, k))
    decreases |ms|
  {
    var d := ms[..|ms| - 1];
    var m := ms[|ms| - 1];
    var p := WithCounterpart(viewer, k);
    assert ms == d + [m];
    FilterAppend(d, [m], p);
    FilterSingle(m, p);
    if k in Grouped(d, viewer).byUser {
      GroupedMessages(d, viewer, k);
    } else {
      GroupedKeys(d, viewer);
      forall i | 0 <= i < |d| ensures !p(d[i]) {
        assert !HasCounterpart(d, viewer, k);
      }
      FilterNone(d, p);
    }
  }

  /** What every conversation of the grouping satisfies: it is non-empty, shows the profile
      of its first message's counterpart, keeps the first of its latest messages and counts
      the unread messages addressed to the viewer. */
  ghost predicate WellFormed(c: Conversation, viewer: string)
  {
    && c.messages != []
    && c.user == Profile(c.messages[0], viewer)
    && FirstLatest(c.messages, c.lastMessage)
    && c.unreadCount == Count(c.messages, UnreadBy(viewer))
  }

  /** The first message of a counterpart makes a well-formed conversation. */
  lemma OpenedWellFormed(m: Message, viewer: string)
    ensures WellFormed(Joined(Opened(m, viewer), m, viewer), viewer)
  {
    var c := Joined(Opened(m, viewer), m, viewer);
    assert c.messages == [m];
    FilterSingle(m, UnreadBy(viewer));
    assert c.messages[0] == m;
  }

  /** A later message keeps a conversation well formed. */
  lemma JoinedWellFormed(c: Conversation, m: Message, viewer: string)
    requires WellFormed(c, viewer)
    ensures WellFormed(Joined(c, m, viewer), viewer)
  {
    var c' := Joined(c, m, viewer);
    assert c'.messages[0] == c.messages[0];
    FirstLatestSnoc(c.messages, c.lastMessage, m);
    CountSnoc(c.messages, m, viewer);
  }

  /** Appending a message keeps the first latest one, unless the new one is strictly newer. */
  lemma FirstLatestSnoc(group: seq<Message>, lm: Message, m: Message)
    requires FirstLatest(group, lm)
    ensures FirstLatest(group + [m], if m.createdAt > lm.createdAt then m else lm)
  {
    var q :| 0 <= q < |group| && group[q] == lm &&
      (forall j :: 0 <= j < |group| ==> group[j].createdAt <= lm.createdAt) &&
      (forall j :: 0 <= j < q ==> group[j].createdAt < lm.createdAt);
    var g := group + [m];
    if m.createdAt > lm.createdAt {
      assert g[|group|] == m;
      assert forall j :: 0 <= j < |group| ==> g[j].createdAt < m.createdAt;
    } else {
      assert g[q] == lm;
    }
  }

  /** Appending a message adds one to the unread count exactly when it is unread. */
  lemma CountSnoc(group: seq<Message>, m: Message, viewer: string)
    ensures Count(group + [m], UnreadBy(viewer)) == Count(group, UnreadBy(viewer)) + if UnreadFor(m, viewer) then 1 else 0
  {
    FilterAppend(group, [m], UnreadBy(viewer));
    FilterSingle(m, UnreadBy(viewer));
  }

  /** Every conversation of the grouping is well formed. */
  lemma {:induction false} GroupedConversation(ms: seq<Message>, viewer: string, k: string)
    requires k in Grouped(ms, viewer).byUser
    ensures WellFormed(Grouped(ms, viewer).byUser[k], viewer)
    decreases |ms|
  {
    var d := ms[..|ms| - 1];
    var m := ms[|ms| - 1];
    var g := Grouped(d, viewer);
    if k != Counterpart(m, viewer) {
      GroupedConversation(d, viewer, k);
    } else if k in g.byUser {
      GroupedConversation(d, viewer, k);
      JoinedWellFormed(g.byUser[k], m, viewer);
    } else {
      OpenedWellFormed(m, viewer);
    }
  }

  /** Sum of the conversation sizes along `order`. */
  function SizeSum(order: seq<string>, byUser: map<string, Conversation>): nat
    requires forall k :: k in order ==> k in byUser
    decreases |order|
  {
    if order == [] then 0
    else SizeSum(order[..|order| - 1], byUser) + |byUser[order[|order| - 1]].messages|
  }

  lemma {:induction false} SizeSumFrame(order: seq<string>, byUser: map<string, Conversation>, k: string, c: Conversation)
    requires forall x :: x in order ==> x in byUser
    requires k !in order
    ensures SizeSum(order, byUser[k := c]) == SizeSum(order, byUser)
    decreases |order|
  {
    if order != [] {
      SizeSumFrame(order[..|order| - 1], byUser, k, c);
    }
  }

  lemma {:induction false} SizeSumBump(order: seq<string>, byUser: map<string, Conversation>, k: string, c: Conversation)
    requires forall x :: x in order ==> x in byUser
    requires NoDup(order) && k in order
    requires |c.messages| == |byUser[k].messages| + 1
    ensures SizeSum(order, byUser[k := c]) == SizeSum(order, byUser) + 1
    decreases |order|
  {
    var o := order[..|order| - 1];
    if order[|order| - 1] == k {
      assert k !in o;
      SizeSumFrame(o, byUser, k, c);
    } else {
      var i :| 0 <= i < |order| && order[i] == k;
      assert o[i] == k;
      SizeSumBump(o, byUser, k, c);
    }
  }

  /** The conversation sizes add up to the number of messages: no message is lost or shown twice. */
  lemma {:induction false} GroupSizesSum(ms: seq<Message>, viewer: string)
    ensures forall k :: k in Grouped(ms, viewer).order ==> k in Grouped(ms, viewer).byUser
    ensures SizeSum(Grouped(ms, viewer).order, Grouped(ms, viewer).byUser) == |ms|
    decreases |ms|
  {
    GroupedKeys(ms, viewer);
    if ms != [] {
      var d := ms[..|ms| - 1];
      var m := ms[|ms| - 1];
      GroupSizesSum(d, viewer);
      GroupedKeys(d, viewer);
      var g := Grouped(d, viewer);
      var k := Counterpart(m, viewer);
      var g' := Step(g, m, viewer);
      if k in g.byUser {
        SizeSumBump(g.order, g.byUser, k, g'.byUser[k]);
      } else {
        SizeSumFrame(g.order, g.byUser, k, g'.byUser[k]);
        assert g'.order[..|g'.order| - 1] == g.order;
      }
    }
  }

  /** What the grouping promises as a whole: one well-formed conversation per counterpart,
      listed once in the order first met, holding exactly that counterpart's messages. */
  lemma GroupedFacts(ms: seq<Message>, viewer: string)
    ensures NoDup(Grouped(ms, viewer).order)
    ensures forall k :: k in Grouped(ms, viewer).byUser <==> k in Grouped(ms, viewer).order
    ensures forall k :: k in Grouped(ms, viewer).byUser <==> HasCounterpart(ms, viewer, k)
    ensures forall k :: k in Grouped(ms, viewer).byUser ==>
      Grouped(ms, viewer).byUser[k].messages == Filter(ms, WithCounterpart(viewer, k))
    ensures forall k :: k in Grouped(ms, viewer).byUser ==> WellFormed(Grouped(ms, viewer).byUser[k], viewer)
  {
    GroupedKeys(ms, viewer);
    forall k | k in Grouped(ms, viewer).byUser
      ensures Grouped(ms, viewer).byUser[k].messages == Filter(ms, WithCounterpart(viewer, k))
      ensures WellFormed(Grouped(ms, viewer).byUser[k], viewer)
    {
      GroupedMessages(ms, viewer, k);
      GroupedConversation(ms, viewer, k);
    }
  }

  /** Grouping one more message is one more step. */
  lemma GroupedExtend(ms: seq<Message>, i: int, viewer: string)
    requires 0 <= i < |ms|
    ensures Grouped(ms[..i + 1], viewer) == Step(Grouped(ms[..i], viewer), ms[i], viewer)
  {
    assert ms[..i + 1][..i] == ms[..i];
  }

  /** The `reduce` as the component runs it: the accumulator is updated in place, and the
      result is the grouping `Grouped` describes (see `GroupedFacts`). */
  method GroupConversations(messages: seq<Message>, viewer: string) returns (g: Groups)
    ensures g == Grouped(messages, viewer)
  {
    var order: seq<string> := [];
    var acc: map<string, Conversation> := map[];
    for i := 0 to |messages|
      invariant Groups(order, acc) == Grouped(messages[..i], viewer)
    {
      ghost var before := Groups(order, acc);
      var message := messages[i];
      var other := Counterpart(message, viewer);
      if other !in acc {
        acc := acc[other := Conversation(Profile(message, viewer), [], message, 0)];
        order := order + [other];
      }
      // the conversation object the three updates below mutate
      var conversation := acc[other];
      ghost var current := conversation;
      conversation := conversation.(messages := conversation.messages + [message]);
      if message.createdAt > conversation.lastMessage.createdAt {
        conversation := conversation.(lastMessage := message);
      }
      if UnreadFor(message, viewer) {
        conversation := conversation.(unreadCount := conversation.unreadCount + 1);
      }
      assert conversation == Joined(current, message, viewer);
      acc := acc[other := conversation];
      assert Groups(order, acc) == Step(before, message, viewer);
      GroupedExtend(messages, i, viewer);
    }
    assert messages[..|messages|] == messages;
    g := Groups(order, acc);
  }

  function Latest(e: (string, Conversation)): int
  {
    e.1.lastMessage.createdAt
  }

  /** Each entry's latest message is at least as recent as the next one's. */
  predicate NewestFirst(s: seq<(string, Conversation)>)
  {
    forall i :: 0 < i < |s| ==> Latest(s[i - 1]) >= Latest(s[i])
  }

  /** Newest first between neighbours means newest first between any two entries. */
  lemma {:induction false} NewestFirstOrdered(s: seq<(string, Conversation)>)
    requires NewestFirst(s)
    ensures forall i, j :: 0 <= i <= j < |s| ==> Latest(s[i]) >= Latest(s[j])
    decreases |s|
  {
    if s != [] {
      var s' := s[..|s| - 1];
      assert NewestFirst(s');
      NewestFirstOrdered(s');
      forall i, j | 0 <= i <= j < |s| ensures Latest(s[i]) >= Latest(s[j]) {
        if j < |s| - 1 {
          assert s[i] == s'[i] && s[j] == s'[j];
        } else if i < j {
          assert s[i] == s'[i] && s[j - 1] == s'[j - 1];
        }
      }
    }
  }

  /** Place `e` before the first entry that is not newer than it. */
  function InsertByLatest(e: (string, Conversation), sorted: seq<(string, Conversation)>): (r: seq<(string, Conversation)>)
    requires NewestFirst(sorted)
    ensures NewestFirst(r)
    ensures multiset(r) == multiset(sorted) + multiset{e}
    ensures r[0] == e || (sorted != [] && r[0] == sorted[0])
  {
    if sorted == [] || Latest(e) >= Latest(sorted[0]) then
      ConsNewestFirst(e, sorted);
      [e] + sorted
    else
      assert sorted == [sorted[0]] + sorted[1..];
      var rest := InsertByLatest(e, sorted[1..]);
      assert rest[0] == e || rest[0] == sorted[1];
      ConsNewestFirst(sorted[0], rest);
      [sorted[0]] + rest
  }

  /** An entry at least as new as the head of a newest-first list can go in front of it. */
  lemma ConsNewestFirst(x: (string, Conversation), s: seq<(string, Conversation)>)
    requires NewestFirst(s)
    requires s != [] ==> Latest(x) >= Latest(s[0])
    ensures NewestFirst([x] + s)
  {
    var r := [x] + s;
    forall i | 0 < i < |r| ensures Latest(r[i - 1]) >= Latest(r[i]) {
      if i > 1 {
        assert r[i - 1] == s[i - 2] && r[i] == s[i - 1];
      }
    }
  }

  /** The sort of the entries by latest message, newest first. */
  function SortByLatest(es: seq<(string, Conversation)>): (r: seq<(string, Conversation)>)
    ensures NewestFirst(r)
    ensures multiset(r) == multiset(es)
  {
    if es == [] then []
    else
      assert es == [es[0]] + es[1..];
      InsertByLatest(es[0], SortByLatest(es[1..]))
  }

  /** The entries whose latest message is at time `t`. */
  function LatestIs(t: int): ((string, Conversation)) -> bool
  {
    (e: (string, Conversation)) => Latest(e) == t
  }

  /** Inserting keeps ties in order: `e` lands before every entry exactly as new as it,
      and the entries of any other time keep their order. */
  lemma {:induction false} InsertByLatestStable(e: (string, Conversation), sorted: seq<(string, Conversation)>, t: int)
    requires NewestFirst(sorted)
    ensures Filter(InsertByLatest(e, sorted), LatestIs(t)) ==
      (if Latest(e) == t then [e] else []) + Filter(sorted, LatestIs(t))
    decreases |sorted|
  {
    var p := LatestIs(t);
    if sorted == [] || Latest(e) >= Latest(sorted[0]) {
      assert InsertByLatest(e, sorted) == [e] + sorted;
      FilterCons(e, sorted, p);
    } else {
      var x, rest := sorted[0], sorted[1..];
      assert sorted == [x] + rest;
      var inserted := InsertByLatest(e, rest);
      assert InsertByLatest(e, sorted) == [x] + inserted;
      InsertByLatestStable(e, rest, t);
      FilterConsBoth(x, inserted, rest, p, if Latest(e) == t then [e] else []);
    }
  }

  /** Putting the same `x` in front of two lists whose filters differ by a prefix `head`
      keeps that difference, when `x` is filtered out or `head` is empty. */
  lemma FilterConsBoth<T>(x: T, a: seq<T>, b: seq<T>, p: T -> bool, head: seq<T>)
    requires Filter(a, p) == head + Filter(b, p)
    requires head != [] ==> !p(x)
    ensures Filter([x] + a, p) == head + Filter([x] + b, p)
  {
    FilterCons(x, a, p);
    FilterCons(x, b, p);
    if head == [] {
      assert Filter(a, p) == Filter(b, p);
      assert Filter([x] + a, p) == Filter([x] + b, p);
      assert head + Filter([x] + b, p) == Filter([x] + b, p);
    } else {
      assert Filter([x] + a, p) == [] + Filter(a, p) == Filter(a, p);
      assert Filter([x] + b, p) == [] + Filter(b, p) == Filter(b, p);
    }
  }

  /** Filtering a list that starts with `x`. */
  lemma FilterCons<T>(x: T, s: seq<T>, p: T -> bool)
    ensures Filter([x] + s, p) == (if p(x) then [x] else []) + Filter(s, p)
  {
    FilterAppend([x], s, p);
    FilterSingle(x, p);
  }

  /** The sort is stable: the entries that are equally new keep their order from `es`.
      With the permutation `SortByLatest` ensures, this fixes its result completely. */
  lemma {:induction false} SortByLatestStable(es: seq<(string, Conversation)>, t: int)
    ensures Filter(SortByLatest(es), LatestIs(t)) == Filter(es, LatestIs(t))
    decreases |es|
  {
    if es != [] {
      SortByLatestStable(es[1..], t);
      InsertByLatestStable(es[0], SortByLatest(es[1..]), t);
      assert es == [es[0]] + es[1..];
      FilterCons(es[0], es[1..], LatestIs(t));
    }
  }

  /** `Object.entries(conversations)`: the pairs in the order the keys were added
      (a name of `order` without a conversation contributes nothing).  Each key comes
      once because `order` of a grouping has no duplicates (`GroupedKeys`). */
  function Entries(order: seq<string>, byUser: map<string, Conversation>): (r: seq<(string, Conversation)>)
    ensures forall i :: 0 <= i < |r| ==> r[i].0 in byUser && r[i].1 == byUser[r[i].0]
    ensures (forall k :: k in order ==> k in byUser) ==>
      |r| == |order| && forall i :: 0 <= i < |r| ==> r[i].0 == order[i]
    decreases |order|
  {
    if order == [] then []
    else
      var k := order[|order| - 1];
      assert forall x :: x in order[..|order| - 1] ==> x in order;
      Entries(order[..|order| - 1], byUser) + if k in byUser then [(k, byUser[k])] else []
  }

  /** `sortedConversations` for a message list: every conversation once, newest first. */
  function SortedConversations(ms: seq<Message>, viewer: string): (r: seq<(string, Conversation)>)
    ensures forall i, j :: 0 <= i <= j < |r| ==> Latest(r[i]) >= Latest(r[j])
    ensures multiset(r) == multiset(Entries(Grouped(ms, viewer).order, Grouped(ms, viewer).byUser))
  {
    var g := Grouped(ms, viewer);
    var r := SortByLatest(Entries(g.order, g.byUser));
    NewestFirstOrdered(r);
    r
  }

  /** A rearrangement of the entries of a complete grouping lists every conversation under
      its own name, and no other. */
  lemma {:induction false} EntriesRearranged(r: seq<(string, Conversation)>, order: seq<string>, byUser: map<string, Conversation>)
    requires forall k :: k in byUser <==> k in order
    requires multiset(r) == multiset(Entries(order, byUser))
    ensures |r| == |order|
    ensures forall i :: 0 <= i < |r| ==> r[i].0 in byUser && r[i].1 == byUser[r[i].0]
    ensures forall k :: k in byUser ==> exists i :: 0 <= i < |r| && r[i].0 == k
  {
    var es := Entries(order, byUser);
    assert |r| == |multiset(r)| == |multiset(es)| == |es|;
    forall i | 0 <= i < |r| ensures r[i].0 in byUser && r[i].1 == byUser[r[i].0] {
      assert r[i] in multiset(es);
    }
    forall k | k in byUser ensures exists i :: 0 <= i < |r| && r[i].0 == k {
      var j :| 0 <= j < |order| && order[j] == k;
      assert es[j] in multiset(r);
      var i :| 0 <= i < |r| && r[i] == es[j];
    }
  }

  /** The sorted list has one entry per conversation: every entry is a conversation of the
      grouping under its own name, and every conversation appears. */
  lemma SortedConversationsComplete(ms: seq<Message>, viewer: string)
    ensures |SortedConversations(ms, viewer)| == |Grouped(ms, viewer).order|
    ensures forall i :: 0 <= i < |SortedConversations(ms, viewer)| ==>
      var e := SortedConversations(ms, viewer)[i];
      e.0 in Grouped(ms, viewer).byUser && e.1 == Grouped(ms, viewer).byUser[e.0]
    ensures forall k :: k in Grouped(ms, viewer).byUser ==>
      exists i :: 0 <= i < |SortedConversations(ms, viewer)| && SortedConversations(ms, viewer)[i].0 == k
  {
    var g := Grouped(ms, viewer);
    GroupedKeys(ms, viewer);
    EntriesRearranged(SortedConversations(ms, viewer), g.order, g.byUser);
  }

  /** `selectedMessages`: the selected conversation's messages, or none. */
  function SelectedMessages(g: Groups, selected: Option<string>): seq<Message>
  {
    match selected
    case None => []
    case Some(k) => if k != "" && k in g.byUser then g.byUser[k].messages else []
  }

  /** The selected conversation shows exactly the messages exchanged with that
      counterpart, in order; with nothing selected it shows none. */
  lemma SelectedIsConversation(ms: seq<Message>, viewer: string, selected: Option<string>)
    ensures selected == None || selected == Some("") ==> SelectedMessages(Grouped(ms, viewer), selected) == []
    ensures selected.Some? && selected.value != "" ==>
      SelectedMessages(Grouped(ms, viewer), selected) == Filter(ms, WithCounterpart(viewer, selected.value))
  {
    if selected.Some? && selected.value != "" {
      var k := selected.value;
      if k in Grouped(ms, viewer).byUser {
        GroupedMessages(ms, viewer, k);
      } else {
        GroupedKeys(ms, viewer);
        forall i | 0 <= i < |ms| ensures !WithCounterpart(viewer, k)(ms[i]) {
          assert !HasCounterpart(ms, viewer, k);
        }
        FilterNone(ms, WithCounterpart(viewer, k));
      }
    }
  }

  /** The ids a click on a conversation marks as read. */
  function ToMarkRead(c: Conversation, viewer: string): seq<Value>
  {
    var unread := Filter(c.messages, UnreadBy(viewer));
    seq(|unread|, i requires 0 <= i < |unread| => unread[i].id)
  }

  /** Opening a conversation marks as many messages read as its badge shows, and that is
      the number of unread messages the counterpart sent to the viewer. */
  lemma MarkReadMatchesBadge(ms: seq<Message>, viewer: string, k: string)
    requires k in Grouped(ms, viewer).byUser
    ensures |ToMarkRead(Grouped(ms, viewer).byUser[k], viewer)| == Grouped(ms, viewer).byUser[k].unreadCount
    ensures Grouped(ms, viewer).byUser[k].unreadCount == Count(Filter(ms, WithCounterpart(viewer, k)), UnreadBy(viewer))
  {
    GroupedConversation(ms, viewer, k);
    GroupedMessages(ms, viewer, k);
    assert WellFormed(Grouped(ms, viewer).byUser[k], viewer);
  }

  function TrailingSpaces(s: string): (n: nat)
    ensures n <= |s|
    ensures forall i :: |s| - n <= i < |s| ==> IsJsSpace(s[i])
    ensures n < |s| ==> !IsJsSpace(s[|s| - n - 1])
    decreases |s|
  {
    if s == [] || !IsJsSpace(s[|s| - 1]) then 0 else 1 + TrailingSpaces(s[..|s| - 1])
  }

  /** `s.trim()`: the text between the leading and the trailing white space. */
  function Trim(s: string): (r: string)
    ensures r == "" <==> forall i :: 0 <= i < |s| ==> IsJsSpace(s[i])
    ensures r != "" ==> !IsJsSpace(r[0]) && !IsJsSpace(r[|r| - 1])
    ensures LeadingSpaces(s) + |r| <= |s| && r == s[LeadingSpaces(s)..LeadingSpaces(s) + |r|]
    ensures forall i :: LeadingSpaces(s) + |r| <= i < |s| ==> IsJsSpace(s[i])
  {
    var a := LeadingSpaces(s);
    if a == |s| then
      ""
    else
      var t := s[a..];
      var b := TrailingSpaces(t);
      assert b < |t| by { assert !IsJsSpace(t[0]); }
      var r := t[..|t| - b];
      assert r == s[a..a + |r|];
      assert forall i :: a + |r| <= i < |s| ==> IsJsSpace(s[i]) by {
        forall i | a + |r| <= i < |s| ensures IsJsSpace(s[i]) {
          assert s[i] == t[i - a];
        }
      }
      assert r != "" && !IsJsSpace(r[0]) && !IsJsSpace(r[|r| - 1]) by {
        assert r[0] == t[0] == s[a];
        assert r[|r| - 1] == t[|t| - b - 1];
      }
      r
  }

  /** A trimmed text trims to itself. */
  lemma TrimIdempotent(s: string)
    ensures Trim(Trim(s)) == Trim(s)
  {
    var t := Trim(s);
    if t != "" {
      assert LeadingSpaces(t) == 0;
      assert TrailingSpaces(t) == 0;
      assert t[0..][..|t|] == t;
    }
  }

  /** The row `sendMessage` inserts. */
  datatype OutgoingMessage = OutgoingMessage(senderId: string, recipientId: string, messageText: string)

  /** The state of the message center's send form. */
  class Composer {
    const viewer: string
    var selectedConversation: Option<string>
    var newMessage: string
    var sending: bool

    constructor (viewer: string)
      ensures this.viewer == viewer
      ensures selectedConversation == None && newMessage == "" && !sending
    {
      this.viewer := viewer;
      selectedConversation := None;
      newMessage := "";
      sending := false;
    }

    /** The early return of `sendMessage`: blank text, no conversation, or a send in progress. */
    predicate CanSend()
      reads this
    {
      Trim(newMessage) != "" && selectedConversation.Some? && selectedConversation.value != "" && !sending
    }

    /** A click on a conversation selects it and returns the ids to mark as read. */
    method OpenConversation(k: string, c: Conversation) returns (markRead: seq<Value>)
      modifies this`selectedConversation
      ensures selectedConversation == Some(k)
      ensures markRead == ToMarkRead(c, viewer)
    {
      selectedConversation := Some(k);
      markRead := ToMarkRead(c, viewer);
    }

    /** `sendMessage`; `insertSucceeds` is the outcome of the backend insert. */
    method SendMessage(insertSucceeds: bool) returns (sent: Option<OutgoingMessage>)
      modifies this`newMessage, this`sending
      ensures !old(CanSend()) ==> sent == None && newMessage == old(newMessage) && sending == old(sending)
      ensures old(CanSend()) ==>
        sent == Some(OutgoingMessage(viewer, selectedConversation.value, Trim(old(newMessage))))
      ensures old(CanSend()) ==> !sending && newMessage == if insertSucceeds then "" else old(newMessage)
      ensures sent.Some? ==> Trim(sent.value.messageText) == sent.value.messageText != ""
    {
      if !CanSend() {
        return None;
      }
      var text := Trim(newMessage);
      assert Trim(text) == text != "" by {
        TrimIdempotent(newMessage);
      }
      sending := true;
      sent := Some(OutgoingMessage(viewer, selectedConversation.value, text));
      if insertSucceeds {
        newMessage := "";
      }
      sending := false;
    }
  }
}
