/**
 * What the tutoring and marketplace message services share: the message row
 * with its joined sender, recipient, session and product, and the grouping of
 * a newest-first message list into conversations.
 *
 * Each grouping walks the list once, filling an insertion-ordered `Map` from a
 * conversation key to its entry: the first message seen for a key creates the
 * entry, later ones only bump its unread counter (and, for the per-student
 * grouping, are pushed onto its message list). `GroupMessages` is that walk as
 * a left fold; the services' loops are proved equal to it, and the lemmas here
 * state what the fold computes.
 */
module Conversations {

  import opened Common

  datatype UserInfo = UserInfo(id: string, fullName: Option<string>, avatarUrl: Option<string>)
  datatype SessionInfo = SessionInfo(id: string, title: string)
  datatype ProductInfo = ProductInfo(id: string, title: string, images: Option<seq<string>>, price: int)

  /** A `messages` row with its joins; `createdAt` is the parsed timestamp. */
  datatype Message = Message(
    id: string,
    senderId: string,
    recipientId: string,
    sender: Option<UserInfo>,
    recipient: Option<UserInfo>,
    session: Option<SessionInfo>,
    product: Option<ProductInfo>,
    content: string,
    isRead: bool,
    createdAt: int)

  /** The three groupings the services perform. */
  datatype Grouping =
    | ByStudent(tutorId: string, sessionId: string, sessionTitle: string)
    | BySessionAndPeer(userId: string)
    | ByProductAndPeer(userId: string)

  /** A map key: the services build `${scope}-${otherId}` strings from ids; the
      pair is kept apart here. */
  datatype ConvKey =
    | StudentKey(student: string)
    | SessionPeerKey(session: string, peer: string)
    | ProductPeerKey(product: string, peer: string)

  /** A map value. The per-student grouping fills `messages`; the others leave it empty. */
  datatype Entry = Entry(
    participant: Option<UserInfo>,
    lastMessage: Message,
    messages: seq<Message>,
    unreadCount: nat,
    sessionId: string,
    sessionTitle: string,
    product: Option<ProductInfo>)

  /** The insertion-ordered map: its keys in insertion order and its entries. */
  datatype GroupState = GroupState(keys: seq<ConvKey>, entries: map<ConvKey, Entry>)

  function Viewer(g: Grouping): string {
    match g
    case ByStudent(tutorId, _, _) => tutorId
    case BySessionAndPeer(userId) => userId
    case ByProductAndPeer(userId) => userId
  }

  /** The other participant of a message, seen from `viewer`. */
  function OtherId(m: Message, viewer: string): (r: string)
    ensures m.senderId == viewer ==> r == m.recipientId
    ensures m.senderId != viewer ==> r == m.senderId
  {
    if m.senderId == viewer then m.recipientId else m.senderId
  }

  function OtherInfo(m: Message, viewer: string): Option<UserInfo> {
    if m.senderId == viewer then m.recipient else m.sender
  }

  /** The marketplace grouping skips messages whose product did not join. */
  predicate Skipped(g: Grouping, m: Message) {
    g.ByProductAndPeer? && m.product.None?
  }

  /** `sessionInfo?.id || 'direct'` */
  function SessionScope(m: Message): (r: string)
    ensures r != ""
  {
    if m.session.Some? && m.session.value.id != "" then m.session.value.id else "direct"
  }

  function KeyOf(g: Grouping, m: Message): ConvKey {
    match g
    case ByStudent(tutorId, _, _) => StudentKey(OtherId(m, tutorId))
    case BySessionAndPeer(userId) => SessionPeerKey(SessionScope(m), OtherId(m, userId))
    case ByProductAndPeer(userId) =>
      ProductPeerKey(if m.product.Some? then m.product.value.id else "", OtherId(m, userId))
  }

  /** A message counts as unread when the viewer did not send it and it is unread. */
  predicate CountsAsUnread(g: Grouping, m: Message) {
    m.senderId != Viewer(g) && !m.isRead
  }

  /** The entry the first message of a conversation creates. */
  function NewEntry(g: Grouping, m: Message): (e: Entry)
    ensures e.lastMessage == m && e.unreadCount == 0 && e.messages == []
    ensures e.participant == OtherInfo(m, Viewer(g))
  {
    match g
    case ByStudent(tutorId, sessionId, sessionTitle) =>
      Entry(OtherInfo(m, tutorId), m, [], 0, sessionId, sessionTitle, None)
    case BySessionAndPeer(userId) =>
      Entry(OtherInfo(m, userId), m, [], 0,
            if m.session.Some? then m.session.value.id else "",
            if m.session.Some? && m.session.value.title != "" then m.session.value.title else "Mensaje directo",
            None)
    case ByProductAndPeer(userId) =>
      Entry(OtherInfo(m, userId), m, [], 0, "", "", m.product)
  }

  /** The first half of a loop pass: the message's key gets an entry if it has none. */
  function Admit(g: Grouping, s: GroupState, m: Message): (r: GroupState)
    ensures KeyOf(g, m) in r.entries
  {
    var k := KeyOf(g, m);
    if k in s.entries then s else GroupState(s.keys + [k], s.entries[k := NewEntry(g, m)])
  }

  /** The second half: the message is pushed (per-student grouping only) and
      counted when unread. */
  function Record(g: Grouping, s: GroupState, m: Message): GroupState
    requires KeyOf(g, m) in s.entries
  {
    var k := KeyOf(g, m);
    var e := s.entries[k];
    var e1 := if g.ByStudent? then e.(messages := e.messages + [m]) else e;
    var e2 := if CountsAsUnread(g, m) then e1.(unreadCount := e1.unreadCount + 1) else e1;
    GroupState(s.keys, s.entries[k := e2])
  }

  /** Record outside the per-student grouping: only the counter can move. */
  lemma RecordCounts(g: Grouping, s: GroupState, m: Message)
    requires !g.ByStudent? && KeyOf(g, m) in s.entries
    ensures !CountsAsUnread(g, m) ==> Record(g, s, m) == s
    ensures CountsAsUnread(g, m) ==>
              Record(g, s, m) == GroupState(s.keys, s.entries[KeyOf(g, m) := s.entries[KeyOf(g, m)].(unreadCount := s.entries[KeyOf(g, m)].unreadCount + 1)])
  {
  }

  /** One pass of the loop body. */
  function Step(g: Grouping, s: GroupState, m: Message): GroupState {
    if Skipped(g, m) then s else Record(g, Admit(g, s, m), m)
  }

  /** The whole walk over the messages, in list order. */
  function GroupMessages(g: Grouping, msgs: seq<Message>): GroupState {
    if msgs == [] then GroupState([], map[])
    else Step(g, GroupMessages(g, msgs[..|msgs| - 1]), msgs[|msgs| - 1])
  }

  lemma GroupMessagesSnoc(g: Grouping, msgs: seq<Message>, i: nat)
    requires i < |msgs|
    ensures GroupMessages(g, msgs[..i + 1]) == Step(g, GroupMessages(g, msgs[..i]), msgs[i])
  {
    assert msgs[..i + 1][..i] == msgs[..i];
  }

  /** `Array.from(map.values())`: the entries in insertion order. */
  function Values(keys: seq<ConvKey>, entries: map<ConvKey, Entry>): (r: seq<Entry>)
    requires forall k :: k in keys ==> k in entries
    ensures |r| == |keys|
    ensures forall i :: 0 <= i < |r| ==> r[i] == entries[keys[i]]
  {
    if keys == [] then []
    else [entries[keys[0]]] + Values(keys[1..], entries)
  }

  // ---------------------------------------------------------------------
  // What the grouping computes
  // ---------------------------------------------------------------------

  /** Messages that take part in the grouping with key k. */
  predicate InGroup(g: Grouping, m: Message, k: ConvKey) {
    !Skipped(g, m) && KeyOf(g, m) == k
  }

  /** The map is well formed: every key once, and the key list and the entries agree. */
  ghost predicate WellFormedState(s: GroupState) {
    NoDuplicates(s.keys) && forall k :: k in s.keys <==> k in s.entries
  }

  /** Every key comes from some message, and every message that is not skipped has its key. */
  lemma {:induction false} GroupKeys(g: Grouping, msgs: seq<Message>)
    ensures WellFormedState(GroupMessages(g, msgs))
    ensures forall k :: k in GroupMessages(g, msgs).entries <==>
              exists i :: 0 <= i < |msgs| && InGroup(g, msgs[i], k)
  {
    if msgs != [] {
      var init := msgs[..|msgs| - 1];
      var m := msgs[|msgs| - 1];
      GroupKeys(g, init);
      var s := GroupMessages(g, init);
      var r := GroupMessages(g, msgs);
      assert r == Step(g, s, m);
      if !Skipped(g, m) && KeyOf(g, m) !in s.entries {
        AppendFreshNoDuplicates(s.keys, KeyOf(g, m));
      }
      forall k ensures k in r.entries <==> exists i :: 0 <= i < |msgs| && InGroup(g, msgs[i], k) {
        if k in s.entries {
          var i :| 0 <= i < |init| && InGroup(g, init[i], k);
          assert msgs[i] == init[i];
        }
        if exists i :: 0 <= i < |msgs| && InGroup(g, msgs[i], k) {
          var i :| 0 <= i < |msgs| && InGroup(g, msgs[i], k);
          if i < |init| {
            assert init[i] == msgs[i];
          }
        }
      }
    }
  }

  /** A group's lastMessage is the first message of the list in that group. */
  predicate IsFirstInGroup(g: Grouping, msgs: seq<Message>, k: ConvKey, m: Message) {
    exists i :: 0 <= i < |msgs| && msgs[i] == m && InGroup(g, m, k)
                && forall j :: 0 <= j < i ==> !InGroup(g, msgs[j], k)
  }

  lemma GroupLastMessage(g: Grouping, msgs: seq<Message>)
    ensures forall k :: k in GroupMessages(g, msgs).entries ==>
              IsFirstInGroup(g, msgs, k, GroupMessages(g, msgs).entries[k].lastMessage)
  {
    forall k | k in GroupMessages(g, msgs).entries
      ensures IsFirstInGroup(g, msgs, k, GroupMessages(g, msgs).entries[k].lastMessage)
    {
      GroupLastMessageOf(g, msgs, k);
    }
  }

  lemma {:induction false} GroupLastMessageOf(g: Grouping, msgs: seq<Message>, k: ConvKey)
    requires k in GroupMessages(g, msgs).entries
    ensures IsFirstInGroup(g, msgs, k, GroupMessages(g, msgs).entries[k].lastMessage)
  {
    var init := msgs[..|msgs| - 1];
    var m := msgs[|msgs| - 1];
    var s := GroupMessages(g, init);
    var r := GroupMessages(g, msgs);
    if k in s.entries {
      GroupLastMessageOf(g, init, k);
      assert r.entries[k].lastMessage == s.entries[k].lastMessage;
      var i :| 0 <= i < |init| && init[i] == s.entries[k].lastMessage && InGroup(g, init[i], k)
               && forall j :: 0 <= j < i ==> !InGroup(g, init[j], k);
      assert msgs[i] == init[i];
      assert forall j :: 0 <= j < i ==> msgs[j] == init[j];
    } else {
      GroupKeys(g, init);
      assert r.entries[k].lastMessage == m && InGroup(g, m, k);
      forall j | 0 <= j < |init| ensures !InGroup(g, msgs[j], k) {
        assert msgs[j] == init[j];
      }
      assert msgs[|msgs| - 1] == m;
    }
  }

  /** The unread counter of a group counts its messages that the viewer did not
      send and has not read. */
  function UnreadIn(g: Grouping, k: ConvKey): Message -> bool {
    m => InGroup(g, m, k) && CountsAsUnread(g, m)
  }

  lemma GroupUnreadCount(g: Grouping, msgs: seq<Message>)
    ensures forall k :: k in GroupMessages(g, msgs).entries ==>
              GroupMessages(g, msgs).entries[k].unreadCount == Count(msgs, UnreadIn(g, k))
  {
    forall k | k in GroupMessages(g, msgs).entries
      ensures GroupMessages(g, msgs).entries[k].unreadCount == Count(msgs, UnreadIn(g, k))
    {
      GroupUnreadCountOf(g, msgs, k);
    }
  }

  lemma {:induction false} GroupUnreadCountOf(g: Grouping, msgs: seq<Message>, k: ConvKey)
    requires k in GroupMessages(g, msgs).entries
    ensures GroupMessages(g, msgs).entries[k].unreadCount == Count(msgs, UnreadIn(g, k))
  {
    var init := msgs[..|msgs| - 1];
    var m := msgs[|msgs| - 1];
    var s := GroupMessages(g, init);
    assert msgs == init + [m];
    CountAppend(init, [m], UnreadIn(g, k));
    assert Count([m], UnreadIn(g, k)) == if UnreadIn(g, k)(m) then 1 else 0;
    if k in s.entries {
      GroupUnreadCountOf(g, init, k);
    } else {
      GroupKeys(g, init);
      forall j | 0 <= j < |init| ensures !InGroup(g, init[j], k) {
      }
      CountNone(init, UnreadIn(g, k));
    }
  }

  /** There are never more groups than messages taking part in the grouping. */
  lemma {:induction false} GroupCountBound(g: Grouping, msgs: seq<Message>)
    ensures |GroupMessages(g, msgs).keys| <= Count(msgs, m => !Skipped(g, m))
    ensures |GroupMessages(g, msgs).keys| <= |msgs|
  {
    if msgs != [] {
      var init := msgs[..|msgs| - 1];
      var m := msgs[|msgs| - 1];
      GroupCountBound(g, init);
      assert msgs == init + [m];
      CountAppend(init, [m], m => !Skipped(g, m));
      assert Count([m], m => !Skipped(g, m)) == if Skipped(g, m) then 0 else 1;
    }
  }

  /** In the per-student grouping every group holds exactly its messages, in
      list order, and the first of them is its lastMessage. */
  lemma StudentGroupMessages(g: Grouping, msgs: seq<Message>)
    requires g.ByStudent?
    ensures forall k :: k in GroupMessages(g, msgs).entries ==>
              && GroupMessages(g, msgs).entries[k].messages == Filter(msgs, m => InGroup(g, m, k))
              && GroupMessages(g, msgs).entries[k].messages != []
              && GroupMessages(g, msgs).entries[k].messages[0] == GroupMessages(g, msgs).entries[k].lastMessage
  {
    forall k | k in GroupMessages(g, msgs).entries
      ensures GroupMessages(g, msgs).entries[k].messages == Filter(msgs, m => InGroup(g, m, k))
      ensures GroupMessages(g, msgs).entries[k].messages != []
      ensures GroupMessages(g, msgs).entries[k].messages[0] == GroupMessages(g, msgs).entries[k].lastMessage
    {
      StudentGroupMessagesOf(g, msgs, k);
    }
  }

  lemma {:induction false} StudentGroupMessagesOf(g: Grouping, msgs: seq<Message>, k: ConvKey)
    requires g.ByStudent?
    requires k in GroupMessages(g, msgs).entries
    ensures GroupMessages(g, msgs).entries[k].messages == Filter(msgs, m => InGroup(g, m, k))
    ensures GroupMessages(g, msgs).entries[k].messages != []
    ensures GroupMessages(g, msgs).entries[k].messages[0] == GroupMessages(g, msgs).entries[k].lastMessage
  {
    var init := msgs[..|msgs| - 1];
    var m := msgs[|msgs| - 1];
    var s := GroupMessages(g, init);
    assert msgs == init + [m];
    FilterAppend(init, [m], m => InGroup(g, m, k));
    assert Filter([m], m => InGroup(g, m, k)) == if InGroup(g, m, k) then [m] else [];
    if k in s.entries {
      StudentGroupMessagesOf(g, init, k);
    } else {
      GroupKeys(g, init);
      forall j | 0 <= j < |init| ensures !InGroup(g, init[j], k) {
      }
      FilterNone(init, m => InGroup(g, m, k));
    }
  }

  // ---------------------------------------------------------------------
  // Newest first
  // ---------------------------------------------------------------------

  predicate NewestFirst(msgs: seq<Message>) {
    forall i, j :: 0 <= i < j < |msgs| ==> msgs[i].createdAt >= msgs[j].createdAt
  }

  /** Given a newest-first list, each group's lastMessage is at least as recent
      as every message of that group. */
  lemma LastMessageIsNewest(g: Grouping, msgs: seq<Message>, k: ConvKey, i: nat)
    requires NewestFirst(msgs)
    requires k in GroupMessages(g, msgs).entries
    requires i < |msgs| && InGroup(g, msgs[i], k)
    ensures GroupMessages(g, msgs).entries[k].lastMessage.createdAt >= msgs[i].createdAt
  {
    GroupLastMessage(g, msgs);
    var last := GroupMessages(g, msgs).entries[k].lastMessage;
    var f :| 0 <= f < |msgs| && msgs[f] == last && InGroup(g, last, k)
             && forall j :: 0 <= j < f ==> !InGroup(g, msgs[j], k);
    assert f <= i;
  }

  /** The entries, read in key order, have non-increasing lastMessage times. */
  ghost predicate EntriesNewestFirst(s: GroupState) {
    && (forall k :: k in s.keys ==> k in s.entries)
    && forall i, j :: 0 <= i < j < |s.keys| ==>
         s.entries[s.keys[i]].lastMessage.createdAt >= s.entries[s.keys[j]].lastMessage.createdAt
  }

  /** Given a newest-first list, the groups come out of the map newest first
      already, so the final sort keeps them in insertion order. */
  lemma {:induction false} GroupsInNewestOrder(g: Grouping, msgs: seq<Message>)
    requires NewestFirst(msgs)
    ensures EntriesNewestFirst(GroupMessages(g, msgs))
  {
    GroupKeys(g, msgs);
    if msgs != [] {
      var init := msgs[..|msgs| - 1];
      var m := msgs[|msgs| - 1];
      assert NewestFirst(init);
      GroupsInNewestOrder(g, init);
      GroupKeys(g, init);
      var s := GroupMessages(g, init);
      assert forall f :: 0 <= f < |init| ==> init[f].createdAt >= m.createdAt;
      LastMessagesAtLeast(g, init, m.createdAt);
      StepKeepsLastMessages(g, s, m);
      StepKeepsNewestFirst(g, s, m);
    }
  }

  lemma LastMessagesAtLeast(g: Grouping, msgs: seq<Message>, t: int)
    requires forall f :: 0 <= f < |msgs| ==> msgs[f].createdAt >= t
    ensures forall k :: k in GroupMessages(g, msgs).entries ==>
              GroupMessages(g, msgs).entries[k].lastMessage.createdAt >= t
  {
    GroupLastMessage(g, msgs);
  }

  lemma StepKeepsNewestFirst(g: Grouping, s: GroupState, m: Message)
    requires EntriesNewestFirst(s)
    requires forall k :: k in s.keys <==> k in s.entries
    requires forall k :: k in s.entries ==> s.entries[k].lastMessage.createdAt >= m.createdAt
    ensures EntriesNewestFirst(Step(g, s, m))
  {
    var r := Step(g, s, m);
    StepKeepsLastMessages(g, s, m);
    forall i, j | 0 <= i < j < |r.keys|
      ensures r.entries[r.keys[i]].lastMessage.createdAt >= r.entries[r.keys[j]].lastMessage.createdAt
    {
      assert r.keys[i] == s.keys[i];
      if j < |s.keys| {
        assert r.keys[j] == s.keys[j];
      }
    }
  }

  /** A step keeps every existing entry's lastMessage and either keeps the key
      list or appends the new key, whose entry starts at this message. */
  lemma StepKeepsLastMessages(g: Grouping, s: GroupState, m: Message)
    requires forall k :: k in s.keys <==> k in s.entries
    ensures var r := Step(g, s, m);
            && (forall k :: k in s.entries ==> k in r.entries && r.entries[k].lastMessage == s.entries[k].lastMessage)
            && (r.keys == s.keys || (r.keys == s.keys + [KeyOf(g, m)] && r.entries[KeyOf(g, m)].lastMessage == m))
  {
  }

  // ---------------------------------------------------------------------
  // The map's values, as `Array.from(map.values())` returns them
  // ---------------------------------------------------------------------

  function GroupValues(g: Grouping, msgs: seq<Message>): (r: seq<Entry>)
    ensures |r| == |GroupMessages(g, msgs).keys|
  {
    GroupKeys(g, msgs);
    var s := GroupMessages(g, msgs);
    Values(s.keys, s.entries)
  }

  /** Each value belongs to its own conversation key: the values' keys are the
      map's keys, in insertion order. */
  lemma GroupValuesKeys(g: Grouping, msgs: seq<Message>)
    ensures var vs := GroupValues(g, msgs);
            forall j :: 0 <= j < |vs| ==> KeyOf(g, vs[j].lastMessage) == GroupMessages(g, msgs).keys[j]
  {
    var s := GroupMessages(g, msgs);
    GroupKeys(g, msgs);
    GroupLastMessage(g, msgs);
    var vs := GroupValues(g, msgs);
    forall j | 0 <= j < |vs| ensures KeyOf(g, vs[j].lastMessage) == s.keys[j] {
      assert vs[j] == s.entries[s.keys[j]];
    }
  }

  /** One value per conversation, and never more than there are messages. */
  lemma GroupValuesDistinct(g: Grouping, msgs: seq<Message>)
    ensures var vs := GroupValues(g, msgs);
            && |vs| <= |msgs|
            && forall i, j :: 0 <= i < j < |vs| ==> KeyOf(g, vs[i].lastMessage) != KeyOf(g, vs[j].lastMessage)
  {
    GroupValuesKeys(g, msgs);
    GroupKeys(g, msgs);
    GroupCountBound(g, msgs);
  }

  /** Every message taking part lands in one of the values. */
  lemma GroupValuesCover(g: Grouping, msgs: seq<Message>)
    ensures var vs := GroupValues(g, msgs);
            forall i :: 0 <= i < |msgs| && !Skipped(g, msgs[i]) ==>
              exists j :: 0 <= j < |vs| && KeyOf(g, vs[j].lastMessage) == KeyOf(g, msgs[i])
  {
    var s := GroupMessages(g, msgs);
    var vs := GroupValues(g, msgs);
    GroupValuesKeys(g, msgs);
    GroupKeys(g, msgs);
    forall i | 0 <= i < |msgs| && !Skipped(g, msgs[i])
      ensures exists j :: 0 <= j < |vs| && KeyOf(g, vs[j].lastMessage) == KeyOf(g, msgs[i])
    {
      var k := KeyOf(g, msgs[i]);
      assert InGroup(g, msgs[i], k);
      assert k in s.keys;
      var j :| 0 <= j < |s.keys| && s.keys[j] == k;
      assert KeyOf(g, vs[j].lastMessage) == k;
    }
  }

  /** A value's lastMessage is the first message of its conversation, and its
      unread counter counts that conversation's unread messages not sent by the viewer. */
  lemma GroupValuesEntries(g: Grouping, msgs: seq<Message>)
    ensures var vs := GroupValues(g, msgs);
            forall j :: 0 <= j < |vs| ==>
              && IsFirstInGroup(g, msgs, KeyOf(g, vs[j].lastMessage), vs[j].lastMessage)
              && !Skipped(g, vs[j].lastMessage)
              && vs[j].unreadCount == Count(msgs, UnreadIn(g, KeyOf(g, vs[j].lastMessage)))
  {
    var s := GroupMessages(g, msgs);
    var vs := GroupValues(g, msgs);
    GroupValuesKeys(g, msgs);
    GroupKeys(g, msgs);
    GroupLastMessage(g, msgs);
    GroupUnreadCount(g, msgs);
    forall j | 0 <= j < |vs|
      ensures IsFirstInGroup(g, msgs, KeyOf(g, vs[j].lastMessage), vs[j].lastMessage)
      ensures vs[j].unreadCount == Count(msgs, UnreadIn(g, KeyOf(g, vs[j].lastMessage)))
    {
      assert vs[j] == s.entries[s.keys[j]];
    }
  }

  /** For a newest-first list the values are already newest first. */
  lemma GroupValuesNewestFirst(g: Grouping, msgs: seq<Message>)
    requires NewestFirst(msgs)
    ensures var vs := GroupValues(g, msgs);
            forall i, j :: 0 <= i < j < |vs| ==> vs[i].lastMessage.createdAt >= vs[j].lastMessage.createdAt
  {
    GroupsInNewestOrder(g, msgs);
  }

  /** An entry as its conversation's first message created it, up to its
      message list and unread counter. */
  predicate FromFirst(g: Grouping, e: Entry) {
    e == NewEntry(g, e.lastMessage).(messages := e.messages, unreadCount := e.unreadCount)
  }

  ghost predicate AllFromFirst(g: Grouping, s: GroupState) {
    forall k :: k in s.entries ==> FromFirst(g, s.entries[k])
  }

  lemma StepKeepsFromFirst(g: Grouping, s: GroupState, m: Message)
    requires AllFromFirst(g, s)
    ensures AllFromFirst(g, Step(g, s, m))
  {
    var r := Step(g, s, m);
    if !Skipped(g, m) {
      var a := Admit(g, s, m);
      assert AllFromFirst(g, a);
      var k := KeyOf(g, m);
      assert FromFirst(g, a.entries[k]);
      forall k' | k' in r.entries ensures FromFirst(g, r.entries[k']) {
        if k' != k {
          assert r.entries[k'] == a.entries[k'];
        }
      }
    }
  }

  /** An entry only ever changes its message list and unread counter after the
      first message of its conversation created it. */
  lemma {:induction false} EntriesFromFirst(g: Grouping, msgs: seq<Message>)
    ensures AllFromFirst(g, GroupMessages(g, msgs))
  {
    if msgs != [] {
      EntriesFromFirst(g, msgs[..|msgs| - 1]);
      StepKeepsFromFirst(g, GroupMessages(g, msgs[..|msgs| - 1]), msgs[|msgs| - 1]);
    }
  }

  /** Every value keeps what its first message set: the participant, the
      session fields and the product. */
  lemma GroupValuesCreatedFromFirst(g: Grouping, msgs: seq<Message>)
    ensures var vs := GroupValues(g, msgs);
            forall j :: 0 <= j < |vs| ==> FromFirst(g, vs[j])
  {
    EntriesFromFirst(g, msgs);
    var s := GroupMessages(g, msgs);
    GroupKeys(g, msgs);
    var vs := GroupValues(g, msgs);
    forall j | 0 <= j < |vs| ensures FromFirst(g, vs[j]) {
      assert vs[j] == s.entries[s.keys[j]];
    }
  }
}
