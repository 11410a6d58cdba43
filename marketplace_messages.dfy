/**
 * The marketplace message service: the checks a message about a product
 * passes before it is stored, and a user's conversation list, one
 * conversation per (product, peer) pair, built from newest-first rows.
 */
module MarketplaceMessages {

  import opened Common
  import opened Conversations

  datatype SendError = SelfMessage | EmptyContent

  /** The row inserted for an accepted message. */
  datatype MessageInsert = MessageInsert(
    productId: string,
    senderId: string,
    recipientId: string,
    content: string,
    images: Option<seq<string>>,
    isRead: bool)

  /** sendMarketplaceMessage up to the insert: self-messages and blank content
      are refused, in that order; otherwise the content is stored trimmed and unread. */
  function ValidateMarketplaceMessage(productId: string, senderId: string, recipientId: string,
                                      content: string, images: Option<seq<string>>): (r: Result<MessageInsert, SendError>)
    ensures r == Err(SelfMessage) <==> senderId == recipientId
    ensures r == Err(EmptyContent) <==> senderId != recipientId && IsBlank(content)
    ensures r.Ok? ==>
              && r.value.content == Trim(content) && r.value.content != ""
              && !r.value.isRead
              && r.value.productId == productId
              && r.value.senderId == senderId && r.value.recipientId == recipientId
              && r.value.images == images
  {
    TrimEmptyIffBlank(content);
    if senderId == recipientId then Err(SelfMessage)
    else if Trim(content) == "" then Err(EmptyContent)
    else Ok(MessageInsert(productId, senderId, recipientId, Trim(content), images, false))
  }

  /** A conversation as the service returns it. */
  datatype MarketplaceConversationGroup = MarketplaceConversationGroup(
    participant: Option<UserInfo>,
    product: ProductInfo,
    lastMessage: Message,
    unreadCount: nat)

  /** The sort key: the lastMessage's timestamp (sorted newest first). */
  function LastCreated(c: MarketplaceConversationGroup): int {
    c.lastMessage.createdAt
  }

  function ToMarketplaceGroup(e: Entry): MarketplaceConversationGroup
    requires e.product.Some?
  {
    MarketplaceConversationGroup(e.participant, e.product.value, e.lastMessage, e.unreadCount)
  }

  function ToMarketplaceGroups(es: seq<Entry>): (r: seq<MarketplaceConversationGroup>)
    requires forall i :: 0 <= i < |es| ==> es[i].product.Some?
    ensures |r| == |es|
    ensures forall i :: 0 <= i < |r| ==> r[i] == ToMarketplaceGroup(es[i])
  {
    if es == [] then [] else [ToMarketplaceGroup(es[0])] + ToMarketplaceGroups(es[1..])
  }

  /** Every entry of the marketplace grouping has its product. */
  lemma GroupProducts(userId: string, msgs: seq<Message>)
    ensures var vs := GroupValues(ByProductAndPeer(userId), msgs);
            forall i :: 0 <= i < |vs| ==> vs[i].product.Some? && vs[i].product == vs[i].lastMessage.product
  {
    var g := ByProductAndPeer(userId);
    GroupValuesCreatedFromFirst(g, msgs);
    GroupValuesEntries(g, msgs);
    var vs := GroupValues(g, msgs);
    forall i | 0 <= i < |vs| ensures vs[i].product.Some? && vs[i].product == vs[i].lastMessage.product {
      assert FromFirst(g, vs[i]);
      assert !Skipped(g, vs[i].lastMessage);
    }
  }

  /** The list the grouping produces, after the newest-first sort. */
  function MarketplaceList(userId: string, msgs: seq<Message>): (r: seq<MarketplaceConversationGroup>)
    ensures SortedDesc(r, LastCreated)
    ensures multiset(r) == multiset(MarketplaceGroups(userId, msgs))
  {
    SortDescSorted(MarketplaceGroups(userId, msgs), LastCreated);
    SortDesc(MarketplaceGroups(userId, msgs), LastCreated)
  }

  /** `Array.from(conversationsMap.values())`. */
  function MarketplaceGroups(userId: string, msgs: seq<Message>): (r: seq<MarketplaceConversationGroup>)
    ensures |r| == |GroupValues(ByProductAndPeer(userId), msgs)|
  {
    GroupProducts(userId, msgs);
    ToMarketplaceGroups(GroupValues(ByProductAndPeer(userId), msgs))
  }

  datatype FetchError = LoadFailed

  /** The `for (const msg of messages)` loop of getMarketplaceConversations:
      rows without a product are skipped, the others grouped by (product, peer). */
  method GroupProductRows(userId: string, messages: seq<Message>)
    returns (keys: seq<ConvKey>, conversations: map<ConvKey, Entry>)
    ensures GroupState(keys, conversations) == GroupMessages(ByProductAndPeer(userId), messages)
  {
    ghost var g := ByProductAndPeer(userId);
    keys := [];
    conversations := map[];
    var i := 0;
    while i < |messages|
      invariant 0 <= i <= |messages|
      invariant GroupState(keys, conversations) == GroupMessages(g, messages[..i])
    {
      GroupMessagesSnoc(g, messages, i);
      var msg := messages[i];
      var isFromUser := msg.senderId == userId;
      var otherId := if isFromUser then msg.recipientId else msg.senderId;
      var otherInfo := if isFromUser then msg.recipient else msg.sender;
      var productInfo := msg.product;
      if productInfo.None? {
        i := i + 1;
        continue;
      }
      var key := ProductPeerKey(productInfo.value.id, otherId);
      ghost var before := GroupState(keys, conversations);
      if key !in conversations {
        keys := keys + [key];
        conversations := conversations[key := Entry(
          participant := otherInfo,
          lastMessage := msg,
          messages := [],
          unreadCount := 0,
          sessionId := "",
          sessionTitle := "",
          product := productInfo)];
      }
      assert GroupState(keys, conversations) == Admit(g, before, msg);
      RecordCounts(g, Admit(g, before, msg), msg);
      if !isFromUser && !msg.isRead {
        var conv := conversations[key];
        conversations := conversations[key := conv.(unreadCount := conv.unreadCount + 1)];
      }
      i := i + 1;
    }
    assert messages[..|messages|] == messages;
  }

  /** getMarketplaceConversations; `rows` is the message query (None when it failed). */
  method GetMarketplaceConversations(userId: string, rows: Option<seq<Message>>)
    returns (r: Result<seq<MarketplaceConversationGroup>, FetchError>)
    ensures rows.None? ==> r == Err(LoadFailed)
    ensures rows.Some? ==> r == Ok(MarketplaceList(userId, rows.value))
  {
    if rows.None? {
      return Err(LoadFailed);
    }
    var keys, conversations := GroupProductRows(userId, rows.value);
    var result := ProductGroups(userId, rows.value, keys, conversations);
    return Ok(SortDesc(result, LastCreated));
  }

  /** `Array.from(conversationsMap.values())` on the map the loop built. */
  method ProductGroups(userId: string, messages: seq<Message>, keys: seq<ConvKey>, conversations: map<ConvKey, Entry>)
    returns (result: seq<MarketplaceConversationGroup>)
    requires GroupState(keys, conversations) == GroupMessages(ByProductAndPeer(userId), messages)
    ensures result == MarketplaceGroups(userId, messages)
  {
    GroupKeys(ByProductAndPeer(userId), messages);
    GroupProducts(userId, messages);
    assert Values(keys, conversations) == GroupValues(ByProductAndPeer(userId), messages);
    result := ToMarketplaceGroups(Values(keys, conversations));
  }

  /** For newest-first rows the final sort keeps the map's order. */
  lemma MarketplaceListOfNewest(userId: string, msgs: seq<Message>)
    requires NewestFirst(msgs)
    ensures MarketplaceList(userId, msgs) == MarketplaceGroups(userId, msgs)
  {
    var g := ByProductAndPeer(userId);
    GroupValuesNewestFirst(g, msgs);
    var r := MarketplaceGroups(userId, msgs);
    assert forall i :: 0 <= i < |r| ==> r[i].lastMessage == GroupValues(g, msgs)[i].lastMessage;
    SortDescOfSorted(r, LastCreated);
  }

  /** Rows whose product did not join are in no conversation, and there are
      never more conversations than rows with a product. */
  lemma MarketplaceSkipsProductless(userId: string, msgs: seq<Message>)
    requires NewestFirst(msgs)
    ensures var r := MarketplaceList(userId, msgs);
            && |r| <= Count(msgs, (m: Message) => m.product.Some?)
            && forall j :: 0 <= j < |r| ==> r[j].lastMessage.product == Some(r[j].product)
  {
    var g := ByProductAndPeer(userId);
    MarketplaceListOfNewest(userId, msgs);
    GroupCountBound(g, msgs);
    GroupProducts(userId, msgs);
    assert Count(msgs, m => !Skipped(g, m)) == Count(msgs, (m: Message) => m.product.Some?) by {
      CountSame(msgs, m => !Skipped(g, m), (m: Message) => m.product.Some?);
    }
  }

  lemma {:induction false} CountSame<T>(s: seq<T>, p: T -> bool, q: T -> bool)
    requires forall x :: p(x) == q(x)
    ensures Count(s, p) == Count(s, q)
  {
    if s != [] {
      CountSame(s[1..], p, q);
    }
  }

  /** One conversation per (product, peer) pair, and every row with a product
      lands in the conversation of its pair. */
  lemma MarketplaceDistinctAndCover(userId: string, msgs: seq<Message>)
    requires NewestFirst(msgs)
    ensures var g := ByProductAndPeer(userId);
            var r := MarketplaceList(userId, msgs);
            && (forall i, j :: 0 <= i < j < |r| ==>
                  (r[i].product.id, OtherId(r[i].lastMessage, userId)) != (r[j].product.id, OtherId(r[j].lastMessage, userId)))
            && (forall i :: 0 <= i < |msgs| && msgs[i].product.Some? ==>
                  exists j :: 0 <= j < |r| && r[j].product.id == msgs[i].product.value.id
                                          && OtherId(r[j].lastMessage, userId) == OtherId(msgs[i], userId))
  {
    var g := ByProductAndPeer(userId);
    MarketplaceListOfNewest(userId, msgs);
    GroupValuesDistinct(g, msgs);
    GroupValuesCover(g, msgs);
    GroupProducts(userId, msgs);
    var vs := GroupValues(g, msgs);
    var r := MarketplaceList(userId, msgs);
    forall i, j | 0 <= i < j < |r|
      ensures (r[i].product.id, OtherId(r[i].lastMessage, userId)) != (r[j].product.id, OtherId(r[j].lastMessage, userId))
    {
      assert KeyOf(g, vs[i].lastMessage) != KeyOf(g, vs[j].lastMessage);
    }
    forall i | 0 <= i < |msgs| && msgs[i].product.Some?
      ensures exists j :: 0 <= j < |r| && r[j].product.id == msgs[i].product.value.id
                                      && OtherId(r[j].lastMessage, userId) == OtherId(msgs[i], userId)
    {
      var j :| 0 <= j < |vs| && KeyOf(g, vs[j].lastMessage) == KeyOf(g, msgs[i]);
      assert r[j].lastMessage == vs[j].lastMessage;
    }
  }

  /** Each conversation shows the newest row of its pair, the other
      participant, and the count of unread rows the user received in it. */
  lemma MarketplaceEntries(userId: string, msgs: seq<Message>)
    requires NewestFirst(msgs)
    ensures var g := ByProductAndPeer(userId);
            var r := MarketplaceList(userId, msgs);
            forall j :: 0 <= j < |r| ==>
              && IsFirstInGroup(g, msgs, KeyOf(g, r[j].lastMessage), r[j].lastMessage)
              && r[j].unreadCount == Count(msgs, UnreadIn(g, KeyOf(g, r[j].lastMessage)))
              && r[j].participant == OtherInfo(r[j].lastMessage, userId)
  {
    var g := ByProductAndPeer(userId);
    MarketplaceListOfNewest(userId, msgs);
    GroupValuesEntries(g, msgs);
    GroupValuesCreatedFromFirst(g, msgs);
    GroupProducts(userId, msgs);
    var vs := GroupValues(g, msgs);
    forall j | 0 <= j < |vs| ensures vs[j].participant == OtherInfo(vs[j].lastMessage, userId) {
      assert FromFirst(g, vs[j]);
    }
  }
}
