/**
 * The tutoring message service: the checks a message passes before it is
 * stored, and the two conversation lists built from newest-first message rows
 * (a tutor's conversations about one session, grouped by student, and all of a
 * user's tutoring conversations, grouped by session and peer).
 */
module TutoringMessages {

  import opened Common
  import opened Conversations

  datatype SendError = SelfMessage | EmptyContent

  /** The row inserted for an accepted message. */
  datatype MessageInsert = MessageInsert(
    tutoringSessionId: Option<string>,
    senderId: string,
    recipientId: string,
    content: string,
    images: Option<seq<string>>,
    isRead: bool)

  /** sendTutoringMessage up to the insert: self-messages and blank content are
      refused, in that order; otherwise the content is stored trimmed and unread. */
  function ValidateTutoringMessage(sessionId: Option<string>, senderId: string, recipientId: string,
                                   content: string, images: Option<seq<string>>): (r: Result<MessageInsert, SendError>)
    ensures r == Err(SelfMessage) <==> senderId == recipientId
    ensures r == Err(EmptyContent) <==> senderId != recipientId && IsBlank(content)
    ensures r.Ok? ==>
              && r.value.content == Trim(content) && r.value.content != ""
              && !r.value.isRead
              && r.value.senderId == senderId && r.value.recipientId == recipientId
              && r.value.images == images
              && (sessionId.Some? && sessionId.value != "" ==> r.value.tutoringSessionId == sessionId)
              && (sessionId.None? || sessionId.value == "" ==> r.value.tutoringSessionId.None?)
  {
    TrimEmptyIffBlank(content);
    if senderId == recipientId then Err(SelfMessage)
    else if Trim(content) == "" then Err(EmptyContent)
    else
      Ok(MessageInsert(
        tutoringSessionId := if sessionId.Some? && sessionId.value != "" then sessionId else None,
        senderId := senderId,
        recipientId := recipientId,
        content := Trim(content),
        images := images,
        isRead := false))
  }

  /** A message of ideographic spaces only is blank: `trim` removes every
      space separator, not only the Latin-1 ones. */
  lemma IdeographicSpaceIsBlank(senderId: string, recipientId: string)
    requires senderId != recipientId
    ensures ValidateTutoringMessage(None, senderId, recipientId, "\U{3000}\U{3000}", None) == Err(EmptyContent)
    ensures Trim("\U{3000}\U{3000}") == ""
  {
    assert IsBlank("\U{3000}\U{3000}");
    TrimEmptyIffBlank("\U{3000}\U{3000}");
  }

  /** A conversation as the service returns it. */
  datatype ConversationGroup = ConversationGroup(
    participant: Option<UserInfo>,
    lastMessage: Message,
    unreadCount: nat,
    sessionId: string,
    sessionTitle: string)

  function ToConversationGroup(e: Entry): ConversationGroup {
    ConversationGroup(e.participant, e.lastMessage, e.unreadCount, e.sessionId, e.sessionTitle)
  }

  function ToConversationGroups(es: seq<Entry>): (r: seq<ConversationGroup>)
    ensures |r| == |es|
    ensures forall i :: 0 <= i < |r| ==> r[i] == ToConversationGroup(es[i])
  {
    if es == [] then [] else [ToConversationGroup(es[0])] + ToConversationGroups(es[1..])
  }

  /** The sort key: the lastMessage's timestamp (sorted newest first). */
  function LastCreated(c: ConversationGroup): int {
    c.lastMessage.createdAt
  }

  /** The list the grouping produces, after the newest-first sort. */
  function ConversationList(g: Grouping, msgs: seq<Message>): (r: seq<ConversationGroup>)
    ensures SortedDesc(r, LastCreated)
    ensures multiset(r) == multiset(ToConversationGroups(GroupValues(g, msgs)))
  {
    SortDescSorted(ToConversationGroups(GroupValues(g, msgs)), LastCreated);
    SortDesc(ToConversationGroups(GroupValues(g, msgs)), LastCreated)
  }

  datatype FetchError = SessionNotFound | LoadFailed

  /** The `for (const msg of messages)` loop of getTutoringMessagesGroupedByStudent:
      one entry per student, holding that student's messages. */
  method GroupByStudentRows(tutoringSessionId: string, tutorId: string, sessionTitle: string, messages: seq<Message>)
    returns (keys: seq<ConvKey>, conversations: map<ConvKey, Entry>)
    ensures GroupState(keys, conversations) == GroupMessages(ByStudent(tutorId, tutoringSessionId, sessionTitle), messages)
  {
    ghost var g := ByStudent(tutorId, tutoringSessionId, sessionTitle);
    keys := [];
    conversations := map[];
    var i := 0;
    while i < |messages|
      invariant 0 <= i <= |messages|
      invariant GroupState(keys, conversations) == GroupMessages(g, messages[..i])
    {
      GroupMessagesSnoc(g, messages, i);
      var msg := messages[i];
      var isFromTutor := msg.senderId == tutorId;
      var studentId := if isFromTutor then msg.recipientId else msg.senderId;
      var studentInfo := if isFromTutor then msg.recipient else msg.sender;
      var key := StudentKey(studentId);
      ghost var before := GroupState(keys, conversations);
      if key !in conversations {
        keys := keys + [key];
        conversations := conversations[key := Entry(
          participant := studentInfo,
          lastMessage := msg,
          messages := [],
          unreadCount := 0,
          sessionId := tutoringSessionId,
          sessionTitle := sessionTitle,
          product := None)];
      }
      assert GroupState(keys, conversations) == Admit(g, before, msg);
      var conv := conversations[key];
      conv := conv.(messages := conv.messages + [msg]);
      if !isFromTutor && !msg.isRead {
        conv := conv.(unreadCount := conv.unreadCount + 1);
      }
      conversations := conversations[key := conv];
      i := i + 1;
    }
    assert messages[..|messages|] == messages;
  }

  /** getTutoringMessagesGroupedByStudent. `sessionTitle` is the session lookup
      (None when it failed) and `rows` the message query (None when it failed). */
  method GetTutoringMessagesGroupedByStudent(tutoringSessionId: string, tutorId: string,
                                             sessionTitle: Option<string>, rows: Option<seq<Message>>)
    returns (r: Result<seq<ConversationGroup>, FetchError>)
    ensures sessionTitle.None? ==> r == Err(SessionNotFound)
    ensures sessionTitle.Some? && rows.None? ==> r == Err(LoadFailed)
    ensures sessionTitle.Some? && rows.Some? ==>
              r == Ok(ConversationList(ByStudent(tutorId, tutoringSessionId, sessionTitle.value), rows.value))
  {
    if sessionTitle.None? {
      return Err(SessionNotFound);
    }
    if rows.None? {
      return Err(LoadFailed);
    }
    var messages := rows.value;
    ghost var g := ByStudent(tutorId, tutoringSessionId, sessionTitle.value);
    var keys, conversations := GroupByStudentRows(tutoringSessionId, tutorId, sessionTitle.value, messages);
    var result := StudentGroups(tutoringSessionId, tutorId, sessionTitle.value, messages, keys, conversations);
    ListFromState(g, messages, keys, conversations);
    return Ok(SortDesc(result, LastCreated));
  }

  /** The `for (const [studentId, conv] of conversationsMap)` loop: each entry's
      lastMessage is the first message pushed onto it. */
  method StudentGroups(tutoringSessionId: string, tutorId: string, sessionTitle: string,
                       messages: seq<Message>, keys: seq<ConvKey>, conversations: map<ConvKey, Entry>)
    returns (result: seq<ConversationGroup>)
    requires GroupState(keys, conversations) == GroupMessages(ByStudent(tutorId, tutoringSessionId, sessionTitle), messages)
    ensures forall k :: k in keys ==> k in conversations
    ensures result == ToConversationGroups(Values(keys, conversations))
  {
    StudentKeysListed(tutoringSessionId, tutorId, sessionTitle, messages, keys, conversations);
    result := [];
    var j := 0;
    while j < |keys|
      invariant 0 <= j <= |keys|
      invariant |result| == j
      invariant forall t :: 0 <= t < j ==> result[t] == ToConversationGroup(conversations[keys[t]])
    {
      var conv := conversations[keys[j]];
      StudentGroupAt(tutoringSessionId, tutorId, sessionTitle, messages, keys, conversations, j);
      result := result + [ConversationGroup(conv.participant, conv.messages[0], conv.unreadCount,
                                            tutoringSessionId, sessionTitle)];
      j := j + 1;
    }
  }

  /** The loop's keys all have entries. */
  lemma StudentKeysListed(tutoringSessionId: string, tutorId: string, sessionTitle: string,
                          messages: seq<Message>, keys: seq<ConvKey>, conversations: map<ConvKey, Entry>)
    requires GroupState(keys, conversations) == GroupMessages(ByStudent(tutorId, tutoringSessionId, sessionTitle), messages)
    ensures forall k :: k in keys ==> k in conversations
  {
    GroupKeys(ByStudent(tutorId, tutoringSessionId, sessionTitle), messages);
  }

  /** The j-th entry of the loop, turned into the returned record. */
  lemma StudentGroupAt(tutoringSessionId: string, tutorId: string, sessionTitle: string,
                       messages: seq<Message>, keys: seq<ConvKey>, conversations: map<ConvKey, Entry>, j: int)
    requires GroupState(keys, conversations) == GroupMessages(ByStudent(tutorId, tutoringSessionId, sessionTitle), messages)
    requires 0 <= j < |keys| && keys[j] in conversations
    ensures var conv := conversations[keys[j]];
            && conv.messages != []
            && ConversationGroup(conv.participant, conv.messages[0], conv.unreadCount, tutoringSessionId, sessionTitle)
               == ToConversationGroup(conv)
  {
    StudentEntry(tutoringSessionId, tutorId, sessionTitle, messages, keys[j]);
  }

  /** A per-student entry: its first pushed message is its lastMessage, and its
      session fields are the ones the tutor's list reports. */
  lemma StudentEntry(tutoringSessionId: string, tutorId: string, sessionTitle: string, msgs: seq<Message>, k: ConvKey)
    requires k in GroupMessages(ByStudent(tutorId, tutoringSessionId, sessionTitle), msgs).entries
    ensures var e := GroupMessages(ByStudent(tutorId, tutoringSessionId, sessionTitle), msgs).entries[k];
            && e.messages != []
            && ConversationGroup(e.participant, e.messages[0], e.unreadCount, tutoringSessionId, sessionTitle)
               == ToConversationGroup(e)
  {
    var g := ByStudent(tutorId, tutoringSessionId, sessionTitle);
    StudentGroupMessagesOf(g, msgs, k);
    EntriesFromFirst(g, msgs);
    assert FromFirst(g, GroupMessages(g, msgs).entries[k]);
  }

  /** The map the loop built, turned into the returned list. */
  lemma ListFromState(g: Grouping, msgs: seq<Message>, keys: seq<ConvKey>, entries: map<ConvKey, Entry>)
    requires GroupState(keys, entries) == GroupMessages(g, msgs)
    ensures forall k :: k in keys ==> k in entries
    ensures SortDesc(ToConversationGroups(Values(keys, entries)), LastCreated) == ConversationList(g, msgs)
  {
    GroupKeys(g, msgs);
  }

  /** The `for (const msg of messages)` loop of getAllUserConversations: one entry
      per (session, peer) pair. */
  method GroupUserRows(userId: string, messages: seq<Message>)
    returns (keys: seq<ConvKey>, conversations: map<ConvKey, Entry>)
    ensures GroupState(keys, conversations) == GroupMessages(BySessionAndPeer(userId), messages)
  {
    ghost var g := BySessionAndPeer(userId);
    keys := [];
    conversations := map[];
    var i := 0;
    while i < |messages|
      invariant 0 <= i <= |messages|
      invariant GroupState(keys, conversations) == GroupMessages(g, messages[..i])
    {
      GroupMessagesSnoc(g, messages, i);
      keys, conversations := AddUserRow(userId, keys, conversations, messages[i]);
      i := i + 1;
    }
    assert messages[..|messages|] == messages;
  }

  /** One pass of that loop's body: the (session, peer) entry is created when
      missing, then counted when the row is unread and was received. */
  method AddUserRow(userId: string, keys: seq<ConvKey>, conversations: map<ConvKey, Entry>, msg: Message)
    returns (keys': seq<ConvKey>, conversations': map<ConvKey, Entry>)
    ensures GroupState(keys', conversations') == Step(BySessionAndPeer(userId), GroupState(keys, conversations), msg)
  {
    ghost var g := BySessionAndPeer(userId);
    var isFromUser := msg.senderId == userId;
    var otherId := if isFromUser then msg.recipientId else msg.senderId;
    var otherInfo := if isFromUser then msg.recipient else msg.sender;
    var sessionInfo := msg.session;
    var sessionId := if sessionInfo.Some? && sessionInfo.value.id != "" then sessionInfo.value.id else "direct";
    var key := SessionPeerKey(sessionId, otherId);
    ghost var before := GroupState(keys, conversations);
    keys', conversations' := keys, conversations;
    if key !in conversations' {
      keys' := keys' + [key];
      conversations' := conversations'[key := Entry(
        participant := otherInfo,
        lastMessage := msg,
        messages := [],
        unreadCount := 0,
        sessionId := if sessionInfo.Some? then sessionInfo.value.id else "",
        sessionTitle := if sessionInfo.Some? && sessionInfo.value.title != "" then sessionInfo.value.title else "Mensaje directo",
        product := None)];
    }
    assert GroupState(keys', conversations') == Admit(g, before, msg);
    RecordCounts(g, Admit(g, before, msg), msg);
    if !isFromUser && !msg.isRead {
      var conv := conversations'[key];
      conversations' := conversations'[key := conv.(unreadCount := conv.unreadCount + 1)];
    }
  }

  /** getAllUserConversations; `rows` is the message query (None when it failed). */
  method GetAllUserConversations(userId: string, rows: Option<seq<Message>>)
    returns (r: Result<seq<ConversationGroup>, FetchError>)
    ensures rows.None? ==> r == Err(LoadFailed)
    ensures rows.Some? ==> r == Ok(ConversationList(BySessionAndPeer(userId), rows.value))
  {
    if rows.None? {
      return Err(LoadFailed);
    }
    var keys, conversations := GroupUserRows(userId, rows.value);
    ListFromState(BySessionAndPeer(userId), rows.value, keys, conversations);
    var result := ToConversationGroups(Values(keys, conversations));
    return Ok(SortDesc(result, LastCreated));
  }

  /** For the newest-first rows the query returns, a user's list holds one
      conversation per (session, peer) pair, never more than there are rows. */
  lemma UserConversationsDistinct(userId: string, msgs: seq<Message>)
    requires NewestFirst(msgs)
    ensures var g := BySessionAndPeer(userId);
            var r := ConversationList(g, msgs);
            && |r| <= |msgs|
            && forall i, j :: 0 <= i < j < |r| ==> KeyOf(g, r[i].lastMessage) != KeyOf(g, r[j].lastMessage)
  {
    var g := BySessionAndPeer(userId);
    ConversationsOfNewest(g, msgs);
    GroupValuesDistinct(g, msgs);
  }

  /** Every row lands in the conversation of its (session, peer) pair. */
  lemma UserConversationsCover(userId: string, msgs: seq<Message>)
    requires NewestFirst(msgs)
    ensures var g := BySessionAndPeer(userId);
            var r := ConversationList(g, msgs);
            forall i :: 0 <= i < |msgs| ==>
              exists j :: 0 <= j < |r| && KeyOf(g, r[j].lastMessage) == KeyOf(g, msgs[i])
  {
    var g := BySessionAndPeer(userId);
    ConversationsOfNewest(g, msgs);
    GroupValuesCover(g, msgs);
    var vs := GroupValues(g, msgs);
    var r := ConversationList(g, msgs);
    forall i | 0 <= i < |msgs|
      ensures exists j :: 0 <= j < |r| && KeyOf(g, r[j].lastMessage) == KeyOf(g, msgs[i])
    {
      var j :| 0 <= j < |vs| && KeyOf(g, vs[j].lastMessage) == KeyOf(g, msgs[i]);
      assert r[j].lastMessage == vs[j].lastMessage;
    }
  }

  /** Each conversation of a user's list shows its newest row, the count of
      unread rows the user received in it, the other participant, and the
      session's id and title, or the direct-message defaults without a session. */
  lemma UserConversationsEntries(userId: string, msgs: seq<Message>)
    requires NewestFirst(msgs)
    ensures var g := BySessionAndPeer(userId);
            var r := ConversationList(g, msgs);
            forall j :: 0 <= j < |r| ==>
              && IsFirstInGroup(g, msgs, KeyOf(g, r[j].lastMessage), r[j].lastMessage)
              && r[j].unreadCount == Count(msgs, UnreadIn(g, KeyOf(g, r[j].lastMessage)))
              && r[j].participant == OtherInfo(r[j].lastMessage, userId)
              && (r[j].lastMessage.session.None? ==> r[j].sessionId == "" && r[j].sessionTitle == "Mensaje directo")
              && (r[j].lastMessage.session.Some? ==> r[j].sessionId == r[j].lastMessage.session.value.id)
              && (r[j].lastMessage.session.Some? && r[j].lastMessage.session.value.title != "" ==>
                    r[j].sessionTitle == r[j].lastMessage.session.value.title)
              && (r[j].lastMessage.session.Some? && r[j].lastMessage.session.value.title == "" ==>
                    r[j].sessionTitle == "Mensaje directo")
  {
    var g := BySessionAndPeer(userId);
    ConversationsOfNewest(g, msgs);
    GroupValuesEntries(g, msgs);
    GroupValuesCreatedFromFirst(g, msgs);
    var vs := GroupValues(g, msgs);
    forall j | 0 <= j < |vs| ensures FromFirst(g, vs[j]) && vs[j].participant == OtherInfo(vs[j].lastMessage, userId) {
      assert FromFirst(g, vs[j]);
    }
  }

  /** For newest-first rows, a tutor's per-student list holds one conversation
      per student, never more than there are rows. */
  lemma StudentConversationsDistinct(tutoringSessionId: string, tutorId: string, title: string, msgs: seq<Message>)
    requires NewestFirst(msgs)
    ensures var g := ByStudent(tutorId, tutoringSessionId, title);
            var r := ConversationList(g, msgs);
            && |r| <= |msgs|
            && (forall i, j :: 0 <= i < j < |r| ==> KeyOf(g, r[i].lastMessage) != KeyOf(g, r[j].lastMessage))
  {
    var g := ByStudent(tutorId, tutoringSessionId, title);
    ConversationsOfNewest(g, msgs);
    GroupValuesDistinct(g, msgs);
  }

  /** Every row lands in the conversation of its student. */
  lemma StudentConversationsCover(tutoringSessionId: string, tutorId: string, title: string, msgs: seq<Message>)
    requires NewestFirst(msgs)
    ensures var g := ByStudent(tutorId, tutoringSessionId, title);
            var r := ConversationList(g, msgs);
            forall i :: 0 <= i < |msgs| ==>
              exists j :: 0 <= j < |r| && KeyOf(g, r[j].lastMessage) == StudentKey(OtherId(msgs[i], tutorId))
  {
    var g := ByStudent(tutorId, tutoringSessionId, title);
    ConversationsOfNewest(g, msgs);
    GroupValuesCover(g, msgs);
    var vs := GroupValues(g, msgs);
    var r := ConversationList(g, msgs);
    forall i | 0 <= i < |msgs|
      ensures exists j :: 0 <= j < |r| && KeyOf(g, r[j].lastMessage) == StudentKey(OtherId(msgs[i], tutorId))
    {
      var j :| 0 <= j < |vs| && KeyOf(g, vs[j].lastMessage) == KeyOf(g, msgs[i]);
      assert r[j].lastMessage == vs[j].lastMessage;
    }
  }

  /** Each conversation of the tutor's list shows the student's newest row,
      the count of unread rows the student sent, and the session it was asked
      for; the tutor's own rows never count as unread. */
  lemma StudentConversationsEntries(tutoringSessionId: string, tutorId: string, title: string, msgs: seq<Message>)
    requires NewestFirst(msgs)
    ensures var g := ByStudent(tutorId, tutoringSessionId, title);
            var r := ConversationList(g, msgs);
            && (forall j :: 0 <= j < |r| ==>
                  && IsFirstInGroup(g, msgs, KeyOf(g, r[j].lastMessage), r[j].lastMessage)
                  && r[j].unreadCount == Count(msgs, UnreadIn(g, KeyOf(g, r[j].lastMessage)))
                  && r[j].sessionId == tutoringSessionId && r[j].sessionTitle == title)
            && (forall k: ConvKey, m: Message :: m.senderId == tutorId ==> !UnreadIn(g, k)(m))
  {
    var g := ByStudent(tutorId, tutoringSessionId, title);
    ConversationsOfNewest(g, msgs);
    GroupValuesEntries(g, msgs);
    GroupValuesCreatedFromFirst(g, msgs);
    var vs := GroupValues(g, msgs);
    forall j | 0 <= j < |vs| ensures vs[j].sessionId == tutoringSessionId && vs[j].sessionTitle == title {
      assert FromFirst(g, vs[j]);
    }
  }

  /** For newest-first rows the final sort keeps the map's order. */
  lemma ConversationsOfNewest(g: Grouping, msgs: seq<Message>)
    requires NewestFirst(msgs)
    ensures ConversationList(g, msgs) == ToConversationGroups(GroupValues(g, msgs))
  {
    GroupValuesNewestFirst(g, msgs);
    SortDescOfSorted(ToConversationGroups(GroupValues(g, msgs)), LastCreated);
  }
}
