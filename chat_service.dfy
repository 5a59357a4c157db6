/**
 * The conversation/message store of server/src/service/chat-service.ts.
 *
 * The two database tables are sequences in a class, the database's clock is a
 * counter that every write advances, and Prisma's generated conversation ids
 * come from a second counter. Messages are kept in insertion order, which the
 * counter makes the same as `createdAt` order.
 */
module ChatService {
  import opened Wrappers
  import opened Json
  import opened Seqs

  type ConversationId = nat

  datatype Conversation = Conversation(
    id: ConversationId, userId: string, mode: string, title: string, createdAt: nat, updatedAt: nat)

  /** A row of the message table: the content is stored as text. */
  datatype Message = Message(conversationId: ConversationId, role: string, content: string, createdAt: nat)

  /** A message as `getMessages` returns it, with its content parsed back. */
  datatype ParsedMessage = ParsedMessage(conversationId: ConversationId, role: string, content: Json, createdAt: nat)

  /** A message as handed to the completion API: role and flat text only. */
  datatype ChatMessage = ChatMessage(role: string, content: string)

  /** A conversation together with the messages a query included with it. */
  datatype ConversationView = ConversationView(conversation: Conversation, messages: seq<Message>)

  /** What `getOrCreateConversation` gives back. */
  datatype Opened =
    | Existing(conversation: Conversation, messages: seq<Message>)
    | Created(conversation: Conversation)

  // ---------------------------------------------------------------------------
  // Content encoding
  // ---------------------------------------------------------------------------

  /** `typeof content === 'string' ? content : JSON.stringify(content)`, used by both addMessage and formatMessages. */
  function ContentText(codec: JsonCodec, content: Json): (r: string)
    ensures content.JString? ==> r == content.s
    ensures RoundTrips(codec) && WellFormed(content) && !content.JString? ==> codec.parse(r) == Some(content)
  {
    if content.JString? then content.s else codec.stringify(content)
  }

  /** `parseContent`: JSON.parse, or the raw text when parsing throws. */
  function ParseContent(codec: JsonCodec, raw: string): (r: Json)
    ensures codec.parse(raw).None? ==> r == JString(raw)
    ensures r != JString(raw) ==> codec.parse(raw) == Some(r)
  {
    match codec.parse(raw)
    case Some(j) => j
    case None => JString(raw)
  }

  /**
   * What `getMessages` gives back for stored content: a structured value
   * comes back as itself; a string comes back unchanged unless its text is
   * itself valid JSON, in which case the parsed value comes back instead.
   */
  lemma ContentReadBack(codec: JsonCodec, content: Json)
    requires RoundTrips(codec)
    ensures !content.JString? && WellFormed(content) ==> ParseContent(codec, ContentText(codec, content)) == content
    ensures content.JString? && codec.parse(content.s).None? ==> ParseContent(codec, ContentText(codec, content)) == content
    ensures content.JString? && codec.parse(content.s).Some? ==>
              ParseContent(codec, ContentText(codec, content)) == codec.parse(content.s).value
  {
    if !content.JString? && WellFormed(content) {
      assert codec.parse(codec.stringify(content)) == Some(content);
    }
  }

  /**
   * Replay is faithful: text that was stored from a structured value, or from
   * a string that is not valid JSON, reaches the completion API exactly as
   * it was stored.
   */
  lemma ReplayedTextIsStoredText(codec: JsonCodec, content: Json)
    requires RoundTrips(codec) && WellFormed(content)
    requires !content.JString? || codec.parse(content.s).None?
    ensures ContentText(codec, ParseContent(codec, ContentText(codec, content))) == ContentText(codec, content)
  {
    ContentReadBack(codec, content);
  }

  function Parsed(codec: JsonCodec, m: Message): ParsedMessage {
    ParsedMessage(m.conversationId, m.role, ParseContent(codec, m.content), m.createdAt)
  }

  /** `formatMessages`: the `{role, content}` projection handed to the completion API. */
  function FormatMessages(codec: JsonCodec, messages: seq<ParsedMessage>): (r: seq<ChatMessage>)
    ensures |r| == |messages|
    ensures forall i :: 0 <= i < |r| ==> r[i].role == messages[i].role
    ensures forall i :: 0 <= i < |r| ==> (messages[i].content.JString? ==> r[i].content == messages[i].content.s)
    ensures forall i :: 0 <= i < |r| ==> (!messages[i].content.JString? ==> r[i].content == codec.stringify(messages[i].content))
  {
    seq(|messages|, i requires 0 <= i < |messages| => ChatMessage(messages[i].role, ContentText(codec, messages[i].content)))
  }

  // ---------------------------------------------------------------------------
  // Table queries
  // ---------------------------------------------------------------------------

  predicate Chronological(ms: seq<Message>) {
    forall i, j :: 0 <= i < j < |ms| ==> ms[i].createdAt < ms[j].createdAt
  }

  predicate DistinctKeys(cs: seq<Conversation>) {
    forall i, j :: 0 <= i < j < |cs| ==> cs[i].id != cs[j].id && cs[i].updatedAt != cs[j].updatedAt
  }

  function Ids(cs: seq<Conversation>): set<ConversationId> {
    set c | c in cs :: c.id
  }

  /** Rewriting one row in place, keeping its id and giving it the newest timestamp, keeps the keys. */
  lemma ReplaceKeepsKeys(cs: seq<Conversation>, k: nat, c: Conversation, clock: nat)
    requires k < |cs| && c.id == cs[k].id && c.updatedAt == clock
    requires DistinctKeys(cs) && forall x :: x in cs ==> x.updatedAt < clock
    ensures Ids(cs[k := c]) == Ids(cs)
    ensures DistinctKeys(cs[k := c])
  {
    var us := cs[k := c];
    forall x | x in Ids(cs) ensures x in Ids(us) {
      var i :| 0 <= i < |cs| && cs[i].id == x;
      assert us[i] in us;
    }
    forall x | x in Ids(us) ensures x in Ids(cs) {
      var i :| 0 <= i < |us| && us[i].id == x;
      assert cs[i] in cs;
    }
    forall i, j | 0 <= i < j < |us| ensures us[i].id != us[j].id && us[i].updatedAt != us[j].updatedAt {
      assert cs[i] in cs && cs[j] in cs;
    }
  }

  /** The `where` clauses of the service, as filters. */
  function InConversation(id: ConversationId): Message -> bool {
    (m: Message) => m.conversationId == id
  }

  function OutsideConversation(id: ConversationId): Message -> bool {
    (m: Message) => m.conversationId != id
  }

  function OwnedBy(userId: string): Conversation -> bool {
    (c: Conversation) => c.userId == userId
  }

  function NotThePair(id: ConversationId, userId: string): Conversation -> bool {
    (c: Conversation) => !(c.id == id && c.userId == userId)
  }

  /** Message rows filtered by a `where` clause stay in `createdAt` order. */
  lemma ChronologicalFilter(ms: seq<Message>, keep: Message -> bool)
    requires Chronological(ms)
    ensures Chronological(Filter(ms, keep))
  {
    FilterKeepsOrder(ms, keep, (a: Message, b: Message) => a.createdAt < b.createdAt);
  }

  /** `where: { conversationId }` on the message table. */
  function MessagesOf(ms: seq<Message>, id: ConversationId): (r: seq<Message>)
    ensures forall m :: m in r <==> m in ms && m.conversationId == id
    ensures Chronological(ms) ==> Chronological(r)
  {
    if Chronological(ms) then ChronologicalFilter(ms, InConversation(id)); Filter(ms, InConversation(id))
    else Filter(ms, InConversation(id))
  }

  /**
   * The log is append-only: a new row extends its own conversation's
   * messages by exactly that row and leaves every other conversation's alone.
   */
  lemma MessagesOfAppend(ms: seq<Message>, m: Message, id: ConversationId)
    ensures MessagesOf(ms + [m], id) == MessagesOf(ms, id) + (if m.conversationId == id then [m] else [])
  {
    FilterAppend(ms, [m], InConversation(id));
    assert [m][1..] == [];
    assert Filter([m], InConversation(id)) == if m.conversationId == id then [m] else [];
  }

  /** The rows of a message list with their content parsed back. */
  function ParsedAll(codec: JsonCodec, ms: seq<Message>): (r: seq<ParsedMessage>)
    ensures |r| == |ms| && forall i :: 0 <= i < |ms| ==> r[i] == Parsed(codec, ms[i])
  {
    seq(|ms|, i requires 0 <= i < |ms| => Parsed(codec, ms[i]))
  }

  /** `findFirst({ where: { id, userId } })`. */
  function FindOwned(cs: seq<Conversation>, id: ConversationId, userId: string): (r: Option<Conversation>)
    ensures r.Some? ==> r.value in cs && r.value.id == id && r.value.userId == userId
    ensures r.None? ==> forall c :: c in cs ==> !(c.id == id && c.userId == userId)
  {
    if cs == [] then None
    else if cs[0].id == id && cs[0].userId == userId then Some(cs[0])
    else FindOwned(cs[1..], id, userId)
  }

  /** `take: 1, orderBy: { createdAt: 'desc' }` on a chronological list. */
  function Latest(ms: seq<Message>): (r: seq<Message>)
    requires Chronological(ms)
    ensures |r| <= 1
    ensures r == [] <==> ms == []
    ensures r != [] ==> r[0] in ms && forall m :: m in ms ==> m.createdAt <= r[0].createdAt
  {
    if ms == [] then [] else [ms[|ms| - 1]]
  }

  predicate MoreRecent(a: Conversation, b: Conversation) {
    a.updatedAt >= b.updatedAt
  }

  predicate ByRecencySorted(cs: seq<Conversation>) {
    forall i, j :: 0 <= i < j < |cs| ==> MoreRecent(cs[i], cs[j])
  }

  function InsertByRecency(c: Conversation, cs: seq<Conversation>): (r: seq<Conversation>)
    ensures |r| == |cs| + 1
  {
    if cs == [] || MoreRecent(c, cs[0]) then [c] + cs
    else [cs[0]] + InsertByRecency(c, cs[1..])
  }

  lemma {:induction false} InsertByRecencySorted(c: Conversation, cs: seq<Conversation>)
    requires ByRecencySorted(cs)
    ensures ByRecencySorted(InsertByRecency(c, cs))
    ensures multiset(InsertByRecency(c, cs)) == multiset(cs) + multiset{c}
  {
    if cs == [] || MoreRecent(c, cs[0]) {
      var r := [c] + cs;
      forall j | 0 < j < |r| ensures MoreRecent(r[0], r[j]) {
        if j > 1 { assert MoreRecent(cs[0], cs[j - 1]); }
      }
    } else {
      var rest := InsertByRecency(c, cs[1..]);
      InsertByRecencySorted(c, cs[1..]);
      assert cs == [cs[0]] + cs[1..];
      var r := [cs[0]] + rest;
      HeadOutranks(c, cs, rest);
      forall j | 0 < j < |r| ensures MoreRecent(r[0], r[j]) {
        assert r[j] == rest[j - 1];
      }
    }
  }

  /** The head of a sorted list outranks the rest of it and anything less recent. */
  lemma HeadOutranks(c: Conversation, cs: seq<Conversation>, rest: seq<Conversation>)
    requires cs != [] && !MoreRecent(c, cs[0]) && ByRecencySorted(cs)
    requires multiset(rest) == multiset(cs[1..]) + multiset{c}
    ensures forall x :: x in rest ==> MoreRecent(cs[0], x)
  {
    forall x | x in rest ensures MoreRecent(cs[0], x) {
      assert x in multiset(rest);
      if x != c {
        assert x in multiset(cs[1..]);
        var k :| 0 <= k < |cs[1..]| && cs[1..][k] == x;
        assert MoreRecent(cs[0], cs[k + 1]);
      }
    }
  }

  /** `orderBy: { updatedAt: 'desc' }`, as an insertion sort. */
  function ByRecency(cs: seq<Conversation>): (r: seq<Conversation>)
    ensures |r| == |cs|
  {
    if cs == [] then [] else InsertByRecency(cs[0], ByRecency(cs[1..]))
  }

  /** Sorting puts the most recently updated first and neither loses nor adds a conversation. */
  lemma {:induction false} ByRecencySpec(cs: seq<Conversation>)
    ensures ByRecencySorted(ByRecency(cs))
    ensures multiset(ByRecency(cs)) == multiset(cs)
  {
    if cs != [] {
      ByRecencySpec(cs[1..]);
      InsertByRecencySorted(cs[0], ByRecency(cs[1..]));
      assert cs == [cs[0]] + cs[1..];
    }
  }

  /** Each conversation with the `take: 1` preview of its latest message. */
  function Previews(cs: seq<Conversation>, ms: seq<Message>): (r: seq<ConversationView>)
    requires Chronological(ms)
    ensures |r| == |cs|
    ensures forall i :: 0 <= i < |r| ==> r[i].conversation == cs[i] && |r[i].messages| <= 1
    ensures forall i :: 0 <= i < |r| ==> (r[i].messages == [] <==> MessagesOf(ms, cs[i].id) == [])
    ensures forall i, m :: 0 <= i < |r| && |r[i].messages| == 1 && m in ms && m.conversationId == cs[i].id ==>
              r[i].messages[0] in ms && r[i].messages[0].conversationId == cs[i].id
              && m.createdAt <= r[i].messages[0].createdAt
  {
    seq(|cs|, i requires 0 <= i < |cs| => ConversationView(cs[i], Latest(MessagesOf(ms, cs[i].id))))
  }

  /** The user's conversations after sorting: all of them, only them, most recently updated first. */
  lemma UserConversationsSorted(cs: seq<Conversation>, userId: string)
    ensures |ByRecency(Filter(cs, OwnedBy(userId)))| == |Filter(cs, OwnedBy(userId))|
    ensures forall c :: c in ByRecency(Filter(cs, OwnedBy(userId))) <==> c in cs && c.userId == userId
    ensures ByRecencySorted(ByRecency(Filter(cs, OwnedBy(userId))))
  {
    var owned := Filter(cs, OwnedBy(userId));
    ByRecencySpec(owned);
    var sorted := ByRecency(owned);
    assert |multiset(sorted)| == |multiset(owned)|;
    forall c ensures c in sorted <==> c in owned {
      assert c in sorted <==> c in multiset(sorted);
      assert c in owned <==> c in multiset(owned);
    }
  }

  /** The result of `getuserConversations` on the two tables. */
  function UserConversations(cs: seq<Conversation>, ms: seq<Message>, userId: string): (r: seq<ConversationView>)
    requires Chronological(ms)
    ensures |r| == |Filter(cs, OwnedBy(userId))|
    ensures forall i :: 0 <= i < |r| ==> |r[i].messages| <= 1
  {
    Previews(ByRecency(Filter(cs, OwnedBy(userId))), ms)
  }

  /** The conversations of a list of views, in the list's order. */
  function ConversationsOf(vs: seq<ConversationView>): (r: seq<Conversation>)
    ensures |r| == |vs| && forall i :: 0 <= i < |vs| ==> r[i] == vs[i].conversation
  {
    seq(|vs|, i requires 0 <= i < |vs| => vs[i].conversation)
  }

  /** `getUserConversations` lists each of the user's conversations, and only those. */
  lemma UserConversationsSpec(cs: seq<Conversation>, ms: seq<Message>, userId: string)
    requires Chronological(ms)
    ensures |UserConversations(cs, ms, userId)| == |Filter(cs, OwnedBy(userId))|
    ensures forall c :: c in ConversationsOf(UserConversations(cs, ms, userId)) <==> c in cs && c.userId == userId
  {
    var sorted := ByRecency(Filter(cs, OwnedBy(userId)));
    UserConversationsSorted(cs, userId);
    assert ConversationsOf(UserConversations(cs, ms, userId)) == sorted;
  }

  lemma UserConversationsOrdered(cs: seq<Conversation>, ms: seq<Message>, userId: string)
    requires Chronological(ms)
    ensures forall i, j :: 0 <= i < j < |UserConversations(cs, ms, userId)| ==>
              UserConversations(cs, ms, userId)[i].conversation.updatedAt >= UserConversations(cs, ms, userId)[j].conversation.updatedAt
  {
    var sorted := ByRecency(Filter(cs, OwnedBy(userId)));
    ByRecencySpec(Filter(cs, OwnedBy(userId)));
    var r := Previews(sorted, ms);
    assert r == UserConversations(cs, ms, userId);
    forall i, j | 0 <= i < j < |r| ensures r[i].conversation.updatedAt >= r[j].conversation.updatedAt {
      assert r[i].conversation == sorted[i] && r[j].conversation == sorted[j];
      assert MoreRecent(sorted[i], sorted[j]);
    }
  }

  function DefaultTitle(mode: string): string {
    "New " + mode + " Conversation"
  }

  // ---------------------------------------------------------------------------
  // The service over its two tables
  // ---------------------------------------------------------------------------

  class ChatStore {
    var conversations: seq<Conversation>
    var messages: seq<Message>
    var clock: nat     // the next timestamp
    var nextId: nat    // the next conversation id
    const codec: JsonCodec

    ghost predicate Valid()
      reads this
    {
      && RoundTrips(codec)
      && DistinctKeys(conversations)
      && (forall c :: c in conversations ==> c.id < nextId && c.createdAt <= c.updatedAt < clock)
      && Chronological(messages)
      && (forall m :: m in messages ==> m.createdAt < clock && m.conversationId in Ids(conversations))
    }

    constructor (codec: JsonCodec)
      requires RoundTrips(codec)
      ensures Valid()
      ensures this.codec == codec && conversations == [] && messages == []
    {
      this.codec := codec;
      conversations, messages := [], [];
      clock, nextId := 0, 0;
    }

    /** `createConversation`: a falsy title becomes "New <mode> Conversation". */
    method CreateConversation(userId: string, mode: string := "chat", title: Option<string> := None)
      returns (c: Conversation)
      requires Valid()
      modifies this
      ensures Valid()
      ensures c.userId == userId && c.mode == mode
      ensures c.title == if Truthy(title) then title.value else DefaultTitle(mode)
      ensures c.id !in Ids(old(conversations))
      ensures forall d :: d in old(conversations) ==> d.updatedAt < c.updatedAt
      ensures conversations == old(conversations) + [c] && messages == old(messages)
    {
      c := Conversation(nextId, userId, mode, if Truthy(title) then title.value else DefaultTitle(mode), clock, clock);
      conversations := conversations + [c];
      nextId, clock := nextId + 1, clock + 1;
    }

    /**
     * `getOrCreateConversation`: an existing conversation only when both its
     * id and its owner match, with its messages oldest first; otherwise a new
     * conversation owned by `userId`.
     */
    method GetOrCreateConversation(userId: string, conversationId: Option<ConversationId> := None, mode: string := "chat")
      returns (r: Opened)
      requires Valid()
      modifies this
      ensures Valid()
      ensures r.conversation.userId == userId
      ensures conversationId.Some? && FindOwned(old(conversations), conversationId.value, userId).Some? ==>
                && r == Existing(FindOwned(old(conversations), conversationId.value, userId).value,
                                 MessagesOf(messages, conversationId.value))
                && Chronological(r.messages)
                && unchanged(this)
      ensures conversationId.None? || FindOwned(old(conversations), conversationId.value, userId).None? ==>
                && r.Created?
                && r.conversation.mode == mode && r.conversation.title == DefaultTitle(mode)
                && r.conversation.id !in Ids(old(conversations))
                && conversations == old(conversations) + [r.conversation] && messages == old(messages)
    {
      if conversationId.Some? {
        var found := FindOwned(conversations, conversationId.value, userId);
        if found.Some? {
          return Existing(found.value, MessagesOf(messages, conversationId.value));
        }
      }
      var c := CreateConversation(userId, mode);
      r := Created(c);
    }

    /**
     * `addMessage`: appends one row with the content as text, a string
     * verbatim and anything else as its JSON text. A conversation id that
     * matches no conversation violates the foreign key and nothing is stored.
     */
    method AddMessage(conversationId: ConversationId, role: string, content: Json) returns (r: Result<Message>)
      requires Valid()
      modifies this
      ensures Valid()
      ensures r.Err? <==> conversationId !in Ids(old(conversations))
      ensures r.Err? ==> unchanged(this)
      ensures r.Ok? ==>
                && r.value == Message(conversationId, role, ContentText(codec, content), old(clock))
                && messages == old(messages) + [r.value]
                && conversations == old(conversations)
                && clock == old(clock) + 1
    {
      if conversationId !in Ids(conversations) {
        return Err("Foreign key constraint violated on Message.conversationId");
      }
      var m := Message(conversationId, role, ContentText(codec, content), clock);
      messages := messages + [m];
      clock := clock + 1;
      r := Ok(m);
    }

    /**
     * `getMessages`: exactly the messages of the conversation, oldest first,
     * each with its content parsed back.
     */
    method GetMessages(conversationId: ConversationId) returns (r: seq<ParsedMessage>)
      requires Valid()
      ensures |r| == |MessagesOf(messages, conversationId)|
      ensures forall i :: 0 <= i < |r| ==> r[i] == Parsed(codec, MessagesOf(messages, conversationId)[i])
      ensures forall i :: 0 <= i < |r| ==> r[i].conversationId == conversationId
      ensures forall i, j :: 0 <= i < j < |r| ==> r[i].createdAt < r[j].createdAt
      ensures forall m :: m in messages && m.conversationId == conversationId ==>
                exists i :: 0 <= i < |r| && r[i] == Parsed(codec, m)
    {
      var rows := MessagesOf(messages, conversationId);
      r := seq(|rows|, i requires 0 <= i < |rows| => Parsed(codec, rows[i]));
      forall m | m in messages && m.conversationId == conversationId
        ensures exists i :: 0 <= i < |r| && r[i] == Parsed(codec, m)
      {
        assert m in rows;
        var i :| 0 <= i < |rows| && rows[i] == m;
        assert r[i] == Parsed(codec, m);
      }
    }

    /**
     * `getuserConversations`: the user's conversations, most recently updated
     * first, each with at most one message, its latest.
     */
    method GetUserConversations(userId: string) returns (r: seq<ConversationView>)
      requires Valid()
      ensures forall c :: c in ConversationsOf(r) <==> c in conversations && c.userId == userId
      ensures |r| == |Filter(conversations, OwnedBy(userId))|
      ensures forall i, j :: 0 <= i < j < |r| ==> r[i].conversation.updatedAt >= r[j].conversation.updatedAt
      ensures forall i :: 0 <= i < |r| ==> |r[i].messages| <= 1
      ensures forall i :: 0 <= i < |r| ==>
                (r[i].messages == [] <==> MessagesOf(messages, r[i].conversation.id) == [])
      ensures forall i, m :: 0 <= i < |r| && |r[i].messages| == 1 && m in messages && m.conversationId == r[i].conversation.id ==>
                r[i].messages[0] in messages && r[i].messages[0].conversationId == r[i].conversation.id
                && m.createdAt <= r[i].messages[0].createdAt
    {
      r := UserConversations(conversations, messages, userId);
      UserConversationsSpec(conversations, messages, userId);
      UserConversationsOrdered(conversations, messages, userId);
    }

    /** `deleteConversation`: removes the conversation only when both id and owner match; its messages go with it. */
    method DeleteConversation(conversationId: ConversationId, userId: string) returns (count: nat)
      requires Valid()
      modifies this
      ensures Valid()
      ensures count <= 1
      ensures count == 1 <==> FindOwned(old(conversations), conversationId, userId).Some?
      ensures conversations == Filter(old(conversations), NotThePair(conversationId, userId))
      ensures messages == if count == 1 then Filter(old(messages), OutsideConversation(conversationId)) else old(messages)
      ensures count == 0 ==> unchanged(this)
    {
      var found := FindOwned(conversations, conversationId, userId);
      var keep := NotThePair(conversationId, userId);
      if found.None? {
        count := 0;
        return;
      }
      var remaining := Filter(conversations, keep);
      DeleteRemovesOne(conversations, conversationId, userId, found.value);
      FilterKeepsOrder(conversations, keep, (a: Conversation, b: Conversation) => a.id != b.id && a.updatedAt != b.updatedAt);
      var keepMessage := OutsideConversation(conversationId);
      ChronologicalFilter(messages, keepMessage);
      forall m | m in Filter(messages, keepMessage) ensures m.conversationId in Ids(remaining) {
        var c :| c in conversations && c.id == m.conversationId;
        assert keep(c);
      }
      conversations := remaining;
      messages := Filter(messages, keepMessage);
      count := 1;
    }

    /** `updateTitle`: only the title (and the automatic updatedAt) of the conversation with that id; no owner check. */
    method UpdateTitle(conversationId: ConversationId, title: string) returns (r: Result<Conversation>)
      requires Valid()
      modifies this
      ensures Valid()
      ensures r.Err? <==> conversationId !in Ids(old(conversations))
      ensures r.Err? ==> unchanged(this)
      ensures r.Ok? ==>
                && |conversations| == |old(conversations)|
                && messages == old(messages)
                && forall i :: 0 <= i < |conversations| ==>
                     conversations[i] == if old(conversations)[i].id == conversationId
                                         then old(conversations)[i].(title := title, updatedAt := old(clock))
                                         else old(conversations)[i]
      ensures r.Ok? ==> r.value.id == conversationId && r.value.title == title && r.value in conversations
      ensures Ids(conversations) == Ids(old(conversations))
    {
      if conversationId !in Ids(conversations) {
        return Err("Record to update not found");
      }
      var k :| 0 <= k < |conversations| && conversations[k].id == conversationId;
      var updated := conversations[k].(title := title, updatedAt := clock);
      ghost var before := conversations;
      conversations := conversations[k := updated];
      ReplaceKeepsKeys(before, k, updated, clock);
      clock := clock + 1;
      r := Ok(updated);
    }
  }

  /** Deleting by id and owner removes exactly one row when the pair is found, because ids are unique. */
  lemma {:induction false} DeleteRemovesOne(cs: seq<Conversation>, id: ConversationId, userId: string, c: Conversation)
    requires DistinctKeys(cs)
    requires c in cs && c.id == id && c.userId == userId
    ensures |Filter(cs, NotThePair(id, userId))| == |cs| - 1
  {
    var keep := NotThePair(id, userId);
    if cs[0] == c {
      forall i | 0 <= i < |cs[1..]| ensures keep(cs[1..][i]) {
        assert cs[1..][i] == cs[i + 1];
      }
      assert Filter(cs, keep) == Filter(cs[1..], keep);
    } else {
      assert c in cs[1..];
      forall i, j | 0 <= i < j < |cs[1..]| ensures cs[1..][i].id != cs[1..][j].id && cs[1..][i].updatedAt != cs[1..][j].updatedAt {
        assert cs[1..][i] == cs[i + 1] && cs[1..][j] == cs[j + 1];
      }
      DeleteRemovesOne(cs[1..], id, userId, c);
      assert cs[0].id != id by {
        var k :| 0 <= k < |cs| && cs[k] == c;
        assert k != 0;
      }
      assert Filter(cs, keep) == [cs[0]] + Filter(cs[1..], keep);
    }
  }
}
