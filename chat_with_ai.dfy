/**
 * The interactive chat of server/src/cli/chat/chat-with-ai.ts: the rules of
 * one turn (title, input validation, the exit word), the handling of the
 * streamed reply, the authentication check, and the loop that strings turns
 * together over a store and a completion service.
 */
module ChatWithAI {
  import opened Wrappers
  import opened Json
  import opened Seqs
  import opened ChatService
  import opened AiService

  // ---------------------------------------------------------------------------
  // The title rule
  // ---------------------------------------------------------------------------

  const TitleLimit: nat := 50
  const Ellipsis: string := "..."

  /** `userInput.slice(0, 50)`, with "..." appended when the input was longer. */
  function TitleFor(input: string): (r: string)
    ensures |r| <= TitleLimit + |Ellipsis|
  {
    (if |input| <= TitleLimit then input else input[..TitleLimit])
    + (if |input| > TitleLimit then Ellipsis else "")
  }

  /** A title is at most 53 characters, starts with the input's first 50, and short inputs are kept whole. */
  lemma TitleShape(input: string)
    ensures |TitleFor(input)| <= TitleLimit + |Ellipsis|
    ensures |input| <= TitleLimit ==> TitleFor(input) == input
    ensures |input| > TitleLimit ==>
              && |TitleFor(input)| == TitleLimit + |Ellipsis|
              && TitleFor(input)[..TitleLimit] == input[..TitleLimit]
              && TitleFor(input)[TitleLimit..] == Ellipsis
  {
  }

  /** Applying the rule to a title it produced changes nothing. */
  lemma TitleIdempotent(input: string)
    ensures TitleFor(TitleFor(input)) == TitleFor(input)
  {
    TitleShape(input);
    if |input| > TitleLimit {
      assert TitleFor(input)[..TitleLimit] == input[..TitleLimit];
    }
  }

  /** `updateConversationTitle`: the title to store, only on the conversation's first message. */
  function TitleUpdate(input: string, messageCount: nat): (r: Option<string>)
    ensures r.Some? <==> messageCount == 1
    ensures r.Some? ==> r.value == TitleFor(input)
  {
    if messageCount == 1 then Some(TitleFor(input)) else None
  }

  // ---------------------------------------------------------------------------
  // Input validation and the exit word
  // ---------------------------------------------------------------------------

  const EmptyInputMessage: string := "Message cannot be empty."

  /** The characters `String.prototype.trim` removes: white space and line terminators. */
  predicate IsWhitespace(c: char) {
    || c == ' ' || c == '\t' || c == '\n' || c == '\r' || c == '\U{000B}' || c == '\U{000C}'
    || c == '\U{00A0}' || c == '\U{1680}' || ('\U{2000}' <= c <= '\U{200A}')
    || c == '\U{2028}' || c == '\U{2029}' || c == '\U{202F}' || c == '\U{205F}'
    || c == '\U{3000}' || c == '\U{FEFF}'
  }

  predicate Blank(s: string) {
    forall i :: 0 <= i < |s| ==> IsWhitespace(s[i])
  }

  function TrimStart(s: string): (r: string)
    ensures |r| <= |s| && r == s[|s| - |r|..]
    ensures r == [] || !IsWhitespace(r[0])
    ensures forall i :: 0 <= i < |s| - |r| ==> IsWhitespace(s[i])
  {
    if s != [] && IsWhitespace(s[0]) then TrimStart(s[1..]) else s
  }

  function TrimEnd(s: string): (r: string)
    ensures |r| <= |s| && r == s[..|r|]
    ensures r == [] || !IsWhitespace(r[|r| - 1])
    ensures forall i :: |r| <= i < |s| ==> IsWhitespace(s[i])
  {
    if s != [] && IsWhitespace(s[|s| - 1]) then TrimEnd(s[..|s| - 1]) else s
  }

  /** `value.trim()`. */
  function Trim(s: string): (r: string)
    ensures |r| <= |s|
    ensures r == [] || (!IsWhitespace(r[0]) && !IsWhitespace(r[|r| - 1]))
  {
    TrimEnd(TrimStart(s))
  }

  /** Trimming leaves nothing exactly when the text is all white space. */
  lemma TrimEmptyIffBlank(s: string)
    ensures Trim(s) == [] <==> Blank(s)
  {
    var t := TrimStart(s);
    if Trim(s) == [] {
      assert TrimEnd(t) == [];
    }
  }

  /** The prompt's validator: a message to show, or nothing when the input is accepted. */
  function Validate(value: Option<string>): (r: Option<string>)
    ensures r.Some? <==> value.None? || Blank(value.value)
    ensures r.Some? ==> r.value == EmptyInputMessage
  {
    TrimEmptyIffBlank(if value.Some? then value.value else "");
    if value.None? || value.value == "" || |Trim(value.value)| == 0 then Some(EmptyInputMessage) else None
  }

  function LowerAscii(c: char): char {
    if 'A' <= c <= 'Z' then (c as int - 'A' as int + 'a' as int) as char else c
  }

  function ToLower(s: string): (r: string)
    ensures |r| == |s| && forall i :: 0 <= i < |s| ==> r[i] == LowerAscii(s[i])
  {
    seq(|s|, i requires 0 <= i < |s| => LowerAscii(s[i]))
  }

  /** `userInput.toLocaleLowerCase() === "exit"`. */
  predicate IsExit(input: string)
    ensures IsExit(input) ==> |input| == 4
  {
    ToLower(input) == "exit"
  }

  /** The exit word is "exit" with each letter in either case, and nothing else. */
  lemma IsExitSpec(input: string)
    ensures IsExit(input) <==>
              && |input| == 4
              && (input[0] == 'e' || input[0] == 'E')
              && (input[1] == 'x' || input[1] == 'X')
              && (input[2] == 'i' || input[2] == 'I')
              && (input[3] == 't' || input[3] == 'T')
  {
    if IsExit(input) {
      assert ToLower(input)[0] == 'e' && ToLower(input)[1] == 'x';
      assert ToLower(input)[2] == 'i' && ToLower(input)[3] == 't';
    }
  }

  /** An exit word is never blank, so the validator lets it through to the exit check. */
  lemma ExitIsValid(input: string)
    requires IsExit(input)
    ensures Validate(Some(input)).None?
  {
    IsExitSpec(input);
    assert !IsWhitespace(input[0]);
  }

  // ---------------------------------------------------------------------------
  // Authentication
  // ---------------------------------------------------------------------------

  const NotAuthenticated: string := "Not authenticated. Please login first."
  const InvalidToken: string := "Invalid token. Please login again."

  datatype User = User(id: string, name: Option<string>, email: string)
  datatype Session = Session(userId: string, token: string)

  /** What the token file holds, as far as this check reads it. */
  datatype StoredToken = StoredToken(accessToken: Option<string>)

  predicate HasSession(u: User, sessions: seq<Session>, token: string) {
    exists s :: s in sessions && s.userId == u.id && s.token == token
  }

  /** `user.findFirst({ where: { sessions: { some: { token } } } })`, taking the first in table order. */
  function FindUserBySession(users: seq<User>, sessions: seq<Session>, token: string): (r: Option<User>)
    ensures r.Some? ==> r.value in users && HasSession(r.value, sessions, token)
    ensures r.None? ==> forall u :: u in users ==> !HasSession(u, sessions, token)
  {
    if users == [] then None
    else if HasSession(users[0], sessions, token) then Some(users[0])
    else FindUserBySession(users[1..], sessions, token)
  }

  /** `getUserFromToken`: the user owning a session with the stored access token. */
  function GetUserFromToken(stored: Option<StoredToken>, users: seq<User>, sessions: seq<Session>): (r: Result<User>)
    ensures (stored.None? || !Truthy(stored.value.accessToken)) ==> r == Err(NotAuthenticated)
    ensures stored.Some? && Truthy(stored.value.accessToken) ==>
              (r == Err(InvalidToken) <==> forall u :: u in users ==> !HasSession(u, sessions, stored.value.accessToken.value))
    ensures r.Ok? ==> r.value in users && stored.Some? && HasSession(r.value, sessions, stored.value.accessToken.value)
  {
    if stored.None? || !Truthy(stored.value.accessToken) then Err(NotAuthenticated)
    else match FindUserBySession(users, sessions, stored.value.accessToken.value) {
      case None => Err(InvalidToken)
      case Some(u) => Ok(u)
    }
  }

  // ---------------------------------------------------------------------------
  // One reply
  // ---------------------------------------------------------------------------

  /** The history `getAiResponse` hands to the model: the conversation's messages, parsed and projected. */
  function History(codec: JsonCodec, messages: seq<Message>, conversationId: ConversationId): seq<ChatMessage> {
    FormatMessages(codec, ParsedAll(codec, MessagesOf(messages, conversationId)))
  }

  /** The request `getAiResponse` sends: the history, no tools. */
  function ReplyRequest(service: Service, codec: JsonCodec, messages: seq<Message>, conversationId: ConversationId): StreamRequest {
    BuildRequest(service, History(codec, messages, conversationId), None)
  }

  /** The stream started and ended without an error. */
  predicate Answered(started: Result<StreamResult>) {
    started.Ok? && started.value.streamError.None?
  }

  /** What the chunk callback of `getAiResponse` does, step by step. */
  datatype CallbackStep = ShowHeader | Append(chunk: string)

  /** What reaches the terminal besides the chunk callback's header. */
  datatype Screen = Header | Rendered(markdown: string) | SpinnerFailed

  function Appends(chunks: seq<string>): (r: seq<CallbackStep>)
    ensures |r| == |chunks| && forall i :: 0 <= i < |chunks| ==> r[i] == Append(chunks[i])
  {
    seq(|chunks|, i requires 0 <= i < |chunks| => Append(chunks[i]))
  }

  /**
   * The chunk callback: the header once, on the first chunk and before it is
   * appended; every chunk appended in order.
   */
  method ChunkCallback(chunks: seq<string>) returns (fullResponse: string, steps: seq<CallbackStep>)
    ensures fullResponse == Flatten(chunks)
    ensures chunks == [] ==> steps == []
    ensures chunks != [] ==> steps == [ShowHeader] + Appends(chunks)
  {
    fullResponse, steps := "", [];
    var isFirstChunk := true;
    for i := 0 to |chunks|
      invariant isFirstChunk <==> i == 0
      invariant fullResponse == Flatten(chunks[..i])
      invariant i == 0 ==> steps == []
      invariant i > 0 ==> steps == [ShowHeader] + Appends(chunks[..i])
    {
      FlattenAppend(chunks[..i], [chunks[i]]);
      assert chunks[..i + 1] == chunks[..i] + [chunks[i]];
      if isFirstChunk {
        steps := steps + [ShowHeader];
        isFirstChunk := false;
      }
      fullResponse := fullResponse + chunks[i];
      steps := steps + [Append(chunks[i])];
    }
    assert chunks[..|chunks|] == chunks;
  }

  /** The header is shown exactly once when any chunk arrives, and never after the first append. */
  lemma HeaderOnlyOnFirstChunk(chunks: seq<string>, steps: seq<CallbackStep>)
    requires chunks == [] ==> steps == []
    requires chunks != [] ==> steps == [ShowHeader] + Appends(chunks)
    ensures forall k :: 0 <= k < |steps| ==> (steps[k] == ShowHeader <==> k == 0)
    ensures (exists k :: 0 <= k < |steps| && steps[k] == ShowHeader) <==> chunks != []
  {
    if chunks != [] {
      assert steps[0] == ShowHeader;
    }
  }

  /**
   * `getAiResponse`: reads the conversation, asks the model with that
   * history and no tools, and returns the reply's full text, which is also
   * what it renders. An error is rethrown after the spinner shows the failure.
   */
  method GetAiResponse(store: ChatStore, conversationId: ConversationId, service: Service,
                       streamText: StreamRequest -> Result<StreamResult>)
    returns (r: Result<string>, screen: seq<Screen>)
    requires store.Valid()
    ensures r.Ok? <==> Answered(streamText(ReplyRequest(service, store.codec, store.messages, conversationId)))
    ensures var started := streamText(ReplyRequest(service, store.codec, store.messages, conversationId));
            && (started.Err? ==> r == Err(started.message) && screen == [SpinnerFailed])
            && (started.Ok? ==>
                  var result := started.value;
                  var header := if result.textStream == [] then [] else [Header];
                  && (result.streamError.Some? ==> r == Err(result.streamError.value) && screen == header + [SpinnerFailed])
                  && (result.streamError.None? ==>
                        r == Ok(Flatten(result.textStream)) && screen == header + [Rendered(r.value)]))
  {
    var rows := store.GetMessages(conversationId);
    assert rows == ParsedAll(store.codec, MessagesOf(store.messages, conversationId));
    var aiMessages := FormatMessages(store.codec, rows);
    var reply, events := SendMessage(service, aiMessages, true, None, false, streamText);
    ghost var started := streamText(BuildRequest(service, aiMessages, None));
    assert forall i :: 0 <= i < |events| ==> events[i].OnChunk?;
    var chunks := seq(|events|, i requires 0 <= i < |events| => events[i].chunk);
    assert started.Ok? ==> chunks == started.value.textStream;
    assert started.Err? ==> chunks == [];
    var fullResponse, steps := ChunkCallback(chunks);
    screen := if chunks == [] then [] else [Header];
    if reply.Err? {
      return Err(reply.message), screen + [SpinnerFailed];
    }
    r := Ok(reply.value.content);
    screen := screen + [Rendered(fullResponse)];
  }

  // ---------------------------------------------------------------------------
  // The loop
  // ---------------------------------------------------------------------------

  /** `ms` is `m0` followed by one user message of conversation `id` per text, in order. */
  predicate UserRows(m0: seq<Message>, ms: seq<Message>, id: ConversationId, texts: seq<string>) {
    && |ms| == |m0| + |texts| && ms[..|m0|] == m0
    && forall k :: |m0| <= k < |ms| ==>
         ms[k].conversationId == id && ms[k].role == UserRole && ms[k].content == texts[k - |m0|]
  }

  /**
   * `cs` is `c0` with, at most, the title of conversation `id` replaced
   * (and its `updatedAt` moved by the database); nothing else changes.
   */
  predicate Retitled(c0: seq<Conversation>, cs: seq<Conversation>, id: ConversationId, title: Option<string>) {
    && |cs| == |c0|
    && (forall k :: 0 <= k < |c0| ==> cs[k].id == c0[k].id)
    && (forall k :: 0 <= k < |c0| && (title.None? || c0[k].id != id) ==> cs[k] == c0[k])
    && (forall k :: 0 <= k < |c0| && title.Some? && c0[k].id == id ==>
          cs[k] == c0[k].(title := title.value, updatedAt := cs[k].updatedAt))
  }

  /**
   * The reply the loop asked for after storing each of the messages that
   * follow `m0` in `ms`: the request for the message at position `n - 1`
   * saw exactly the rows `ms[..n]`. Every such reply was answered, except
   * the last one when `failedLast` holds.
   */
  ghost predicate RepliedTo(service: Service, codec: JsonCodec, streamText: StreamRequest -> Result<StreamResult>,
                            m0: seq<Message>, ms: seq<Message>, id: ConversationId, failedLast: bool)
  {
    forall n :: |m0| < n <= |ms| ==>
      (Answered(streamText(ReplyRequest(service, codec, ms[..n], id))) <==> !(failedLast && n == |ms|))
  }

  /** One more stored message and the reply asked for with it. */
  lemma RepliedAdvance(service: Service, codec: JsonCodec, streamText: StreamRequest -> Result<StreamResult>,
                       m0: seq<Message>, ms: seq<Message>, ms2: seq<Message>, id: ConversationId)
    requires RepliedTo(service, codec, streamText, m0, ms, id, false)
    requires |m0| <= |ms| && |ms2| == |ms| + 1 && ms2[..|ms|] == ms
    ensures RepliedTo(service, codec, streamText, m0, ms2, id,
                      !Answered(streamText(ReplyRequest(service, codec, ms2, id))))
  {
    forall n | |m0| < n <= |ms2|
      ensures Answered(streamText(ReplyRequest(service, codec, ms2[..n], id)))
              <==> !(!Answered(streamText(ReplyRequest(service, codec, ms2, id))) && n == |ms2|)
    {
      if n <= |ms| {
        assert ms2[..n] == ms[..n];
      } else {
        assert ms2[..n] == ms2;
      }
    }
  }

  /** The role under which the loop stores what the user typed. */
  const UserRole: string := "user"

  /** The effects of one turn, in the order they happen. */
  datatype Action = SavedUserMessage(text: string) | ReadMessages(count: nat) | RequestedReply | SetTitle(title: string)

  /** The first two steps of a turn: store the user's message, then read the conversation back. */
  method SaveUserMessage(store: ChatStore, conversationId: ConversationId, text: string) returns (count: nat)
    requires store.Valid() && conversationId in Ids(store.conversations)
    modifies store
    ensures store.Valid() && store.conversations == old(store.conversations)
    ensures store.messages == old(store.messages) + [Message(conversationId, UserRole, text, old(store.clock))]
    ensures count == |MessagesOf(old(store.messages), conversationId)| + 1
  {
    var saved := store.AddMessage(conversationId, UserRole, JString(text));
    assert saved.Ok?;
    MessagesOfAppend(old(store.messages), saved.value, conversationId);
    var messages := store.GetMessages(conversationId);
    count := |messages|;
  }

  /** The last step of a successful turn: the title, set only when the message was the conversation's first. */
  method UpdateConversationTitle(store: ChatStore, conversationId: ConversationId, text: string, count: nat)
    returns (title: Option<string>)
    requires store.Valid() && conversationId in Ids(store.conversations)
    modifies store
    ensures store.Valid() && Ids(store.conversations) == Ids(old(store.conversations))
    ensures store.messages == old(store.messages)
    ensures title == TitleUpdate(text, count)
    ensures title.None? ==> store.conversations == old(store.conversations)
    ensures Retitled(old(store.conversations), store.conversations, conversationId, title)
  {
    title := TitleUpdate(text, count);
    if title.Some? {
      ghost var cs := store.conversations;
      var updated := store.UpdateTitle(conversationId, title.value);
      RetitledByUpdate(cs, store.conversations, conversationId, title.value);
    }
  }

  /**
   * One pass of `chatLoop` after the input was accepted: save the user's
   * message, read the conversation back, ask for a reply, and on the
   * conversation's first message set its title. The reply is not stored.
   */
  method ChatTurn(store: ChatStore, conversationId: ConversationId, text: string, service: Service,
                  streamText: StreamRequest -> Result<StreamResult>)
    returns (r: Result<string>, log: seq<Action>)
    requires store.Valid() && conversationId in Ids(store.conversations)
    modifies store
    ensures store.Valid() && Ids(store.conversations) == Ids(old(store.conversations))
    ensures store.messages == old(store.messages) + [Message(conversationId, UserRole, text, old(store.clock))]
    ensures log == [SavedUserMessage(text), ReadMessages(|MessagesOf(old(store.messages), conversationId)| + 1), RequestedReply]
                   + if r.Ok? && |MessagesOf(old(store.messages), conversationId)| == 0 then [SetTitle(TitleFor(text))] else []
    ensures r.Err? || |MessagesOf(old(store.messages), conversationId)| != 0 ==>
              store.conversations == old(store.conversations)
    ensures Retitled(old(store.conversations), store.conversations, conversationId,
                     if r.Ok? && |MessagesOf(old(store.messages), conversationId)| == 0 then Some(TitleFor(text)) else None)
    ensures r.Ok? <==> Answered(streamText(ReplyRequest(service, store.codec, store.messages, conversationId)))
  {
    var count := SaveUserMessage(store, conversationId, text);
    var screen;
    r, screen := GetAiResponse(store, conversationId, service, streamText);
    log := [SavedUserMessage(text), ReadMessages(count), RequestedReply];
    if r.Err? {
      RetitledNone(store.conversations, conversationId);
      return;
    }
    var title := UpdateConversationTitle(store, conversationId, text, count);
    log := log + if title.Some? then [SetTitle(title.value)] else [];
  }

  /** One answer to the message prompt: typed text (possibly nothing), or Ctrl+C. */
  datatype Entry = Typed(value: Option<string>) | Cancel

  /** How the loop stops: "exit", Ctrl+C (which exits the process with 0), a failed reply, or no more input. */
  datatype LoopEnd = ExitWord | Cancelled | Failed(message: string) | InputsExhausted

  /** The messages a run of the prompt yields, and how it ends, assuming every reply succeeds. */
  datatype Script = Script(texts: seq<string>, end: LoopEnd)

  /**
   * What the prompt hands to the loop: blank answers are refused by the
   * validator and asked again, Ctrl+C and the exit word stop, everything
   * else is a message.
   */
  function Accepted(entries: seq<Entry>): (s: Script)
    ensures !s.end.Failed?
  {
    if entries == [] then Script([], InputsExhausted)
    else match entries[0]
      case Cancel => Script([], Cancelled)
      case Typed(v) =>
        if Validate(v).Some? then Accepted(entries[1..])
        else if IsExit(v.value) then Script([], ExitWord)
        else Script([v.value] + Accepted(entries[1..]).texts, Accepted(entries[1..]).end)
  }

  /** Every message the loop sends holds some non-blank text and is not the exit word. */
  lemma {:induction false} AcceptedTexts(entries: seq<Entry>)
    ensures forall t :: t in Accepted(entries).texts ==> !Blank(t) && !IsExit(t)
  {
    if entries != [] {
      AcceptedTexts(entries[1..]);
    }
  }

  /** The title the loop has set: only on a conversation that had no messages, after its first completed turn. */
  function TitleSet(before: nat, completed: seq<string>): Option<string> {
    if before == 0 && |completed| >= 1 then Some(TitleFor(completed[0])) else None
  }

  lemma RetitledByUpdate(c0: seq<Conversation>, cs: seq<Conversation>, id: ConversationId, title: string)
    requires |cs| == |c0|
    requires forall k :: 0 <= k < |c0| ==> cs[k] == if c0[k].id == id then c0[k].(title := title, updatedAt := cs[k].updatedAt) else c0[k]
    ensures Retitled(c0, cs, id, Some(title))
  {
  }

  lemma RetitledNone(cs: seq<Conversation>, id: ConversationId)
    ensures Retitled(cs, cs, id, None)
  {
  }

  /** Storing one user message adds one row to its conversation. */
  lemma OneUserRow(ms: seq<Message>, m: Message, text: string)
    requires m.role == UserRole && m.content == text
    ensures UserRows(ms, ms + [m], m.conversationId, [text])
    ensures |MessagesOf(ms + [m], m.conversationId)| == |MessagesOf(ms, m.conversationId)| + 1
  {
    MessagesOfAppend(ms, m, m.conversationId);
    assert (ms + [m])[..|ms|] == ms;
  }

  /** Two retitlings in a row, the second only when the first did nothing. */
  lemma RetitledCompose(c0: seq<Conversation>, cs: seq<Conversation>, cs2: seq<Conversation>, id: ConversationId,
                        t1: Option<string>, t2: Option<string>)
    requires Retitled(c0, cs, id, t1) && Retitled(cs, cs2, id, t2)
    requires t1.Some? ==> t2.None?
    ensures Retitled(c0, cs2, id, if t2.Some? then t2 else t1)
  {
  }

  /** Rows appended in two batches are the rows of both batches, in order. */
  lemma UserRowsAppend(m0: seq<Message>, ms: seq<Message>, ms2: seq<Message>, id: ConversationId,
                       texts: seq<string>, more: seq<string>)
    requires UserRows(m0, ms, id, texts) && UserRows(ms, ms2, id, more)
    ensures UserRows(m0, ms2, id, texts + more)
  {
    assert ms2[..|ms|] == ms;
    assert ms2[..|m0|] == ms2[..|ms|][..|m0|];
    forall k | |m0| <= k < |ms2|
      ensures ms2[k].conversationId == id && ms2[k].role == UserRole && ms2[k].content == (texts + more)[k - |m0|]
    {
      if k < |ms| {
        assert ms2[k] == ms2[..|ms|][k] == ms[k];
      }
    }
  }

  /** One more prompt answer: how the script of the remaining answers unfolds. */
  lemma AcceptedStep(entries: seq<Entry>, i: nat)
    requires i < |entries|
    ensures entries[i].Cancel? ==> Accepted(entries[i..]) == Script([], Cancelled)
    ensures entries[i].Typed? && Validate(entries[i].value).Some? ==> Accepted(entries[i..]) == Accepted(entries[i + 1..])
    ensures entries[i].Typed? && Validate(entries[i].value).None? && IsExit(entries[i].value.value) ==>
              Accepted(entries[i..]) == Script([], ExitWord)
    ensures entries[i].Typed? && Validate(entries[i].value).None? && !IsExit(entries[i].value.value) ==>
              Accepted(entries[i..]) == Script([entries[i].value.value] + Accepted(entries[i + 1..]).texts, Accepted(entries[i + 1..]).end)
  {
    assert entries[i..][0] == entries[i] && entries[i..][1..] == entries[i + 1..];
  }

  /** The script so far, advanced past one prompt answer. */
  lemma ScriptAdvance(entries: seq<Entry>, i: nat, saved: seq<string>)
    requires i < |entries|
    requires Accepted(entries) == Script(saved + Accepted(entries[i..]).texts, Accepted(entries[i..]).end)
    ensures entries[i].Cancel? ==> Accepted(entries) == Script(saved, Cancelled)
    ensures entries[i].Typed? && Validate(entries[i].value).Some? ==>
              Accepted(entries) == Script(saved + Accepted(entries[i + 1..]).texts, Accepted(entries[i + 1..]).end)
    ensures entries[i].Typed? && Validate(entries[i].value).None? && IsExit(entries[i].value.value) ==>
              Accepted(entries) == Script(saved, ExitWord)
    ensures entries[i].Typed? && Validate(entries[i].value).None? && !IsExit(entries[i].value.value) ==>
              && Accepted(entries) == Script(saved + [entries[i].value.value] + Accepted(entries[i + 1..]).texts, Accepted(entries[i + 1..]).end)
              && (saved + [entries[i].value.value])[..|saved|] == saved
  {
    AcceptedStep(entries, i);
    match entries[i]
    case Cancel =>
      assert saved + [] == saved;
    case Typed(v) =>
      if Validate(v).None? {
        if IsExit(v.value) {
          assert saved + [] == saved;
        } else {
          AppendOne(saved, v.value, Accepted(entries[i + 1..]).texts);
        }
      }
  }

  lemma AppendOne(saved: seq<string>, text: string, rest: seq<string>)
    ensures saved + ([text] + rest) == saved + [text] + rest
    ensures (saved + [text])[..|saved|] == saved
  {
  }

  /**
   * One answer to the prompt inside `chatLoop`: Ctrl+C and the exit word
   * stop the loop, a blank answer is asked again, and anything else runs a
   * turn, which stops the loop only when the reply fails.
   */
  method LoopStep(store: ChatStore, conversationId: ConversationId, entry: Entry, service: Service,
                  streamText: StreamRequest -> Result<StreamResult>)
    returns (stop: Option<LoopEnd>, text: Option<string>)
    requires store.Valid() && conversationId in Ids(store.conversations)
    modifies store
    ensures store.Valid() && conversationId in Ids(store.conversations)
    ensures entry.Cancel? ==> stop == Some(Cancelled) && text.None?
    ensures entry.Typed? && Validate(entry.value).Some? ==> stop.None? && text.None?
    ensures entry.Typed? && Validate(entry.value).None? && IsExit(entry.value.value) ==> stop == Some(ExitWord) && text.None?
    ensures entry.Typed? && Validate(entry.value).None? && !IsExit(entry.value.value) ==>
              text == Some(entry.value.value) && (stop.None? || stop.value.Failed?)
    ensures text.None? ==> store.messages == old(store.messages) && store.conversations == old(store.conversations)
    ensures text.Some? ==>
              && (stop.None? <==> Answered(streamText(ReplyRequest(service, store.codec, store.messages, conversationId))))
              && UserRows(old(store.messages), store.messages, conversationId, [text.value])
              && |MessagesOf(store.messages, conversationId)| == |MessagesOf(old(store.messages), conversationId)| + 1
              && Retitled(old(store.conversations), store.conversations, conversationId,
                          if stop.None? && |MessagesOf(old(store.messages), conversationId)| == 0
                          then Some(TitleFor(text.value)) else None)
  {
    if entry.Cancel? {
      return Some(Cancelled), None;
    }
    if Validate(entry.value).Some? {
      return None, None;
    }
    if IsExit(entry.value.value) {
      return Some(ExitWord), None;
    }
    text := Some(entry.value.value);
    stop := RunTurn(store, conversationId, text.value, service, streamText);
  }

  /** A turn as the loop sees it: one more user row, and a stop only when the reply failed. */
  method RunTurn(store: ChatStore, conversationId: ConversationId, text: string, service: Service,
                 streamText: StreamRequest -> Result<StreamResult>)
    returns (stop: Option<LoopEnd>)
    requires store.Valid() && conversationId in Ids(store.conversations)
    modifies store
    ensures store.Valid() && conversationId in Ids(store.conversations)
    ensures stop.None? || stop.value.Failed?
    ensures stop.None? <==> Answered(streamText(ReplyRequest(service, store.codec, store.messages, conversationId)))
    ensures UserRows(old(store.messages), store.messages, conversationId, [text])
    ensures |MessagesOf(store.messages, conversationId)| == |MessagesOf(old(store.messages), conversationId)| + 1
    ensures Retitled(old(store.conversations), store.conversations, conversationId,
                     if stop.None? && |MessagesOf(old(store.messages), conversationId)| == 0 then Some(TitleFor(text)) else None)
  {
    ghost var ms := store.messages;
    ghost var m := Message(conversationId, UserRole, text, store.clock);
    var reply, log := ChatTurn(store, conversationId, text, service, streamText);
    OneUserRow(ms, m, text);
    stop := if reply.Err? then Some(Failed(reply.message)) else None;
  }

  /** The stored rows and titles after one more accepted input. */
  lemma SavedAdvance(m0: seq<Message>, ms: seq<Message>, ms2: seq<Message>, c0: seq<Conversation>, cs: seq<Conversation>,
                     cs2: seq<Conversation>, id: ConversationId, before: nat, saved: seq<string>, text: string, stopped: bool)
    requires |MessagesOf(ms, id)| == before + |saved|
    requires UserRows(m0, ms, id, saved)
    requires Retitled(c0, cs, id, TitleSet(before, saved))
    requires UserRows(ms, ms2, id, [text])
    requires |MessagesOf(ms2, id)| == |MessagesOf(ms, id)| + 1
    requires Retitled(cs, cs2, id, if !stopped && |MessagesOf(ms, id)| == 0 then Some(TitleFor(text)) else None)
    ensures |MessagesOf(ms2, id)| == before + |saved + [text]|
    ensures UserRows(m0, ms2, id, saved + [text])
    ensures !stopped ==> Retitled(c0, cs2, id, TitleSet(before, saved + [text]))
    ensures stopped ==> Retitled(c0, cs2, id, TitleSet(before, saved))
  {
    UserRowsAppend(m0, ms, ms2, id, saved, [text]);
    RetitledCompose(c0, cs, cs2, id, TitleSet(before, saved),
                    if !stopped && before + |saved| == 0 then Some(TitleFor(text)) else None);
    assert !stopped ==>
             TitleSet(before, saved + [text]) == if before + |saved| == 0 then Some(TitleFor(text)) else TitleSet(before, saved);
  }

  /**
   * The part of the script that `chatLoop` has run through after `i`
   * prompt answers: `saved` holds the inputs it stored, in order.
   */
  ghost predicate LoopState(store: ChatStore, m0: seq<Message>, c0: seq<Conversation>, id: ConversationId,
                            entries: seq<Entry>, i: nat, before: nat, saved: seq<string>,
                            service: Service, streamText: StreamRequest -> Result<StreamResult>)
    reads store
  {
    && i <= |entries|
    && before == |MessagesOf(m0, id)|
    && store.Valid() && id in Ids(store.conversations)
    && Accepted(entries) == Script(saved + Accepted(entries[i..]).texts, Accepted(entries[i..]).end)
    && |MessagesOf(store.messages, id)| == before + |saved|
    && UserRows(m0, store.messages, id, saved)
    && Retitled(c0, store.conversations, id, TitleSet(before, saved))
    && RepliedTo(service, store.codec, streamText, m0, store.messages, id, false)
  }

  /**
   * What `chatLoop` leaves behind when it ends with `end` after storing
   * `saved`: the inputs the script accepts (all of them, or a prefix ending
   * with the one whose reply failed), one user row per input, a reply asked
   * for after each of them that was answered except when the loop ended
   * `Failed`, where the last one was not, and the title of a conversation
   * that started empty taken from the first completed turn.
   */
  ghost predicate LoopDone(entries: seq<Entry>, end: LoopEnd, saved: seq<string>, m0: seq<Message>, ms: seq<Message>,
                           c0: seq<Conversation>, cs: seq<Conversation>, id: ConversationId,
                           service: Service, codec: JsonCodec, streamText: StreamRequest -> Result<StreamResult>)
  {
    && (end.Failed? ==> 1 <= |saved| <= |Accepted(entries).texts| && saved == Accepted(entries).texts[..|saved|])
    && (!end.Failed? ==> saved == Accepted(entries).texts && end == Accepted(entries).end)
    && UserRows(m0, ms, id, saved)
    && Retitled(c0, cs, id, TitleSet(|MessagesOf(m0, id)|, if end.Failed? then saved[..|saved| - 1] else saved))
    && RepliedTo(service, codec, streamText, m0, ms, id, end.Failed?)
  }

  /**
   * One pass of the `chatLoop` body: either the loop goes on from `i + 1`,
   * or it stops with the outcome the script predicts.
   */
  method LoopIteration(store: ChatStore, conversationId: ConversationId, entries: seq<Entry>, i: nat,
                       saved: seq<string>, service: Service, streamText: StreamRequest -> Result<StreamResult>,
                       ghost m0: seq<Message>, ghost c0: seq<Conversation>, ghost before: nat)
    returns (stop: Option<LoopEnd>, saved2: seq<string>)
    requires i < |entries|
    requires LoopState(store, m0, c0, conversationId, entries, i, before, saved, service, streamText)
    modifies store
    ensures stop.None? ==> LoopState(store, m0, c0, conversationId, entries, i + 1, before, saved2, service, streamText)
    ensures stop.Some? ==> store.Valid()
    ensures stop.Some? ==> LoopDone(entries, stop.value, saved2, m0, store.messages, c0, store.conversations, conversationId,
                                    service, store.codec, streamText)
  {
    ScriptAdvance(entries, i, saved);
    ghost var ms := store.messages;
    ghost var cs := store.conversations;
    var text;
    stop, text := LoopStep(store, conversationId, entries[i], service, streamText);
    saved2 := saved;
    if text.Some? {
      SavedAdvance(m0, ms, store.messages, c0, cs, store.conversations, conversationId, before, saved, text.value, stop.Some?);
      RepliedAdvance(service, store.codec, streamText, m0, ms, store.messages, conversationId);
      saved2 := saved + [text.value];
      if stop.Some? {
        assert saved2[..|saved2| - 1] == saved;
      }
    }
  }

  /**
   * `chatLoop`: runs turns until the exit word, Ctrl+C, a failed reply or
   * the end of the input. Only the user's messages are stored, one per
   * accepted input and in order; the title is set from the first of them
   * when the conversation started empty.
   */
  method ChatLoop(store: ChatStore, conversationId: ConversationId, entries: seq<Entry>, service: Service,
                  streamText: StreamRequest -> Result<StreamResult>)
    returns (end: LoopEnd, saved: seq<string>)
    requires store.Valid() && conversationId in Ids(store.conversations)
    modifies store
    ensures store.Valid()
    ensures LoopDone(entries, end, saved, old(store.messages), store.messages, old(store.conversations), store.conversations,
                     conversationId, service, store.codec, streamText)
  {
    ghost var before := |MessagesOf(store.messages, conversationId)|;
    ghost var m0 := store.messages;
    ghost var c0 := store.conversations;
    saved := [];
    assert entries[0..] == entries;
    var i := 0;
    while i < |entries|
      invariant LoopState(store, m0, c0, conversationId, entries, i, before, saved, service, streamText)
    {
      var stop;
      stop, saved := LoopIteration(store, conversationId, entries, i, saved, service, streamText, m0, c0, before);
      if stop.Some? {
        return stop.value, saved;
      }
      i := i + 1;
    }
    assert entries[i..] == [];
    end := InputsExhausted;
  }

  /** How `startChat` finishes: the farewell after the loop, or a process exit code. */
  datatype ChatExit = Finished(end: LoopEnd) | ExitCode(code: int)

  /** The last reply of a run: `failedLast` says exactly that some message was stored and its reply failed. */
  lemma LastReply(service: Service, codec: JsonCodec, streamText: StreamRequest -> Result<StreamResult>,
                  m0: seq<Message>, ms: seq<Message>, id: ConversationId, saved: seq<string>, failedLast: bool)
    requires UserRows(m0, ms, id, saved)
    requires RepliedTo(service, codec, streamText, m0, ms, id, failedLast)
    requires failedLast ==> |saved| >= 1
    ensures failedLast <==> |saved| >= 1 && !Answered(streamText(ReplyRequest(service, codec, ms, id)))
  {
    if |saved| >= 1 {
      assert ms[..|ms|] == ms;
    }
  }

  /**
   * `startChat`: authenticate, open the conversation, run the loop. A failed
   * authentication or a failed reply exits with 1, Ctrl+C exits with 0, and
   * otherwise the session says goodbye. `saved` is what the loop stored.
   */
  method StartChat(store: ChatStore, stored: Option<StoredToken>, users: seq<User>, sessions: seq<Session>,
                   mode: string, conversationId: Option<ConversationId>, entries: seq<Entry>,
                   service: Service, streamText: StreamRequest -> Result<StreamResult>)
    returns (exit: ChatExit, conversation: Option<Conversation>, ghost saved: seq<string>)
    requires store.Valid()
    modifies store
    ensures store.Valid()
    ensures GetUserFromToken(stored, users, sessions).Err? ==> exit == ExitCode(1) && conversation.None? && unchanged(store)
    ensures GetUserFromToken(stored, users, sessions).Ok? ==>
              && conversation.Some?
              && conversation.value.userId == GetUserFromToken(stored, users, sessions).value.id
    ensures GetUserFromToken(stored, users, sessions).Ok? && conversationId.Some?
            && FindOwned(old(store.conversations), conversationId.value, GetUserFromToken(stored, users, sessions).value.id).Some? ==>
              conversation == FindOwned(old(store.conversations), conversationId.value, GetUserFromToken(stored, users, sessions).value.id)
    ensures GetUserFromToken(stored, users, sessions).Ok?
            && (conversationId.None?
                || FindOwned(old(store.conversations), conversationId.value, GetUserFromToken(stored, users, sessions).value.id).None?) ==>
              conversation.Some? && conversation.value.id !in Ids(old(store.conversations)) && conversation.value.mode == mode
    ensures conversation.Some? ==>
              && UserRows(old(store.messages), store.messages, conversation.value.id, saved)
              && RepliedTo(service, store.codec, streamText, old(store.messages), store.messages, conversation.value.id,
                           exit == ExitCode(1))
    ensures exit == ExitCode(1) <==>
              || GetUserFromToken(stored, users, sessions).Err?
              || (conversation.Some? && |saved| >= 1
                  && !Answered(streamText(ReplyRequest(service, store.codec, store.messages, conversation.value.id))))
    ensures exit.ExitCode? ==> exit.code == 0 || exit.code == 1
    ensures exit == ExitCode(0) ==> Accepted(entries).end == Cancelled && saved == Accepted(entries).texts
    ensures exit.Finished? ==>
              && exit.end == Accepted(entries).end && (exit.end == ExitWord || exit.end == InputsExhausted)
              && saved == Accepted(entries).texts
    ensures exit == ExitCode(1) && conversation.Some? ==>
              1 <= |saved| <= |Accepted(entries).texts| && saved == Accepted(entries).texts[..|saved|]
  {
    saved := [];
    var user := GetUserFromToken(stored, users, sessions);
    if user.Err? {
      return ExitCode(1), None, saved;
    }
    var loaded := store.GetOrCreateConversation(user.value.id, conversationId, mode);
    conversation := Some(loaded.conversation);
    assert loaded.conversation in store.conversations;
    var end, texts := ChatLoop(store, loaded.conversation.id, entries, service, streamText);
    saved := texts;
    LastReply(service, store.codec, streamText, old(store.messages), store.messages, loaded.conversation.id, saved, end.Failed?);
    match end {
      case Failed(_) => exit := ExitCode(1);
      case Cancelled => exit := ExitCode(0);
      case _ => exit := Finished(end);
    }
  }
}
