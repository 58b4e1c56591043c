/**
 * The state of the chat screen (App.tsx) as a class whose fields are the
 * component's state, and whose methods are its handlers, each taken as one
 * atomic step. The remote services are inputs: a chat stream is a
 * `StreamOutcome`, a speech request a `TtsOutcome`, and every `Date.now()`
 * id is a parameter.
 */
module ChatApp {
  import opened Types
  import opened Text
  import opened Conversations
  import opened Pcm

  /** The fixed apology appended when a chat stream fails. */
  const ApologyText: string := "\U{0905}\U{0930}\U{0947} \U{092F}\U{093E}\U{0930}, \U{092E}\U{0947}\U{0930}\U{0947} \U{0926}\U{093F}\U{092E}\U{093E}\U{0917} \U{0915}\U{093E} \U{0926}\U{0939}\U{0940} \U{0939}\U{094B} \U{0917}\U{092F}\U{093E}\U{0964} \U{0915}\U{0941}\U{091B} \U{0917}\U{0921}\U{093C}\U{092C}\U{0921}\U{093C} \U{0939}\U{0948}, \U{0925}\U{094B}\U{0921}\U{093C}\U{0940} \U{0926}\U{0947}\U{0930} \U{092E}\U{0947}\U{0902} \U{092B}\U{093F}\U{0930} \U{0938}\U{0947} \U{0915}\U{094B}\U{0936}\U{093F}\U{0936} \U{0915}\U{0930}\U{0928}\U{093E}\U{0964}"

  /** The error shown when speech output fails. */
  const AudioErrorText: string := "\U{0911}\U{0921}\U{093F}\U{092F}\U{094B} \U{091A}\U{0932}\U{093E}\U{0928}\U{0947} \U{092E}\U{0947}\U{0902} \U{0905}\U{0938}\U{092E}\U{0930}\U{094D}\U{0925}\U{0964}"

  /** The error shown when the AI client cannot be constructed. */
  const ApiKeyErrorText: string := "API \U{0915}\U{0941}\U{0902}\U{091C}\U{0940} \U{092A}\U{094D}\U{0930}\U{093E}\U{0930}\U{0902}\U{092D} \U{0915}\U{0930}\U{0928}\U{0947} \U{092E}\U{0947}\U{0902} \U{0935}\U{093F}\U{092B}\U{0932}\U{0964} \U{0915}\U{0943}\U{092A}\U{092F}\U{093E} \U{0938}\U{0941}\U{0928}\U{093F}\U{0936}\U{094D}\U{091A}\U{093F}\U{0924} \U{0915}\U{0930}\U{0947}\U{0902} \U{0915}\U{093F} \U{092F}\U{0939} \U{0938}\U{0939}\U{0940} \U{0922}\U{0902}\U{0917} \U{0938}\U{0947} \U{0915}\U{0949}\U{0928}\U{094D}\U{092B}\U{093C}\U{093F}\U{0917}\U{0930} \U{0939}\U{0948}\U{0964}"

  // ---------------------------------------------------------------------
  // The streamed reply

  /** One chunk of the reply stream; its `text` may be absent. */
  datatype Chunk = Chunk(text: Option<string>)

  /** What `modelResponse += chunk.text` appends: JavaScript spells an absent text "undefined". */
  function ChunkText(c: Chunk): string
  {
    match c.text
    case Some(t) => t
    case None => "undefined"
  }

  /** The value of `modelResponse` after the given chunks, accumulated left to right. */
  function Reply(chunks: seq<Chunk>): string
  {
    if chunks == [] then "" else Reply(chunks[..|chunks| - 1]) + ChunkText(chunks[|chunks| - 1])
  }

  /** Plain concatenation, first string first. */
  function Concat(ss: seq<string>): string
  {
    if ss == [] then "" else ss[0] + Concat(ss[1..])
  }

  /** The chunks' texts, where every chunk has one. */
  function Texts(chunks: seq<Chunk>): (ts: seq<string>)
    requires forall c | c in chunks :: c.text.Some?
    ensures |ts| == |chunks|
    ensures forall i | 0 <= i < |chunks| :: ts[i] == chunks[i].text.value
  {
    seq(|chunks|, i requires 0 <= i < |chunks| => chunks[i].text.value)
  }

  /** The running reply of a split stream is the reply of the first part followed by that of the second. */
  lemma {:induction false} ReplyAppend(a: seq<Chunk>, b: seq<Chunk>)
    ensures Reply(a + b) == Reply(a) + Reply(b)
  {
    if b == [] {
      assert a + b == a;
    } else {
      var b' := b[..|b| - 1];
      assert (a + b)[..|a + b| - 1] == a + b';
      assert (a + b)[|a + b| - 1] == b[|b| - 1];
      ReplyAppend(a, b');
    }
  }

  /** When every chunk carries text, the reply is exactly their concatenation, in arrival order. */
  lemma {:induction false} ReplyIsConcatenation(chunks: seq<Chunk>)
    requires forall c | c in chunks :: c.text.Some?
    ensures Reply(chunks) == Concat(Texts(chunks))
  {
    if chunks != [] {
      var first := [chunks[0]];
      var rest := chunks[1..];
      assert forall c | c in rest :: c in chunks;
      ReplyIsConcatenation(rest);
      assert first + rest == chunks;
      ReplyAppend(first, rest);
      assert Reply(first) == ChunkText(chunks[0]) by {
        assert first[..0] == [];
      }
      assert Texts(chunks)[1..] == Texts(rest);
    }
  }

  /** The chunks "a", "b", "c" build the reply "abc". */
  lemma ReplyOfAbc()
    ensures Reply([Chunk(Some("a")), Chunk(Some("b")), Chunk(Some("c"))]) == "abc"
  {
    var cs := [Chunk(Some("a")), Chunk(Some("b")), Chunk(Some("c"))];
    ReplyIsConcatenation(cs);
    assert Texts(cs) == ["a", "b", "c"];
    assert Concat(["c"]) == "c" by {
      assert ["c"][1..] == [];
    }
    assert Concat(["b", "c"]) == "bc" by {
      assert ["b", "c"][1..] == ["c"];
    }
    assert ["a", "b", "c"][1..] == ["b", "c"];
  }

  /** How the remote chat stream behaves for one send. */
  datatype StreamOutcome =
    | OpenFailed                                        // `sendMessageStream` throws
    | Streamed(chunks: seq<Chunk>, failsAfter: bool)    // the chunks arrive; then the stream ends or throws

  predicate Fails(o: StreamOutcome)
  {
    o.OpenFailed? || o.failsAfter
  }

  /** The messages one turn adds at the end of the active conversation. */
  function TurnMessages(text: string, userId: string, modelId: string, errorId: string,
                        outcome: StreamOutcome): (ms: seq<Message>)
    ensures |ms| == if outcome.Streamed? && outcome.failsAfter then 3 else 2
    ensures ms[0] == TextMessage(userId, User, text)
    ensures outcome.Streamed? ==> ms[1] == TextMessage(modelId, Model, Reply(outcome.chunks))
    ensures Fails(outcome) ==> ms[|ms| - 1] == TextMessage(errorId, Model, ApologyText)
  {
    [TextMessage(userId, User, text)] +
    match outcome
    case OpenFailed => [TextMessage(errorId, Model, ApologyText)]
    case Streamed(chunks, failsAfter) =>
      [TextMessage(modelId, Model, Reply(chunks))]
      + (if failsAfter then [TextMessage(errorId, Model, ApologyText)] else [])
  }

  /** The list after the streaming loop has written the reply so far into the placeholder. */
  function AfterChunks(cs: seq<Conversation>, active: string, modelId: string,
                       chunks: seq<Chunk>): seq<Conversation>
  {
    if chunks == [] then cs else EditActive(cs, active, SetText(modelId, Reply(chunks)))
  }

  /** The list after the reply part of a send: the `try`/`catch` of the handler. */
  function ReplyConversations(cs: seq<Conversation>, active: string, modelId: string, errorId: string,
                              outcome: StreamOutcome): (r: seq<Conversation>)
    ensures |r| == |cs| && Ids(r) == Ids(cs)
    ensures forall i | 0 <= i < |cs| :: r[i].id == cs[i].id
    ensures forall i | 0 <= i < |cs| && cs[i].id != active :: r[i] == cs[i]
  {
    var apology := TextMessage(errorId, Model, ApologyText);
    match outcome
    case OpenFailed => EditActive(cs, active, AddMessage(apology))
    case Streamed(chunks, failsAfter) =>
      var placed := EditActive(cs, active, AddMessage(TextMessage(modelId, Model, "")));
      var streamed := AfterChunks(placed, active, modelId, chunks);
      if failsAfter then EditActive(streamed, active, AddMessage(apology)) else streamed
  }

  /** The list after a send, as the sequence of updaters the handler applies. */
  function SentConversations(cs: seq<Conversation>, active: string, text: string, userId: string,
                             modelId: string, errorId: string, outcome: StreamOutcome): seq<Conversation>
  {
    ReplyConversations(EditActive(cs, active, AddUserTurn(text, userId)), active, modelId, errorId, outcome)
  }

  /** The same updaters applied to one conversation. */
  function TurnApplied(c: Conversation, text: string, userId: string, modelId: string,
                       errorId: string, outcome: StreamOutcome): Conversation
  {
    var withUser := ApplyEdit(c, AddUserTurn(text, userId));
    var apology := TextMessage(errorId, Model, ApologyText);
    match outcome
    case OpenFailed => ApplyEdit(withUser, AddMessage(apology))
    case Streamed(chunks, failsAfter) =>
      var placed := ApplyEdit(withUser, AddMessage(TextMessage(modelId, Model, "")));
      var streamed := if chunks == [] then placed else ApplyEdit(placed, SetText(modelId, Reply(chunks)));
      if failsAfter then ApplyEdit(streamed, AddMessage(apology)) else streamed
  }

  /** A send edits exactly the conversations that carry the active id, each on its own. */
  lemma SentPointwise(cs: seq<Conversation>, active: string, text: string, userId: string,
                      modelId: string, errorId: string, outcome: StreamOutcome, i: nat)
    requires i < |cs|
    ensures var r := SentConversations(cs, active, text, userId, modelId, errorId, outcome);
      && |r| == |cs| && Ids(r) == Ids(cs)
      && r[i] == if cs[i].id == active then TurnApplied(cs[i], text, userId, modelId, errorId, outcome) else cs[i]
  {
  }

  /**
   * What a send does to each conversation, whatever the ids: the other
   * conversations are untouched; the active one keeps its id, takes its
   * title from the text only when it had no messages, grows by the turn's
   * messages, and keeps every earlier message not carrying `modelId`.
   */
  lemma SendShape(cs: seq<Conversation>, active: string, text: string, userId: string,
                  modelId: string, errorId: string, outcome: StreamOutcome, i: nat)
    requires i < |cs|
    ensures var r := SentConversations(cs, active, text, userId, modelId, errorId, outcome);
      && |r| == |cs| && Ids(r) == Ids(cs)
      && (cs[i].id != active ==> r[i] == cs[i])
      && (cs[i].id == active ==>
            && r[i].id == cs[i].id
            && r[i].title == (if cs[i].messages == [] then TitleFor(text) else cs[i].title)
            && |r[i].messages| == |cs[i].messages| + |TurnMessages(text, userId, modelId, errorId, outcome)|
            && forall k | 0 <= k < |cs[i].messages| && cs[i].messages[k].id != modelId ::
                 r[i].messages[k] == cs[i].messages[k])
  {
    SentPointwise(cs, active, text, userId, modelId, errorId, outcome, i);
  }

  /**
   * With distinct turn ids and no earlier message carrying the model id, the
   * conversation ends as its old messages followed by exactly the turn's
   * messages: the user's text, then the reply (the concatenated chunks)
   * and/or the apology.
   */
  lemma TurnAppends(c: Conversation, text: string, userId: string, modelId: string,
                    errorId: string, outcome: StreamOutcome)
    requires userId != modelId
    requires forall m | m in c.messages :: m.id != modelId
    ensures TurnApplied(c, text, userId, modelId, errorId, outcome).messages
         == c.messages + TurnMessages(text, userId, modelId, errorId, outcome)
  {
    var user := TextMessage(userId, User, text);
    var withUser := ApplyEdit(c, AddUserTurn(text, userId));
    assert withUser.messages == c.messages + [user];
    match outcome
    case OpenFailed =>
    case Streamed(chunks, failsAfter) =>
      var placeholder := TextMessage(modelId, Model, "");
      var placed := ApplyEdit(withUser, AddMessage(placeholder));
      assert placed.messages == c.messages + [user, placeholder];
      var reply := TextMessage(modelId, Model, Reply(chunks));
      if chunks != [] {
        var ms := ReplaceText(placed.messages, modelId, Reply(chunks));
        forall k | 0 <= k < |ms| ensures ms[k] == (c.messages + [user, reply])[k] {
          if k < |c.messages| {
            assert c.messages[k] in c.messages;
          }
        }
        assert ms == c.messages + [user, reply];
      }
  }

  /** The list-level form: the active conversation grows by exactly the turn's messages. */
  lemma SendAppendsTurn(cs: seq<Conversation>, active: string, text: string, userId: string,
                        modelId: string, errorId: string, outcome: StreamOutcome, i: nat)
    requires i < |cs| && cs[i].id == active
    requires userId != modelId
    requires forall m | m in cs[i].messages :: m.id != modelId
    ensures SentConversations(cs, active, text, userId, modelId, errorId, outcome)[i].messages
         == cs[i].messages + TurnMessages(text, userId, modelId, errorId, outcome)
  {
    SentPointwise(cs, active, text, userId, modelId, errorId, outcome, i);
    TurnAppends(cs[i], text, userId, modelId, errorId, outcome);
  }

  /** The selection toggle of `handleSelectMessage`. */
  function ToggleSelection(previous: Option<string>, id: string): (r: Option<string>)
    ensures r == Some(id) <==> previous != Some(id)
    ensures r.None? <==> previous == Some(id)
  {
    if previous == Some(id) then None else Some(id)
  }

  /** How the remote speech request ends: it throws, or answers with the (decoded base64) audio. */
  datatype TtsOutcome =
    | RequestFailed
    | Responded(binary: string)   // what `atob` makes of the payload; "" when it is missing or empty

  /** Whether a response's audio gets through the decoder: a non-empty even number of bytes. */
  predicate Playable(binary: string)
  {
    |binary| > 0 && |binary| % 2 == 0
  }

  // ---------------------------------------------------------------------
  // The component

  class App {
    var conversations: seq<Conversation>
    var activeConversationId: Option<string>
    /** `ai`: whether the client could be constructed. */
    var aiReady: bool
    /** `activeChat`: the current chat session, given by the history it replayed. */
    var activeChat: Option<seq<HistoryEntry>>
    var isLoading: bool
    var error: Option<string>
    var selectedMessageId: Option<string>
    var speakingMessageId: Option<string>
    var ttsLoadingId: Option<string>
    /** `audioSourceRef.current`: whether an utterance is held for playback. */
    var playing: bool

    /**
     * The list is non-empty and its active id names a conversation; every
     * message can be read; a loading marker always names the speaking
     * message; nothing plays while a speech request is loading.
     */
    ghost predicate Valid()
      reads this
    {
      && ConversationList(conversations, activeConversationId).Valid()
      && AllHaveFirstPart(conversations)
      && (ttsLoadingId.Some? ==> ttsLoadingId == speakingMessageId)
      && (playing ==> ttsLoadingId.None?)
    }

    /** The conversation the screen shows. */
    function ActiveConversation(): (c: Conversation)
      reads this
      requires Valid()
      ensures c in conversations && c.id == activeConversationId.value
    {
      Find(conversations, activeConversationId.value).value
    }

    /**
     * Mounting: the state's initial values, then the first effect, which
     * constructs the client (reporting a failure as an error) and loads the
     * saved list.
     */
    constructor (aiAvailable: bool, saved: Option<seq<Conversation>>, freshId: string)
      requires saved.Some? ==> AllHaveFirstPart(saved.value)
      ensures Valid()
      ensures ConversationList(conversations, activeConversationId) == InitialLoad(saved, freshId)
      ensures aiReady == aiAvailable
      ensures error == if aiAvailable then None else Some(ApiKeyErrorText)
      ensures activeChat.None? && !isLoading && !playing
      ensures selectedMessageId.None? && speakingMessageId.None? && ttsLoadingId.None?
    {
      var list := InitialLoad(saved, freshId);
      conversations := list.items;
      activeConversationId := list.activeId;
      aiReady := aiAvailable;
      error := if aiAvailable then None else Some(ApiKeyErrorText);
      activeChat := None;
      isLoading := false;
      selectedMessageId := None;
      speakingMessageId := None;
      ttsLoadingId := None;
      playing := false;
    }

    /**
     * The session effect: with a client and an active id, a new session
     * replays the active conversation's non-blank messages; otherwise the
     * old session stays.
     */
    method RebindChatSession()
      requires Valid()
      modifies this`activeChat
      ensures Valid()
      ensures aiReady && Truthy(activeConversationId) ==>
        activeChat == Some(ReplayHistory(ActiveConversation().messages))
      ensures !(aiReady && Truthy(activeConversationId)) ==> activeChat == old(activeChat)
    {
      if !aiReady || !Truthy(activeConversationId) {
        return;
      }
      var conversation := Find(conversations, activeConversationId.value);
      activeChat := Some(ReplayHistory(conversation.value.messages));
    }

    /** `handleNewChat`: a new empty conversation goes first and becomes active. */
    method HandleNewChat(freshId: string)
      requires Valid()
      modifies this`conversations, this`activeConversationId, this`error, this`isLoading,
               this`selectedMessageId, this`playing, this`speakingMessageId, this`ttsLoadingId
      ensures Valid()
      ensures ConversationList(conversations, activeConversationId)
           == PrependNew(old(ConversationList(conversations, activeConversationId)), freshId)
      ensures error.None? && !isLoading && selectedMessageId.None? && !playing
      ensures old(playing) ==> speakingMessageId.None? && ttsLoadingId.None?
      ensures !old(playing) ==>
        speakingMessageId == old(speakingMessageId) && ttsLoadingId == old(ttsLoadingId)
    {
      var list := PrependNew(ConversationList(conversations, activeConversationId), freshId);
      conversations := list.items;
      activeConversationId := list.activeId;
      error := None;
      isLoading := false;
      selectedMessageId := None;
      if playing {
        playing := false;
        speakingMessageId := None;
        ttsLoadingId := None;
      }
    }

    /**
     * `handleSelectConversation`, called with the id of a listed
     * conversation: switching clears the message selection and stops any
     * utterance; selecting the active one changes nothing.
     */
    method HandleSelectConversation(id: string)
      requires Valid() && id in Ids(conversations)
      modifies this`activeConversationId, this`selectedMessageId, this`playing,
               this`speakingMessageId, this`ttsLoadingId
      ensures Valid()
      ensures activeConversationId == Some(id)
      ensures old(activeConversationId) == Some(id) ==>
        selectedMessageId == old(selectedMessageId) && playing == old(playing)
        && speakingMessageId == old(speakingMessageId) && ttsLoadingId == old(ttsLoadingId)
      ensures old(activeConversationId) != Some(id) ==> selectedMessageId.None? && !playing
      ensures old(activeConversationId) != Some(id) && old(playing) ==>
        speakingMessageId.None? && ttsLoadingId.None?
      ensures old(activeConversationId) != Some(id) && !old(playing) ==>
        speakingMessageId == old(speakingMessageId) && ttsLoadingId == old(ttsLoadingId)
    {
      if activeConversationId != Some(id) {
        activeConversationId := Some(id);
        selectedMessageId := None;
        if playing {
          playing := false;
          speakingMessageId := None;
          ttsLoadingId := None;
        }
      }
    }

    /** `handleDeleteConversation`, with the user's answer to the confirmation as `confirmed`. */
    method HandleDeleteConversation(id: string, confirmed: bool, freshId: string)
      requires Valid()
      modifies this`conversations, this`activeConversationId
      ensures Valid()
      ensures confirmed ==>
        ConversationList(conversations, activeConversationId)
        == Delete(old(ConversationList(conversations, activeConversationId)), id, freshId)
      ensures !confirmed ==>
        conversations == old(conversations) && activeConversationId == old(activeConversationId)
    {
      if confirmed {
        var list := Delete(ConversationList(conversations, activeConversationId), id, freshId);
        conversations := list.items;
        activeConversationId := list.activeId;
      }
    }

    /** The guard of `handleSendMessage`. */
    predicate CanSend(inputText: string)
      reads this
      ensures CanSend(inputText) <==>
        Trim(inputText) != [] && !isLoading && activeChat.Some? && Truthy(activeConversationId)
    {
      BlankIffTrimmedEmpty(inputText);
      !IsBlank(inputText) && !isLoading && activeChat.Some? && Truthy(activeConversationId)
    }

    /**
     * `handleSendMessage`: unless the guard stops it, clears the selection
     * and the error, appends the user's turn, then writes the cumulative
     * reply into a placeholder after each chunk; a failure appends the
     * apology and sets the error; loading ends false either way.
     */
    method HandleSendMessage(inputText: string, userId: string, modelId: string, errorId: string,
                             outcome: StreamOutcome)
      requires Valid()
      modifies this`conversations, this`selectedMessageId, this`error, this`isLoading
      ensures Valid()
      ensures !old(CanSend(inputText)) ==>
        conversations == old(conversations) && selectedMessageId == old(selectedMessageId)
        && error == old(error) && isLoading == old(isLoading)
      ensures old(CanSend(inputText)) ==>
        && conversations == SentConversations(old(conversations), activeConversationId.value,
                                              inputText, userId, modelId, errorId, outcome)
        && selectedMessageId.None?
        && !isLoading
        && error == (if Fails(outcome) then Some(ApologyText) else None)
    {
      if IsBlank(inputText) || isLoading || activeChat.None? || !Truthy(activeConversationId) {
        return;
      }
      var active := activeConversationId.value;
      selectedMessageId := None;
      error := None;
      conversations := EditActive(conversations, active, AddUserTurn(inputText, userId));
      isLoading := true;
      ReceiveReply(active, modelId, errorId, outcome);
      isLoading := false;
    }

    /**
     * The `try`/`catch` of `handleSendMessage`: a stream that opens gets an
     * empty placeholder that the loop fills; a failure at any point appends
     * the apology after what is there and sets the error.
     */
    method ReceiveReply(active: string, modelId: string, errorId: string, outcome: StreamOutcome)
      requires Valid()
      modifies this`conversations, this`error
      ensures Valid()
      ensures conversations == ReplyConversations(old(conversations), active, modelId, errorId, outcome)
      ensures error == if Fails(outcome) then Some(ApologyText) else old(error)
    {
      var apology := TextMessage(errorId, Model, ApologyText);
      assert AddsFirstParts(AddMessage(apology));
      match outcome {
        case OpenFailed =>
          error := Some(ApologyText);
          conversations := EditActive(conversations, active, AddMessage(apology));
        case Streamed(chunks, failsAfter) =>
          conversations := EditActive(conversations, active, AddMessage(TextMessage(modelId, Model, "")));
          StreamReply(active, modelId, chunks);
          if failsAfter {
            error := Some(ApologyText);
            conversations := EditActive(conversations, active, AddMessage(apology));
          }
      }
    }

    /**
     * The `for await` loop of `handleSendMessage`: after each chunk the
     * whole reply so far overwrites the text of the message `modelId`.
     */
    method StreamReply(active: string, modelId: string, chunks: seq<Chunk>)
      requires Valid()
      modifies this`conversations
      ensures Valid()
      ensures conversations == AfterChunks(old(conversations), active, modelId, chunks)
    {
      ghost var placed := conversations;
      var modelResponse := "";
      var i := 0;
      while i < |chunks|
        invariant 0 <= i <= |chunks|
        invariant Valid()
        invariant modelResponse == Reply(chunks[..i])
        invariant conversations == AfterChunks(placed, active, modelId, chunks[..i])
      {
        assert chunks[..i + 1][..i] == chunks[..i];
        modelResponse := modelResponse + ChunkText(chunks[i]);
        if i > 0 {
          SetTextOverwrites(placed, active, modelId, Reply(chunks[..i]), modelResponse);
        }
        conversations := EditActive(conversations, active, SetText(modelId, modelResponse));
        i := i + 1;
      }
      assert chunks[..|chunks|] == chunks;
    }

    /** `handleSelectMessage`: selecting the selected message clears the selection. */
    method HandleSelectMessage(messageId: string)
      requires Valid()
      modifies this`selectedMessageId
      ensures Valid()
      ensures selectedMessageId == ToggleSelection(old(selectedMessageId), messageId)
    {
      selectedMessageId := ToggleSelection(selectedMessageId, messageId);
    }

    /**
     * `handleToggleSpeak` up to its request: stops the held utterance;
     * toggling the speaking message clears both markers, any other message
     * is marked loading and speaking and a request starts.
     */
    method BeginToggleSpeak(m: Message) returns (requested: bool)
      requires Valid()
      modifies this`playing, this`speakingMessageId, this`ttsLoadingId
      ensures Valid()
      ensures requested <==> old(aiReady) && old(speakingMessageId) != Some(m.id)
      ensures !aiReady ==>
        playing == old(playing) && speakingMessageId == old(speakingMessageId)
        && ttsLoadingId == old(ttsLoadingId)
      ensures aiReady ==> !playing
      ensures aiReady && !requested ==> speakingMessageId.None? && ttsLoadingId.None?
      ensures requested ==> speakingMessageId == Some(m.id) && ttsLoadingId == Some(m.id)
    {
      if !aiReady {
        return false;
      }
      playing := false;
      if speakingMessageId == Some(m.id) {
        speakingMessageId := None;
        ttsLoadingId := None;
        return false;
      }
      ttsLoadingId := Some(m.id);
      speakingMessageId := Some(m.id);
      return true;
    }

    /**
     * `handleToggleSpeak` after its request: decodable audio starts playing
     * with the message still marked speaking; missing audio clears the
     * markers quietly; a failed request or undecodable audio clears them and
     * sets the error.
     */
    method FinishToggleSpeak(m: Message, outcome: TtsOutcome)
      requires Valid()
      requires speakingMessageId == Some(m.id) && ttsLoadingId == Some(m.id) && !playing
      modifies this`playing, this`speakingMessageId, this`ttsLoadingId, this`error
      ensures Valid()
      ensures ttsLoadingId.None?
      ensures outcome.Responded? && Playable(outcome.binary) ==>
        playing && speakingMessageId == Some(m.id) && error == old(error)
      ensures outcome.Responded? && outcome.binary == [] ==>
        !playing && speakingMessageId.None? && error == old(error)
      ensures outcome.RequestFailed? || (outcome.binary != [] && !Playable(outcome.binary)) ==>
        !playing && speakingMessageId.None? && error == Some(AudioErrorText)
    {
      match outcome {
        case RequestFailed =>
          error := Some(AudioErrorText);
          speakingMessageId := None;
          ttsLoadingId := None;
        case Responded(binary) =>
          ttsLoadingId := None;
          if binary != [] {
            var bytes := DecodeBinaryString(binary);
            var frames := DecodeAudioData(bytes[..]);
            if frames.Some? {
              playing := true;
            } else {
              error := Some(AudioErrorText);
              speakingMessageId := None;
              ttsLoadingId := None;
            }
          } else {
            speakingMessageId := None;
          }
      }
    }

    /** `handleToggleSpeak` as one step. */
    method HandleToggleSpeak(m: Message, outcome: TtsOutcome)
      requires Valid()
      modifies this`playing, this`speakingMessageId, this`ttsLoadingId, this`error
      ensures Valid()
      ensures !aiReady ==>
        playing == old(playing) && speakingMessageId == old(speakingMessageId)
        && ttsLoadingId == old(ttsLoadingId) && error == old(error)
      ensures aiReady ==> ttsLoadingId.None?
      ensures aiReady && old(speakingMessageId) == Some(m.id) ==>
        !playing && speakingMessageId.None? && error == old(error)
      ensures aiReady && old(speakingMessageId) != Some(m.id) ==>
        (playing <==> outcome.Responded? && Playable(outcome.binary))
        && (speakingMessageId == if playing then Some(m.id) else None)
        && (error == if outcome.RequestFailed? || (outcome.binary != [] && !Playable(outcome.binary))
                     then Some(AudioErrorText) else old(error))
    {
      var requested := BeginToggleSpeak(m);
      if requested {
        FinishToggleSpeak(m, outcome);
      }
    }
  }
}
