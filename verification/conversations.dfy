/**
 * The conversation store of App.tsx as pure functions: creating a
 * conversation, the updaters handed to `setConversations` (map, filter,
 * spread), the start-up choice of the active conversation, the history a
 * new chat session replays, and the write-or-remove rule of persistence.
 */
module Conversations {
  import opened Types
  import opened Text

  /** The placeholder title of a new conversation ("new conversation" in Hindi). */
  const NewChatTitle: string := "\U{0928}\U{0908} \U{092C}\U{093E}\U{0924}\U{091A}\U{0940}\U{0924}"

  /** A title keeps at most this many characters of the first message. */
  const TitleLimit: nat := 40

  const Ellipsis: string := "..."

  /** `createNewConversation`, with the `Date.now()` id taken as a parameter. */
  function NewConversation(id: string): (c: Conversation)
    ensures c.id == id && c.messages == [] && c.title == NewChatTitle
  {
    Conversation(id, NewChatTitle, [])
  }

  /** The title a conversation takes from its first message. */
  function TitleFor(text: string): (title: string)
    ensures |text| <= TitleLimit ==> title == text
    ensures |text| > TitleLimit ==> title == text[..TitleLimit] + Ellipsis
    ensures |title| <= TitleLimit + |Ellipsis|
  {
    var keep := if |text| < TitleLimit then |text| else TitleLimit;
    text[..keep] + (if |text| > TitleLimit then Ellipsis else "")
  }

  /** The three updaters `handleSendMessage` passes to `updateConversations`. */
  datatype Edit =
    | AddUserTurn(text: string, messageId: string)
    | AddMessage(message: Message)
    | SetText(messageId: string, text: string)

  /** The streaming updater's `messages.map`: every message with id `mid` now holds exactly `text`. */
  function ReplaceText(ms: seq<Message>, mid: string, text: string): (r: seq<Message>)
    ensures |r| == |ms|
    ensures forall k | 0 <= k < |ms| :: r[k].id == ms[k].id && r[k].role == ms[k].role
    ensures forall k | 0 <= k < |ms| && ms[k].id != mid :: r[k] == ms[k]
    ensures forall k | 0 <= k < |ms| && ms[k].id == mid :: r[k].parts == [Part(text)]
  {
    seq(|ms|, k requires 0 <= k < |ms| =>
      if ms[k].id == mid then ms[k].(parts := [Part(text)]) else ms[k])
  }

  /** An edit adds only messages that have a first part. */
  predicate AddsFirstParts(e: Edit)
  {
    e.AddMessage? ==> HasFirstPart(e.message)
  }

  function ApplyEdit(c: Conversation, e: Edit): (r: Conversation)
    ensures r.id == c.id
  {
    match e
    case AddUserTurn(text, mid) =>
      c.(title := if |c.messages| == 0 then TitleFor(text) else c.title,
         messages := c.messages + [TextMessage(mid, User, text)])
    case AddMessage(m) => c.(messages := c.messages + [m])
    case SetText(mid, text) => c.(messages := ReplaceText(c.messages, mid, text))
  }

  /**
   * `updateConversations`: `prev.map(c => c.id === id ? updater(c) : c)`.
   * Every conversation carrying `id` is edited, every other one is kept,
   * and the list keeps its length, order and ids.
   */
  function EditActive(cs: seq<Conversation>, id: string, e: Edit): (r: seq<Conversation>)
    ensures |r| == |cs| && Ids(r) == Ids(cs)
    ensures forall i | 0 <= i < |cs| :: r[i].id == cs[i].id
    ensures forall i | 0 <= i < |cs| && cs[i].id != id :: r[i] == cs[i]
    ensures forall i | 0 <= i < |cs| && cs[i].id == id :: r[i] == ApplyEdit(cs[i], e)
    ensures AllHaveFirstPart(cs) && AddsFirstParts(e) ==> AllHaveFirstPart(r)
  {
    var r := seq(|cs|, i requires 0 <= i < |cs| => if cs[i].id == id then ApplyEdit(cs[i], e) else cs[i]);
    assert forall i | 0 <= i < |cs| :: r[i].id == cs[i].id;
    assert Ids(r) == Ids(cs) by {
      forall x | x in Ids(cs) ensures x in Ids(r) {
        var i :| 0 <= i < |cs| && cs[i].id == x;
        assert r[i] in r;
      }
      forall x | x in Ids(r) ensures x in Ids(cs) {
        var i :| 0 <= i < |r| && r[i].id == x;
        assert cs[i] in cs;
      }
    }
    r
  }

  /** Repeated streaming updates overwrite each other: only the last text survives. */
  lemma SetTextOverwrites(cs: seq<Conversation>, id: string, mid: string, a: string, b: string)
    ensures EditActive(EditActive(cs, id, SetText(mid, a)), id, SetText(mid, b))
         == EditActive(cs, id, SetText(mid, b))
  {
    var one := EditActive(cs, id, SetText(mid, a));
    var two := EditActive(one, id, SetText(mid, b));
    var direct := EditActive(cs, id, SetText(mid, b));
    forall i | 0 <= i < |cs| ensures two[i] == direct[i] {
      if cs[i].id == id {
        assert ReplaceText(ReplaceText(cs[i].messages, mid, a), mid, b)
            == ReplaceText(cs[i].messages, mid, b);
      }
    }
  }

  /** `prev.filter(c => c.id !== id)`. */
  function Remove(cs: seq<Conversation>, id: string): (r: seq<Conversation>)
    ensures |r| <= |cs|
    ensures forall c | c in r :: c in cs && c.id != id
    ensures forall c | c in cs && c.id != id :: c in r
    ensures Ids(r) == Ids(cs) - {id}
  {
    if cs == [] then []
    else (if cs[0].id == id then [] else [cs[0]]) + Remove(cs[1..], id)
  }

  /** Filtering splits over concatenation: the survivors keep their relative order. */
  lemma {:induction false} RemoveAppend(a: seq<Conversation>, b: seq<Conversation>, id: string)
    ensures Remove(a + b, id) == Remove(a, id) + Remove(b, id)
  {
    if a == [] {
      assert a + b == b;
    } else {
      assert (a + b)[1..] == a[1..] + b;
      RemoveAppend(a[1..], b, id);
    }
  }

  /** Removing an id nobody carries changes nothing. */
  lemma {:induction false} RemoveAbsent(cs: seq<Conversation>, id: string)
    requires id !in Ids(cs)
    ensures Remove(cs, id) == cs
  {
    if cs != [] {
      assert cs[0] in cs;
      assert Ids(cs[1..]) <= Ids(cs) by {
        forall x | x in Ids(cs[1..]) ensures x in Ids(cs) {
          var c :| c in cs[1..] && c.id == x;
          assert c in cs;
        }
      }
      RemoveAbsent(cs[1..], id);
      assert [cs[0]] + cs[1..] == cs;
    }
  }

  /** `conversations.find(c => c.id === id)`: the first conversation carrying `id`. */
  function Find(cs: seq<Conversation>, id: string): (r: Option<Conversation>)
    ensures r.None? <==> id !in Ids(cs)
    ensures r.Some? ==> exists i | 0 <= i < |cs| ::
      r.value == cs[i] && cs[i].id == id && forall j | 0 <= j < i :: cs[j].id != id
  {
    if cs == [] then None
    else if cs[0].id == id then Some(cs[0])
    else
      var r := Find(cs[1..], id);
      assert Ids(cs) == {cs[0].id} + Ids(cs[1..]) by {
        assert cs == [cs[0]] + cs[1..];
        forall x | x in Ids(cs) ensures x in {cs[0].id} + Ids(cs[1..]) {
          var c :| c in cs && c.id == x;
          if c != cs[0] { assert c in cs[1..]; }
        }
      }
      if r.Some? then
        var i :| 0 <= i < |cs| - 1 && r.value == cs[1..][i] && cs[1..][i].id == id
                 && forall j | 0 <= j < i :: cs[1..][j].id != id;
        assert r.value == cs[i + 1];
        assert forall j | 0 <= j < i + 1 :: cs[j].id != id by {
          forall j | 0 <= j < i + 1 ensures cs[j].id != id {
            if j > 0 { assert cs[j] == cs[1..][j - 1]; }
          }
        }
        r
      else r
  }

  /** Whether the history filter keeps a message: its first part is not blank. */
  predicate Kept(m: Message)
  {
    |m.parts| > 0 && !IsBlank(m.parts[0].text)
  }

  /** The filter's test is `msg.parts[0].text.trim() !== ''`. */
  lemma KeptIffTrimmedNonEmpty(m: Message)
    requires HasFirstPart(m)
    ensures Kept(m) <==> Trim(m.parts[0].text) != []
  {
    BlankIffTrimmedEmpty(m.parts[0].text);
  }

  /** The `{ role, parts }` a kept message is replayed as. */
  function Entry(m: Message): HistoryEntry
  {
    HistoryEntry(m.role, m.parts)
  }

  /**
   * The replay history of a new chat session: messages whose first part is
   * blank are dropped, the rest become `{ role, parts }` in their order.
   */
  function ReplayHistory(ms: seq<Message>): (h: seq<HistoryEntry>)
    requires MessagesHaveFirstPart(ms)
    ensures |h| <= |ms|
  {
    if ms == [] then []
    else (if Kept(ms[0]) then [Entry(ms[0])] else []) + ReplayHistory(ms[1..])
  }

  /** Every kept message is replayed. */
  lemma {:induction false} ReplayKeepsKept(ms: seq<Message>)
    requires MessagesHaveFirstPart(ms)
    ensures forall k | 0 <= k < |ms| && Kept(ms[k]) :: Entry(ms[k]) in ReplayHistory(ms)
  {
    if ms != [] {
      ReplayKeepsKept(ms[1..]);
      forall k | 1 <= k < |ms| && Kept(ms[k]) ensures Entry(ms[k]) in ReplayHistory(ms) {
        assert ms[k] == ms[1..][k - 1];
      }
    }
  }

  /** Only kept messages are replayed: entry `j` comes from a kept message. */
  lemma {:induction false} ReplayOnlyKept(ms: seq<Message>, j: nat)
    requires MessagesHaveFirstPart(ms)
    requires j < |ReplayHistory(ms)|
    ensures exists k | 0 <= k < |ms| :: Kept(ms[k]) && ReplayHistory(ms)[j] == Entry(ms[k])
  {
    var rest := ReplayHistory(ms[1..]);
    var head := if Kept(ms[0]) then [Entry(ms[0])] else [];
    assert ReplayHistory(ms) == head + rest;
    if j < |head| {
      assert Kept(ms[0]) && ReplayHistory(ms)[j] == Entry(ms[0]);
    } else {
      ReplayOnlyKept(ms[1..], j - |head|);
      var k :| 0 <= k < |ms[1..]| && Kept(ms[1..][k]) && rest[j - |head|] == Entry(ms[1..][k]);
      assert ms[1..][k] == ms[k + 1];
    }
  }

  /** The history filter splits over concatenation, so the replay keeps message order. */
  lemma {:induction false} ReplayAppend(a: seq<Message>, b: seq<Message>)
    requires MessagesHaveFirstPart(a) && MessagesHaveFirstPart(b)
    ensures MessagesHaveFirstPart(a + b)
    ensures ReplayHistory(a + b) == ReplayHistory(a) + ReplayHistory(b)
  {
    assert forall k | 0 <= k < |a + b| :: (a + b)[k] == if k < |a| then a[k] else b[k - |a|];
    if a == [] {
      assert a + b == b;
    } else {
      var ab := a + b;
      assert ab[0] == a[0];
      assert ab[1..] == a[1..] + b;
      ReplayAppend(a[1..], b);
    }
  }

  /** An empty streaming placeholder is never replayed. */
  lemma ReplaySkipsPlaceholder(ms: seq<Message>, id: string)
    requires MessagesHaveFirstPart(ms)
    ensures ReplayHistory(ms + [TextMessage(id, Model, "")]) == ReplayHistory(ms)
  {
    var p := TextMessage(id, Model, "");
    assert ReplayHistory([p]) == [] by {
      assert [p][1..] == [];
    }
    ReplayAppend(ms, [p]);
  }

  /** The conversation list with its active id. */
  datatype ConversationList = ConversationList(items: seq<Conversation>, activeId: Option<string>)
  {
    /** At least one conversation exists and the active id names one of them. */
    predicate Valid()
    {
      |items| > 0 && activeId.Some? && activeId.value in Ids(items)
    }
  }

  /**
   * Start-up: a saved non-empty list is taken as it is with its first
   * conversation active; a missing or empty one is replaced by one new
   * conversation, which becomes active.
   */
  function InitialLoad(saved: Option<seq<Conversation>>, freshId: string): (r: ConversationList)
    ensures r.Valid()
    ensures saved.Some? && |saved.value| > 0 ==>
      r.items == saved.value && r.activeId == Some(saved.value[0].id)
    ensures saved.None? || |saved.value| == 0 ==>
      r.items == [NewConversation(freshId)] && r.activeId == Some(freshId)
  {
    if saved.Some? && |saved.value| > 0 then
      assert saved.value[0] in saved.value;
      ConversationList(saved.value, Some(saved.value[0].id))
    else
      ConversationList([NewConversation(freshId)], Some(freshId))
  }

  /** `handleNewChat`: the new conversation goes first and becomes active. */
  function PrependNew(list: ConversationList, freshId: string): (r: ConversationList)
    ensures r.Valid()
    ensures r.items[0] == NewConversation(freshId) && r.items[1..] == list.items
    ensures r.activeId == Some(freshId)
  {
    var items := [NewConversation(freshId)] + list.items;
    assert items[0] in items;
    ConversationList(items, Some(freshId))
  }

  /**
   * `handleDeleteConversation` once confirmed: the list never ends empty,
   * deleting the active conversation activates the first survivor, and
   * deleting any other one keeps the active id.
   */
  function Delete(list: ConversationList, id: string, freshId: string): (r: ConversationList)
    ensures |r.items| > 0
    ensures list.Valid() ==> r.Valid()
    ensures Remove(list.items, id) == [] ==>
      r == ConversationList([NewConversation(freshId)], Some(freshId))
    ensures Remove(list.items, id) != [] ==> r.items == Remove(list.items, id)
    ensures Remove(list.items, id) != [] && list.activeId == Some(id) ==>
      r.activeId == Some(r.items[0].id)
    ensures Remove(list.items, id) != [] && list.activeId != Some(id) ==>
      r.activeId == list.activeId
  {
    var rest := Remove(list.items, id);
    if rest == [] then
      ConversationList([NewConversation(freshId)], Some(freshId))
    else if list.activeId == Some(id) then
      assert rest[0] in rest;
      ConversationList(rest, Some(rest[0].id))
    else
      ConversationList(rest, list.activeId)
  }

  /** The key under which the conversation list is saved. */
  const HistoryKey: string := "chatHistory"

  /** The browser's key-value store, with the serialised form abstracted away. */
  type Storage = map<string, seq<Conversation>>

  /** The persistence effect: write the list when it is non-empty, otherwise remove the key. */
  function Persist(store: Storage, cs: seq<Conversation>): (r: Storage)
    ensures |cs| > 0 ==> HistoryKey in r && r[HistoryKey] == cs
    ensures |cs| == 0 ==> HistoryKey !in r
    ensures forall k | k != HistoryKey :: (k in r <==> k in store) && (k in r ==> r[k] == store[k])
  {
    if |cs| > 0 then store[HistoryKey := cs] else store - {HistoryKey}
  }

  /** `localStorage.getItem('chatHistory')`: absent when the key is missing. */
  function Load(store: Storage): (r: Option<seq<Conversation>>)
    ensures r.Some? <==> HistoryKey in store
  {
    if HistoryKey in store then Some(store[HistoryKey]) else None
  }

  /** Saving a valid list and starting again restores it, with its first conversation active. */
  lemma ReloadRestoresList(store: Storage, list: ConversationList, freshId: string)
    requires list.Valid()
    ensures InitialLoad(Load(Persist(store, list.items)), freshId)
         == ConversationList(list.items, Some(list.items[0].id))
  {
  }

  /** A store whose list was removed starts with one new active conversation. */
  lemma ReloadAfterEmptyList(store: Storage, freshId: string)
    ensures InitialLoad(Load(Persist(store, [])), freshId)
         == ConversationList([NewConversation(freshId)], Some(freshId))
  {
  }
}
