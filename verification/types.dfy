/**
 * The records of the chat client (types.ts) as Dafny values.
 *
 * A `string` is a sequence of Unicode scalar values. For text inside the
 * Basic Multilingual Plane `|s|` is JavaScript's `s.length` and `s[..n]` is
 * `s.substring(0, n)`; a character beyond it is one element here and two
 * UTF-16 code units in JavaScript.
 */
module Types {

  datatype Option<+T> = None | Some(value: T)

  /** `role: 'user' | 'model'` */
  datatype Role = User | Model

  /** One element of `parts: { text: string }[]`. */
  datatype Part = Part(text: string)

  datatype Message = Message(id: string, role: Role, parts: seq<Part>)

  datatype Conversation = Conversation(id: string, title: string, messages: seq<Message>)

  /** `type: 'color' | 'default' | 'glass'` */
  datatype BackgroundKind = Color | Default | Glass

  datatype Background = Background(kind: BackgroundKind, value: string)

  /** One replayed turn handed to a new remote chat session: `{ role, parts }`. */
  datatype HistoryEntry = HistoryEntry(role: Role, parts: seq<Part>)

  /** A message as the client builds it: exactly one part holding `text`. */
  function TextMessage(id: string, role: Role, text: string): (m: Message)
    ensures |m.parts| == 1 && m.parts[0].text == text
  {
    Message(id, role, [Part(text)])
  }

  /** The ids of a list of conversations. */
  function Ids(cs: seq<Conversation>): set<string>
  {
    set c | c in cs :: c.id
  }

  /** Every message has a first part, so `msg.parts[0].text` can be read. */
  predicate HasFirstPart(m: Message)
  {
    |m.parts| > 0
  }

  predicate AllHaveFirstPart(cs: seq<Conversation>)
  {
    forall i | 0 <= i < |cs| :: MessagesHaveFirstPart(cs[i].messages)
  }

  predicate MessagesHaveFirstPart(ms: seq<Message>)
  {
    forall k | 0 <= k < |ms| :: HasFirstPart(ms[k])
  }

  /** A JavaScript truthiness test on an optional id: `null` and `''` are falsy. */
  predicate Truthy(s: Option<string>)
  {
    s.Some? && s.value != ""
  }
}
