/** The Gemini conversation entries shared by the server (both versions of
    `SaplingChat`, and the request body of index.ts) and by the browser
    client's stored history: a role and a list of parts, each part either
    text or inline image data. */
module ChatTypes {
  import opened Outcomes
  import opened Strings

  /** One part of a message. `data` is `None` when the image string had no
      comma, so that `img.split(",")[1]` is `undefined`. */
  datatype Part = Text(text: string) | InlineData(data: Option<string>, mimeType: string)

  datatype Message = Message(role: string, parts: seq<Part>)

  const UserRole := "user"
  const ModelRole := "model"
  const DefaultModel := "gemini-2.0-flash-lite"
  const GreetingReply := "Great to meet you. How can I help you today?"

  /** A one-part text entry of the given role. */
  function TextEntry(role: string, text: string): Message {
    Message(role, [Text(text)])
  }

  function UserEntry(text: string): Message {
    TextEntry(UserRole, text)
  }

  function ModelEntry(text: string): Message {
    TextEntry(ModelRole, text)
  }

  /** The fixed two-entry history a chat starts from and is reset to. */
  function Greeting(): (h: seq<Message>)
    ensures |h| == 2 && Alternating(h)
    ensures h[0] == UserEntry("Hello") && h[1] == ModelEntry(GreetingReply)
  {
    [UserEntry("Hello"), ModelEntry(GreetingReply)]
  }

  /** Entries come in user/model pairs: even positions are the user's, odd
      positions the model's, and the list has even length. */
  ghost predicate Alternating(h: seq<Message>) {
    |h| % 2 == 0 && forall i :: 0 <= i < |h| ==> h[i].role == (if i % 2 == 0 then UserRole else ModelRole)
  }

  /** One more exchange keeps the pairing. */
  lemma ExchangeKeepsAlternating(h: seq<Message>, user: Message, reply: string)
    requires Alternating(h) && user.role == UserRole
    ensures Alternating(h + [user, ModelEntry(reply)])
  {
    var h' := h + [user, ModelEntry(reply)];
    forall i | 0 <= i < |h'|
      ensures h'[i].role == (if i % 2 == 0 then UserRole else ModelRole)
    {
      if i < |h| {
        assert h'[i] == h[i];
      }
    }
  }

  /** A user entry with no reply after it breaks the pairing. */
  lemma DanglingUserEntry(h: seq<Message>, user: Message)
    requires Alternating(h)
    ensures !Alternating(h + [user])
  {
  }

  /** The payload of a data URL: the second comma-separated field, as
      `img.split(",")[1]` reads it. */
  function DataUrlPayload(img: string): (r: Option<string>)
    ensures r.None? <==> ',' !in img
    ensures r.Some? ==> ',' !in r.value
  {
    var fields := Split(img, ',');
    if |fields| >= 2 then Some(fields[1]) else None
  }

  /** A data URL `prefix,payload` gives back its payload, and whatever follows
      a second comma is dropped. */
  lemma {:induction false} PayloadOfDataUrl(prefix: string, payload: string, rest: seq<string>)
    requires ',' !in prefix && ',' !in payload
    requires forall i :: 0 <= i < |rest| ==> ',' !in rest[i]
    ensures DataUrlPayload(Join([prefix, payload] + rest, ',')) == Some(payload)
  {
    var parts := [prefix, payload] + rest;
    forall i | 0 <= i < |parts| ensures ',' !in parts[i] {
      if i >= 2 { assert parts[i] == rest[i - 2]; }
    }
    SplitJoin(parts, ',');
  }
}
