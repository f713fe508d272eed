/** The chat endpoint of index.ts: the per-key cache of `SaplingChat`
    instances, the API-key check in front of every chat request, and the
    shape check and defaults of the `/api/chat/message` body. HTTP framing
    and the byte encoding of the streamed reply are not modelled; the
    reply is the list of text chunks. */
module Server {
  import opened Outcomes
  import opened Strings
  import opened ChatTypes
  import SaplingChatApi

  const KeyRequired := "API key is required"
  const InvalidKey := "Invalid API key"
  const InvalidBody := "Invalid request. Expected { message?: string, images?: string[] }"

  /** A field of the parsed JSON body: absent, `null`, a value of the
      expected type, or a value of some other type. */
  datatype Field<+T> = Absent | Null | Value(v: T) | WrongType

  /** The parsed body: not an object (a string, a number, ...), `null`, or an
      object with the three fields the handler reads. */
  datatype Body =
    | NotObject
    | NullBody
    | Object(message: Field<string>, images: Field<seq<string>>, history: Field<seq<Message>>)

  datatype Response =
    | JsonError(status: int, error: string)
    | StreamReply(chunks: seq<string>)
    | ServerError(reason: string)
    | ResetOk

  /** The body check: a non-null object whose `message` is a string or whose
      `images` is an array. */
  predicate AcceptsBody(b: Body) {
    b.Object? && (b.message.Value? || b.images.Value?)
  }

  /** What `chatStream` is given for `message`: a missing message defaults to
      `""`, `null` is passed on (`None`), and a value of another type makes
      `message?.trim()` throw (`Failure`). */
  function MessageArgument(f: Field<string>): (r: Result<Option<string>, string>)
    ensures f.Absent? ==> r == Success(Some(""))
    ensures f.Value? ==> r == Success(Some(f.v))
    ensures f.Null? ==> r == Success(None)
    ensures r.Failure? <==> f.WrongType?
  {
    match f
    case Absent => Success(Some(""))
    case Null => Success(None)
    case Value(s) => Success(Some(s))
    case WrongType => Failure("message.trim is not a function")
  }

  /** A body is refused exactly when it is not an object, is `null`, or has
      neither a string message nor an array of images; so a body with only
      a string `message` and a body with only an `images` array both pass. */
  lemma AcceptsBodyCases(b: Body)
    ensures !AcceptsBody(b) <==>
      b.NotObject? || b.NullBody? || (!b.message.Value? && !b.images.Value?)
    ensures b.Object? && b.message.Value? ==> AcceptsBody(b)
    ensures b.Object? && b.images.Value? ==> AcceptsBody(b)
  {
  }

  /** What `chatStream` is given for `images`: the array when there is one. */
  function ImagesArgument(f: Field<seq<string>>): (r: Option<seq<string>>)
    ensures r.Some? <==> f.Value?
    ensures r.Some? ==> r.value == f.v
  {
    if f.Value? then Some(f.v) else None
  }

  /** `modelId || undefined`: an empty header counts as missing. */
  function ModelHeader(h: Option<string>): (r: Option<string>)
    ensures r.Some? <==> h.Some? && h.value != ""
    ensures r.Some? ==> r == h
  {
    if h.Some? && h.value != "" then h else None
  }

  /** The process-wide map from API key to its chat instance. */
  class ChatServer {
    var instances: map<string, SaplingChatApi.SaplingChat>

    /** Every cached instance is registered under its own, non-empty key, and
        has a chat session, since it is cached only after `init` succeeded. */
    ghost predicate Valid()
      reads this, instances.Values
    {
      forall k :: k in instances ==> k != "" && instances[k].apiKey == k && instances[k].hasChatModel
    }

    /** The key check lets a request through: the key header is non-empty,
        and either its instance is cached and `setModel` does not throw (no
        model named, the current model named, or the SDK loads), or it is not
        cached and `init` of a new instance succeeds. */
    ghost predicate KeyPasses(keyHeader: Option<string>, modelHeader: Option<string>, sdkLoads: bool)
      reads this, instances.Values
    {
      && keyHeader.Some? && keyHeader.value != ""
      && if keyHeader.value in instances then
           ModelHeader(modelHeader).None? || ModelHeader(modelHeader).value == instances[keyHeader.value].currentModel || sdkLoads
         else sdkLoads
    }

    constructor ()
      ensures Valid() && instances == map[]
    {
      instances := map[];
    }

    /** `getSaplingChatInstance`. An empty key gives no instance and changes
        nothing. A cached instance is returned as it is, after `setModel`
        when a model id is given. Otherwise a new instance with that key and
        model is initialised, and cached only when `init` succeeds; when it
        fails there is no instance and the map is unchanged. `Failure`
        stands for `setModel` throwing. */
    method GetSaplingChatInstance(apiKey: string, modelId: Option<string>, envKey: Option<string>, sdkLoads: bool)
      returns (r: Result<Option<SaplingChatApi.SaplingChat>, string>)
      requires Valid()
      modifies this, instances.Values
      ensures Valid()
      ensures apiKey == "" ==> r == Success(None) && instances == old(instances)
      ensures apiKey in old(instances) ==> instances == old(instances)
      ensures apiKey in old(instances) && (modelId.None? || modelId.value == "") ==>
        r == Success(Some(old(instances)[apiKey])) && unchanged(old(instances)[apiKey])
      ensures apiKey in old(instances) && modelId.Some? && modelId.value != "" ==>
        && (r.Success? <==> modelId.value == old(instances[apiKey].currentModel) || sdkLoads)
        && instances[apiKey].currentModel == modelId.value
        && instances[apiKey].history == old(instances[apiKey].history)
      ensures apiKey in old(instances) && r.Success? ==> r.value == Some(old(instances)[apiKey])
      ensures apiKey != "" && apiKey !in old(instances) ==> r.Success? && (r.value.Some? <==> sdkLoads)
      ensures apiKey != "" && apiKey !in old(instances) && r.value.Some? ==>
        instances == old(instances)[apiKey := r.value.value] && fresh(r.value.value)
        && r.value.value.currentModel == OrElse(modelId, DefaultModel)
        && r.value.value.history == Greeting()
      ensures apiKey != "" && apiKey !in old(instances) && r.value.None? ==> instances == old(instances)
      ensures r.Success? && r.value.Some? ==> apiKey in instances && instances[apiKey] == r.value.value
      ensures forall k :: k in old(instances) && k != apiKey ==> unchanged(old(instances)[k])
    {
      if apiKey == "" {
        return Success(None);
      }
      if apiKey in instances {
        var instance := instances[apiKey];
        if modelId.Some? && modelId.value != "" {
          var s := instance.SetModel(modelId.value, sdkLoads);
          if s.Failure? {
            return Failure(s.error);
          }
        }
        return Success(Some(instance));
      }
      var instance := new SaplingChatApi.SaplingChat(Some(apiKey), modelId, envKey);
      var ok := instance.Init(None, sdkLoads);
      if ok.Failure? {
        return Success(None);
      }
      instances := instances[apiKey := instance];
      return Success(Some(instance));
    }

    /** `requireApiKey`: a missing or empty `X-API-Key` header is a 401
        "API key is required"; a key that yields no instance is a 401
        "Invalid API key". */
    method RequireApiKey(keyHeader: Option<string>, modelHeader: Option<string>, envKey: Option<string>, sdkLoads: bool)
      returns (r: Result<SaplingChatApi.SaplingChat, Response>)
      requires Valid()
      modifies this, instances.Values
      ensures Valid()
      ensures keyHeader.None? || keyHeader.value == "" ==> r == Failure(JsonError(401, KeyRequired)) && instances == old(instances)
      ensures r.Success? ==> keyHeader.Some? && keyHeader.value in instances && instances[keyHeader.value] == r.value
      ensures r.Success? ==> r.value.apiKey == keyHeader.value
      ensures r.Success? ==> r.value in old(instances.Values) || fresh(r.value)
      ensures r.Success? <==> old(KeyPasses(keyHeader, modelHeader, sdkLoads))
      ensures r.Failure? ==> r.error == JsonError(401, KeyRequired) || r.error == JsonError(401, InvalidKey) || r.error.ServerError?
      ensures keyHeader.Some? && keyHeader.value != "" && r.Failure? && r.error.JsonError? ==> r.error.error == InvalidKey
      ensures keyHeader.Some? && keyHeader.value != "" && keyHeader.value !in old(instances) && !sdkLoads ==>
        r == Failure(JsonError(401, InvalidKey))
      ensures keyHeader.Some? && keyHeader.value in old(instances) ==>
        (r.Failure? ==> r.error.ServerError?) && keyHeader.value in instances && instances[keyHeader.value].history == old(instances[keyHeader.value].history)
      ensures keyHeader.Some? && keyHeader.value !in old(instances) && r.Success? ==> r.value.history == Greeting()
      ensures forall k :: k in old(instances) && (keyHeader.None? || k != keyHeader.value) ==> unchanged(old(instances)[k])
      ensures old(instances).Keys <= instances.Keys
      ensures forall k :: k in instances ==> k in old(instances) || (keyHeader.Some? && k == keyHeader.value)
      ensures forall k :: k in old(instances) ==> instances[k] == old(instances)[k]
    {
      if keyHeader.None? || keyHeader.value == "" {
        return Failure(JsonError(401, KeyRequired));
      }
      var got := GetSaplingChatInstance(keyHeader.value, ModelHeader(modelHeader), envKey, sdkLoads);
      if got.Failure? {
        return Failure(ServerError(got.error));
      }
      if got.value.None? {
        return Failure(JsonError(401, InvalidKey));
      }
      return Success(got.value.value);
    }

    /** The `/api/chat/message` handler, with the returned stream read to the
        end. After the key check, a refused body is a 400; otherwise a given
        history re-initialises the instance, then `chatStream` runs with the
        defaulted message, and the reply chunks are sent in order. An images
        field that is not an array counts as no images. */
    method HandleChatMessage(keyHeader: Option<string>, modelHeader: Option<string>, envKey: Option<string>,
                             body: Body, sdkLoads: bool, streamOpens: bool, chunks: seq<string>)
      returns (resp: Response)
      requires Valid()
      modifies this, instances.Values
      ensures Valid()
      ensures keyHeader.None? || keyHeader.value == "" ==> resp == JsonError(401, KeyRequired)
      ensures keyHeader.Some? && keyHeader.value != "" && keyHeader.value !in old(instances) && !sdkLoads ==>
        resp == JsonError(401, InvalidKey)
      ensures old(KeyPasses(keyHeader, modelHeader, sdkLoads)) && !AcceptsBody(body) ==> resp == JsonError(400, InvalidBody)
      ensures resp.StreamReply? <==>
        && old(KeyPasses(keyHeader, modelHeader, sdkLoads)) && AcceptsBody(body)
        && (body.history.Value? ==> sdkLoads) && !body.message.WrongType? && streamOpens
      ensures resp.StreamReply? ==> resp.chunks == chunks && AcceptsBody(body) && !body.message.WrongType?
      ensures resp.StreamReply? ==> keyHeader.Some? && keyHeader.value in instances
      ensures resp.StreamReply? ==>
        instances[keyHeader.value].history ==
          (if body.history.Value? then body.history.v
           else if keyHeader.value in old(instances) then old(instances[keyHeader.value].history)
           else Greeting())
          + [Message(UserRole, SaplingChatApi.BuildParts(MessageArgument(body.message).value, ImagesArgument(body.images))),
             ModelEntry(Concat(chunks))]
      ensures resp.JsonError? && resp.status == 400 ==> !AcceptsBody(body) && resp.error == InvalidBody
      ensures forall k :: k in old(instances) && (keyHeader.None? || k != keyHeader.value) ==> unchanged(old(instances)[k])
    {
      var got := RequireApiKey(keyHeader, modelHeader, envKey, sdkLoads);
      if got.Failure? {
        return got.error;
      }
      var chat := got.value;
      if !AcceptsBody(body) {
        return JsonError(400, InvalidBody);
      }
      if body.history.Value? {
        var ok := chat.Init(Some(body.history.v), sdkLoads);
        if ok.Failure? {
          return ServerError(ok.error);
        }
      }
      var message := MessageArgument(body.message);
      if message.Failure? {
        return ServerError(message.error);
      }
      var images := ImagesArgument(body.images);
      var stream := chat.ChatStream(message.value, images, sdkLoads, streamOpens);
      if stream.Failure? {
        return ServerError(stream.error);
      }
      var yielded := chat.ConsumeStream(chunks);
      return StreamReply(yielded);
    }

    /** The `/api/chat/reset` handler: after the key check, the instance's
        history goes back to the greeting. */
    method HandleReset(keyHeader: Option<string>, modelHeader: Option<string>, envKey: Option<string>, sdkLoads: bool)
      returns (resp: Response)
      requires Valid()
      modifies this, instances.Values
      ensures Valid()
      ensures keyHeader.None? || keyHeader.value == "" ==> resp == JsonError(401, KeyRequired)
      ensures resp == ResetOk <==> old(KeyPasses(keyHeader, modelHeader, sdkLoads))
      ensures resp == ResetOk ==>
        keyHeader.Some? && keyHeader.value in instances && instances[keyHeader.value].history == Greeting()
      ensures keyHeader.Some? && keyHeader.value != "" && keyHeader.value !in old(instances) && !sdkLoads ==>
        resp == JsonError(401, InvalidKey)
      ensures forall k :: k in old(instances) && (keyHeader.None? || k != keyHeader.value) ==> unchanged(old(instances)[k])
      ensures resp.ResetOk? || resp.ServerError? || resp == JsonError(401, KeyRequired) || resp == JsonError(401, InvalidKey)
    {
      var got := RequireApiKey(keyHeader, modelHeader, envKey, sdkLoads);
      if got.Failure? {
        return got.error;
      }
      var _ := got.value.ResetChat();
      return ResetOk;
    }
  }

  /** The browser client sends the stored history with the new message
      already saved at its end, and the handler then has `chatStream` append
      the same message again: a text-only request leaves the user's entry
      twice in a row, in front of the reply. */
  lemma ClientMessageRecordedTwice(stored: seq<Message>, message: string, chunks: seq<string>)
    requires Trim(message) != ""
    ensures var sent := stored + [UserEntry(message)];
      var after := sent + [Message(UserRole, SaplingChatApi.BuildParts(Some(message), Some([]))), ModelEntry(Concat(chunks))];
      && after == stored + [UserEntry(message), UserEntry(message), ModelEntry(Concat(chunks))]
      && after[|stored|] == after[|stored| + 1]
  {
    var parts := SaplingChatApi.BuildParts(Some(message), Some([]));
    assert |parts| == 1 && parts[0] == Text(message);
    assert parts == [Text(message)];
  }
}
