/** `SaplingChat` of api/sapling-chat.ts: the server-side conversation with a
    Gemini model. The model keeps the bookkeeping (the key and model id, the
    history list and whether the SDK objects exist) and leaves the SDK
    itself abstract: whether the SDK loads, what the model answers and the
    chunks it streams are parameters. */
module SaplingChatApi {
  import opened Outcomes
  import opened Strings
  import opened ChatTypes

  const NoApiKey := "No API key provided. Please provide a Gemini API key."
  const JpegMime := "image/jpeg"

  /** The `parts` list `chatStream` sends: one inline image per image, in
      order, then the message text when it is not blank. A `None` message
      stands for `null`, for which `message?.trim()` is `undefined`. */
  function BuildParts(message: Option<string>, images: Option<seq<string>>): (parts: seq<Part>)
    ensures var imgs := images.GetOr([]);
      && |parts| == |imgs| + (if message.Some? && Trim(message.value) != "" then 1 else 0)
      && (forall i :: 0 <= i < |imgs| ==> parts[i] == InlineData(DataUrlPayload(imgs[i]), JpegMime))
      && (message.Some? && Trim(message.value) != "" ==> parts[|parts| - 1] == Text(message.value))
  {
    var imgs := images.GetOr([]);
    var imageParts := seq(|imgs|, i requires 0 <= i < |imgs| => InlineData(DataUrlPayload(imgs[i]), JpegMime));
    if message.Some? && Trim(message.value) != "" then imageParts + [Text(message.value)] else imageParts
  }

  /** The message gets a text part exactly when it has a character that is
      not whitespace, and that part carries the message untrimmed. */
  lemma TextPartIffNotBlank(message: string, images: Option<seq<string>>)
    ensures (exists i :: 0 <= i < |BuildParts(Some(message), images)| && BuildParts(Some(message), images)[i] == Text(message))
      <==> exists j :: 0 <= j < |message| && !IsJsWhitespace(message[j])
  {
    var parts := BuildParts(Some(message), images);
    TrimIsTrimmed(message);
    if Trim(message) != "" {
      assert parts[|parts| - 1] == Text(message);
    } else {
      assert forall i :: 0 <= i < |parts| ==> parts[i].InlineData?;
    }
  }

  class SaplingChat {
    var apiKey: string
    var currentModel: string
    var history: seq<Message>
    /** `this.model` has been set. */
    var hasModel: bool
    /** `this.chatModel` has been set. */
    var hasChatModel: bool

    /** The key is the option, else the environment's `GEMINI_API_KEY`,
        else `""`; the model is the option, else the default model. */
    constructor (optKey: Option<string>, optModel: Option<string>, envKey: Option<string>)
      ensures apiKey == OrElse2(optKey, envKey, "")
      ensures currentModel == OrElse(optModel, DefaultModel)
      ensures history == [] && !hasModel && !hasChatModel
    {
      apiKey := OrElse2(optKey, envKey, "");
      currentModel := OrElse(optModel, DefaultModel);
      history := [];
      hasModel := false;
      hasChatModel := false;
    }

    /** `init`: fails on an empty key, or when the SDK cannot be loaded, and
        then changes nothing; otherwise the history becomes the given one, or
        the greeting when none is given, and a chat session is started. */
    method Init(initialHistory: Option<seq<Message>>, sdkLoads: bool) returns (r: Result<bool, string>)
      modifies this
      ensures apiKey == old(apiKey) && currentModel == old(currentModel)
      ensures r.Success? <==> old(apiKey) != "" && sdkLoads
      ensures old(apiKey) == "" ==> r == Failure(NoApiKey)
      ensures r.Success? ==> r.value && hasModel && hasChatModel && history == initialHistory.GetOr(Greeting())
      ensures r.Failure? ==> history == old(history) && hasModel == old(hasModel) && hasChatModel == old(hasChatModel)
    {
      if apiKey == "" {
        return Failure(NoApiKey);
      }
      if !sdkLoads {
        return Failure("Error initializing chat");
      }
      hasModel := true;
      history := initialHistory.GetOr(Greeting());
      hasChatModel := true;
      return Success(true);
    }

    /** `setModel`: the current id changes nothing; another id is recorded
        before the SDK is loaded, and the session restarts on the same history. */
    method SetModel(modelId: string, sdkLoads: bool) returns (r: Result<(), string>)
      modifies this
      ensures apiKey == old(apiKey) && history == old(history)
      ensures modelId == old(currentModel) ==>
        r.Success? && currentModel == old(currentModel) && hasModel == old(hasModel) && hasChatModel == old(hasChatModel)
      ensures modelId != old(currentModel) ==> currentModel == modelId
      ensures modelId != old(currentModel) ==> (r.Success? <==> sdkLoads)
      ensures r.Success? && modelId != old(currentModel) ==> hasModel && hasChatModel
      ensures r.Failure? ==> hasModel == old(hasModel) && hasChatModel == old(hasChatModel)
    {
      if currentModel == modelId {
        return Success(());
      }
      currentModel := modelId;
      if !sdkLoads {
        return Failure("Error loading the SDK");
      }
      hasModel := true;
      hasChatModel := true;
      return Success(());
    }

    /** Starts the session first when there is none (`init()` with the
        greeting); the failure of that start is the call's failure. */
    method EnsureSession(sdkLoads: bool) returns (r: Result<bool, string>)
      modifies this
      ensures apiKey == old(apiKey) && currentModel == old(currentModel)
      ensures old(hasChatModel) ==> r.Success? && history == old(history) && hasModel == old(hasModel) && hasChatModel
      ensures !old(hasChatModel) ==> (r.Success? <==> old(apiKey) != "" && sdkLoads)
      ensures !old(hasChatModel) && r.Success? ==> history == Greeting() && hasChatModel
      ensures r.Failure? ==> history == old(history) && hasModel == old(hasModel) && !hasChatModel
    {
      if hasChatModel {
        return Success(true);
      }
      r := Init(None, sdkLoads);
    }

    /** `sendMessage`: after the session exists, the user entry is appended;
        when the model answers, its reply is appended after it and returned;
        when the model call throws, only the user entry has been appended. */
    method SendMessage(message: string, sdkLoads: bool, reply: Option<string>) returns (r: Result<string, string>)
      modifies this
      ensures apiKey == old(apiKey) && currentModel == old(currentModel)
      ensures var start := if old(hasChatModel) then old(history) else Greeting();
        && (r.Success? ==>
              reply.Some? && r.value == reply.value && history == start + [UserEntry(message), ModelEntry(reply.value)])
        && (r.Failure? && hasChatModel ==> reply.None? && history == start + [UserEntry(message)])
        && (r.Failure? && !hasChatModel ==> history == old(history))
      ensures r.Success? <==> (old(hasChatModel) || (old(apiKey) != "" && sdkLoads)) && reply.Some?
      ensures r.Success? && Alternating(old(history)) ==> Alternating(history)
    {
      var s := EnsureSession(sdkLoads);
      if s.Failure? {
        return Failure(s.error);
      }
      var start := history;
      history := start + [UserEntry(message)];
      if reply.None? {
        return Failure("Error sending message");
      }
      history := start + [UserEntry(message), ModelEntry(reply.value)];
      assert Alternating(old(history)) ==> Alternating(history) by {
        if Alternating(old(history)) {
          ExchangeKeepsAlternating(start, UserEntry(message), reply.value);
        }
      }
      return Success(reply.value);
    }

    /** `chatStream` up to the point where it hands back the stream: the one
        user entry carrying the built parts is appended before the request is
        made; a request that throws leaves that entry in place. */
    method ChatStream(message: Option<string>, images: Option<seq<string>>, sdkLoads: bool, streamOpens: bool)
      returns (r: Result<seq<Part>, string>)
      modifies this
      ensures apiKey == old(apiKey) && currentModel == old(currentModel)
      ensures var start := if old(hasChatModel) then old(history) else Greeting();
        && (hasChatModel ==> history == start + [Message(UserRole, BuildParts(message, images))])
        && (!hasChatModel ==> r.Failure? && history == old(history))
      ensures hasChatModel == (old(hasChatModel) || (old(apiKey) != "" && sdkLoads))
      ensures r.Success? <==> (old(hasChatModel) || (old(apiKey) != "" && sdkLoads)) && streamOpens
      ensures r.Success? ==> r.value == BuildParts(message, images)
    {
      var s := EnsureSession(sdkLoads);
      if s.Failure? {
        return Failure(s.error);
      }
      var parts := BuildParts(message, images);
      history := history + [Message(UserRole, parts)];
      if !streamOpens {
        return Failure("Error sending message stream");
      }
      return Success(parts);
    }

    /** Reading the stream `chatStream` returned to the end: every chunk is
        handed on in arrival order while the full reply is accumulated, and
        then one model entry holding the whole reply is appended. */
    method ConsumeStream(chunks: seq<string>) returns (yielded: seq<string>)
      modifies this
      ensures yielded == chunks
      ensures history == old(history) + [ModelEntry(Concat(chunks))]
      ensures apiKey == old(apiKey) && currentModel == old(currentModel)
      ensures hasModel == old(hasModel) && hasChatModel == old(hasChatModel)
    {
      var fullResponse := "";
      yielded := [];
      var i := 0;
      while i < |chunks|
        invariant 0 <= i <= |chunks|
        invariant fullResponse == Concat(chunks[..i])
        invariant yielded == chunks[..i]
      {
        assert chunks[..i + 1][..i] == chunks[..i];
        fullResponse := fullResponse + chunks[i];
        yielded := yielded + [chunks[i]];
        i := i + 1;
      }
      assert chunks[..i] == chunks;
      history := history + [ModelEntry(fullResponse)];
    }

    /** `resetChat`: the history becomes the greeting whatever it was, and a
        session is restarted when a model object exists. */
    method ResetChat() returns (ok: bool)
      modifies this
      ensures ok && history == Greeting()
      ensures apiKey == old(apiKey) && currentModel == old(currentModel) && hasModel == old(hasModel)
      ensures hasChatModel == (old(hasModel) || old(hasChatModel))
    {
      history := Greeting();
      if hasModel {
        hasChatModel := true;
      }
      return true;
    }

    method GetHistory() returns (h: seq<Message>)
      ensures h == history
    {
      return history;
    }

    method Close() returns (ok: bool)
      ensures ok
    {
      return true;
    }
  }

  /** A user entry from `chatStream` followed by the model entry appended once
      the stream is read to the end keeps the entries paired. */
  lemma StreamExchangeKeepsPairs(start: seq<Message>, parts: seq<Part>, chunks: seq<string>)
    requires Alternating(start)
    ensures Alternating(start + [Message(UserRole, parts)] + [ModelEntry(Concat(chunks))])
  {
    assert start + [Message(UserRole, parts)] + [ModelEntry(Concat(chunks))]
      == start + [Message(UserRole, parts), ModelEntry(Concat(chunks))];
    ExchangeKeepsAlternating(start, Message(UserRole, parts), Concat(chunks));
  }
}
