/** The older `SaplingChat` of sapling-chat.ts. It differs from the one in
    api/sapling-chat.ts in two places: `init` takes no history and always
    replaces the history with the greeting, and `chatStream` sends and
    records the message as a single text part, with no images. */
module LegacySaplingChat {
  import opened Outcomes
  import opened Strings
  import opened ChatTypes

  const NoApiKey := "No API key provided. Please provide a Gemini API key."

  class SaplingChat {
    var apiKey: string
    var currentModel: string
    var history: seq<Message>
    var hasModel: bool
    var hasChatModel: bool

    constructor (optKey: Option<string>, optModel: Option<string>, envKey: Option<string>)
      ensures apiKey == OrElse2(optKey, envKey, "")
      ensures currentModel == OrElse(optModel, DefaultModel)
      ensures history == [] && !hasModel && !hasChatModel
    {
      apiKey := OrElse2(optKey, envKey, "");
      currentModel := OrElse(optModel, DefaultModel);
      history := [];
      hasModel := false;
      hasChatModel := false;
    }

    /** `init`: fails on an empty key or when the SDK cannot be loaded, and
        then changes nothing; otherwise the history is replaced by the
        greeting, whatever it held. */
    method Init(sdkLoads: bool) returns (r: Result<bool, string>)
      modifies this
      ensures apiKey == old(apiKey) && currentModel == old(currentModel)
      ensures r.Success? <==> old(apiKey) != "" && sdkLoads
      ensures old(apiKey) == "" ==> r == Failure(NoApiKey)
      ensures r.Success? ==> r.value && hasModel && hasChatModel && history == Greeting()
      ensures r.Failure? ==> history == old(history) && hasModel == old(hasModel) && hasChatModel == old(hasChatModel)
    {
      if apiKey == "" {
        return Failure(NoApiKey);
      }
      if !sdkLoads {
        return Failure("Error initializing chat");
      }
      hasModel := true;
      history := Greeting();
      hasChatModel := true;
      return Success(true);
    }

    /** `setModel`: the current id is a no-op; another id is recorded and the
        session restarts on the same history. */
    method SetModel(modelId: string, sdkLoads: bool) returns (r: Result<(), string>)
      modifies this
      ensures apiKey == old(apiKey) && history == old(history)
      ensures modelId == old(currentModel) ==>
        r.Success? && currentModel == old(currentModel) && hasModel == old(hasModel) && hasChatModel == old(hasChatModel)
      ensures modelId != old(currentModel) ==> currentModel == modelId
      ensures modelId != old(currentModel) ==> (r.Success? <==> sdkLoads)
      ensures r.Success? && modelId != old(currentModel) ==> hasModel && hasChatModel
      ensures r.Failure? ==> hasModel == old(hasModel) && hasChatModel == old(hasChatModel)
    {
      if currentModel == modelId {
        return Success(());
      }
      currentModel := modelId;
      if !sdkLoads {
        return Failure("Error loading the SDK");
      }
      hasModel := true;
      hasChatModel := true;
      return Success(());
    }

    /** Runs `init` first when there is no session. */
    method EnsureSession(sdkLoads: bool) returns (r: Result<bool, string>)
      modifies this
      ensures apiKey == old(apiKey) && currentModel == old(currentModel)
      ensures old(hasChatModel) ==> r.Success? && history == old(history) && hasModel == old(hasModel) && hasChatModel
      ensures !old(hasChatModel) ==> (r.Success? <==> old(apiKey) != "" && sdkLoads)
      ensures !old(hasChatModel) && r.Success? ==> history == Greeting() && hasChatModel
      ensures r.Failure? ==> history == old(history) && hasModel == old(hasModel) && !hasChatModel
    {
      if hasChatModel {
        return Success(true);
      }
      r := Init(sdkLoads);
    }

    /** `sendMessage`: the user entry, then the model's reply; when the model
        call throws the user entry stays. */
    method SendMessage(message: string, sdkLoads: bool, reply: Option<string>) returns (r: Result<string, string>)
      modifies this
      ensures apiKey == old(apiKey) && currentModel == old(currentModel)
      ensures var start := if old(hasChatModel) then old(history) else Greeting();
        && (r.Success? ==>
              reply.Some? && r.value == reply.value && history == start + [UserEntry(message), ModelEntry(reply.value)])
        && (r.Failure? && hasChatModel ==> reply.None? && history == start + [UserEntry(message)])
        && (r.Failure? && !hasChatModel ==> history == old(history))
      ensures r.Success? <==> (old(hasChatModel) || (old(apiKey) != "" && sdkLoads)) && reply.Some?
    {
      var s := EnsureSession(sdkLoads);
      if s.Failure? {
        return Failure(s.error);
      }
      var start := history;
      history := start + [UserEntry(message)];
      if reply.None? {
        return Failure("Error sending message");
      }
      history := start + [UserEntry(message), ModelEntry(reply.value)];
      return Success(reply.value);
    }

    /** `chatStream` up to handing back the stream: the message is appended
        as a one-part user entry, even when it is empty. */
    method ChatStream(message: string, sdkLoads: bool, streamOpens: bool) returns (r: Result<(), string>)
      modifies this
      ensures apiKey == old(apiKey) && currentModel == old(currentModel)
      ensures var start := if old(hasChatModel) then old(history) else Greeting();
        && (hasChatModel ==> history == start + [UserEntry(message)])
        && (!hasChatModel ==> r.Failure? && history == old(history))
      ensures r.Success? <==> (old(hasChatModel) || (old(apiKey) != "" && sdkLoads)) && streamOpens
    {
      var s := EnsureSession(sdkLoads);
      if s.Failure? {
        return Failure(s.error);
      }
      history := history + [UserEntry(message)];
      if !streamOpens {
        return Failure("Error sending message stream");
      }
      return Success(());
    }

    /** Reading the returned stream to the end: chunks are handed on in
        order and their concatenation is appended as one model entry. */
    method ConsumeStream(chunks: seq<string>) returns (yielded: seq<string>)
      modifies this
      ensures yielded == chunks
      ensures history == old(history) + [ModelEntry(Concat(chunks))]
      ensures apiKey == old(apiKey) && currentModel == old(currentModel)
      ensures hasModel == old(hasModel) && hasChatModel == old(hasChatModel)
    {
      var fullResponse := "";
      yielded := [];
      var i := 0;
      while i < |chunks|
        invariant 0 <= i <= |chunks|
        invariant fullResponse == Concat(chunks[..i])
        invariant yielded == chunks[..i]
      {
        assert chunks[..i + 1][..i] == chunks[..i];
        fullResponse := fullResponse + chunks[i];
        yielded := yielded + [chunks[i]];
        i := i + 1;
      }
      assert chunks[..i] == chunks;
      history := history + [ModelEntry(fullResponse)];
    }

    /** `resetChat`: the history becomes the greeting. */
    method ResetChat() returns (ok: bool)
      modifies this
      ensures ok && history == Greeting()
      ensures apiKey == old(apiKey) && currentModel == old(currentModel) && hasModel == old(hasModel)
      ensures hasChatModel == (old(hasModel) || old(hasChatModel))
    {
      history := Greeting();
      if hasModel {
        hasChatModel := true;
      }
      return true;
    }

    method GetHistory() returns (h: seq<Message>)
      ensures h == history
    {
      return history;
    }

    method Close() returns (ok: bool)
      ensures ok
    {
      return true;
    }
  }
}
