# Sapling chat: a Dafny model of the chat pipeline

Sapling chat is a browser chat client in front of a small Deno server that
forwards conversations to a Gemini model. This project models its core in
Dafny:

- **The streaming render pipeline** (`scripts/markdownRenderer.js`,
  `scripts/shikiStream.js`). It has two stages:
  - a segmenter that buffers the model's text and re-splits it into lines
    on every chunk, meant to keep fenced code blocks together;
  - a render transformer that keeps the highlight tokens received so far
    and applies "recall" items, which retract the last `n` tokens.

  The pipeline also has a run-once highlighter and renderer set-up.
- **The server** (`index.ts`, `api/sapling-chat.ts`, and the older
  `sapling-chat.ts`). It has:
  - the per-API-key cache of chat sessions;
  - the key check and body check of the chat endpoint;
  - the conversation history each session keeps.
- **The browser state** (`static/db.js`, `static/scripts/modelSelector.js`,
  `static/scripts/chat.js`). It has:
  - the IndexedDB store of saved chats;
  - the stored model choice and the thinking toggle;
  - the attached images, paste handling, and the send path with its
    history in `localStorage`.

## How the model is built

Code that computes a value becomes a function or a datatype. Examples are
the option defaults, the `parts` list, a merge of chat updates, and the scan
of one line.

Code that updates state becomes a class whose methods carry `modifies`
clauses and whose `ensures` relate the new state to the old one. These are:

- `SaplingChat`, in both versions;
- the server's instance map;
- the chat store, the model selector and the client;
- the two stream transformers, whose closure variables become fields.

Each loop in the source is a `while` loop with invariants, proved against a
function:

- `transform` of the segmenter loops over the lines; it is proved against
  `Step`.
- The recall re-render loops over the held tokens; it is proved against
  `Spans`.
- The stream readers accumulate chunks; they are proved against `Concat`.
- `updateSelectedModel` loops over the buttons; it is proved against
  `Marks` and `LastMatchLabel`.
- The paste handler loops over the clipboard items; it is proved against
  `PasteScan`.

JavaScript semantics are written out where the code depends on them:

- `||` treats both `undefined` and `""` as false.
- `split` gives one more piece than there are separators.
- `trim` uses ECMAScript's whitespace set.
- Destructuring defaults apply only to `undefined`.
- Setting `length` to a negative number throws.

The engines are parameters:

- `marked` is a function that gives HTML or throws.
- Shiki's `codeToHtml` is a function that gives HTML or throws.
- The Gemini SDK is reduced to two facts: whether its import succeeds, and
  what its stream yields.
- The browser's `FileReader` is a function from a file to its data URL, or
  to nothing when the reader fires its error event.

## Model

| member | source | states |
|---|---|---|
| Outcomes.OrElse | api/sapling-chat.ts:25 | the JavaScript or-default on an optional string: the value when it is a non-empty string, the default otherwise |
| Outcomes.OrElse2 | api/sapling-chat.ts:24 | the chained or-default of the option and the environment: the option when it is non-empty, else the environment's value when that is non-empty, else the default; the result is empty only when the default is |
| Strings.Split | scripts/markdownRenderer.js:101 | `split` on one character gives one piece more than there are separators, and no piece holds the separator |
| Strings.JoinSplit | scripts/markdownRenderer.js:101 | joining the pieces of `split` with the separator gives the string back |
| Strings.SplitJoin | api/sapling-chat.ts:139 | splitting pieces that were joined, none holding the separator, gives the pieces back |
| Strings.FirstIndex | api/sapling-chat.ts:139 | the index of the first separator: it holds the separator and nothing before it does |
| Strings.TrimIsTrimmed | scripts/markdownRenderer.js:112 | `trim` gives a piece of its input that neither starts nor ends with whitespace, and is empty exactly when the input is all whitespace |
| Strings.TrimStartFacts | static/scripts/chat.js:269 | the leading part that `trim` drops is all whitespace, and what remains does not start with whitespace |
| Strings.TrimEndFacts | static/scripts/chat.js:269 | the trailing part that `trim` drops is all whitespace, and what remains does not end with whitespace |
| Strings.ConcatAppend | api/sapling-chat.ts:166-170 | the accumulated text of two runs of chunks is the text of the first followed by that of the second |
| Strings.ConcatLength | api/sapling-chat.ts:166-170 | the accumulated text is as long as all chunks together |
| ShikiStream.Shiki.InitializeHighlighter | scripts/shikiStream.js:11-25 | a successful creation replaces the highlighter with one holding the given languages and themes, or the defaults; a rejected one changes nothing |
| ShikiStream.CreateCodeHighlightStream | scripts/shikiStream.js:32-46 | fails with the "not initialized" error exactly when no highlighter exists; otherwise the language defaults to "text", the theme to vitesse-dark, and recalls are on unless explicitly off |
| ShikiStream.Spans | scripts/shikiStream.js:72-75 | one span per held token, in order |
| ShikiStream.ReplayWithoutRecalls | scripts/shikiStream.js:76-80 | with no recall, the held list is every token received, in order |
| ShikiStream.ReplayOnlyReceived | scripts/shikiStream.js:66-80 | after any sequence of tokens and recalls, every held token was received, and no more are held than were received |
| ShikiStream.ReplayPrefix | scripts/shikiStream.js:67-69 | a token history whose recalls all succeed has only successful recalls in each of its prefixes |
| ShikiStream.Shiki.CreateCodeRenderStream | scripts/shikiStream.js:55-65 | throws the "not initialized" error exactly when no highlighter exists; otherwise the token stage gets the defaulted options and a fresh render transformer starts with no tokens, having enqueued the opening markup |
| ShikiStream.CodeRenderStream.Start | scripts/shikiStream.js:62-65 | enqueues the opening `<pre><code>` and starts from no tokens |
| ShikiStream.CodeRenderStream.Transform | scripts/shikiStream.js:66-81 | a token is pushed and emitted as its span; a recall of `n` succeeds exactly when `n` tokens are held, drops the last `n` and re-emits the rest after a close/reopen marker; the held list is always the replay of the accepted items |
| ShikiStream.CodeRenderStream.Flush | scripts/shikiStream.js:82-84 | enqueues the closing tags |
| ShikiStream.Shiki.HighlightCodeBlock | scripts/shikiStream.js:95-109 | creates the highlighter only when there is none; succeeds exactly when a highlighter existed or its creation succeeds, answering the highlighter's HTML, or the plain fallback when highlighting throws |
| ShikiStream.FallbackKeepsCode | scripts/shikiStream.js:107 | the fallback markup holds the code verbatim between a prefix fixed by the language and the closing tags |
| MarkdownRenderer.ScanLineFlag | scripts/markdownRenderer.js:108-121 | one line flips the block flag exactly when it starts with three backticks |
| MarkdownRenderer.ScanFenceParity | scripts/markdownRenderer.js:104-136 | after a scan the block flag is the starting flag flipped once per fence line |
| MarkdownRenderer.ScanProse | scripts/markdownRenderer.js:125-128 | outside a block, lines without fences go to the output, each followed by a newline, and nothing else changes |
| MarkdownRenderer.ScanCode | scripts/markdownRenderer.js:122-124 | inside a block, lines without fences go to the block content and the output does not grow |
| MarkdownRenderer.ScanOutputGrows | scripts/markdownRenderer.js:104-128 | the scan only appends to its output |
| MarkdownRenderer.StepBufferAndOutput | scripts/markdownRenderer.js:130-146 | the buffer is emptied when a call ends outside a block and otherwise keeps everything since it was last emptied; output is enqueued only outside a block and is never empty |
| MarkdownRenderer.StepFenceParity | scripts/markdownRenderer.js:93-141 | after a call the block flag is the old flag flipped once per fence line of the re-split buffer |
| MarkdownRenderer.StepProse | scripts/markdownRenderer.js:93-147 | outside a block, text with no fence is enqueued at once, line by line, including a trailing partial line, and the buffer is emptied |
| MarkdownRenderer.StepCode | scripts/markdownRenderer.js:93-147 | inside a block, text with no fence joins the block content, nothing is enqueued, and the buffer is kept whole |
| MarkdownRenderer.FenceAcrossChunks | scripts/markdownRenderer.js:130-141 | as written: a block opened in one chunk and closed in the next is enqueued by neither of the two calls, and the prose before it is swallowed into the block |
| MarkdownRenderer.DeferringStepTransparent | scripts/markdownRenderer.js:130-135 | corrected step: a call that ends inside a block changes only the buffer, so the next call acts as one call on both chunks |
| MarkdownRenderer.DeferringFenceAcrossChunks | scripts/markdownRenderer.js:130-135 | corrected step: the block split across two chunks is enqueued whole, after the prose before it, by the second call |
| MarkdownRenderer.ToHtml | scripts/markdownRenderer.js:154-162 | a chunk is converted by `marked`, or passed on unchanged when `marked` throws |
| MarkdownRenderer.Renderer.RenderMarkdown | scripts/markdownRenderer.js:13-70 | an empty input answers "" and sets nothing up; the first non-empty call creates the highlighter with the given or default languages and theme, and a rejected creation rejects the call and leaves the flag down; the output is `marked`'s HTML, or the input when it throws |
| MarkdownRenderer.Renderer.CreateMarkdownRenderStream | scripts/markdownRenderer.js:79-89 | the initialising call renders "" and so sets nothing up; the new stream starts outside any block with an empty buffer |
| MarkdownRenderer.MarkdownRenderStream.Transform | scripts/markdownRenderer.js:93-147 | the new closure state and what is enqueued are exactly one `Step` of the old state on the chunk |
| MarkdownRenderer.MarkdownRenderStream.ScanLineInPlace | scripts/markdownRenderer.js:105-128 | the loop body updates the block state and the output as one `ScanLine` does |
| MarkdownRenderer.MarkdownRenderStream.TransformToHtml | scripts/markdownRenderer.js:151-165 | both stages together: the chunk the segmenter enqueues, if any, converted to HTML |
| ChatTypes.Greeting | api/sapling-chat.ts:45-54 | the default history is the user's "Hello" and the model's greeting, a well-paired history |
| ChatTypes.ExchangeKeepsAlternating | api/sapling-chat.ts:97-110 | a user entry followed by a model entry keeps the history in user/model pairs |
| ChatTypes.DanglingUserEntry | api/sapling-chat.ts:113-116 | a user entry left without a reply, when the model call throws, breaks the pairing |
| ChatTypes.DataUrlPayload | api/sapling-chat.ts:139 | the field after the first comma: undefined exactly when there is no comma, and never holding a comma |
| ChatTypes.PayloadOfDataUrl | api/sapling-chat.ts:139 | a data URL `prefix,payload` gives back its payload |
| SaplingChatApi.BuildParts | api/sapling-chat.ts:132-149 | one inline JPEG part per image, in order, carrying the data URL's payload, then the message as a text part when it is not blank |
| SaplingChatApi.TextPartIffNotBlank | api/sapling-chat.ts:147-149 | the untrimmed message is among the parts exactly when it has a non-whitespace character |
| SaplingChatApi.SaplingChat.constructor | api/sapling-chat.ts:23-29 | the key is the option, else the environment key, else ""; the model is the option or the default |
| SaplingChatApi.SaplingChat.Init | api/sapling-chat.ts:34-65 | fails on an empty key or a failed SDK import, then changes nothing; otherwise the history is the given one or the greeting, and the session exists |
| SaplingChatApi.SaplingChat.SetModel | api/sapling-chat.ts:71-83 | the current id changes nothing; another id is recorded before the SDK import, and the session restarts on the same history when the import succeeds |
| SaplingChatApi.SaplingChat.EnsureSession | api/sapling-chat.ts:91-93 | an existing session is kept; otherwise `init` runs with the greeting |
| SaplingChatApi.SaplingChat.SendMessage | api/sapling-chat.ts:90-117 | on success, the user entry and the reply are appended to the session's history and the pairing is kept; when the model call throws, only the user entry stays |
| SaplingChatApi.SaplingChat.ChatStream | api/sapling-chat.ts:125-158 | the user entry with the built parts is appended before the stream is requested; the request succeeds exactly when a session exists or can be made and the stream opens; afterwards a session exists exactly when one existed or could be made |
| SaplingChatApi.SaplingChat.ConsumeStream | api/sapling-chat.ts:161-180 | every chunk is yielded in order, and at the end their concatenation is appended as one model entry |
| SaplingChatApi.StreamExchangeKeepsPairs | api/sapling-chat.ts:152-176 | a streamed exchange keeps the history in user/model pairs |
| SaplingChatApi.SaplingChat.ResetChat | api/sapling-chat.ts:190-209 | the history becomes the greeting whatever it was, and a session exists again when a model does |
| SaplingChatApi.SaplingChat.GetHistory | api/sapling-chat.ts:214-216 | answers the history |
| SaplingChatApi.SaplingChat.Close | api/sapling-chat.ts:221-225 | answers true |
| LegacySaplingChat.SaplingChat.constructor | sapling-chat.ts:8-15 | the key and model defaults, as in the newer class |
| LegacySaplingChat.SaplingChat.Init | sapling-chat.ts:20-51 | fails on an empty key or a failed SDK import; otherwise the history is replaced by the greeting, whatever it held |
| LegacySaplingChat.SaplingChat.SetModel | sapling-chat.ts:57-69 | the current id changes nothing; another id is recorded, and the session restarts on the same history when the import succeeds |
| LegacySaplingChat.SaplingChat.EnsureSession | sapling-chat.ts:77-79 | an existing session is kept; otherwise `init` runs |
| LegacySaplingChat.SaplingChat.SendMessage | sapling-chat.ts:76-103 | the user entry and the reply are appended; when the model call throws the user entry stays |
| LegacySaplingChat.SaplingChat.ChatStream | sapling-chat.ts:110-123 | the message is appended as a one-part user entry, even when empty, before the stream is requested |
| LegacySaplingChat.SaplingChat.ConsumeStream | sapling-chat.ts:126-145 | chunks are yielded in order and their concatenation is appended as one model entry |
| LegacySaplingChat.SaplingChat.ResetChat | sapling-chat.ts:155-174 | the history becomes the greeting |
| LegacySaplingChat.SaplingChat.GetHistory | sapling-chat.ts:179-181 | answers the history |
| LegacySaplingChat.SaplingChat.Close | sapling-chat.ts:186-190 | answers true |
| Server.AcceptsBodyCases | index.ts:82-94 | a body is refused exactly when it is not an object, is null, or has neither a string message nor an images array |
| Server.MessageArgument | index.ts:96 | a missing message defaults to "", null is passed on, a string is passed as is, and a value of another type makes `trim` throw |
| Server.ImagesArgument | index.ts:96-104 | the images array is passed on exactly when there is one |
| Server.ModelHeader | index.ts:48-51 | an empty model header counts as missing |
| Server.ChatServer.constructor | index.ts:14 | the instance map starts empty |
| Server.ChatServer.GetSaplingChatInstance | index.ts:17-38 | an empty key gives no instance; a cached instance is returned untouched when no model is named; when a model is named it becomes the current model, the history is kept, and the call throws exactly when that model differs and the SDK does not load; a key not cached gets a new instance with the greeting exactly when its `init` succeeds, and only then is it cached; no other instance is touched; every cached instance stays under its own key with a session |
| Server.ChatServer.RequireApiKey | index.ts:41-57 | succeeds exactly when the key check passes (`KeyPasses`); a missing or empty key is a 401 "API key is required"; a new key whose `init` fails is a 401 "Invalid API key"; a cached key fails only by `setModel` throwing and keeps its history; on success the instance is cached under that key; no other instance is touched |
| Server.ChatServer.HandleChatMessage | index.ts:62-104 | streams a reply exactly when the key check passes, the body is accepted, a given history can re-initialise the session, the message is a string or missing or null, and the stream opens; after a passing key check a refused body is a 400 with the fixed message; on a reply the chunks are sent in order and the history is the given one (else the cached one, else the greeting) followed by the user entry and the model's whole reply; no other instance is touched |
| Server.ChatServer.HandleReset | index.ts:131-137 | answers ok exactly when the key check passes, and then the session's history is the greeting; no other instance is touched |
| Server.ClientMessageRecordedTwice | index.ts:96-104 | the browser sends a history that already ends with the new message, and the handler appends it again, so a text-only request leaves the user's entry twice in a row |
| ChatDB.MergeOverrides | static/db.js:89-96 | fields the update carries win (the title and the id included), the rest keep the stored values, and the timestamp is the current time |
| ChatDB.MergeIdempotent | static/db.js:89-96 | applying the same update twice at the same time is the same as once |
| ChatDB.EmptyUpdateTouchesOnly | static/db.js:89-96 | an update with no fields only moves the timestamp |
| ChatDB.UpdateAbsentStartsFromDefault | static/db.js:81-96 | updating a chat that is not stored starts from the default record |
| ChatDB.Reverse | static/db.js:114 | the list reversed, element by element |
| ChatDB.NewestFirst | static/db.js:111-114 | the reversed index lists every stored chat exactly once, newest first |
| ChatDB.ChatStore.Init | static/db.js:10-36 | opens the database once; an open database stays open |
| ChatDB.ChatStore.CreateChat | static/db.js:38-56 | adds a record with the new id, no messages, the current time and "New Chat"; an id already in use or a failed open changes nothing |
| ChatDB.ChatStore.GetChat | static/db.js:58-68 | the record stored under the id, or undefined when there is none |
| ChatDB.ChatStore.UpdateChat | static/db.js:70-104 | the stored record, or a default one, merged with the update, is put under the id it ends up with, and no other record changes |
| ChatDB.UpdateThenGet | static/db.js:89-99 | an update that does not rename the chat is read back under the same id, and every other record is as it was |
| ChatDB.ChatStore.GetAllChats | static/db.js:106-116 | the timestamp index reversed: every chat once, newest first |
| ChatDB.ChatStore.DeleteChat | static/db.js:118-128 | removes the record with that id, if any, and no other |
| ModelSelector.LastMatchLabel | static/scripts/modelSelector.js:85-95 | the label of the last button with that id, or the old name when no button has it |
| ModelSelector.Marks | static/scripts/modelSelector.js:86-90 | a button is marked exactly when its id is the selected one |
| ModelSelector.Selector.GetCurrentModel | static/scripts/modelSelector.js:77-79 | the stored model when it is non-empty, else the default; never empty |
| ModelSelector.Selector.constructor | static/scripts/modelSelector.js:1-25 | marks the buttons for the current model and shows its label |
| ModelSelector.Selector.SetCurrentModel | static/scripts/modelSelector.js:81-83 | stores the choice, and the current model becomes that choice |
| ModelSelector.Selector.UpdateSelectedModel | static/scripts/modelSelector.js:85-95 | marks exactly the buttons with that id, and the name becomes the label of the last of them |
| ModelSelector.Selector.ToggleThink | static/scripts/modelSelector.js:28-44 | switching on saves the current model and selects the thinking model; switching off restores the saved model, or the default one |
| ModelSelector.Selector.ToggleDropdown | static/scripts/modelSelector.js:47-49 | shows or hides the dropdown and changes nothing else |
| ModelSelector.Selector.SelectFromDropdown | static/scripts/modelSelector.js:66-74 | a click on an entry marks, stores and closes; a click elsewhere changes nothing |
| ModelSelector.Selector.ThinkOnThenOff | static/scripts/modelSelector.js:28-44 | switching thinking on and off again gives back the model chosen before |
| ChatClient.ImageFiles | static/scripts/chat.js:328-329 | exactly the image files, in order |
| ChatClient.ImageFilesOne | static/scripts/chat.js:328-329 | a single file is kept exactly when it is an image |
| ChatClient.ImageFilesAppend | static/scripts/chat.js:328-329 | filtering a concatenation is the concatenation of the filtered parts, so the kept files keep their relative order |
| ChatClient.NewImages | static/scripts/chat.js:324-334 | the longest prefix of the image files, in order, that fits in the free slots; none when the list is full |
| ChatClient.PasteScan | static/scripts/chat.js:355-382 | the paste loop keeps the images and texts it starts with and never exceeds three images |
| ChatClient.PasteTextOnly | static/scripts/chat.js:355-382 | with no image item, the images are untouched and every plain-text item's text is collected, in order |
| ChatClient.PasteFits | static/scripts/chat.js:355-382 | while the list cannot fill up, the file of every image item that has one is added and every plain-text item's text is collected, both in clipboard order |
| ChatClient.PasteStopsWhenFull | static/scripts/chat.js:358-362 | with the list full, the loop stops at the first image item: the images are untouched and only the texts before that item are collected |
| ChatClient.DataUrls | static/scripts/chat.js:174 | one data URL per selected file, in order, exactly when every read succeeds; otherwise the whole conversion rejects |
| ChatClient.SpliceReplacesSelection | static/scripts/chat.js:370-380 | pasting replaces exactly the selection: what was before and after it is kept |
| ChatClient.RemoveAt | static/scripts/chat.js:303 | drops exactly the image at that index, keeping the others in order |
| ChatClient.Client.constructor | static/scripts/chat.js:4 | starts with no selected images |
| ChatClient.Client.LoadChatHistory | static/scripts/chat.js:28-30 | the stored list, or an empty one |
| ChatClient.Client.SaveChatHistory | static/scripts/chat.js:18-25 | appends one text entry of the user's or the model's role |
| ChatClient.Client.OnFilesSelected | static/scripts/chat.js:323-338 | appends the new images, never going past three |
| ChatClient.Client.OnPaste | static/scripts/chat.js:348-383 | the handler's loop leaves the images and texts `PasteScan` describes |
| ChatClient.Client.PasteText | static/scripts/chat.js:370-380 | the text replaces the selection and the caret is put after it |
| ChatClient.Client.RemoveImage | static/scripts/chat.js:302-305 | the image at that index is dropped |
| ChatClient.Client.SendMessage | static/scripts/chat.js:170-236 | an empty message with no images does nothing, and so does a failed image read; otherwise the message is saved, the images are cleared, and the request carries them as data URLs with the saved history; a 401 forgets the key; an ok reply is accumulated and saved as one model entry |
| ChatClient.Client.SendButtonClick | static/scripts/chat.js:268-282 | a blank input sends nothing and changes nothing; otherwise the input is cleared, and `sendMessage` runs on the trimmed input: unless an image read fails, the request carries the key, model, data URLs and saved history, the images are cleared, a 401 forgets the key, and the stored history gains the user entry and, on an ok answer, the reply |
| ChatClient.Client.ResetChat | static/scripts/chat.js:239-265 | an ok answer to the reset removes the stored history; any other answer leaves it |

## Left out

- Streams, promises and scheduling:
  - Each stream is a sequence of chunks that is read to the end.
  - A stream that throws midway is not modelled.
  - Interleavings of concurrent requests are not modelled.
- The engines:
  - `marked`, Shiki's tokenizer and `codeToHtml`, and the Gemini SDK are
    parameters.
  - Which tokens and recalls the highlighter emits is not modelled.
  - The `marked.use` configuration, including the copy-button container,
    is not modelled.
- The token stream made in `createCodeRenderStream` is never connected to
  the stream it returns. `CreateCodeRenderStream` gives the token stage's
  configuration and the started transformer, which is then fed with items.
- `startChat` is taken not to throw. Only the SDK import can fail.
- DOM and UI are not modelled. This covers:
  - `addMessage` and previews;
  - the typing indicator and input sizing;
  - CSS class toggles, the outside-click listener of the dropdown;
  - the selector's early return when its elements are missing.
- The API-key form, the history display on load, and the unload handler
  are not modelled.
- A rejected `fetch` is treated like a non-ok, non-401 status.
- HTTP framing, `TextEncoder`/`TextDecoder`, the `/api/transcribe` route and
  the page routes are not modelled.
- IndexedDB:
  - The persistence request and the upgrade handler are not modelled.
  - No request error is modelled other than a failed open and a clashing
    `add`.
  - The order of the timestamp index is an input to `GetAllChats`.
- Server.ImagesArgument: an `images` field that is not an array counts as
  no images. For a non-empty string the source would throw in `map`. An
  array whose elements are not strings cannot be represented; the source
  would throw in `img.split`.
- Server.ChatServer.HandleChatMessage: a `history` field that is truthy but
  not an array is taken as absent.
- Server.ChatServer.GetSaplingChatInstance: a `setModel` that throws is a
  `Failure`, which the handlers turn into a server error.
- Strings are sequences of Unicode scalar values, while JavaScript counts
  UTF-16 code units. The selection offsets of `PasteText` differ from the
  browser's for text outside the Basic Multilingual Plane.
- ChatDB.Updates: an update holds only `id`, `messages` and `title`. The
  spread in `updateChat` also copies any other field of the update, and an
  explicit `title: undefined` would override the stored title.
- ShikiStream.StreamItem: a recall count is a natural number. The source
  does not reject a negative count, for which setting the length would grow
  the list with empty slots.
- The remaining files are not part of this model. They are the older
  `static/chat.js`, `copyCode.js`, the voice recorder, the chat list,
  templates, layouts and the build configuration.

## Findings

| source | as written | input that shows it | evidently intended | confidence | as-written member | corrected member |
|---|---|---|---|---|---|---|
| scripts/markdownRenderer.js:130-141 | When a chunk ends inside a code block, the whole buffer is kept for the next chunk, but so are the block flag, language and content the scan reached. The next call therefore re-scans the kept text with the block already open. | A first chunk holding a prose line, an opening fence for js and part of a code line, then a second chunk finishing the code line, closing the fence and adding a prose line (the constants FirstChunk and SecondChunk). The prose line goes into the block, the opening fence closes it, the real closing fence opens a new block, and nothing is ever enqueued. | Re-scan the kept text from the state it started in, as the comment on the kept buffer says. Then the block is enqueued whole once its closing fence arrives. | high (not executed) | MarkdownRenderer.FenceAcrossChunks | MarkdownRenderer.DeferringStepTransparent |

`MarkdownRenderStream.Transform` keeps the code's behaviour. The corrected
`DeferringStep` is given next to it, with `DeferringFenceAcrossChunks`
showing the same two chunks handled correctly.
