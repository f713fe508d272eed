/** The client state of static/scripts/chat.js: the attached images
    (`selectedImages`, at most `MAX_IMAGES`), the history kept in
    `localStorage["chat_history"]`, the stored API key, and the message
    input with its selection. Reading files as data URLs, the fetch and the
    DOM are parameters or left out. */
module ChatClient {
  import opened Outcomes
  import opened Strings
  import opened ChatTypes

  const MaxImages := 3

  /** A `File`: its name and its MIME type. */
  datatype File = File(name: string, mimeType: string)

  /** A clipboard item: its `type`, what `getAsFile()` gives, and the text
      `getAsString` would hand to its callback. */
  datatype ClipItem = ClipItem(kind: string, file: Option<File>, text: string)

  /** The JSON body `sendMessage` posts, with the two headers it sets. */
  datatype ApiRequest = ApiRequest(apiKey: Option<string>, modelId: string, message: string,
                                   images: seq<string>, history: seq<Message>)

  predicate IsImageFile(f: File) {
    StartsWith(f.mimeType, "image/")
  }

  /** `files.filter(file => file.type.startsWith("image/"))`. */
  function ImageFiles(files: seq<File>): (r: seq<File>)
    ensures |r| <= |files|
    ensures forall f :: f in r <==> f in files && IsImageFile(f)
  {
    if files == [] then []
    else
      var rest := ImageFiles(files[..|files| - 1]);
      assert files == files[..|files| - 1] + [files[|files| - 1]];
      if IsImageFile(files[|files| - 1]) then rest + [files[|files| - 1]] else rest
  }

  /** One file is kept exactly when it is an image. */
  lemma ImageFilesOne(f: File)
    ensures ImageFiles([f]) == if IsImageFile(f) then [f] else []
  {
    assert [f][..0] == [];
  }

  /** The filter keeps order: filtering two lists one after the other gives
      the images of the first followed by those of the second. */
  lemma {:induction false} ImageFilesAppend(a: seq<File>, b: seq<File>)
    ensures ImageFiles(a + b) == ImageFiles(a) + ImageFiles(b)
    decreases |b|
  {
    if b == [] {
      assert a + b == a;
    } else {
      var init, last := b[..|b| - 1], b[|b| - 1];
      assert (a + b)[..|a + b| - 1] == a + init;
      assert (a + b)[|a + b| - 1] == last;
      ImageFilesAppend(a, init);
    }
  }

  /** The images a file selection adds: image files only, in order, no more
      than the free slots (`slice` clamps to the list's length). */
  function NewImages(selectedCount: nat, files: seq<File>): (r: seq<File>)
    ensures selectedCount >= MaxImages ==> r == []
    ensures selectedCount < MaxImages ==> |r| <= MaxImages - selectedCount
    ensures forall f :: f in r ==> f in files && IsImageFile(f)
    ensures selectedCount < MaxImages && |ImageFiles(files)| <= MaxImages - selectedCount ==> r == ImageFiles(files)
    ensures selectedCount < MaxImages ==>
      |r| == (if |ImageFiles(files)| <= MaxImages - selectedCount then |ImageFiles(files)| else MaxImages - selectedCount)
      && r == ImageFiles(files)[..|r|]
  {
    if selectedCount >= MaxImages then []
    else
      var images := ImageFiles(files);
      var slots := MaxImages - selectedCount;
      if |images| <= slots then images else images[..slots]
  }

  /** The paste loop over the clipboard items, from item `i` on: an image
      item while the list is full stops the loop; an image item otherwise
      adds its file, if it has one; a `text/plain` item queues its text. */
  function PasteScan(items: seq<ClipItem>, images: seq<File>, texts: seq<string>): (r: (seq<File>, seq<string>))
    ensures |images| <= MaxImages ==> |r.0| <= MaxImages
    ensures |r.0| >= |images| && r.0[..|images|] == images
    ensures |r.1| >= |texts| && r.1[..|texts|] == texts
    decreases |items|
  {
    if items == [] then (images, texts)
    else
      var item := items[0];
      if Contains(item.kind, "image") then
        if |images| >= MaxImages then (images, texts)
        else
          var images' := if item.file.Some? then images + [item.file.value] else images;
          var r := PasteScan(items[1..], images', texts);
          assert r.0[..|images'|][..|images|] == r.0[..|images|];
          r
      else if item.kind == "text/plain" then
        var r := PasteScan(items[1..], images, texts + [item.text]);
        assert r.1[..|texts| + 1][..|texts|] == r.1[..|texts|];
        r
      else PasteScan(items[1..], images, texts)
  }

  /** The files of the image items that carry one, in clipboard order. */
  function ImageItemFiles(items: seq<ClipItem>): seq<File> {
    if items == [] then []
    else
      (if Contains(items[0].kind, "image") && items[0].file.Some? then [items[0].file.value] else [])
      + ImageItemFiles(items[1..])
  }

  /** Position of the first image item, or the length when there is none. */
  function FirstImageItem(items: seq<ClipItem>): (k: nat)
    ensures k <= |items|
  {
    if items == [] then 0
    else if Contains(items[0].kind, "image") then 0
    else 1 + FirstImageItem(items[1..])
  }

  /** A `text/plain` item is never taken for an image. */
  lemma PlainTextIsNotImage()
    ensures !Contains("text/plain", "image")
  {
    assert forall i: nat :: i + 5 <= 10 ==> "text/plain"[i] != 'i';
    assert forall i: nat :: OccursAt("text/plain", "image", i) ==> "text/plain"[i] == 'i';
  }

  /** While the list cannot fill up, every image item's file is added and
      every `text/plain` item's text is queued, both in clipboard order. */
  lemma {:induction false} PasteFits(items: seq<ClipItem>, images: seq<File>, texts: seq<string>)
    requires |images| + |ImageItemFiles(items)| < MaxImages
    ensures PasteScan(items, images, texts) == (images + ImageItemFiles(items), texts + PlainTexts(items))
    decreases |items|
  {
    if items == [] {
      assert images + [] == images && texts + [] == texts;
    } else {
      var item := items[0];
      var files := if Contains(item.kind, "image") && item.file.Some? then [item.file.value] else [];
      var head := if item.kind == "text/plain" then [item.text] else [];
      if Contains(item.kind, "image") {
        PlainTextIsNotImage();
        assert head == [];
      }
      PasteFits(items[1..], images + files, texts + head);
      assert images + files + ImageItemFiles(items[1..]) == images + (files + ImageItemFiles(items[1..]));
      assert texts + head + PlainTexts(items[1..]) == texts + (head + PlainTexts(items[1..]));
    }
  }

  /** With the list full, the loop stops at the first image item: the images
      are untouched and only the texts before that item are queued. */
  lemma {:induction false} PasteStopsWhenFull(items: seq<ClipItem>, images: seq<File>, texts: seq<string>)
    requires |images| >= MaxImages
    ensures PasteScan(items, images, texts) == (images, texts + PlainTexts(items[..FirstImageItem(items)]))
    decreases |items|
  {
    var k := FirstImageItem(items);
    if items == [] || Contains(items[0].kind, "image") {
      assert items[..k] == [];
      assert texts + [] == texts;
    } else {
      var head := if items[0].kind == "text/plain" then [items[0].text] else [];
      PasteStopsWhenFull(items[1..], images, texts + head);
      assert items[..k][0] == items[0];
      assert items[..k][1..] == items[1..][..k - 1];
      assert texts + head + PlainTexts(items[1..][..k - 1]) == texts + (head + PlainTexts(items[1..][..k - 1]));
    }
  }

  /** With no image item, the images are untouched and every `text/plain`
      item's text is queued, in clipboard order. */
  lemma {:induction false} PasteTextOnly(items: seq<ClipItem>, images: seq<File>, texts: seq<string>)
    requires forall i :: 0 <= i < |items| ==> !Contains(items[i].kind, "image")
    ensures PasteScan(items, images, texts) == (images, texts + PlainTexts(items))
    decreases |items|
  {
    if items == [] {
      assert texts + [] == texts;
    } else {
      var head := if items[0].kind == "text/plain" then [items[0].text] else [];
      PasteTextOnly(items[1..], images, texts + head);
      assert texts + head + PlainTexts(items[1..]) == texts + (head + PlainTexts(items[1..]));
    }
  }

  /** The texts of the `text/plain` items, in order. */
  function PlainTexts(items: seq<ClipItem>): seq<string> {
    if items == [] then []
    else (if items[0].kind == "text/plain" then [items[0].text] else []) + PlainTexts(items[1..])
  }

  /** `Promise.all(selectedImages.map(fileToBase64))`: one data URL per file,
      in order, or a rejection (`None`) as soon as one read fails. `toDataUrl`
      gives `None` for a file whose reader fires its error event. */
  function DataUrls(files: seq<File>, toDataUrl: File -> Option<string>): (urls: Option<seq<string>>)
    ensures urls.Some? <==> forall i :: 0 <= i < |files| ==> toDataUrl(files[i]).Some?
    ensures urls.Some? ==> |urls.value| == |files|
    ensures urls.Some? ==> forall i :: 0 <= i < |files| ==> urls.value[i] == toDataUrl(files[i]).value
  {
    if forall i :: 0 <= i < |files| ==> toDataUrl(files[i]).Some? then
      Some(seq(|files|, i requires 0 <= i < |files| => toDataUrl(files[i]).value))
    else None
  }

  /** `value.substring(0, start) + text + value.substring(end)`. */
  function Splice(value: string, start: nat, end: nat, text: string): string
    requires start <= end <= |value|
  {
    value[..start] + text + value[end..]
  }

  /** Pasting replaces exactly the selection: what was before it and after
      it is kept, and the text sits where the selection began, ending at the
      new caret. */
  lemma SpliceReplacesSelection(value: string, start: nat, end: nat, text: string)
    requires start <= end <= |value|
    ensures var v := Splice(value, start, end, text);
      && |v| == |value| - (end - start) + |text|
      && v[..start] == value[..start]
      && v[start..start + |text|] == text
      && v[start + |text|..] == value[end..]
  {
    var v := Splice(value, start, end, text);
    assert v == value[..start] + text + value[end..];
    assert v[..start] == value[..start];
    assert v[start..start + |text|] == text;
    assert v[start + |text|..] == value[end..];
  }

  /** `selectedImages.filter((_, i) => i !== index)`. */
  function RemoveAt(images: seq<File>, index: nat): (r: seq<File>)
    ensures index >= |images| ==> r == images
    ensures index < |images| ==>
      |r| == |images| - 1
      && (forall j :: 0 <= j < index ==> r[j] == images[j])
      && (forall j :: index <= j < |r| ==> r[j] == images[j + 1])
  {
    if index < |images| then images[..index] + images[index + 1..] else images
  }

  class Client {
    var selectedImages: seq<File>
    /** `localStorage["chat_history"]`; `None` when nothing is stored. */
    var storedHistory: Option<seq<Message>>
    /** `localStorage["gemini_api_key"]`. */
    var apiKey: Option<string>
    /** The message input's value and selection. */
    var input: string
    var selectionStart: nat
    var selectionEnd: nat

    ghost predicate Valid()
      reads this
    {
      |selectedImages| <= MaxImages && selectionStart <= selectionEnd <= |input|
    }

    constructor (storedHistory: Option<seq<Message>>, apiKey: Option<string>)
      ensures Valid() && selectedImages == [] && input == ""
      ensures this.storedHistory == storedHistory && this.apiKey == apiKey
    {
      selectedImages := [];
      this.storedHistory := storedHistory;
      this.apiKey := apiKey;
      input := "";
      selectionStart := 0;
      selectionEnd := 0;
    }

    /** `loadChatHistory`: the stored list, or `[]` when nothing is stored. */
    function LoadChatHistory(): (h: seq<Message>)
      reads this
      ensures storedHistory.None? ==> h == []
      ensures storedHistory.Some? ==> h == storedHistory.value
    {
      storedHistory.GetOr([])
    }

    /** `saveChatHistory`: appends one text entry of the user's or the
        model's role and keeps the earlier entries as they were. */
    method SaveChatHistory(message: string, isUser: bool)
      modifies this
      ensures storedHistory == Some(old(LoadChatHistory()) + [TextEntry(if isUser then UserRole else ModelRole, message)])
      ensures selectedImages == old(selectedImages) && apiKey == old(apiKey)
      ensures input == old(input) && selectionStart == old(selectionStart) && selectionEnd == old(selectionEnd)
    {
      storedHistory := Some(LoadChatHistory() + [TextEntry(if isUser then UserRole else ModelRole, message)]);
    }

    /** The file input's `change` handler: image files are appended, in
        order, up to the free slots; with no free slot nothing changes. */
    method OnFilesSelected(files: seq<File>)
      requires Valid()
      modifies this
      ensures Valid()
      ensures selectedImages == old(selectedImages) + NewImages(|old(selectedImages)|, files)
      ensures storedHistory == old(storedHistory) && apiKey == old(apiKey) && input == old(input)
    {
      var remainingSlots := MaxImages - |selectedImages|;
      if remainingSlots > 0 {
        selectedImages := selectedImages + NewImages(|selectedImages|, files);
      }
    }

    /** The `paste` handler's loop: image items are added while there is
        room, the first image item met with the list full ends the loop, and
        the texts of `text/plain` items are returned, in order, for their
        `getAsString` callbacks. */
    method OnPaste(items: seq<ClipItem>) returns (texts: seq<string>)
      requires Valid()
      modifies this
      ensures Valid()
      ensures (selectedImages, texts) == PasteScan(items, old(selectedImages), [])
      ensures storedHistory == old(storedHistory) && apiKey == old(apiKey) && input == old(input)
    {
      texts := [];
      var i := 0;
      while i < |items|
        invariant 0 <= i <= |items|
        invariant |selectedImages| <= MaxImages
        invariant PasteScan(items[i..], selectedImages, texts) == PasteScan(items, old(selectedImages), [])
        invariant storedHistory == old(storedHistory) && apiKey == old(apiKey) && input == old(input)
        invariant selectionStart == old(selectionStart) && selectionEnd == old(selectionEnd)
      {
        var item := items[i];
        assert items[i..][1..] == items[i + 1..];
        if Contains(item.kind, "image") {
          if |selectedImages| >= MaxImages {
            break;
          }
          if item.file.Some? {
            selectedImages := selectedImages + [item.file.value];
          }
        } else if item.kind == "text/plain" {
          texts := texts + [item.text];
        }
        i := i + 1;
      }
      assert i == |items| ==> items[i..] == [];
    }

    /** A queued `getAsString` callback: the text replaces the selection and
        the caret is put right after it. */
    method PasteText(text: string)
      requires Valid()
      modifies this
      ensures Valid()
      ensures input == Splice(old(input), old(selectionStart), old(selectionEnd), text)
      ensures selectionStart == selectionEnd == old(selectionStart) + |text|
      ensures selectedImages == old(selectedImages) && storedHistory == old(storedHistory) && apiKey == old(apiKey)
    {
      SpliceReplacesSelection(input, selectionStart, selectionEnd, text);
      input := input[..selectionStart] + text + input[selectionEnd..];
      selectionStart := selectionStart + |text|;
      selectionEnd := selectionStart;
    }

    /** A preview's remove button: drops the image at that index. */
    method RemoveImage(index: nat)
      requires Valid()
      modifies this
      ensures Valid()
      ensures selectedImages == RemoveAt(old(selectedImages), index)
      ensures storedHistory == old(storedHistory) && apiKey == old(apiKey) && input == old(input)
    {
      selectedImages := RemoveAt(selectedImages, index);
    }

    /** `sendMessage`. With an empty message and no images nothing happens.
        Otherwise the message is saved to the history, the images are
        cleared, and the request carries the images as data URLs and the
        history as just saved. A non-ok status ends the call, and a 401 also
        forgets the stored key; an ok reply is read to the end, its text
        accumulated and saved as one model entry. */
    method SendMessage(message: string, toDataUrl: File -> Option<string>, modelId: string, status: int, chunks: seq<string>)
      returns (request: Option<ApiRequest>, reply: Option<string>)
      requires Valid()
      modifies this
      ensures Valid()
      ensures message == "" && old(selectedImages) == [] ==>
        request.None? && reply.None? && selectedImages == old(selectedImages)
        && storedHistory == old(storedHistory) && apiKey == old(apiKey)
      ensures request.None? <==>
        (message == "" && old(selectedImages) == []) || DataUrls(old(selectedImages), toDataUrl).None?
      ensures request.None? ==>
        reply.None? && selectedImages == old(selectedImages)
        && storedHistory == old(storedHistory) && apiKey == old(apiKey)
      ensures request.Some? ==>
        selectedImages == []
        && request.value == ApiRequest(old(apiKey), modelId, message,
             DataUrls(old(selectedImages), toDataUrl).value,
             old(LoadChatHistory()) + [UserEntry(message)])
      ensures request.Some? && !(200 <= status < 300) ==>
        reply.None? && storedHistory == Some(old(LoadChatHistory()) + [UserEntry(message)])
        && apiKey == (if status == 401 then None else old(apiKey))
      ensures request.Some? && 200 <= status < 300 ==>
        reply == Some(Concat(chunks)) && apiKey == old(apiKey)
        && storedHistory == Some(old(LoadChatHistory()) + [UserEntry(message), ModelEntry(Concat(chunks))])
      ensures input == old(input) && selectionStart == old(selectionStart) && selectionEnd == old(selectionEnd)
    {
      if message == "" && |selectedImages| == 0 {
        return None, None;
      }
      var urls := DataUrls(selectedImages, toDataUrl);
      if urls.None? {
        return None, None;
      }
      var imageData := urls.value;
      var before := LoadChatHistory();
      SaveChatHistory(message, true);
      selectedImages := [];
      request := Some(ApiRequest(apiKey, modelId, message, imageData, LoadChatHistory()));
      if !(200 <= status < 300) {
        if status == 401 {
          apiKey := None;
        }
        return request, None;
      }
      var accumulatedText := "";
      var i := 0;
      while i < |chunks|
        invariant 0 <= i <= |chunks|
        invariant accumulatedText == Concat(chunks[..i])
      {
        assert chunks[..i + 1][..i] == chunks[..i];
        accumulatedText := accumulatedText + chunks[i];
        i := i + 1;
      }
      assert chunks[..i] == chunks;
      SaveChatHistory(accumulatedText, false);
      assert before + [UserEntry(message)] + [ModelEntry(accumulatedText)] == before + [UserEntry(message), ModelEntry(accumulatedText)];
      reply := Some(accumulatedText);
    }

    /** The send button: the trimmed input is handed to `sendMessage` when it
        is not empty, and the input is cleared whether or not the send gets as
        far as the request. */
    method SendButtonClick(toDataUrl: File -> Option<string>, modelId: string, status: int, chunks: seq<string>)
      returns (request: Option<ApiRequest>)
      requires Valid()
      modifies this
      ensures Valid()
      ensures Trim(old(input)) == "" ==> request.None? && unchanged(this)
      ensures Trim(old(input)) != "" ==> input == "" && selectionStart == 0 && selectionEnd == 0
      ensures Trim(old(input)) != "" ==> (request.Some? <==> DataUrls(old(selectedImages), toDataUrl).Some?)
      ensures Trim(old(input)) != "" && request.None? ==>
        selectedImages == old(selectedImages) && storedHistory == old(storedHistory) && apiKey == old(apiKey)
      ensures Trim(old(input)) != "" && request.Some? ==>
        var message := Trim(old(input));
        && selectedImages == []
        && request.value == ApiRequest(old(apiKey), modelId, message,
             DataUrls(old(selectedImages), toDataUrl).value,
             old(LoadChatHistory()) + [UserEntry(message)])
        && apiKey == (if status == 401 then None else old(apiKey))
        && storedHistory == Some(old(LoadChatHistory()) + [UserEntry(message)]
             + (if 200 <= status < 300 then [ModelEntry(Concat(chunks))] else []))
    {
      var message := Trim(input);
      if message == "" {
        return None;
      }
      var reply;
      ghost var start := LoadChatHistory();
      request, reply := SendMessage(message, toDataUrl, modelId, status, chunks);
      assert start + [UserEntry(message)] + [] == start + [UserEntry(message)];
      assert start + [UserEntry(message)] + [ModelEntry(Concat(chunks))] == start + [UserEntry(message), ModelEntry(Concat(chunks))];
      input := "";
      selectionStart := 0;
      selectionEnd := 0;
    }

    /** `resetChat`: when the server answers the reset with an ok status the
        stored history is removed, so the next request starts from no history;
        any other answer leaves it. */
    method ResetChat(status: int)
      modifies this
      ensures 200 <= status < 300 ==> storedHistory.None? && LoadChatHistory() == []
      ensures !(200 <= status < 300) ==> storedHistory == old(storedHistory)
      ensures selectedImages == old(selectedImages) && apiKey == old(apiKey)
      ensures input == old(input) && selectionStart == old(selectionStart) && selectionEnd == old(selectionEnd)
    {
      if 200 <= status < 300 {
        storedHistory := None;
      }
    }
  }
}
