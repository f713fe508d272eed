/** The markdown side of the pipeline (scripts/markdownRenderer.js): the
    run-once renderer set-up, the one-shot renderer with its plain-text
    fallback, and the two stages of the render stream. The first stage is the
    segmenter: a step over (buffer, inCodeBlock, codeBlockLang,
    codeBlockContent) that re-splits the whole buffer into lines on every
    chunk. The second stage converts each enqueued chunk to HTML.

    `marked` is a function parameter that either gives HTML or throws (`None`). */
module MarkdownRenderer {
  import opened Outcomes
  import opened Strings
  import ShikiStream

  const Fence := "```"

  /** Languages `renderMarkdown` loads when the caller names none. */
  const RendererLangs: seq<string> :=
    ["javascript", "typescript", "html", "css", "json", "markdown", "python",
     "go", "dart", "yaml", "sql", "bash"]

  /** A line that opens or closes a block: it starts with three backticks. */
  predicate IsFence(line: string) {
    StartsWith(line, Fence)
  }

  /** The variables the scanning loop updates: the block state and `result`. */
  datatype Scan = Scan(inCodeBlock: bool, lang: string, content: string, result: string)

  /** The markdown a closed block is re-emitted as. */
  function FencedBlock(lang: string, content: string): string {
    "\n```" + lang + "\n" + content + "\n```\n"
  }

  /** One iteration of the scanning loop on one line. */
  function ScanLine(st: Scan, line: string): Scan {
    if IsFence(line) then
      if !st.inCodeBlock then Scan(true, Trim(line[3..]), "", st.result)
      else Scan(false, "", "", st.result + FencedBlock(st.lang, st.content))
    else if st.inCodeBlock then st.(content := st.content + line + "\n")
    else st.(result := st.result + line + "\n")
  }

  /** The scanning loop over a list of lines, in order. */
  function ScanLines(st: Scan, lines: seq<string>): Scan
    decreases |lines|
  {
    if lines == [] then st else ScanLine(ScanLines(st, lines[..|lines| - 1]), lines[|lines| - 1])
  }

  /** Each line followed by a newline, in order. */
  function Terminated(lines: seq<string>): string {
    if lines == [] then "" else Terminated(lines[..|lines| - 1]) + lines[|lines| - 1] + "\n"
  }

  /** Number of fence lines. */
  function FenceCount(lines: seq<string>): nat {
    if lines == [] then 0 else FenceCount(lines[..|lines| - 1]) + (if IsFence(lines[|lines| - 1]) then 1 else 0)
  }

  /** One line flips the block flag exactly when it is a fence. */
  lemma ScanLineFlag(st: Scan, line: string)
    ensures ScanLine(st, line).inCodeBlock == (st.inCodeBlock != IsFence(line))
  {
  }

  /** The block flag ends flipped once per fence line. */
  lemma {:induction false} ScanFenceParity(st: Scan, lines: seq<string>)
    ensures ScanLines(st, lines).inCodeBlock == (st.inCodeBlock != (FenceCount(lines) % 2 == 1))
  {
    if lines != [] {
      var init, last := lines[..|lines| - 1], lines[|lines| - 1];
      ScanFenceParity(st, init);
      ScanLineFlag(ScanLines(st, init), last);
      assert ScanLines(st, lines) == ScanLine(ScanLines(st, init), last);
      var k := FenceCount(init);
      assert FenceCount(lines) == k + (if IsFence(last) then 1 else 0);
      assert (k + 1) % 2 == 1 <==> k % 2 == 0;
    }
  }

  /** Outside a block and with no fence, every line goes to the output with a
      newline, in scan order, and nothing else changes. */
  lemma {:induction false} ScanProse(st: Scan, lines: seq<string>)
    requires !st.inCodeBlock
    requires forall i :: 0 <= i < |lines| ==> !IsFence(lines[i])
    ensures ScanLines(st, lines) == st.(result := st.result + Terminated(lines))
  {
    if lines != [] {
      ScanProse(st, lines[..|lines| - 1]);
    }
  }

  /** Inside a block and with no fence, every line goes to the block content
      with a newline and the output does not grow. */
  lemma {:induction false} ScanCode(st: Scan, lines: seq<string>)
    requires st.inCodeBlock
    requires forall i :: 0 <= i < |lines| ==> !IsFence(lines[i])
    ensures ScanLines(st, lines) == st.(content := st.content + Terminated(lines))
  {
    if lines != [] {
      ScanCode(st, lines[..|lines| - 1]);
    }
  }

  /** The scan only ever appends to the output. */
  lemma {:induction false} ScanOutputGrows(st: Scan, lines: seq<string>)
    ensures StartsWith(ScanLines(st, lines).result, st.result)
  {
    if lines != [] {
      ScanOutputGrows(st, lines[..|lines| - 1]);
      var mid := ScanLines(st, lines[..|lines| - 1]).result;
      var fin := ScanLines(st, lines).result;
      assert StartsWith(fin, mid);
      assert fin[..|st.result|] == mid[..|st.result|];
    }
  }

  /** The closure state of the segmenter. */
  datatype Segmenter = Segmenter(buffer: string, inCodeBlock: bool, lang: string, content: string)

  const Initial := Segmenter("", false, "", "")

  /** One `transform` call: the new state and what is enqueued, if anything. */
  function Step(s: Segmenter, chunk: string): (Segmenter, Option<string>) {
    var buf := s.buffer + chunk;
    var sc := ScanLines(Scan(s.inCodeBlock, s.lang, s.content, ""), Split(buf, '\n'));
    var out := if sc.inCodeBlock then "" else sc.result;
    (Segmenter(if sc.inCodeBlock then buf else "", sc.inCodeBlock, sc.lang, sc.content),
     if out != "" then Some(out) else None)
  }

  /** The buffer is emptied when the scan ends outside a block and otherwise
      keeps everything received since it was last emptied; something is
      enqueued only when the scan ends outside a block, and never an empty string. */
  lemma StepBufferAndOutput(s: Segmenter, chunk: string)
    ensures var (s', out) := Step(s, chunk);
      && s'.buffer == (if s'.inCodeBlock then s.buffer + chunk else "")
      && (out.Some? ==> !s'.inCodeBlock && out.value != "")
      && (s'.inCodeBlock ==> out.None?)
  {
  }

  /** After a call the block flag is the old flag flipped once per fence line
      of the re-split buffer. */
  lemma StepFenceParity(s: Segmenter, chunk: string)
    ensures Step(s, chunk).0.inCodeBlock ==
      (s.inCodeBlock != (FenceCount(Split(s.buffer + chunk, '\n')) % 2 == 1))
  {
    ScanFenceParity(Scan(s.inCodeBlock, s.lang, s.content, ""), Split(s.buffer + chunk, '\n'));
  }

  /** Outside a block, text without fences is emitted at once, line by line
      with newlines, including a trailing partial line. */
  lemma StepProse(s: Segmenter, chunk: string)
    requires !s.inCodeBlock
    requires forall i :: 0 <= i < |Split(s.buffer + chunk, '\n')| ==> !IsFence(Split(s.buffer + chunk, '\n')[i])
    ensures Step(s, chunk) == (s.(buffer := ""), Some(Terminated(Split(s.buffer + chunk, '\n'))))
  {
    var lines := Split(s.buffer + chunk, '\n');
    ScanProse(Scan(false, s.lang, s.content, ""), lines);
    assert "" + Terminated(lines) == Terminated(lines);
    assert |Terminated(lines)| > 0 by {
      assert Terminated(lines) == Terminated(lines[..|lines| - 1]) + lines[|lines| - 1] + "\n";
    }
  }

  /** Inside a block, text without fences is added to the block content and
      nothing is emitted; the whole buffer is kept. */
  lemma StepCode(s: Segmenter, chunk: string)
    requires s.inCodeBlock
    requires forall i :: 0 <= i < |Split(s.buffer + chunk, '\n')| ==> !IsFence(Split(s.buffer + chunk, '\n')[i])
    ensures Step(s, chunk) ==
      (s.(buffer := s.buffer + chunk, content := s.content + Terminated(Split(s.buffer + chunk, '\n'))), None)
  {
    ScanCode(Scan(true, s.lang, s.content, ""), Split(s.buffer + chunk, '\n'));
  }

  const FirstChunk := "Some code:\n```js\nconst x"
  const SecondChunk := " = 1;\n```\nDone"

  lemma SplitFirstChunk()
    ensures Split(FirstChunk, '\n') == ["Some code:", "```js", "const x"]
  {
    var l := ["Some code:", "```js", "const x"];
    assert Join(l, '\n') == FirstChunk;
    SplitJoin(l, '\n');
  }

  lemma SplitBothChunks()
    ensures Split(FirstChunk + SecondChunk, '\n') == ["Some code:", "```js", "const x = 1;", "```", "Done"]
  {
    var l := ["Some code:", "```js", "const x = 1;", "```", "Done"];
    assert Join(l, '\n') == FirstChunk + SecondChunk;
    SplitJoin(l, '\n');
  }

  lemma ScanSnoc(st: Scan, lines: seq<string>, line: string)
    ensures ScanLines(st, lines + [line]) == ScanLine(ScanLines(st, lines), line)
  {
    assert (lines + [line])[..|lines|] == lines;
  }

  lemma ScanFirstChunk()
    ensures ScanLines(Scan(false, "", "", ""), ["Some code:", "```js", "const x"]) == Scan(true, "js", "const x\n", "Some code:\n")
  {
    var st := Scan(false, "", "", "");
    assert !IsFence("Some code:") by { assert "Some code:"[0] == 'S'; }
    assert IsFence("```js");
    assert !IsFence("const x") by { assert "const x"[0] == 'c'; }
    assert "```js"[3..] == "js";
    assert Trim("js") == "js" by { assert 'j' !in JsWhitespace && 's' !in JsWhitespace; }
    ScanSnoc(st, [], "Some code:");
    assert [] + ["Some code:"] == ["Some code:"];
    var s1 := ScanLines(st, ["Some code:"]);
    assert s1 == Scan(false, "", "", "Some code:\n");
    ScanSnoc(st, ["Some code:"], "```js");
    assert ["Some code:"] + ["```js"] == ["Some code:", "```js"];
    var s2 := ScanLines(st, ["Some code:", "```js"]);
    assert s2 == Scan(true, "js", "", "Some code:\n");
    ScanSnoc(st, ["Some code:", "```js"], "const x");
    assert ["Some code:", "```js"] + ["const x"] == ["Some code:", "```js", "const x"];
    assert "" + "const x" + "\n" == "const x\n";
    var s3 := ScanLines(st, ["Some code:", "```js", "const x"]);
    assert s3 == Scan(true, "js", "const x\n", "Some code:\n");
  }

  lemma ScanSecondChunkLine1()
    ensures ScanLine(Scan(true, "js", "const x\n", ""), "Some code:") == Scan(true, "js", "const x\nSome code:\n", "")
  {
    assert !IsFence("Some code:") by { assert "Some code:"[0] == 'S'; }
    assert "const x\n" + "Some code:" + "\n" == "const x\nSome code:\n";
  }

  lemma ScanSecondChunkLine2()
    ensures ScanLine(Scan(true, "js", "const x\nSome code:\n", ""), "```js")
      == Scan(false, "", "", "\n```js\nconst x\nSome code:\n\n```\n")
  {
    assert IsFence("```js");
    assert "" + FencedBlock("js", "const x\nSome code:\n") == "\n```js\nconst x\nSome code:\n\n```\n";
  }

  lemma ScanSecondChunkStart()
    ensures ScanLines(Scan(true, "js", "const x\n", ""), ["Some code:", "```js"])
      == Scan(false, "", "", "\n```js\nconst x\nSome code:\n\n```\n")
  {
    var st := Scan(true, "js", "const x\n", "");
    ScanSnoc(st, [], "Some code:");
    assert [] + ["Some code:"] == ["Some code:"];
    ScanSecondChunkLine1();
    ScanSnoc(st, ["Some code:"], "```js");
    assert ["Some code:"] + ["```js"] == ["Some code:", "```js"];
    ScanSecondChunkLine2();
  }

  lemma ScanSecondChunk()
    ensures ScanLines(Scan(true, "js", "const x\n", ""), ["Some code:", "```js", "const x = 1;", "```", "Done"])
      == Scan(true, "", "Done\n", "\n```js\nconst x\nSome code:\n\n```\nconst x = 1;\n")
  {
    var st := Scan(true, "js", "const x\n", "");
    var out := "\n```js\nconst x\nSome code:\n\n```\n";
    var out2 := "\n```js\nconst x\nSome code:\n\n```\nconst x = 1;\n";
    ScanSecondChunkStart();
    assert !IsFence("const x = 1;") by { assert "const x = 1;"[0] == 'c'; }
    assert IsFence("```");
    assert !IsFence("Done") by { assert "Done"[0] == 'D'; }
    assert "```"[3..] == "";
    assert Trim("") == "";
    ScanSnoc(st, ["Some code:", "```js"], "const x = 1;");
    assert ["Some code:", "```js"] + ["const x = 1;"] == ["Some code:", "```js", "const x = 1;"];
    assert out + "const x = 1;" + "\n" == out2;
    assert ScanLines(st, ["Some code:", "```js", "const x = 1;"]) == Scan(false, "", "", out2);
    ScanSnoc(st, ["Some code:", "```js", "const x = 1;"], "```");
    assert ["Some code:", "```js", "const x = 1;"] + ["```"] == ["Some code:", "```js", "const x = 1;", "```"];
    assert ScanLines(st, ["Some code:", "```js", "const x = 1;", "```"]) == Scan(true, "", "", out2);
    ScanSnoc(st, ["Some code:", "```js", "const x = 1;", "```"], "Done");
    assert ["Some code:", "```js", "const x = 1;", "```"] + ["Done"] == ["Some code:", "```js", "const x = 1;", "```", "Done"];
    assert "" + "Done" + "\n" == "Done\n";
  }

  /** A block whose opening fence arrives in one chunk and whose closing fence
      arrives in the next is never emitted: the kept buffer is scanned again
      from its start with the block still open, so the prose line before it is
      taken into the block, the opening fence is read as the closing one, and
      the real closing fence opens a new block. Neither call enqueues anything. */
  lemma FenceAcrossChunks()
    ensures Step(Initial, FirstChunk) == (Segmenter(FirstChunk, true, "js", "const x\n"), None)
    ensures Step(Segmenter(FirstChunk, true, "js", "const x\n"), SecondChunk) ==
      (Segmenter(FirstChunk + SecondChunk, true, "", "Done\n"), None)
  {
    assert "" + FirstChunk == FirstChunk;
    SplitFirstChunk();
    ScanFirstChunk();
    SplitBothChunks();
    ScanSecondChunk();
  }

  /** The step the comment on the kept buffer describes: when the scan ends
      inside a block, the whole buffer is kept together with the block state
      it started from, so that the next call scans it again from that state;
      otherwise the state reached is kept and the output enqueued. */
  function DeferringStep(s: Segmenter, chunk: string): (Segmenter, Option<string>) {
    var buf := s.buffer + chunk;
    var sc := ScanLines(StartScan(s), Split(buf, '\n'));
    if sc.inCodeBlock then (s.(buffer := buf), None)
    else (Segmenter("", false, sc.lang, sc.content), if sc.result != "" then Some(sc.result) else None)
  }

  /** The scan state a call starts from and the one it reaches on a buffer. */
  function StartScan(s: Segmenter): Scan {
    Scan(s.inCodeBlock, s.lang, s.content, "")
  }

  /** A call whose scan ends inside a block changes nothing but the buffer. */
  lemma DeferringStepDefers(s: Segmenter, a: string)
    requires ScanLines(StartScan(s), Split(s.buffer + a, '\n')).inCodeBlock
    ensures DeferringStep(s, a) == (s.(buffer := s.buffer + a), None)
  {
  }

  /** A call whose scan ends inside a block changes nothing but the
      buffer, so the following call acts as one call on both chunks together. */
  lemma DeferringStepTransparent(s: Segmenter, a: string, b: string)
    requires ScanLines(StartScan(s), Split(s.buffer + a, '\n')).inCodeBlock
    ensures DeferringStep(s, a) == (s.(buffer := s.buffer + a), None)
    ensures DeferringStep(DeferringStep(s, a).0, b) == DeferringStep(s, a + b)
  {
    DeferringStepDefers(s, a);
    DeferringStepRegroup(s, a, b);
  }

  /** A call depends only on the block state and on the buffer with the chunk
      appended, not on where the chunk boundary falls. */
  lemma DeferringStepRegroup(s: Segmenter, a: string, b: string)
    ensures DeferringStep(s.(buffer := s.buffer + a), b) == DeferringStep(s, a + b)
  {
    assert s.buffer + a + b == s.buffer + (a + b);
  }

  lemma ScanWholeStart()
    ensures ScanLines(Scan(false, "", "", ""), ["Some code:", "```js", "const x = 1;"])
      == Scan(true, "js", "const x = 1;\n", "Some code:\n")
  {
    var st := Scan(false, "", "", "");
    assert !IsFence("Some code:") by { assert "Some code:"[0] == 'S'; }
    assert IsFence("```js");
    assert !IsFence("const x = 1;") by { assert "const x = 1;"[0] == 'c'; }
    assert "```js"[3..] == "js";
    assert Trim("js") == "js" by { assert 'j' !in JsWhitespace && 's' !in JsWhitespace; }
    ScanSnoc(st, [], "Some code:");
    assert [] + ["Some code:"] == ["Some code:"];
    assert ScanLines(st, ["Some code:"]) == Scan(false, "", "", "Some code:\n");
    ScanSnoc(st, ["Some code:"], "```js");
    assert ["Some code:"] + ["```js"] == ["Some code:", "```js"];
    assert ScanLines(st, ["Some code:", "```js"]) == Scan(true, "js", "", "Some code:\n");
    ScanSnoc(st, ["Some code:", "```js"], "const x = 1;");
    assert ["Some code:", "```js"] + ["const x = 1;"] == ["Some code:", "```js", "const x = 1;"];
    assert "" + "const x = 1;" + "\n" == "const x = 1;\n";
  }

  lemma ScanWholeLine4()
    ensures ScanLine(Scan(true, "js", "const x = 1;\n", "Some code:\n"), "```")
      == Scan(false, "", "", "Some code:\n\n```js\nconst x = 1;\n\n```\n")
  {
    assert IsFence("```");
    assert "Some code:\n" + FencedBlock("js", "const x = 1;\n") == "Some code:\n\n```js\nconst x = 1;\n\n```\n";
  }

  lemma ScanWholeLine5()
    ensures ScanLine(Scan(false, "", "", "Some code:\n\n```js\nconst x = 1;\n\n```\n"), "Done")
      == Scan(false, "", "", "Some code:\n\n```js\nconst x = 1;\n\n```\nDone\n")
  {
    assert !IsFence("Done") by { assert "Done"[0] == 'D'; }
    assert "Some code:\n\n```js\nconst x = 1;\n\n```\n" + "Done" + "\n" == "Some code:\n\n```js\nconst x = 1;\n\n```\nDone\n";
  }

  lemma ScanWhole()
    ensures ScanLines(Scan(false, "", "", ""), ["Some code:", "```js", "const x = 1;", "```", "Done"])
      == Scan(false, "", "", "Some code:\n\n```js\nconst x = 1;\n\n```\nDone\n")
  {
    var st := Scan(false, "", "", "");
    var three := ["Some code:", "```js", "const x = 1;"];
    ScanWholeStart();
    ScanSnoc(st, three, "```");
    ScanWholeLine4();
    assert three + ["```"] == ["Some code:", "```js", "const x = 1;", "```"];
    ScanSnoc(st, three + ["```"], "Done");
    ScanWholeLine5();
    assert three + ["```"] + ["Done"] == ["Some code:", "```js", "const x = 1;", "```", "Done"];
  }

  /** With the deferring step, the block split across the two chunks is
      emitted whole, after the prose before it, by the second call. */
  lemma DeferringFenceAcrossChunks()
    ensures DeferringStep(Initial, FirstChunk) == (Initial.(buffer := FirstChunk), None)
    ensures DeferringStep(Initial.(buffer := FirstChunk), SecondChunk) ==
      (Initial, Some("Some code:\n\n```js\nconst x = 1;\n\n```\nDone\n"))
  {
    assert "" + FirstChunk == FirstChunk;
    SplitFirstChunk();
    ScanFirstChunk();
    SplitBothChunks();
    ScanWhole();
  }

  /** The second stage: a chunk rendered to HTML, or the chunk itself when
      rendering throws. */
  function ToHtml(chunk: string, marked: string -> Option<string>): (html: string)
    ensures marked(chunk).None? ==> html == chunk
    ensures marked(chunk).Some? ==> html == marked(chunk).value
  {
    match marked(chunk)
    case Some(h) => h
    case None => chunk
  }

  /** `renderMarkdown`'s options that the model keeps. */
  datatype MarkdownOptions = MarkdownOptions(langs: Option<seq<string>>, theme: Option<string>)

  /** The module-level state of scripts/markdownRenderer.js: `isInitialized`,
      next to the highlighter module state it initialises. */
  class Renderer {
    var isInitialized: bool
    const shiki: ShikiStream.Shiki

    constructor (shiki: ShikiStream.Shiki)
      ensures !isInitialized && this.shiki == shiki
    {
      isInitialized := false;
      this.shiki := shiki;
    }

    /** `renderMarkdown`: the empty string is answered at once and initialises
        nothing; otherwise the first call creates the highlighter (a creation
        that rejects makes the call reject and leaves the flag down), and the
        markdown is rendered, or returned unchanged when rendering throws. */
    method RenderMarkdown(markdown: string, options: MarkdownOptions, loads: bool, marked: string -> Option<string>)
      returns (r: Result<string, string>)
      modifies this, shiki
      ensures markdown == "" ==>
        r == Success("") && isInitialized == old(isInitialized) && shiki.highlighter == old(shiki.highlighter)
      ensures markdown != "" && old(isInitialized) ==>
        isInitialized && shiki.highlighter == old(shiki.highlighter) && r == Success(ToHtml(markdown, marked))
      ensures markdown != "" && !old(isInitialized) && loads ==>
        isInitialized && r == Success(ToHtml(markdown, marked))
        && shiki.highlighter == Some(ShikiStream.Highlighter(options.langs.GetOr(RendererLangs), [OrElse(options.theme, ShikiStream.DefaultTheme)]))
      ensures markdown != "" && !old(isInitialized) && !loads ==>
        !isInitialized && r.Failure? && shiki.highlighter == old(shiki.highlighter)
    {
      if markdown == "" {
        return Success("");
      }
      if !isInitialized {
        var shikiOptions := ShikiStream.ShikiOptions(
          Some(options.langs.GetOr(RendererLangs)), Some([OrElse(options.theme, ShikiStream.DefaultTheme)]), None);
        var ok := shiki.InitializeHighlighter(shikiOptions, loads);
        if !ok {
          return Failure("highlighter creation failed");
        }
        isInitialized := true;
      }
      r := Success(ToHtml(markdown, marked));
    }

    /** `createMarkdownRenderStream`: its initialising call renders "" and so
        initialises nothing; the new stream starts outside any block with an
        empty buffer. */
    method CreateMarkdownRenderStream(options: MarkdownOptions, loads: bool, marked: string -> Option<string>)
      returns (stream: MarkdownRenderStream)
      modifies this, shiki
      ensures fresh(stream) && stream.State() == Initial
      ensures isInitialized == old(isInitialized) && shiki.highlighter == old(shiki.highlighter)
    {
      if !isInitialized {
        var _ := RenderMarkdown("", options, loads, marked);
      }
      stream := new MarkdownRenderStream();
    }
  }

  /** The closure variables of one render stream. */
  class MarkdownRenderStream {
    var buffer: string
    var inCodeBlock: bool
    var codeBlockLang: string
    var codeBlockContent: string

    function State(): Segmenter
      reads this
    {
      Segmenter(buffer, inCodeBlock, codeBlockLang, codeBlockContent)
    }

    constructor ()
      ensures State() == Initial
    {
      buffer, inCodeBlock, codeBlockLang, codeBlockContent := "", false, "", "";
    }

    /** The segmenter's `transform`: appends the chunk, scans every line of the
        buffer, and enqueues the output unless it is empty. */
    method Transform(chunk: string) returns (enqueued: Option<string>)
      modifies this
      ensures (State(), enqueued) == Step(old(State()), chunk)
    {
      ghost var start := Scan(inCodeBlock, codeBlockLang, codeBlockContent, "");
      buffer := buffer + chunk;
      var result := "";
      var lines := Split(buffer, '\n');
      var newBuffer := "";
      var i := 0;
      while i < |lines|
        invariant 0 <= i <= |lines|
        invariant buffer == old(buffer) + chunk
        invariant var sc := ScanLines(start, lines[..i]);
          inCodeBlock == sc.inCodeBlock && codeBlockLang == sc.lang && codeBlockContent == sc.content
        invariant result == if i == |lines| && inCodeBlock then "" else ScanLines(start, lines[..i]).result
        invariant newBuffer == if i == |lines| && inCodeBlock then buffer else ""
      {
        assert lines[..i + 1][..i] == lines[..i];
        result := ScanLineInPlace(lines[i], result);
        if i == |lines| - 1 && inCodeBlock {
          newBuffer := buffer;
          result := "";
        }
        i := i + 1;
      }
      assert lines[..i] == lines;
      if !inCodeBlock {
        buffer := if newBuffer != "" then newBuffer else "";
      }
      enqueued := if result != "" then Some(result) else None;
    }

    /** The loop body of `transform` for one line: updates the block state
        and answers the new `result`. */
    method ScanLineInPlace(line: string, result: string) returns (result': string)
      modifies this
      ensures buffer == old(buffer)
      ensures Scan(inCodeBlock, codeBlockLang, codeBlockContent, result') ==
        ScanLine(Scan(old(inCodeBlock), old(codeBlockLang), old(codeBlockContent), result), line)
    {
      result' := result;
      if IsFence(line) {
        if !inCodeBlock {
          inCodeBlock := true;
          codeBlockLang := Trim(line[3..]);
          codeBlockContent := "";
        } else {
          inCodeBlock := false;
          result' := result' + FencedBlock(codeBlockLang, codeBlockContent);
          codeBlockLang := "";
          codeBlockContent := "";
        }
      } else if inCodeBlock {
        codeBlockContent := codeBlockContent + line + "\n";
      } else {
        result' := result' + line + "\n";
      }
    }

    /** Both stages for one chunk: what the segmenter enqueues, converted to HTML. */
    method TransformToHtml(chunk: string, marked: string -> Option<string>) returns (html: Option<string>)
      modifies this
      ensures State() == Step(old(State()), chunk).0
      ensures var out := Step(old(State()), chunk).1;
        html == if out.Some? then Some(ToHtml(out.value, marked)) else None
    {
      var out := Transform(chunk);
      html := if out.Some? then Some(ToHtml(out.value, marked)) else None;
    }
  }
}
