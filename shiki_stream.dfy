/** The highlighting side of the pipeline (scripts/shikiStream.js): the lazily
    created module-wide highlighter, the token-stream options, the render
    transformer that keeps the received tokens and applies recalls, and the
    one-shot code-block highlighter with its plain-HTML fallback.

    The highlighting engine itself is not modelled: a created highlighter is
    represented by the languages and themes it was loaded with, and
    `codeToHtml` is a function parameter that either gives HTML or throws
    (`None`). */
module ShikiStream {
  import opened Outcomes

  const DefaultTheme := "vitesse-dark"

  /** Languages `initializeHighlighter` loads when none are given. */
  const DefaultLangs: seq<string> :=
    ["javascript", "typescript", "html", "css", "json", "markdown", "python"]

  /** A created highlighter, by the grammars and themes it was created with. */
  datatype Highlighter = Highlighter(langs: seq<string>, themes: seq<string>)

  /** `{ langs?, themes?, theme? }`: the options objects passed around. */
  datatype ShikiOptions = ShikiOptions(langs: Option<seq<string>>, themes: Option<seq<string>>, theme: Option<string>)

  /** `{ lang?, theme?, allowRecalls? }` for `createCodeHighlightStream`. */
  datatype StreamOptions = StreamOptions(lang: Option<string>, theme: Option<string>, allowRecalls: Option<bool>)

  /** What `CodeToTokenTransformStream` is constructed with. */
  datatype TokenStreamConfig = TokenStreamConfig(highlighter: Highlighter, lang: string, theme: string, allowRecalls: bool)

  const NotInitialized := "Highlighter not initialized. Call initializeHighlighter first."

  /** `createCodeHighlightStream`: fails while no highlighter exists; otherwise
      the language falls back to "text", the theme to "vitesse-dark", and
      recalls are allowed unless the caller says otherwise. */
  function CreateCodeHighlightStream(highlighter: Option<Highlighter>, options: StreamOptions): (r: Result<TokenStreamConfig, string>)
    ensures r.Failure? <==> highlighter.None?
    ensures r.Failure? ==> r.error == NotInitialized
    ensures r.Success? ==> r.value.highlighter == highlighter.value
    ensures r.Success? ==> r.value.lang != "" && r.value.theme != ""
    ensures r.Success? && options.lang.Some? && options.lang.value != "" ==> r.value.lang == options.lang.value
    ensures r.Success? && (options.lang.None? || options.lang.value == "") ==> r.value.lang == "text"
    ensures r.Success? && options.theme.Some? && options.theme.value != "" ==> r.value.theme == options.theme.value
    ensures r.Success? && (options.theme.None? || options.theme.value == "") ==> r.value.theme == DefaultTheme
    ensures r.Success? ==> (r.value.allowRecalls <==> options.allowRecalls != Some(false))
  {
    if highlighter.None? then Failure(NotInitialized)
    else
      Success(TokenStreamConfig(
        highlighter.value,
        OrElse(options.lang, "text"),
        OrElse(options.theme, DefaultTheme),
        if options.allowRecalls.Some? then options.allowRecalls.value else true))
  }

  /** One styled token produced by the highlighter. */
  datatype Token = Token(content: string, color: string)

  /** An item of the token stream: a token, or `{ recall: n }`. */
  datatype StreamItem = Emit(token: Token) | Recall(count: nat)

  const OpenCode := "<pre class=\"shiki-stream\"><code>"
  const CloseCode := "</code></pre>"
  const Reopen := "</code></pre><pre class=\"shiki-stream\"><code>"

  /** The `<span>` a token is rendered as (content and color inserted as they are). */
  function Span(t: Token): string {
    "<span style=\"color: " + t.color + "\">" + t.content + "</span>"
  }

  /** One span per token, in order. */
  function Spans(ts: seq<Token>): (r: seq<string>)
    ensures |r| == |ts|
    ensures forall i :: 0 <= i < |ts| ==> r[i] == Span(ts[i])
  {
    if ts == [] then [] else Spans(ts[..|ts| - 1]) + [Span(ts[|ts| - 1])]
  }

  /** The token list a consumer holds after applying the items in order;
      `None` once a recall asks for more tokens than are held. */
  function Replay(items: seq<StreamItem>): Option<seq<Token>> {
    if items == [] then Some([])
    else
      var prev := Replay(items[..|items| - 1]);
      match items[|items| - 1]
      case Emit(t) => if prev.Some? then Some(prev.value + [t]) else None
      case Recall(n) => if prev.Some? && n <= |prev.value| then Some(prev.value[..|prev.value| - n]) else None
  }

  /** The tokens of all `Emit` items, in order. */
  function Emitted(items: seq<StreamItem>): seq<Token> {
    if items == [] then []
    else Emitted(items[..|items| - 1]) + (match items[|items| - 1] case Emit(t) => [t] case Recall(_) => [])
  }

  /** Without recalls, the held list is exactly every token received. */
  lemma {:induction false} ReplayWithoutRecalls(items: seq<StreamItem>)
    requires forall i :: 0 <= i < |items| ==> items[i].Emit?
    ensures Replay(items) == Some(Emitted(items))
  {
    if items != [] {
      ReplayWithoutRecalls(items[..|items| - 1]);
    }
  }

  /** Every held token was received, and no more tokens are held than were received. */
  lemma {:induction false} ReplayOnlyReceived(items: seq<StreamItem>)
    requires Replay(items).Some?
    ensures |Replay(items).value| <= |Emitted(items)|
    ensures forall t :: t in Replay(items).value ==> t in Emitted(items)
  {
    if items != [] {
      var init := items[..|items| - 1];
      ReplayOnlyReceived(init);
      match items[|items| - 1]
      case Emit(t) =>
      case Recall(n) =>
        var p := Replay(init).value;
        forall u | u in p[..|p| - n] ensures u in Emitted(init) {
          assert u in p;
        }
    }
  }

  /** A history that replays without a failed recall starts with one that does too. */
  lemma {:induction false} ReplayPrefix(a: seq<StreamItem>, b: seq<StreamItem>)
    requires Replay(a + b).Some?
    ensures Replay(a).Some?
    decreases |b|
  {
    if b != [] {
      assert (a + b)[..|a + b| - 1] == a + b[..|b| - 1];
      ReplayPrefix(a, b[..|b| - 1]);
    } else {
      assert a + b == a;
    }
  }

  /** The module-level state of scripts/shikiStream.js: the lazily created highlighter. */
  class Shiki {
    var highlighter: Option<Highlighter>

    constructor ()
      ensures highlighter.None?
    {
      highlighter := None;
    }

    /** `initializeHighlighter`: replaces the highlighter with one loaded with the
        given (or default) languages and themes; when creation rejects
        (`loads` false), nothing changes and the call fails. */
    method InitializeHighlighter(options: ShikiOptions, loads: bool) returns (ok: bool)
      modifies this
      ensures ok == loads
      ensures ok ==> highlighter == Some(Highlighter(options.langs.GetOr(DefaultLangs), options.themes.GetOr([DefaultTheme])))
      ensures !ok ==> highlighter == old(highlighter)
    {
      if !loads {
        return false;
      }
      highlighter := Some(Highlighter(options.langs.GetOr(DefaultLangs), options.themes.GetOr([DefaultTheme])));
      return true;
    }

    /** `highlightCodeBlock`: creates the highlighter first only if there is none,
        then highlights; if highlighting throws, answers the plain fallback. */
    method HighlightCodeBlock(code: string, lang: Option<string>, options: ShikiOptions, loads: bool,
                              codeToHtml: (Highlighter, string, string, string) -> Option<string>)
      returns (r: Result<string, string>)
      modifies this
      ensures old(highlighter).Some? ==> highlighter == old(highlighter)
      ensures old(highlighter).None? && loads ==>
        highlighter == Some(Highlighter(options.langs.GetOr(DefaultLangs), options.themes.GetOr([DefaultTheme])))
      ensures old(highlighter).None? && !loads ==> highlighter.None? && r.Failure?
      ensures r.Success? <==> old(highlighter).Some? || loads
      ensures r.Success? ==> highlighter.Some?
      ensures r.Success? ==>
        var h := codeToHtml(highlighter.value, code, OrElse(lang, "text"), OrElse(options.theme, DefaultTheme));
        r.value == if h.Some? then h.value else FallbackHtml(code, lang)
    {
      if highlighter.None? {
        var ok := InitializeHighlighter(options, loads);
        if !ok {
          return Failure("highlighter creation failed");
        }
      }
      var h := codeToHtml(highlighter.value, code, OrElse(lang, "text"), OrElse(options.theme, DefaultTheme));
      if h.Some? {
        r := Success(h.value);
      } else {
        r := Success(FallbackHtml(code, lang));
      }
    }

    /** `createCodeRenderStream`: the token stage is created first, so the
        call throws while no highlighter exists; otherwise the token stage
        gets the defaulted options, and the render transformer is created
        and started, which enqueues the opening markup before any token. */
    method CreateCodeRenderStream(options: StreamOptions)
      returns (r: Result<(TokenStreamConfig, CodeRenderStream, seq<string>), string>)
      ensures r.Failure? <==> highlighter.None?
      ensures r.Failure? ==> r.error == NotInitialized
      ensures r.Success? ==> CreateCodeHighlightStream(highlighter, options) == Success(r.value.0)
      ensures r.Success? ==>
        fresh(r.value.1) && r.value.1.Valid() && r.value.1.receivedTokens == [] && r.value.2 == [OpenCode]
    {
      var tokenStage := CreateCodeHighlightStream(highlighter, options);
      if tokenStage.Failure? {
        return Failure(tokenStage.error);
      }
      var render := new CodeRenderStream();
      var opening := render.Start();
      return Success((tokenStage.value, render, opening));
    }
  }

  /** The fallback markup: the code is inserted without escaping. */
  function FallbackHtml(code: string, lang: Option<string>): string {
    FallbackOpen(lang) + code + CloseCode
  }

  function FallbackOpen(lang: Option<string>): string {
    "<pre><code class=\"language-" + OrElse(lang, "text") + "\">"
  }

  /** The fallback keeps the code verbatim between a prefix fixed by the language
      and the closing tags, so it can be read back unchanged. */
  lemma FallbackKeepsCode(code: string, lang: Option<string>)
    ensures var html := FallbackHtml(code, lang);
      var k := |FallbackOpen(lang)|;
      |html| == k + |code| + |CloseCode| && html[k..k + |code|] == code
      && html[..k] == FallbackOpen(lang) && html[k + |code|..] == CloseCode
  {
    var html := FallbackHtml(code, lang);
    var k := |FallbackOpen(lang)|;
    assert html == FallbackOpen(lang) + code + CloseCode;
    assert html[k..k + |code|] == code;
  }

  /** The render transformer of `createCodeRenderStream`: `this.receivedTokens`
      and the items it has accepted so far. */
  class CodeRenderStream {
    var receivedTokens: seq<Token>
    /** Items accepted so far (a recall that failed is not accepted). */
    ghost var accepted: seq<StreamItem>

    ghost predicate Valid()
      reads this
    {
      Replay(accepted) == Some(receivedTokens)
    }

    constructor ()
      ensures Valid() && receivedTokens == [] && accepted == []
    {
      receivedTokens := [];
      accepted := [];
    }

    /** `start`: opens the code element and starts an empty token list. */
    method Start() returns (out: seq<string>)
      modifies this
      ensures Valid() && receivedTokens == [] && accepted == []
      ensures out == [OpenCode]
    {
      out := [OpenCode];
      receivedTokens := [];
      accepted := [];
    }

    /** `transform`: a token is pushed and rendered as one span; a recall of `n`
        drops the last `n` tokens and re-renders the rest after a close/reopen
        marker. A recall of more tokens than are held fails (setting a
        negative array length throws) and changes nothing. */
    method Transform(item: StreamItem) returns (r: Result<seq<string>, string>)
      requires Valid()
      modifies this
      ensures Valid()
      ensures r.Success? ==> accepted == old(accepted) + [item]
      ensures r.Failure? ==> accepted == old(accepted) && receivedTokens == old(receivedTokens)
      ensures item.Emit? ==>
        r.Success? && receivedTokens == old(receivedTokens) + [item.token] && r.value == [Span(item.token)]
      ensures item.Recall? ==> (r.Success? <==> item.count <= |old(receivedTokens)|)
      ensures item.Recall? && r.Success? ==>
        receivedTokens == old(receivedTokens)[..|old(receivedTokens)| - item.count]
        && r.value == [Reopen] + Spans(receivedTokens)
    {
      match item
      case Recall(n) =>
        if n > |receivedTokens| {
          return Failure("Invalid array length");
        }
        receivedTokens := receivedTokens[..|receivedTokens| - n];
        accepted := accepted + [item];
        assert accepted[..|accepted| - 1] == old(accepted);
        var out := [Reopen];
        var i := 0;
        while i < |receivedTokens|
          invariant 0 <= i <= |receivedTokens|
          invariant out == [Reopen] + Spans(receivedTokens[..i])
        {
          assert receivedTokens[..i + 1][..i] == receivedTokens[..i];
          out := out + [Span(receivedTokens[i])];
          i := i + 1;
        }
        assert receivedTokens[..i] == receivedTokens;
        r := Success(out);
      case Emit(t) =>
        receivedTokens := receivedTokens + [t];
        accepted := accepted + [item];
        assert accepted[..|accepted| - 1] == old(accepted);
        r := Success([Span(t)]);
    }

    /** `flush`: closes the code element. */
    method Flush() returns (out: seq<string>)
      ensures out == [CloseCode]
    {
      out := [CloseCode];
    }
  }
}
