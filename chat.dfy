/**
 * The request-shaping helpers of the chat endpoint: the web-search trigger,
 * the search-context block, the session title, the message list sent to the
 * model, the request-body format chosen by model family, and the extraction
 * of the reply text from the model's response.
 */
module Chat {
  import opened Common
  import opened Text

  // ------------------------------------------------------- web-search trigger

  /** The phrases whose presence in a message triggers a web search. */
  const SearchKeywords: seq<string> := [
    "latest", "recent", "current", "today", "now", "news",
    "what is happening", "what happened", "update on",
    "weather", "stock", "price", "score", "result",
    "search for", "find", "look up", "who is", "what is", "whats", "what's", "when is", "where is", "how to",
    "define", "definition", "wiki", "wikipedia", "google", "bing", "yahoo"]

  /** Some needle occurs in hay. */
  function ContainsAny(hay: string, needles: seq<string>): (r: bool)
    ensures r <==> exists k | 0 <= k < |needles| :: Contains(hay, needles[k])
  {
    if needles == [] then false
    else
      assert forall k | 1 <= k < |needles| :: needles[k] == needles[1..][k - 1];
      Contains(hay, needles[0]) || ContainsAny(hay, needles[1..])
  }

  /** `needs_web_search`: a keyword occurs, as a substring, in the lower-cased message. */
  function NeedsWebSearch(message: string): (r: bool)
    ensures r <==> exists k | 0 <= k < |SearchKeywords| :: Contains(Lower(message), SearchKeywords[k])
  {
    ContainsAny(Lower(message), SearchKeywords)
  }

  /** The trigger ignores case. */
  lemma NeedsWebSearchIgnoresCase(message: string)
    ensures NeedsWebSearch(Lower(message)) == NeedsWebSearch(message)
  {
    LowerIdempotent(message);
  }

  /** The empty message never triggers a search. */
  lemma NoSearchForEmpty()
    ensures !NeedsWebSearch("")
  {
    assert Lower("") == "";
    NoneInEmpty(SearchKeywords);
  }

  /** Only the empty needle occurs in the empty string. */
  lemma {:induction false} NoneInEmpty(needles: seq<string>)
    requires "" !in needles
    ensures !ContainsAny("", needles)
  {
    if needles != [] {
      NotContainedInEmpty(needles[0]);
      NoneInEmpty(needles[1..]);
    }
  }

  /** Text added before or after a triggering message leaves it triggering. */
  lemma SearchSurvivesExtension(before: string, message: string, after: string)
    requires NeedsWebSearch(message)
    ensures NeedsWebSearch(before + message + after)
  {
    var k :| 0 <= k < |SearchKeywords| && Contains(Lower(message), SearchKeywords[k]);
    LowerAppend(before, message);
    LowerAppend(before + message, after);
    ContainsExtended(Lower(message), SearchKeywords[k], Lower(before), Lower(after));
  }

  /** Keywords match inside words: "snow" triggers a search through "now". */
  lemma KeywordInsideWord()
    ensures NeedsWebSearch("Snow")
  {
    assert Lower("Snow") == "snow";
    assert OccursAt("snow", SearchKeywords[4], 1);
  }

  // --------------------------------------------------------- search context

  /** One result of the web search. */
  datatype SearchResult = SearchResult(title: string, link: string, snippet: string)

  const ContextHeader: string := "\n\n[Web Search Results]:\n"
  const ContextTrailer: string :=
    "\n[End of Search Results]\n"
    + "Please use the above search results to provide accurate and up-to-date information in your response.\n\n"

  /** The block of the n-th result: its number and title, its source link, and its snippet. */
  function Entry(n: nat, r: SearchResult): string {
    TitleLine(n, r) + SourceLine(r) + SnippetLine(r)
  }

  function TitleLine(n: nat, r: SearchResult): string {
    "\n" + NatToDecimal(n) + ". " + r.title + "\n"
  }

  function SourceLine(r: SearchResult): string {
    "   Source: " + r.link + "\n"
  }

  function SnippetLine(r: SearchResult): string {
    "   " + r.snippet + "\n"
  }

  /** The blocks of the results, numbered from `first` in input order. */
  function Entries(results: seq<SearchResult>, first: nat): string {
    Numbered(results, first, Entry)
  }

  /** `block(first, rs[0]) + block(first + 1, rs[1]) + ...`: the blocks of a list, in order. */
  function Numbered(rs: seq<SearchResult>, first: nat, block: (nat, SearchResult) -> string): string
    decreases |rs|
  {
    if rs == [] then "" else block(first, rs[0]) + Numbered(rs[1..], first + 1, block)
  }

  /** The context text for a list of results: nothing at all when there are none. */
  function SearchContext(results: seq<SearchResult>): string {
    if results == [] then "" else ContextHeader + Entries(results, 1) + ContextTrailer
  }

  /** Adding an element at the end adds its block, numbered after the others. */
  lemma {:induction false} NumberedSnoc(rs: seq<SearchResult>, r: SearchResult, first: nat,
                                        block: (nat, SearchResult) -> string)
    ensures Numbered(rs + [r], first, block) == Numbered(rs, first, block) + block(first + |rs|, r)
    decreases |rs|
  {
    if rs != [] {
      assert (rs + [r])[1..] == rs[1..] + [r];
      NumberedSnoc(rs[1..], r, first + 1, block);
      AppendAssoc(block(first, rs[0]), Numbered(rs[1..], first + 1, block), block(first + |rs|, r));
    }
  }

  /** The blocks of two lists, the second numbered on from the first. */
  lemma {:induction false} NumberedAppend(xs: seq<SearchResult>, ys: seq<SearchResult>, first: nat,
                                          block: (nat, SearchResult) -> string)
    ensures Numbered(xs + ys, first, block) == Numbered(xs, first, block) + Numbered(ys, first + |xs|, block)
    decreases |xs|
  {
    if xs == [] {
      assert xs + ys == ys;
    } else {
      assert (xs + ys)[1..] == xs[1..] + ys;
      NumberedAppend(xs[1..], ys, first + 1, block);
      AppendAssoc(block(first, xs[0]), Numbered(xs[1..], first + 1, block), Numbered(ys, first + |xs|, block));
    }
  }

  /**
   * Result j's block sits between the blocks of the results before it and of
   * those after it, and carries the number first + j.
   */
  lemma EntriesSplit(results: seq<SearchResult>, j: nat, first: nat)
    requires j < |results|
    ensures Entries(results, first)
            == Entries(results[..j], first) + Entry(first + j, results[j]) + Entries(results[j + 1..], first + j + 1)
  {
    var upTo := results[..j] + [results[j]];
    assert results == upTo + results[j + 1..];
    NumberedAppend(upTo, results[j + 1..], first, Entry);
    NumberedSnoc(results[..j], results[j], first, Entry);
  }

  /** `format_search_context`, built up block by block as the source does. */
  method FormatSearchContext(results: seq<SearchResult>) returns (context: string)
    ensures context == SearchContext(results)
    ensures context == "" <==> results == []
  {
    if results == [] {
      return "";
    }
    context := ContextHeader;
    var i := 0;
    while i < |results|
      invariant 0 <= i <= |results|
      invariant context == ContextHeader + Entries(results[..i], 1)
    {
      var r := results[i];
      ghost var before := context;
      context := context + TitleLine(i + 1, r);
      context := context + SourceLine(r);
      context := context + SnippetLine(r);
      AppendFour(before, TitleLine(i + 1, r), SourceLine(r), SnippetLine(r));
      AppendAssoc(ContextHeader, Entries(results[..i], 1), Entry(i + 1, r));
      NumberedSnoc(results[..i], r, 1, Entry);
      assert results[..i + 1] == results[..i] + [r];
      i := i + 1;
    }
    assert results[..i] == results;
    ghost var body := context;
    context := context + "\n[End of Search Results]\n";
    context := context + "Please use the above search results to provide accurate and up-to-date information in your response.\n\n";
    AppendAssoc(body, "\n[End of Search Results]\n",
                "Please use the above search results to provide accurate and up-to-date information in your response.\n\n");
  }

  lemma AppendFour(a: string, b: string, c: string, d: string)
    ensures ((a + b) + c) + d == a + (b + c + d)
  {
  }

  lemma AppendAssoc(a: string, b: string, c: string)
    ensures (a + b) + c == a + (b + c)
  {
  }

  // ---------------------------------------------------------- session title

  const TitleLimit: nat := 50

  /** The title of a new session: the message, cut to 50 characters with "..." when longer. */
  function SessionTitle(message: string): (t: string)
    ensures |message| <= TitleLimit ==> t == message
    ensures |message| > TitleLimit ==> t == message[..TitleLimit] + "..."
    ensures |t| <= TitleLimit + 3
    ensures |t| == Min(|message|, TitleLimit) + (if |message| > TitleLimit then 3 else 0)
  {
    message[..Min(TitleLimit, |message|)] + (if |message| > TitleLimit then "..." else "")
  }

  // ----------------------------------------------------------- message list

  /** A turn of the conversation as the model receives it. */
  datatype Message = Message(role: string, content: string)

  const PrimingPrompt: string :=
    "You are ZED, a friendly AI assistant. "
    + "Respond naturally in the user's language. "
    + "Be brief and direct - answer like a human in casual chat. "
    + "Never show thinking process or translate unless asked. "
    + "Example: User asks 'I love you mane ki?' \U{2192} Just say '\U{0986}\U{09AE}\U{09BF} \U{09A4}\U{09CB}\U{09AE}\U{09BE}\U{0995}\U{09C7} \U{09AD}\U{09BE}\U{09B2}\U{09CB}\U{09AC}\U{09BE}\U{09B8}\U{09BF}' - that's it!"

  const PrimingReply: string := "Got it! Short, natural answers only."

  /** The two priming turns a conversation without history starts with. */
  function Priming(history: seq<Message>): (p: seq<Message>)
    ensures history != [] ==> p == []
    ensures history == [] ==> p == [Message("user", PrimingPrompt), Message("assistant", PrimingReply)]
  {
    if history == [] then [Message("user", PrimingPrompt), Message("assistant", PrimingReply)] else []
  }

  /** The content of the new user turn: the search context, if any, before the message. */
  function FinalUserMessage(searchContext: string, message: string): (m: string)
    ensures m == searchContext + message
  {
    if searchContext != "" then searchContext + message else message
  }

  /**
   * The message list sent to the model: the priming turns when there is no
   * history, the history in order, then the new user turn.
   */
  method BuildMessages(history: seq<Message>, searchContext: string, message: string)
    returns (messages: seq<Message>)
    ensures messages == Priming(history) + history + [Message("user", searchContext + message)]
    ensures |messages| == |history| + 1 + (if history == [] then 2 else 0)
    ensures messages[|messages| - 1] == Message("user", searchContext + message)
    ensures messages[|Priming(history)|..|messages| - 1] == history
  {
    messages := [];
    if history == [] {
      messages := messages + [Message("user", PrimingPrompt)];
      messages := messages + [Message("assistant", PrimingReply)];
    }
    var i := 0;
    while i < |history|
      invariant 0 <= i <= |history|
      invariant messages == Priming(history) + history[..i]
    {
      assert history[..i + 1] == history[..i] + [history[i]];
      messages := messages + [Message(history[i].role, history[i].content)];
      i := i + 1;
    }
    assert history[..i] == history;
    messages := messages + [Message("user", FinalUserMessage(searchContext, message))];
  }

  // ------------------------------------------------------------ request body

  const AnthropicVersion: string := "bedrock-2023-05-31"
  const MaxTokens: int := 4096

  const ClaudeSystemPrompt: string :=
    "You are ZED, a helpful AI assistant. "
    + "Always respond directly and concisely in the same language as the user's question. "
    + "Never show your thinking process, reasoning steps, or provide translations. "
    + "Give short, natural answers - like a human would in casual conversation. "
    + "If asked in Arabic, respond only in Arabic. "
    + "If asked in Bengali, respond only in Bengali. "
    + "If asked in English, respond only in English. "
    + "Be brief unless the user asks for detailed explanation. "
    + "Avoid unnecessary elaboration or multiple explanations."

  const ClaudeMarker: string := "anthropic.claude"

  /** Model-id fragments of the families that take an `inferenceConfig` body. */
  const InferenceConfigMarkers: seq<string> := [
    "amazon.nova", "meta.llama", "mistral.", "cohere.", "ai21.", "qwen.", "minimax.", "moonshot.", "deepseek."]

  /** Model-id fragments of the families that take a top-level `max_tokens` body. */
  const MaxTokensMarkers: seq<string> := ["openai.gpt", "google.gemma"]

  /**
   * The three request-body layouts. All of them also carry a temperature of
   * 0.7 and a top-p of 0.9.
   */
  datatype RequestBody =
    | ClaudeBody(anthropicVersion: string, maxTokens: int, messages: seq<Message>, system: string)
    | InferenceConfigBody(messages: seq<Message>, maxTokens: int)
    | MaxTokensBody(messages: seq<Message>, maxTokens: int)

  /**
   * The request body for a model id. The Claude test comes first, then the
   * `inferenceConfig` families, then the `max_tokens` families; anything
   * else falls back to `inferenceConfig`.
   */
  function RequestBodyFor(modelId: string, messages: seq<Message>): (b: RequestBody)
    ensures b.messages == messages && b.maxTokens == MaxTokens
    ensures b.ClaudeBody? <==> Contains(modelId, ClaudeMarker)
    ensures b.ClaudeBody? ==> b.anthropicVersion == AnthropicVersion && b.system == ClaudeSystemPrompt
    ensures b.MaxTokensBody? <==> && !Contains(modelId, ClaudeMarker)
                                  && !ContainsAny(modelId, InferenceConfigMarkers)
                                  && ContainsAny(modelId, MaxTokensMarkers)
  {
    if Contains(modelId, ClaudeMarker) then
      ClaudeBody(AnthropicVersion, MaxTokens, messages, ClaudeSystemPrompt)
    else if ContainsAny(modelId, InferenceConfigMarkers) then
      InferenceConfigBody(messages, MaxTokens)
    else if ContainsAny(modelId, MaxTokensMarkers) then
      MaxTokensBody(messages, MaxTokens)
    else
      InferenceConfigBody(messages, MaxTokens)
  }

  /** An id of no known family gets the `inferenceConfig` body. */
  lemma UnknownFamilyDefaults(modelId: string, messages: seq<Message>)
    requires !Contains(modelId, ClaudeMarker)
    requires !ContainsAny(modelId, InferenceConfigMarkers) && !ContainsAny(modelId, MaxTokensMarkers)
    ensures RequestBodyFor(modelId, messages) == InferenceConfigBody(messages, MaxTokens)
  {
  }

  // ---------------------------------------------------------- reply extraction

  /** A decoded JSON value; an object keeps its members in order, duplicates included. */
  datatype Json =
    | JNull
    | JBool(b: bool)
    | JInt(i: int)
    | JStr(s: string)
    | JArr(items: seq<Json>)
    | JObj(members: seq<(string, Json)>)

  /** The Python exceptions a failed extraction raises. */
  datatype PyError = KeyError | IndexError | TypeError | AttributeError

  /** The value of a key in a decoded object: the last of duplicate members wins. */
  function Lookup(members: seq<(string, Json)>, key: string): (r: Option<Json>)
    ensures r.Some? <==> exists i | 0 <= i < |members| :: members[i].0 == key
    ensures r.Some? ==> exists i | 0 <= i < |members| ::
                          members[i] == (key, r.value) && forall j | i < j < |members| :: members[j].0 != key
  {
    if members == [] then None
    else if members[|members| - 1].0 == key then Some(members[|members| - 1].1)
    else
      var r := Lookup(members[..|members| - 1], key);
      assert forall i | 0 <= i < |members| - 1 :: members[..|members| - 1][i] == members[i];
      r
  }

  /** A step of a subscript chain: `[key]` or `[index]`. */
  datatype Step = Key(key: string) | Index(index: nat)

  /** Python's subscript on a decoded value. */
  function Subscript(j: Json, step: Step): (r: Result<Json, PyError>)
    ensures r.Ok? ==> (j.JObj? && step.Key?) || (j.JArr? && step.Index?) || (j.JStr? && step.Index?)
  {
    match (j, step)
    case (JObj(members), Key(k)) => if Lookup(members, k).Some? then Ok(Lookup(members, k).value) else Err(KeyError)
    case (JObj(_), Index(_)) => Err(KeyError)
    case (JArr(items), Index(n)) => if n < |items| then Ok(items[n]) else Err(IndexError)
    case (JStr(s), Index(n)) => if n < |s| then Ok(JStr([s[n]])) else Err(IndexError)
    case _ => Err(TypeError)
  }

  /** A chain of subscripts, failing at the first step that raises. */
  function Path(j: Json, steps: seq<Step>): Result<Json, PyError>
    decreases |steps|
  {
    if steps == [] then Ok(j)
    else
      var next :- Subscript(j, steps[0]);
      Path(next, steps[1..])
  }

  /** Python's `needle in container` for a string needle. */
  function PyIn(needle: string, container: Json): (r: Result<bool, PyError>)
    ensures container.JObj? ==> r == Ok(Lookup(container.members, needle).Some?)
    ensures r.Err? <==> !(container.JObj? || container.JArr? || container.JStr?)
  {
    match container
    case JObj(members) => Ok(Lookup(members, needle).Some?)
    case JArr(items) => Ok(JStr(needle) in items)
    case JStr(s) => Ok(Contains(s, needle))
    case _ => Err(TypeError)
  }

  /** Python's `value.get(key, default)`: only objects have it. */
  function Get(j: Json, key: string, default: Json): (r: Result<Json, PyError>)
    ensures r.Err? <==> !j.JObj?
    ensures j.JObj? && Lookup(j.members, key).Some? ==> r == Ok(Lookup(j.members, key).value)
    ensures j.JObj? && Lookup(j.members, key).None? ==> r == Ok(default)
  {
    match j
    case JObj(members) => Ok(if Lookup(members, key).Some? then Lookup(members, key).value else default)
    case _ => Err(AttributeError)
  }

  const ClaudePath: seq<Step> := [Key("content"), Index(0), Key("text")]
  const ChoicesPath: seq<Step> := [Key("choices"), Index(0), Key("message"), Key("content")]
  const OutputPath: seq<Step> := [Key("output"), Key("message"), Key("content"), Index(0), Key("text")]

  /**
   * The reply text of a model response. The Claude and the OpenAI/Gemma
   * families are read by model id; any other response is read by its shape,
   * falling back to the text rendering `show` of the whole response.
   */
  function ExtractReply(modelId: string, body: Json, show: Json -> string): (r: Result<Json, PyError>)
    ensures Contains(modelId, ClaudeMarker) ==> r == Path(body, ClaudePath)
    ensures !Contains(modelId, ClaudeMarker) && ContainsAny(modelId, MaxTokensMarkers) ==> r == Path(body, ChoicesPath)
  {
    if Contains(modelId, ClaudeMarker) then Path(body, ClaudePath)
    else if Contains(modelId, "openai.gpt") || Contains(modelId, "google.gemma") then
      assert ContainsAny(modelId, MaxTokensMarkers);
      Path(body, ChoicesPath)
    else
      assert !ContainsAny(modelId, MaxTokensMarkers) by {
        assert MaxTokensMarkers[0] == "openai.gpt" && MaxTokensMarkers[1] == "google.gemma";
      }
      var hasOutput :- PyIn("output", body);
      var outputHasMessage :-
        if hasOutput then
          var output :- Subscript(body, Key("output"));
          PyIn("message", output)
        else Ok(false);
      if outputHasMessage then Path(body, OutputPath)
      else
        var hasContent := PyIn("content", body).Extract();
        if hasContent then
          var content :- Subscript(body, Key("content"));
          if content.JArr? then
            var first :- Subscript(content, Index(0));
            Get(first, "text", JStr(show(first)))
          else Ok(content)
        else Ok(JStr(show(body)))
  }

  /** A well-formed Claude response yields its text. */
  lemma ClaudeReplyRead(modelId: string, text: string, show: Json -> string)
    requires Contains(modelId, ClaudeMarker)
    ensures ExtractReply(modelId, JObj([("content", JArr([JObj([("text", JStr(text))])]))]), show) == Ok(JStr(text))
  {
  }

  /** A well-formed OpenAI/Gemma response yields its message content. */
  lemma ChoicesReplyRead(modelId: string, text: string, show: Json -> string)
    requires !Contains(modelId, ClaudeMarker) && ContainsAny(modelId, MaxTokensMarkers)
    ensures ExtractReply(modelId, JObj([("choices", JArr([JObj([("message", JObj([("content", JStr(text))]))])]))]), show)
            == Ok(JStr(text))
  {
  }

  /**
   * A response with an `output` member, for any id outside the two named
   * families: an `output` holding `message` is read along the Nova path, and
   * an `output` that is not a container raises TypeError on the `in` test.
   */
  lemma OutputReplyRead(modelId: string, members: seq<(string, Json)>, show: Json -> string)
    requires !Contains(modelId, ClaudeMarker) && !ContainsAny(modelId, MaxTokensMarkers)
    requires Lookup(members, "output").Some?
    ensures var output := Lookup(members, "output").value;
            && (PyIn("message", output) == Ok(true) ==>
                  ExtractReply(modelId, JObj(members), show) == Path(JObj(members), OutputPath))
            && (PyIn("message", output).Err? ==> ExtractReply(modelId, JObj(members), show) == Err(TypeError))
  {
    assert !Contains(modelId, "openai.gpt") && !Contains(modelId, "google.gemma") by {
      assert MaxTokensMarkers[0] == "openai.gpt" && MaxTokensMarkers[1] == "google.gemma";
    }
  }

  /** The Nova response shape yields its text. */
  lemma NovaReplyRead(modelId: string, text: string, show: Json -> string)
    requires !Contains(modelId, ClaudeMarker) && !ContainsAny(modelId, MaxTokensMarkers)
    ensures var body := JObj([("output", JObj([("message", JObj([("content", JArr([JObj([("text", JStr(text))])]))]))]))]);
            ExtractReply(modelId, body, show) == Ok(JStr(text))
  {
    var members := [("output", JObj([("message", JObj([("content", JArr([JObj([("text", JStr(text))])]))]))]))];
    OutputReplyRead(modelId, members, show);
  }

  /** The family is chosen by id, not by shape: a Nova-shaped response under a Claude id raises KeyError. */
  lemma ShapeIgnoredForClaude(modelId: string, text: string, show: Json -> string)
    requires Contains(modelId, ClaudeMarker)
    ensures var body := JObj([("output", JObj([("message", JObj([("content", JArr([JObj([("text", JStr(text))])]))]))]))]);
            ExtractReply(modelId, body, show) == Err(KeyError)
  {
  }

  /**
   * A response with `content`, and no `output` or an `output` without
   * `message`, is read from its content: a
   * list gives its first element's `text`, or that element's text rendering
   * when it has none (an empty list raises IndexError, a first element that
   * is not an object AttributeError); any other content is the reply as is.
   */
  lemma ContentReplyRead(modelId: string, members: seq<(string, Json)>, show: Json -> string)
    requires !Contains(modelId, ClaudeMarker) && !ContainsAny(modelId, MaxTokensMarkers)
    requires Lookup(members, "output").None? || PyIn("message", Lookup(members, "output").value) == Ok(false)
    requires Lookup(members, "content").Some?
    ensures var content, r := Lookup(members, "content").value, ExtractReply(modelId, JObj(members), show);
            && (!content.JArr? ==> r == Ok(content))
            && (content.JArr? && content.items == [] ==> r == Err(IndexError))
            && (content.JArr? && content.items != [] && !content.items[0].JObj? ==> r == Err(AttributeError))
            && (content.JArr? && content.items != [] && content.items[0].JObj? ==>
                  var first := content.items[0];
                  r == Ok(if Lookup(first.members, "text").Some? then Lookup(first.members, "text").value
                          else JStr(show(first))))
  {
    assert !Contains(modelId, "openai.gpt") && !Contains(modelId, "google.gemma") by {
      assert MaxTokensMarkers[0] == "openai.gpt" && MaxTokensMarkers[1] == "google.gemma";
    }
  }

  /**
   * An object with no `content`, and no `output` or an `output` without
   * `message`, falls back to its text rendering.
   */
  lemma FallbackToRendering(modelId: string, members: seq<(string, Json)>, show: Json -> string)
    requires !Contains(modelId, ClaudeMarker) && !ContainsAny(modelId, MaxTokensMarkers)
    requires Lookup(members, "output").None? || PyIn("message", Lookup(members, "output").value) == Ok(false)
    requires Lookup(members, "content").None?
    ensures ExtractReply(modelId, JObj(members), show) == Ok(JStr(show(JObj(members))))
  {
    assert !Contains(modelId, "openai.gpt") && !Contains(modelId, "google.gemma") by {
      assert MaxTokensMarkers[0] == "openai.gpt" && MaxTokensMarkers[1] == "google.gemma";
    }
  }
}
