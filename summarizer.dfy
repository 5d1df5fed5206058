/** `summarize_article_with_bedrock`: builds a prompt from an article, sends
    it to the configured Bedrock model and returns the summary, a sentinel
    for an article without content, or an error text; it never raises.
    `invoke_model` together with the decoding of its response body is the
    parameter `invoke`, which gives the decoded body or the text of the
    exception it raised. */
module Summarizer {
  import opened PyValues

  const NoContent := "No content available for summarization."
  const ErrorPrefix := "Error generating summary: "
  const AnthropicVersion := "bedrock-2023-05-31"
  const MaxTokens := 1000

  /** The prompt: the English or the Japanese template (their wording is
      not part of this model) filled with the article's title, source and
      content as an f-string renders them. */
  datatype Prompt = Prompt(japanese: bool, title: string, source: string, content: string)

  datatype ChatMessage = ChatMessage(role: string, content: Prompt)

  /** The two request bodies: the Anthropic messages shape and the flat
      prompt shape used for every other model. */
  datatype RequestBody =
    | Messages(anthropicVersion: string, maxTokens: int, messages: seq<ChatMessage>)
    | Flat(prompt: Prompt, maxTokens: int)

  type Invoker = (string, RequestBody) -> Result<Json>

  /** Lower-casing of one character. Only ASCII letters are mapped: no
      other character lower-cases to one of the letters of "claude". */
  function LowerChar(c: char): char {
    if 'A' <= c <= 'Z' then (c as int + 32) as char else c
  }

  function Lower(s: string): (r: string)
    ensures |r| == |s|
    ensures forall i :: 0 <= i < |s| ==> r[i] == LowerChar(s[i])
  {
    if s == [] then [] else [LowerChar(s[0])] + Lower(s[1..])
  }

  /** `needle in hay` for strings: the scan at each start position. */
  function Contains(hay: string, needle: string): bool
    decreases |hay|
  {
    if |hay| < |needle| then false
    else hay[..|needle|] == needle || Contains(hay[1..], needle)
  }

  /** `"claude" in model_id.lower()` */
  predicate IsClaude(modelId: string) {
    Contains(Lower(modelId), "claude")
  }

  /** `needle` occurs in `hay` starting at position `i`. */
  predicate OccursAt(hay: string, needle: string, i: nat) {
    i + |needle| <= |hay| && hay[i..i + |needle|] == needle
  }

  /** The scan finds the needle exactly when it occurs at some position. */
  lemma {:induction false} ContainsIffOccurs(hay: string, needle: string)
    ensures Contains(hay, needle) <==> exists i: nat :: OccursAt(hay, needle, i)
    decreases |hay|
  {
    if |hay| < |needle| {
      forall i: nat ensures !OccursAt(hay, needle, i) { }
    } else if hay[..|needle|] == needle {
      assert OccursAt(hay, needle, 0);
    } else {
      ContainsIffOccurs(hay[1..], needle);
      if Contains(hay[1..], needle) {
        var i: nat :| OccursAt(hay[1..], needle, i);
        assert hay[i + 1..i + 1 + |needle|] == hay[1..][i..i + |needle|];
        assert OccursAt(hay, needle, i + 1);
      }
      if exists i: nat :: OccursAt(hay, needle, i) {
        var i: nat :| OccursAt(hay, needle, i);
        assert i != 0;
        assert hay[1..][i - 1..i - 1 + |needle|] == hay[i..i + |needle|];
        assert OccursAt(hay[1..], needle, i - 1);
      }
    }
  }

  /** The six characters of `modelId` at position `i` spell "claude" in
      some mix of upper and lower case. */
  predicate SpellsClaudeAt(modelId: string, i: nat) {
    i + 6 <= |modelId| && Lower(modelId[i..i + 6]) == "claude"
  }

  /** A model id selects the Anthropic request shape exactly when some
      window of it spells "claude" in any mix of upper and lower case. */
  lemma ClaudeIffMentioned(modelId: string)
    ensures IsClaude(modelId) <==> exists i: nat :: SpellsClaudeAt(modelId, i)
  {
    var low := Lower(modelId);
    ContainsIffOccurs(low, "claude");
    forall i: nat | i + 6 <= |modelId|
      ensures OccursAt(low, "claude", i) <==> SpellsClaudeAt(modelId, i)
    {
      assert low[i..i + 6] == Lower(modelId[i..i + 6]);
    }
    if IsClaude(modelId) {
      var i: nat :| OccursAt(low, "claude", i);
      assert SpellsClaudeAt(modelId, i);
    }
    if exists i: nat :: SpellsClaudeAt(modelId, i) {
      var i: nat :| SpellsClaudeAt(modelId, i);
      assert OccursAt(low, "claude", i);
    }
  }

  /** The request body for a prompt under a model id. */
  function BuildRequest(modelId: string, prompt: Prompt): (r: RequestBody)
    ensures r.maxTokens == MaxTokens
    ensures r.Messages? <==> IsClaude(modelId)
    ensures r.Messages? ==> r.anthropicVersion == AnthropicVersion &&
                            r.messages == [ChatMessage("user", prompt)]
    ensures r.Flat? ==> r.prompt == prompt
  {
    if IsClaude(modelId) then Messages(AnthropicVersion, MaxTokens, [ChatMessage("user", prompt)])
    else Flat(prompt, MaxTokens)
  }

  function ContentOf(article: Dict): Json {
    GetOr(article, "content", JStr(""))
  }

  /** The request sent for an article, or None when its content is empty
      or missing and no call is made. */
  function Request(article: Dict, modelId: string): (r: Option<RequestBody>)
    ensures r.None? <==> !Truthy(ContentOf(article))
  {
    var content := ContentOf(article);
    if !Truthy(content) then None
    else
      var prompt := Prompt(GetOr(article, "language", JStr("en")) == JStr("ja"),
                           Show(GetOr(article, "title", JStr(""))),
                           Show(GetOr(article, "source", JStr(""))),
                           Show(content));
      Some(BuildRequest(modelId, prompt))
  }

  /** The Anthropic response holds `content`, a non-empty list whose first
      item is a dict with a `text` member. */
  predicate HasText(body: Json) {
    && body.JObj?
    && Lookup(body.members, "content").Some?
    && Lookup(body.members, "content").value.JList?
    && |Lookup(body.members, "content").value.items| > 0
    && Lookup(body.members, "content").value.items[0].JObj?
    && Lookup(Lookup(body.members, "content").value.items[0].members, "text").Some?
  }

  /** `response_body['content'][0]['text']` for the Anthropic shape,
      `response_body.get('completion', '')` for the flat one. */
  function ParseResponse(claude: bool, body: Json): (r: Result<Json>)
    ensures claude ==> (r.Ok? <==> HasText(body))
    ensures claude && HasText(body) ==>
              r == Ok(Lookup(Lookup(body.members, "content").value.items[0].members, "text").value)
    ensures !claude && body.JObj? ==> r == Ok(GetOr(body.members, "completion", JStr("")))
    ensures !claude && !body.JObj? ==> r.Err?
  {
    if claude then
      match Subscript(body, Name("content"))
      case Err(e) => Err(e)
      case Ok(content) =>
        match Subscript(content, Index(0))
        case Err(e) => Err(e)
        case Ok(first) => Subscript(first, Name("text"))
    else if body.JObj? then Ok(GetOr(body.members, "completion", JStr("")))
    else Err("'" + TypeName(body) + "' object has no attribute 'get'")
  }

  /** The value `summarize_article_with_bedrock` returns. */
  function Summarize(article: Dict, modelId: string, invoke: Invoker): (r: Json)
    ensures !Truthy(ContentOf(article)) ==> r == JStr(NoContent)
    ensures Truthy(ContentOf(article)) && invoke(modelId, Request(article, modelId).value).Err? ==>
              r == JStr(ErrorPrefix + invoke(modelId, Request(article, modelId).value).msg)
  {
    match Request(article, modelId)
    case None => JStr(NoContent)
    case Some(body) =>
      match invoke(modelId, body)
      case Err(e) => JStr(ErrorPrefix + e)
      case Ok(response) =>
        match ParseResponse(IsClaude(modelId), response)
        case Err(e) => JStr(ErrorPrefix + e)
        case Ok(summary) => summary
  }

  /** Summarisation never raises: the result is the sentinel, the text of
      a raised exception behind the error prefix, or the value the
      response holds; and the sentinel comes without a call to the model,
      so no backend can change it. */
  lemma SummarizeOutcomes(article: Dict, modelId: string, invoke: Invoker, other: Invoker)
    ensures !Truthy(ContentOf(article)) ==>
              Summarize(article, modelId, invoke) == Summarize(article, modelId, other) == JStr(NoContent)
    ensures Truthy(ContentOf(article)) ==>
              var body := Request(article, modelId).value;
              var response := invoke(modelId, body);
              || (response.Err? && Summarize(article, modelId, invoke) == JStr(ErrorPrefix + response.msg))
              || (response.Ok? && ParseResponse(IsClaude(modelId), response.value).Err? &&
                  Summarize(article, modelId, invoke) ==
                    JStr(ErrorPrefix + ParseResponse(IsClaude(modelId), response.value).msg))
              || (response.Ok? && ParseResponse(IsClaude(modelId), response.value).Ok? &&
                  Summarize(article, modelId, invoke) == ParseResponse(IsClaude(modelId), response.value).value)
  {
  }

  /** An article in Japanese gets the Japanese template, any other
      language tag (or none) the English one. */
  lemma PromptLanguage(article: Dict, modelId: string)
    requires Truthy(ContentOf(article))
    ensures var body := Request(article, modelId).value;
            var prompt := if body.Messages? then body.messages[0].content else body.prompt;
            prompt.japanese <==> Lookup(article, "language") == Some(JStr("ja"))
  {
  }
}
