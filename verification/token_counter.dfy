/** `TokenCounter` (src/services/token_counter.rs): the local estimate behind
    the count-tokens endpoint. */
module TokenCounter {
  import Json
  import Text
  import opened Base
  import CM = ClaudeMessages
  import CT = CountTokensModel

  /* ---------------------------------------------------------------------
     The per-text estimate
     --------------------------------------------------------------------- */

  /** ceil(x / 40), by counting off forties: the least count whose 40-fold
      reaches `x`. */
  function CeilDiv40(x: nat): (r: nat)
    ensures 40 * r >= x
    ensures r > 0 ==> 40 * (r - 1) < x
  {
    if x == 0 then 0 else if x <= 40 then 1 else 1 + CeilDiv40(x - 40)
  }

  /** `(x + 39) / 40` is the same ceiling. */
  lemma CeilDiv40IsDivision(x: nat)
    ensures CeilDiv40(x) == (x + 39) / 40
  {
    var q := (x + 39) / 40;
    assert 40 * q <= x + 39 < 40 * q + 40;
  }

  /** ceil((chars / 4 + words * 1.3) / 2) read over the reals, which is
      ceil((5 * chars + 26 * words) / 40): the least count whose 40-fold
      reaches 5 * chars + 26 * words. */
  function EstimateFromCounts(chars: nat, words: nat): (r: nat)
    ensures 40 * r >= 5 * chars + 26 * words
    ensures r > 0 ==> 40 * (r - 1) < 5 * chars + 26 * words
  {
    CeilDiv40(5 * chars + 26 * words)
  }

  /** The estimate of one text, from its character and word counts. */
  function Estimate(text: string): nat {
    EstimateFromCounts(|text|, Text.WordCount(text))
  }

  /** A text's estimate is the least count whose 40-fold reaches five per
      character plus twenty-six per `split_whitespace` word. */
  lemma EstimateIsCeiling(text: string)
    ensures var n := Estimate(text);
      var target := 5 * |text| + 26 * |Text.SplitWhitespace(text)|;
      40 * n >= target && (n > 0 ==> 40 * (n - 1) < target)
  {
    Text.WordCountIsSplitLength(text);
  }

  /** `estimate_tokens`: count the characters, count the words in one pass,
      then take the exact integer ceiling of the estimate (the source's f32
      arithmetic is not followed). */
  method EstimateTokens(text: string) returns (n: nat)
    ensures n == Estimate(text)
    ensures n == 0 <==> |text| == 0
  {
    var charCount := |text|;
    var wordCount := Text.CountWords(text);
    n := (5 * charCount + 26 * wordCount + 39) / 40;
    CeilDiv40IsDivision(5 * charCount + 26 * wordCount);
  }

  /** The empty text costs nothing, and any other text at least one token. */
  lemma EstimateZeroExactlyForEmpty(text: string)
    ensures Estimate(text) == 0 <==> text == []
  {
  }

  /** More characters or more words never lower the estimate. */
  lemma EstimateFromCountsMonotone(c1: nat, w1: nat, c2: nat, w2: nat)
    requires c1 <= c2 && w1 <= w2
    ensures EstimateFromCounts(c1, w1) <= EstimateFromCounts(c2, w2)
  {
  }

  /** Extending a text never lowers its estimate. */
  lemma EstimatePrefixMonotone(p: string, s: string)
    requires |p| <= |s| && s[..|p|] == p
    ensures Estimate(p) <= Estimate(s)
  {
    Text.WordsFromPrefixMonotone(p, s, false);
    EstimateFromCountsMonotone(|p|, Text.WordCount(p), |s|, Text.WordCount(s));
  }

  /* ---------------------------------------------------------------------
     The request total, as the source's loops sum it
     --------------------------------------------------------------------- */

  /** `count_content_block_tokens` */
  function BlockTokens(codec: Json.Codec, b: CM.ContentBlock): nat {
    match b
    case Text(text) => Estimate(text)
    case ToolUse(id, name, input) => Estimate(id) + Estimate(name) + Estimate(codec.render(input))
    case ToolResult(toolUseId, content) => Estimate(toolUseId) + Estimate(content)
  }

  function BlocksTokens(codec: Json.Codec, bs: seq<CM.ContentBlock>): nat {
    if |bs| == 0 then 0 else BlocksTokens(codec, bs[..|bs| - 1]) + BlockTokens(codec, bs[|bs| - 1])
  }

  function MessagesTokens(codec: Json.Codec, ms: seq<CM.Message>): nat {
    if |ms| == 0 then 0 else MessagesTokens(codec, ms[..|ms| - 1]) + BlocksTokens(codec, ms[|ms| - 1].content)
  }

  function SystemTokens(ps: seq<CT.SystemPrompt>): nat {
    if |ps| == 0 then 0 else SystemTokens(ps[..|ps| - 1]) + Estimate(ps[|ps| - 1].text)
  }

  /** Schema overhead charged for every tool. */
  const ToolSchemaTokens: nat := 50

  function ToolTokens(t: CM.ToolDefinition): nat {
    Estimate(t.name) + Estimate(t.description) + ToolSchemaTokens
  }

  function ToolsTokens(ts: seq<CM.ToolDefinition>): nat {
    if |ts| == 0 then 0 else ToolsTokens(ts[..|ts| - 1]) + ToolTokens(ts[|ts| - 1])
  }

  function OrEmpty<T>(o: Option<seq<T>>): seq<T> {
    o.GetOr([])
  }

  /** The total `count_tokens` reports. */
  function TotalTokens(codec: Json.Codec, req: CT.ClaudeCountTokensRequest): nat {
    MessagesTokens(codec, OrEmpty(req.messages)) + SystemTokens(OrEmpty(req.system)) + ToolsTokens(OrEmpty(req.tools))
  }

  /** `count_content_block_tokens`, as the source adds the parts. */
  method CountContentBlockTokens(codec: Json.Codec, b: CM.ContentBlock) returns (tokens: nat)
    ensures tokens == BlockTokens(codec, b)
  {
    match b {
      case Text(text) =>
        tokens := EstimateTokens(text);
      case ToolUse(id, name, input) =>
        var forId := EstimateTokens(id);
        var forName := EstimateTokens(name);
        var forInput := EstimateTokens(codec.render(input));
        tokens := forId + forName + forInput;
      case ToolResult(toolUseId, content) =>
        var forId := EstimateTokens(toolUseId);
        var forContent := EstimateTokens(content);
        tokens := forId + forContent;
    }
  }

  /** The loop over the blocks of one message. */
  method CountBlocksTokens(codec: Json.Codec, bs: seq<CM.ContentBlock>) returns (total: nat)
    ensures total == BlocksTokens(codec, bs)
    ensures total == SumEstimates(BlocksTexts(codec, bs))
  {
    total := 0;
    var j := 0;
    while j < |bs|
      invariant 0 <= j <= |bs|
      invariant total == BlocksTokens(codec, bs[..j])
    {
      var n := CountContentBlockTokens(codec, bs[j]);
      total := total + n;
      assert bs[..j + 1][..j] == bs[..j];
      j := j + 1;
    }
    assert bs[..j] == bs;
    BlocksTokensIsSum(codec, bs);
  }

  /** The loop over messages. */
  method CountMessagesTokens(codec: Json.Codec, ms: seq<CM.Message>) returns (total: nat)
    ensures total == MessagesTokens(codec, ms)
    ensures total == SumEstimates(MessagesTexts(codec, ms))
  {
    total := 0;
    var i := 0;
    while i < |ms|
      invariant 0 <= i <= |ms|
      invariant total == MessagesTokens(codec, ms[..i])
    {
      var n := CountBlocksTokens(codec, ms[i].content);
      total := total + n;
      assert ms[..i + 1][..i] == ms[..i];
      i := i + 1;
    }
    assert ms[..i] == ms;
    MessagesTokensIsSum(codec, ms);
  }

  /** The loop over system fragments. */
  method CountSystemTokens(ps: seq<CT.SystemPrompt>) returns (total: nat)
    ensures total == SystemTokens(ps)
    ensures total == SumEstimates(SystemTexts(ps))
  {
    total := 0;
    var k := 0;
    while k < |ps|
      invariant 0 <= k <= |ps|
      invariant total == SystemTokens(ps[..k])
    {
      var n := EstimateTokens(ps[k].text);
      total := total + n;
      assert ps[..k + 1][..k] == ps[..k];
      k := k + 1;
    }
    assert ps[..k] == ps;
    SystemTokensIsSum(ps);
  }

  /** The loop over tools: name, description and the schema overhead. */
  method CountToolsTokens(ts: seq<CM.ToolDefinition>) returns (total: nat)
    ensures total == ToolsTokens(ts)
  {
    total := 0;
    var t := 0;
    while t < |ts|
      invariant 0 <= t <= |ts|
      invariant total == ToolsTokens(ts[..t])
    {
      var n := EstimateTokens(ts[t].name);
      total := total + n;
      n := EstimateTokens(ts[t].description);
      total := total + n;
      total := total + ToolSchemaTokens;
      assert ts[..t + 1][..t] == ts[..t];
      t := t + 1;
    }
    assert ts[..t] == ts;
  }

  /** `count_tokens`: messages, then system fragments, then tools, each
      absent list counting nothing. */
  method CountTokens(codec: Json.Codec, req: CT.ClaudeCountTokensRequest) returns (resp: CT.ClaudeCountTokensResponse)
    ensures resp.inputTokens == TotalTokens(codec, req)
    ensures resp.inputTokens == SumEstimates(CountedTexts(codec, req)) + ToolSchemaTokens * |OrEmpty(req.tools)|
  {
    TotalIsSumOverTexts(codec, req);
    var total: nat := 0;
    var n := CountMessagesTokens(codec, OrEmpty(req.messages));
    total := total + n;
    n := CountSystemTokens(OrEmpty(req.system));
    total := total + n;
    n := CountToolsTokens(OrEmpty(req.tools));
    total := total + n;
    resp := CT.ClaudeCountTokensResponse(total);
  }

  /* ---------------------------------------------------------------------
     The same total, read as one sum over every text the counter looks at
     --------------------------------------------------------------------- */

  /** The texts a block contributes. */
  function BlockTexts(codec: Json.Codec, b: CM.ContentBlock): seq<string> {
    match b
    case Text(text) => [text]
    case ToolUse(id, name, input) => [id, name, codec.render(input)]
    case ToolResult(toolUseId, content) => [toolUseId, content]
  }

  function BlocksTexts(codec: Json.Codec, bs: seq<CM.ContentBlock>): seq<string> {
    if |bs| == 0 then [] else BlocksTexts(codec, bs[..|bs| - 1]) + BlockTexts(codec, bs[|bs| - 1])
  }

  function MessagesTexts(codec: Json.Codec, ms: seq<CM.Message>): seq<string> {
    if |ms| == 0 then [] else MessagesTexts(codec, ms[..|ms| - 1]) + BlocksTexts(codec, ms[|ms| - 1].content)
  }

  function SystemTexts(ps: seq<CT.SystemPrompt>): seq<string> {
    if |ps| == 0 then [] else SystemTexts(ps[..|ps| - 1]) + [ps[|ps| - 1].text]
  }

  function ToolsTexts(ts: seq<CM.ToolDefinition>): seq<string> {
    if |ts| == 0 then [] else ToolsTexts(ts[..|ts| - 1]) + [ts[|ts| - 1].name, ts[|ts| - 1].description]
  }

  /** Every text the counter estimates, in the order it visits them. */
  function CountedTexts(codec: Json.Codec, req: CT.ClaudeCountTokensRequest): seq<string> {
    MessagesTexts(codec, OrEmpty(req.messages)) + SystemTexts(OrEmpty(req.system)) + ToolsTexts(OrEmpty(req.tools))
  }

  function SumEstimates(texts: seq<string>): nat {
    if |texts| == 0 then 0 else SumEstimates(texts[..|texts| - 1]) + Estimate(texts[|texts| - 1])
  }

  lemma SumEstimatesSingle(text: string)
    ensures SumEstimates([text]) == Estimate(text)
  {
    assert [text][..0] == [];
  }

  lemma {:induction false} SumEstimatesAppend(a: seq<string>, b: seq<string>)
    ensures SumEstimates(a + b) == SumEstimates(a) + SumEstimates(b)
    decreases |b|
  {
    if |b| == 0 {
      assert a + b == a;
    } else {
      assert (a + b)[..|a + b| - 1] == a + b[..|b| - 1];
      SumEstimatesAppend(a, b[..|b| - 1]);
    }
  }

  lemma BlockTokensIsSum(codec: Json.Codec, b: CM.ContentBlock)
    ensures BlockTokens(codec, b) == SumEstimates(BlockTexts(codec, b))
  {
    match b {
      case Text(text) =>
        SumEstimatesSingle(text);
      case ToolUse(id, name, input) =>
        var xs := [id, name, codec.render(input)];
        assert xs[..2] == [id, name];
        assert [id, name][..1] == [id];
        SumEstimatesSingle(id);
        assert SumEstimates([id, name]) == Estimate(id) + Estimate(name);
        assert SumEstimates(xs) == SumEstimates([id, name]) + Estimate(codec.render(input));
      case ToolResult(toolUseId, content) =>
        var xs := [toolUseId, content];
        assert xs[..1] == [toolUseId];
        SumEstimatesSingle(toolUseId);
        assert SumEstimates(xs) == Estimate(toolUseId) + Estimate(content);
    }
  }

  lemma {:induction false} BlocksTokensIsSum(codec: Json.Codec, bs: seq<CM.ContentBlock>)
    ensures BlocksTokens(codec, bs) == SumEstimates(BlocksTexts(codec, bs))
    decreases |bs|
  {
    if |bs| > 0 {
      var init := bs[..|bs| - 1];
      BlocksTokensIsSum(codec, init);
      BlockTokensIsSum(codec, bs[|bs| - 1]);
      SumEstimatesAppend(BlocksTexts(codec, init), BlockTexts(codec, bs[|bs| - 1]));
    }
  }

  lemma {:induction false} MessagesTokensIsSum(codec: Json.Codec, ms: seq<CM.Message>)
    ensures MessagesTokens(codec, ms) == SumEstimates(MessagesTexts(codec, ms))
    decreases |ms|
  {
    if |ms| > 0 {
      var init := ms[..|ms| - 1];
      MessagesTokensIsSum(codec, init);
      BlocksTokensIsSum(codec, ms[|ms| - 1].content);
      SumEstimatesAppend(MessagesTexts(codec, init), BlocksTexts(codec, ms[|ms| - 1].content));
    }
  }

  lemma {:induction false} SystemTokensIsSum(ps: seq<CT.SystemPrompt>)
    ensures SystemTokens(ps) == SumEstimates(SystemTexts(ps))
    decreases |ps|
  {
    if |ps| > 0 {
      var init := ps[..|ps| - 1];
      SystemTokensIsSum(init);
      SumEstimatesAppend(SystemTexts(init), [ps[|ps| - 1].text]);
      assert [ps[|ps| - 1].text][..0] == [];
    }
  }

  lemma {:induction false} ToolsTokensIsSum(ts: seq<CM.ToolDefinition>)
    ensures ToolsTokens(ts) == SumEstimates(ToolsTexts(ts)) + ToolSchemaTokens * |ts|
    decreases |ts|
  {
    if |ts| > 0 {
      var init := ts[..|ts| - 1];
      var t := ts[|ts| - 1];
      ToolsTokensIsSum(init);
      SumEstimatesAppend(ToolsTexts(init), [t.name, t.description]);
      assert [t.name, t.description][..1] == [t.name];
      SumEstimatesSingle(t.name);
      assert SumEstimates([t.name, t.description]) == Estimate(t.name) + Estimate(t.description);
      assert ToolsTokens(ts) == ToolsTokens(init) + Estimate(t.name) + Estimate(t.description) + ToolSchemaTokens;
      assert ToolSchemaTokens * |ts| == ToolSchemaTokens * |init| + ToolSchemaTokens;
    }
  }

  /** The total is the sum of the estimates of every text the counter
      visits (message blocks, system fragments, tool names and
      descriptions), plus 50 for each tool. */
  lemma TotalIsSumOverTexts(codec: Json.Codec, req: CT.ClaudeCountTokensRequest)
    ensures TotalTokens(codec, req)
         == SumEstimates(CountedTexts(codec, req)) + ToolSchemaTokens * |OrEmpty(req.tools)|
  {
    var a := MessagesTexts(codec, OrEmpty(req.messages));
    var b := SystemTexts(OrEmpty(req.system));
    var c := ToolsTexts(OrEmpty(req.tools));
    MessagesTokensIsSum(codec, OrEmpty(req.messages));
    SystemTokensIsSum(OrEmpty(req.system));
    ToolsTokensIsSum(OrEmpty(req.tools));
    SumEstimatesAppend(a, b);
    SumEstimatesAppend(a + b, c);
  }

  /** Every system fragment's estimate is part of the system total. */
  lemma {:induction false} SystemTokensCoverEach(ps: seq<CT.SystemPrompt>, k: nat)
    requires k < |ps|
    ensures SystemTokens(ps) >= Estimate(ps[k].text)
    decreases |ps|
  {
    if k < |ps| - 1 {
      SystemTokensCoverEach(ps[..|ps| - 1], k);
      assert ps[..|ps| - 1][k] == ps[k];
    }
  }

  /** The source's second test: a request whose system prompt has some
      non-empty text counts more than zero, whatever else it holds. */
  lemma NonEmptySystemCountsPositive(codec: Json.Codec, req: CT.ClaudeCountTokensRequest, k: nat)
    requires req.system.Some? && k < |req.system.value| && |req.system.value[k].text| > 0
    ensures TotalTokens(codec, req) > 0
  {
    SystemTokensCoverEach(req.system.value, k);
    EstimateZeroExactlyForEmpty(req.system.value[k].text);
  }

  /** Each tool costs at least its fixed schema overhead. */
  lemma {:induction false} ToolsCostAtLeastOverhead(ts: seq<CM.ToolDefinition>)
    ensures ToolsTokens(ts) >= ToolSchemaTokens * |ts|
    decreases |ts|
  {
    if |ts| > 0 {
      ToolsCostAtLeastOverhead(ts[..|ts| - 1]);
    }
  }

  /** Splitting the message list anywhere splits the count. */
  lemma {:induction false} MessagesTokensAppend(codec: Json.Codec, a: seq<CM.Message>, b: seq<CM.Message>)
    ensures MessagesTokens(codec, a + b) == MessagesTokens(codec, a) + MessagesTokens(codec, b)
    decreases |b|
  {
    if |b| == 0 {
      assert a + b == a;
    } else {
      assert (a + b)[..|a + b| - 1] == a + b[..|b| - 1];
      MessagesTokensAppend(codec, a, b[..|b| - 1]);
    }
  }

  /** A request with nothing in it counts 0, whether its lists are absent
      or empty. */
  lemma EmptyRequestCountsZero(codec: Json.Codec, req: CT.ClaudeCountTokensRequest)
    requires req.messages.None? || req.messages == Some([])
    requires req.system.None? || req.system == Some([])
    requires req.tools.None? || req.tools == Some([])
    ensures TotalTokens(codec, req) == 0
  {
  }

  /** A word with no whitespace in it counts once. */
  lemma {:induction false} SingleWordCountsOnce(w: string)
    requires |w| > 0 && Text.NoWhitespace(w)
    ensures Text.WordsFrom(w, false) == 1
  {
    assert w[1..] == w[1..] + "";
    assert Text.NoWhitespace(w[1..]);
    Text.WordsFromInsideWord(w[1..], "");
  }

  /** "Hello, world!" has two words. */
  lemma HelloWorldWordCount()
    ensures Text.WordCount("Hello, world!") == 2
  {
    var s := "Hello, world!";
    assert !Text.IsWhitespace(s[0]);
    assert Text.WordsFrom(s, false) == 1 + Text.WordsFrom(s[1..], true);
    HelloSplits();
    Text.WordsFromInsideWord("ello,", " world!");
    SpaceThenWord();
  }

  lemma HelloSplits()
    ensures "Hello, world!"[1..] == "ello," + " world!"
    ensures Text.NoWhitespace("ello,")
  {
    var w := "ello,";
    forall i | 0 <= i < |w| ensures !Text.IsWhitespace(w[i]) {
      assert w[i] in {'e', 'l', 'o', ','};
    }
  }

  lemma SpaceThenWord()
    ensures Text.WordsFrom(" world!", true) == 1
  {
    var t := " world!";
    assert Text.IsWhitespace(t[0]);
    assert t[1..] == "world!";
    assert Text.NoWhitespace("world!");
    SingleWordCountsOnce("world!");
  }

  /** The source's own test: one user message "Hello, world!" (13 characters,
      2 words) is estimated at 3 tokens, so strictly between 0 and 50. */
  lemma HelloWorldCount(codec: Json.Codec, model: string)
    ensures var req := CT.ClaudeCountTokensRequest(
              model, Some([CM.Message(CM.User, [CM.Text("Hello, world!")])]), None, None);
            TotalTokens(codec, req) == 3 && 0 < TotalTokens(codec, req) < 50
  {
    HelloWorldWordCount();
    assert Estimate("Hello, world!") == 3;
    var bs := [CM.Text("Hello, world!")];
    assert bs[..0] == [];
    assert BlocksTokens(codec, bs) == 3;
    var ms := [CM.Message(CM.User, bs)];
    assert ms[..0] == [];
    assert MessagesTokens(codec, ms) == 3;
  }
}
