/** Token and fee accounting of src/krepis/llm.py: the counters of one logical call, how one
    response is added to them on either wire, and how two tallies are merged. */
module Usage {
  import opened Prelude

  /** The value of an LLMUsage object. */
  datatype Tally = Tally(
    input: int, output: int, cacheRead: int, cacheCreate: int, cacheCreate1h: int, cacheMiss: int,
    reasoning: int, webSearch: int, webFetch: int, escalations: int, attempts: int,
    maxReasoning: nat, costUsd: Option<real>, unknown: bool)

  const ZERO := Tally(0, 0, 0, 0, 0, 0, 0, 0, 0, 0, 0, 0, None, false)

  function AddCost(a: Option<real>, b: Option<real>): Option<real> {
    if b.None? then a else Some((if a.Some? then a.value else 0.0) + b.value)
  }

  /** Two tallies together: counters add, the per-attempt maximum is a maximum, the
      "some usage never arrived" flag is sticky. */
  function Plus(a: Tally, b: Tally): Tally {
    Tally(a.input + b.input, a.output + b.output, a.cacheRead + b.cacheRead,
          a.cacheCreate + b.cacheCreate, a.cacheCreate1h + b.cacheCreate1h, a.cacheMiss + b.cacheMiss,
          a.reasoning + b.reasoning, a.webSearch + b.webSearch, a.webFetch + b.webFetch,
          a.escalations + b.escalations, a.attempts + b.attempts,
          Max(a.maxReasoning, b.maxReasoning), AddCost(a.costUsd, b.costUsd), a.unknown || b.unknown)
  }

  lemma PlusLaws(a: Tally, b: Tally, c: Tally)
    ensures Plus(a, Plus(b, c)) == Plus(Plus(a, b), c)
    ensures Plus(a, b) == Plus(b, a)
    ensures Plus(a, ZERO) == a
  {
  }

  /** The sum of the tallies of several responses, in order. */
  function Sum(ts: seq<Tally>): Tally {
    if ts == [] then ZERO else Plus(Sum(ts[..|ts| - 1]), ts[|ts| - 1])
  }

  lemma SumPush(ts: seq<Tally>, t: Tally)
    ensures Sum(ts + [t]) == Plus(Sum(ts), t)
  {
    assert (ts + [t])[..|ts|] == ts;
  }

  lemma {:induction false} SumSplit(a: seq<Tally>, b: seq<Tally>)
    ensures Sum(a + b) == Plus(Sum(a), Sum(b))
    decreases |b|
  {
    if b == [] {
      assert a + b == a;
      PlusLaws(Sum(a), ZERO, ZERO);
    } else {
      var init, last := b[..|b| - 1], b[|b| - 1];
      SumSplit(a, init);
      SumPush(a + init, last);
      SumPush(init, last);
      assert a + b == (a + init) + [last] && b == init + [last];
      PlusLaws(Sum(a), Sum(init), last);
    }
  }

  /** What a sum says about the tallies behind it: each additive counter is the sum of
      theirs, the maximum bounds each and is one of them (or zero), the flag is set iff one
      of theirs is. */
  lemma {:induction false} SumMeaning(ts: seq<Tally>)
    ensures var s := Sum(ts);
      && (forall i :: 0 <= i < |ts| ==> ts[i].maxReasoning <= s.maxReasoning)
      && (s.maxReasoning > 0 ==> exists i :: 0 <= i < |ts| && ts[i].maxReasoning == s.maxReasoning)
      && (s.unknown <==> exists i :: 0 <= i < |ts| && ts[i].unknown)
      && ((forall i :: 0 <= i < |ts| ==> ts[i].attempts == 1) ==> s.attempts == |ts|)
      && ((forall i :: 0 <= i < |ts| ==> ts[i].escalations == 0) ==> s.escalations == 0)
  {
    if ts != [] {
      var init, last := ts[..|ts| - 1], ts[|ts| - 1];
      SumMeaning(init);
      if Sum(ts).maxReasoning > last.maxReasoning {
        var i :| 0 <= i < |init| && init[i].maxReasoning == Sum(init).maxReasoning;
        assert ts[i] == init[i];
      } else if Sum(ts).maxReasoning > 0 {
        assert ts[|ts| - 1].maxReasoning == Sum(ts).maxReasoning;
      }
      if Sum(init).unknown {
        var i :| 0 <= i < |init| && init[i].unknown;
        assert ts[i] == init[i];
      }
      forall i | 0 <= i < |ts|
        ensures ts[i].maxReasoning <= Sum(ts).maxReasoning
      {
        if i < |init| { assert ts[i] == init[i]; }
      }
    }
  }

  datatype Counter =
    | Input | Output | CacheRead | CacheCreate | CacheCreate1h | CacheMiss
    | Reasoning | WebSearch | WebFetch | Escalations | Attempts

  function Read(t: Tally, c: Counter): int {
    match c
    case Input => t.input
    case Output => t.output
    case CacheRead => t.cacheRead
    case CacheCreate => t.cacheCreate
    case CacheCreate1h => t.cacheCreate1h
    case CacheMiss => t.cacheMiss
    case Reasoning => t.reasoning
    case WebSearch => t.webSearch
    case WebFetch => t.webFetch
    case Escalations => t.escalations
    case Attempts => t.attempts
  }

  function Total(ts: seq<Tally>, c: Counter): int {
    if ts == [] then 0 else Total(ts[..|ts| - 1], c) + Read(ts[|ts| - 1], c)
  }

  /** The costs the provider reported, in order. */
  function Costs(ts: seq<Tally>): seq<real> {
    if ts == [] then []
    else Costs(ts[..|ts| - 1]) + match ts[|ts| - 1].costUsd { case None => [] case Some(c) => [c] }
  }

  function RealSum(xs: seq<real>): real {
    if xs == [] then 0.0 else RealSum(xs[..|xs| - 1]) + xs[|xs| - 1]
  }

  lemma RealSumPush(xs: seq<real>, x: real)
    ensures RealSum(xs + [x]) == RealSum(xs) + x
  {
    assert (xs + [x])[..|xs|] == xs;
  }

  /** Each additive counter of a sum is the sum of that counter, and the provider's cost is
      the sum of the costs reported, or unknown when none was. */
  lemma {:induction false} SumCounters(ts: seq<Tally>, c: Counter)
    ensures Read(Sum(ts), c) == Total(ts, c)
    ensures Sum(ts).costUsd == if Costs(ts) == [] then None else Some(RealSum(Costs(ts)))
  {
    if ts != [] {
      var init, last := ts[..|ts| - 1], ts[|ts| - 1];
      SumCounters(init, c);
      assert Sum(ts).costUsd == AddCost(Sum(init).costUsd, last.costUsd);
      if last.costUsd.Some? {
        RealSumPush(Costs(init), last.costUsd.value);
        assert RealSum([]) == 0.0;
      } else {
        assert Costs(ts) == Costs(init);
      }
    }
  }

  /** The usage block of an OpenAI-wire response, as far as the accounting reads it. */
  datatype OpenAiBlock = OpenAiBlock(
    promptTokens: int, completionTokens: int, reasoningDetail: Option<int>, cachedDetail: Option<int>,
    cacheHit: int, cacheMiss: int, serverToolSearches: Option<int>, flatSearches: int, cost: Option<real>)

  datatype AnthropicBlock = AnthropicBlock(
    inputTokens: int, outputTokens: int, cacheReadInput: int, cacheCreationInput: int,
    ephemeral1h: Option<int>, cacheHit: int, cacheMiss: int, serverTool: Option<(int, int)>, reasoning: int)

  function Or0(x: Option<int>): int { if x.Some? then x.value else 0 }

  /** What one response contributes, with or without a usage block. */
  function OfOpenAi(block: Option<OpenAiBlock>): Tally {
    if block.None? then ZERO.(attempts := 1)
    else
      var u := block.value;
      Tally(u.promptTokens, u.completionTokens, Or0(u.cachedDetail) + u.cacheHit, 0, 0, u.cacheMiss,
            Or0(u.reasoningDetail),
            if u.serverToolSearches.Some? then u.serverToolSearches.value else u.flatSearches,
            0, 0, 1, Max(0, Or0(u.reasoningDetail)), u.cost, false)
  }

  /** cache_create_tokens is the 5-minute slice: the total less the 1-hour slice, never negative. */
  function OfAnthropic(block: Option<AnthropicBlock>): Tally {
    if block.None? then ZERO.(attempts := 1)
    else
      var u := block.value;
      var tools := if u.serverTool.Some? then u.serverTool.value else (0, 0);
      Tally(u.inputTokens, u.outputTokens, u.cacheReadInput + u.cacheHit,
            Max(u.cacheCreationInput - Or0(u.ephemeral1h), 0), Or0(u.ephemeral1h), u.cacheMiss,
            u.reasoning, tools.0, tools.1, 0, 1, Max(0, u.reasoning), None, false)
  }

  /** What an OpenAI-wire usage block adds to each counter, field by field. */
  predicate GrewByOpenAi(before: Tally, after: Tally, u: OpenAiBlock) {
    && after.input == before.input + u.promptTokens && after.output == before.output + u.completionTokens
    && after.cacheRead == before.cacheRead + u.cacheHit + (if u.cachedDetail.Some? then u.cachedDetail.value else 0)
    && after.cacheMiss == before.cacheMiss + u.cacheMiss
    && after.cacheCreate == before.cacheCreate && after.cacheCreate1h == before.cacheCreate1h
    && after.reasoning == before.reasoning + (if u.reasoningDetail.Some? then u.reasoningDetail.value else 0)
    && (u.serverToolSearches.Some? ==> after.webSearch == before.webSearch + u.serverToolSearches.value)
    && (u.serverToolSearches.None? ==> after.webSearch == before.webSearch + u.flatSearches)
    && after.webFetch == before.webFetch
    && (u.cost.None? ==> after.costUsd == before.costUsd)
    && (u.cost.Some? && before.costUsd.None? ==> after.costUsd == Some(u.cost.value))
    && (u.cost.Some? && before.costUsd.Some? ==> after.costUsd == Some(before.costUsd.value + u.cost.value))
  }

  /** The same of an Anthropic one. The two cache-write slices together are the larger of the
      total and the 1-hour slice. */
  predicate GrewByAnthropic(before: Tally, after: Tally, u: AnthropicBlock) {
    var oneHour := if u.ephemeral1h.Some? then u.ephemeral1h.value else 0;
    && after.input == before.input + u.inputTokens && after.output == before.output + u.outputTokens
    && after.cacheRead == before.cacheRead + u.cacheReadInput + u.cacheHit
    && after.cacheMiss == before.cacheMiss + u.cacheMiss
    && after.cacheCreate1h == before.cacheCreate1h + oneHour
    && after.cacheCreate + after.cacheCreate1h
       == before.cacheCreate + before.cacheCreate1h + Max(u.cacheCreationInput, oneHour)
    && after.reasoning == before.reasoning + u.reasoning
    && (u.serverTool.None? ==> after.webSearch == before.webSearch && after.webFetch == before.webFetch)
    && (u.serverTool.Some? ==> after.webSearch == before.webSearch + u.serverTool.value.0
                               && after.webFetch == before.webFetch + u.serverTool.value.1)
    && after.costUsd == before.costUsd
  }

  /** One attempt more, whatever it used; its reasoning counts towards the maximum. */
  predicate OneAttemptMore(before: Tally, after: Tally) {
    && after.attempts == before.attempts + 1 && after.escalations == before.escalations
    && after.maxReasoning == Max(before.maxReasoning, after.reasoning - before.reasoning)
    && after.unknown == before.unknown
  }

  lemma OpenAiGrows(before: Tally, block: Option<OpenAiBlock>)
    ensures var after := Plus(before, OfOpenAi(block));
      && OneAttemptMore(before, after)
      && (block.None? ==> after == before.(attempts := before.attempts + 1))
      && (block.Some? ==> GrewByOpenAi(before, after, block.value))
  {
  }

  lemma AnthropicGrows(before: Tally, block: Option<AnthropicBlock>)
    ensures var after := Plus(before, OfAnthropic(block));
      && OneAttemptMore(before, after)
      && (block.None? ==> after == before.(attempts := before.attempts + 1))
      && (block.Some? ==> GrewByAnthropic(before, after, block.value))
  {
  }

  /** LLMUsage: one mutable tally per logical call, shared by everything that accounts to it. */
  class LLMUsage {
    var tally: Tally

    constructor ()
      ensures tally == ZERO
    {
      tally := ZERO;
    }

    /** _usage_from_openai */
    method AddOpenAi(block: Option<OpenAiBlock>)
      modifies this
      ensures tally == Plus(old(tally), OfOpenAi(block)) && OneAttemptMore(old(tally), tally)
      ensures if block.None? then tally == old(tally).(attempts := old(tally).attempts + 1)
              else GrewByOpenAi(old(tally), tally, block.value)
    {
      OpenAiGrows(tally, block);
      tally := WithOpenAi(block);
    }

    method WithOpenAi(block: Option<OpenAiBlock>) returns (t: Tally)
      ensures t == Plus(tally, OfOpenAi(block))
    {
      t := tally.(attempts := tally.attempts + 1);
      var before := t.reasoning;
      if block.None? { return; }
      var u := block.value;
      t := t.(input := t.input + u.promptTokens, output := t.output + u.completionTokens);
      if u.reasoningDetail.Some? {
        t := t.(reasoning := t.reasoning + u.reasoningDetail.value);
      }
      if u.cachedDetail.Some? {
        t := t.(cacheRead := t.cacheRead + u.cachedDetail.value);
      }
      t := t.(cacheRead := t.cacheRead + u.cacheHit, cacheMiss := t.cacheMiss + u.cacheMiss);
      if u.serverToolSearches.Some? {
        t := t.(webSearch := t.webSearch + u.serverToolSearches.value);
      } else {
        t := t.(webSearch := t.webSearch + u.flatSearches);
      }
      if u.cost.Some? {
        t := t.(costUsd := Some((if t.costUsd.Some? then t.costUsd.value else 0.0) + u.cost.value));
      }
      t := t.(maxReasoning := Max(t.maxReasoning, t.reasoning - before));
    }

    /** _usage_from_anthropic */
    method AddAnthropic(block: Option<AnthropicBlock>)
      modifies this
      ensures tally == Plus(old(tally), OfAnthropic(block)) && OneAttemptMore(old(tally), tally)
      ensures if block.None? then tally == old(tally).(attempts := old(tally).attempts + 1)
              else GrewByAnthropic(old(tally), tally, block.value)
    {
      AnthropicGrows(tally, block);
      tally := WithAnthropic(block);
    }

    method WithAnthropic(block: Option<AnthropicBlock>) returns (t: Tally)
      ensures t == Plus(tally, OfAnthropic(block))
    {
      t := tally.(attempts := tally.attempts + 1);
      var before := t.reasoning;
      if block.None? { return; }
      var u := block.value;
      t := t.(input := t.input + u.inputTokens, output := t.output + u.outputTokens);
      t := t.(cacheRead := t.cacheRead + u.cacheReadInput);
      var oneHour := Or0(u.ephemeral1h);
      t := t.(cacheCreate1h := t.cacheCreate1h + oneHour);
      t := t.(cacheCreate := t.cacheCreate + Max(u.cacheCreationInput - oneHour, 0));
      if u.cacheHit != 0 { t := t.(cacheRead := t.cacheRead + u.cacheHit); }
      if u.cacheMiss != 0 { t := t.(cacheMiss := t.cacheMiss + u.cacheMiss); }
      if u.serverTool.Some? {
        t := t.(webSearch := t.webSearch + u.serverTool.value.0,
                        webFetch := t.webFetch + u.serverTool.value.1);
      }
      t := t.(reasoning := t.reasoning + u.reasoning);
      t := t.(maxReasoning := Max(t.maxReasoning, t.reasoning - before));
    }

    /** _absorb_usage: merges another tally, if there is one, into this one. */
    method Absorb(other: LLMUsage?)
      modifies this
      ensures tally == if other == null then old(tally) else Plus(old(tally), old(other.tally))
    {
      if other == null { return; }
      var o := other.tally;
      var t := tally;
      t := t.(input := t.input + o.input, output := t.output + o.output,
              cacheRead := t.cacheRead + o.cacheRead, cacheCreate := t.cacheCreate + o.cacheCreate,
              cacheCreate1h := t.cacheCreate1h + o.cacheCreate1h, cacheMiss := t.cacheMiss + o.cacheMiss,
              reasoning := t.reasoning + o.reasoning, webSearch := t.webSearch + o.webSearch,
              webFetch := t.webFetch + o.webFetch, escalations := t.escalations + o.escalations,
              attempts := t.attempts + o.attempts);
      t := t.(maxReasoning := Max(t.maxReasoning, o.maxReasoning));
      if o.costUsd.Some? {
        t := t.(costUsd := Some((if t.costUsd.Some? then t.costUsd.value else 0.0) + o.costUsd.value));
      }
      if o.unknown { t := t.(unknown := true); }
      tally := t;
    }
  }
}
