/** What the usage of a structured call (src/krepis/llm.py) reports, told from the usage blocks of
    its responses: counter by counter the sum over every response of every dispatch. */
module RetryBilling {
  import opened Prelude
  import opened Usage
  import opened RetryLadder

  /** What a response itself says it used. */
  datatype Part = Prompt | Completion | CacheHits | CacheMisses | Writes1h | Writes | Thinking | Searches | Fetches

  function OpenAiPart(u: OpenAiBlock, p: Part): int {
    match p
    case Prompt => u.promptTokens
    case Completion => u.completionTokens
    case CacheHits => u.cacheHit + if u.cachedDetail.Some? then u.cachedDetail.value else 0
    case CacheMisses => u.cacheMiss
    case Writes1h => 0
    case Writes => 0
    case Thinking => if u.reasoningDetail.Some? then u.reasoningDetail.value else 0
    case Searches => if u.serverToolSearches.Some? then u.serverToolSearches.value else u.flatSearches
    case Fetches => 0
  }

  function AnthropicPart(u: AnthropicBlock, p: Part): int {
    match p
    case Prompt => u.inputTokens
    case Completion => u.outputTokens
    case CacheHits => u.cacheReadInput + u.cacheHit
    case CacheMisses => u.cacheMiss
    case Writes1h => if u.ephemeral1h.Some? then u.ephemeral1h.value else 0
    case Writes => Max(u.cacheCreationInput, if u.ephemeral1h.Some? then u.ephemeral1h.value else 0)
    case Thinking => u.reasoning
    case Searches => if u.serverTool.Some? then u.serverTool.value.0 else 0
    case Fetches => if u.serverTool.Some? then u.serverTool.value.1 else 0
  }

  /** A reply that is no response, or a response without usage, says nothing. */
  function PartOf(r: Reply, p: Part): int {
    if !r.Responded? then 0
    else match r.block
      case OpenAiUsage(Some(u)) => OpenAiPart(u, p)
      case AnthropicUsage(Some(u)) => AnthropicPart(u, p)
      case _ => 0
  }

  function PartSum(oracle: nat -> Reply, n: nat, p: Part): int {
    if n == 0 then 0 else PartSum(oracle, n - 1, p) + PartOf(oracle(n - 1), p)
  }

  /** The cost the provider put into a response. */
  function CostOf(r: Reply): Option<real> {
    if r.Responded? && r.block.OpenAiUsage? && r.block.o.Some? then r.block.o.value.cost else None
  }

  function CostSum(oracle: nat -> Reply, n: nat): real {
    if n == 0 then 0.0
    else CostSum(oracle, n - 1) + if CostOf(oracle(n - 1)).Some? then CostOf(oracle(n - 1)).value else 0.0
  }

  /** The tally reports the first n replies; the cost is unknown only if none of them has one. */
  ghost predicate Reports(t: Tally, oracle: nat -> Reply, n: nat) {
    && t.input == PartSum(oracle, n, Prompt) && t.output == PartSum(oracle, n, Completion)
    && t.cacheRead == PartSum(oracle, n, CacheHits) && t.cacheMiss == PartSum(oracle, n, CacheMisses)
    && t.cacheCreate1h == PartSum(oracle, n, Writes1h)
    && t.cacheCreate + t.cacheCreate1h == PartSum(oracle, n, Writes)
    && t.reasoning == PartSum(oracle, n, Thinking)
    && t.webSearch == PartSum(oracle, n, Searches) && t.webFetch == PartSum(oracle, n, Fetches)
    && (t.costUsd.Some? <==> exists k :: 0 <= k < n && CostOf(oracle(k)).Some?)
    && (t.costUsd.Some? ==> t.costUsd.value == CostSum(oracle, n))
    && (t.costUsd.None? ==> CostSum(oracle, n) == 0.0)
  }

  lemma SpentGrows(oracle: nat -> Reply, n: nat)
    ensures Spent(oracle, 0, n + 1) ==
      if oracle(n).Responded? then Plus(Spent(oracle, 0, n), Contribution(oracle(n))) else Spent(oracle, 0, n)
  {
    if oracle(n).Responded? {
      SumPush(Bills(oracle, 0, n), Contribution(oracle(n)));
    } else {
      assert Bills(oracle, 0, n) + [] == Bills(oracle, 0, n);
    }
  }

  lemma ReportsNext(t: Tally, oracle: nat -> Reply, n: nat)
    requires Reports(t, oracle, n)
    ensures Reports(if oracle(n).Responded? then Plus(t, Contribution(oracle(n))) else t, oracle, n + 1)
  {
  }

  lemma {:induction false} SpentReports(oracle: nat -> Reply, n: nat)
    ensures Reports(Spent(oracle, 0, n), oracle, n)
  {
    if n > 0 {
      SpentReports(oracle, n - 1);
      SpentGrows(oracle, n - 1);
      ReportsNext(Spent(oracle, 0, n - 1), oracle, n - 1);
    }
  }

  /** The usage a call returns, or its error carries, reports every reply of the call. */
  lemma CallReports(wire: Wire, oracle: nat -> Reply, attempts: nat, native: bool, limit: int,
                    escalated: Option<int>)
    requires attempts >= 1
    ensures var (end, requests) := Structured(wire, oracle, attempts, native, limit, escalated);
      end.Result? || end.Failed? ==> Reports(end.usage, oracle, |requests|)
  {
    StructuredAccounting(wire, oracle, attempts, native, limit, escalated);
    SpentReports(oracle, |Structured(wire, oracle, attempts, native, limit, escalated).1|);
  }
}
