/** LLMClient.structured as its loops run (src/krepis/llm.py), over a transport whose replies an
    adversary chooses: the methods send the requests, and end as, the ladder says. */
module RetryClient {
  import opened Prelude
  import opened Usage
  import opened RetryLadder
  import opened RetryOutcomes

  class Transport {
    const oracle: nat -> Reply
    var sent: seq<Request>

    method Send(q: Request) returns (r: Reply)
      modifies this
      ensures r == oracle(|old(sent)|) && sent == old(sent) + [q]
    {
      r := oracle(|sent|);
      sent := sent + [q];
    }
  }

  /** The bookkeeping after one response, on either wire. */
  method Account(usage: LLMUsage, r: Reply)
    requires r.Responded?
    modifies usage
    ensures usage.tally == Plus(old(usage.tally), Contribution(r))
  {
    match r.block {
      case OpenAiUsage(o) => usage.AddOpenAi(o);
      case AnthropicUsage(a) => usage.AddAnthropic(a);
    }
    if !r.reported { usage.tally := usage.tally.(unknown := true); }
  }

  /** The state of a dispatch that began with before sent and its own usage at zero. */
  ghost predicate UnderWay(wire: Wire, t: Transport, usage: LLMUsage, before: seq<Request>, native: bool, ceiling: int)
    reads t, usage
  {
    && |before| <= |t.sent|
    && t.sent == before + Requests(wire, t.oracle, |before|, |t.sent|, native, ceiling)
    && usage.tally == Spent(t.oracle, |before|, |t.sent|)
  }

  lemma NextRequestStep(wire: Wire, oracle: nat -> Reply, a: nat, b: nat, native: bool, ceiling: int)
    requires a <= b
    ensures var (q, kind) := (NextRequest(wire, oracle, a, b, native, ceiling), KindOf(wire, oracle(b)));
      NextRequest(wire, oracle, a, b + 1, native, ceiling) ==
      Request(ceiling, q.native && kind != Refusal,
              if kind == Refusal then 0 else q.corrections + if Corrigible(wire, oracle(b)) then 1 else 0)
  {
  }

  lemma RequestsPush(before: seq<Request>, wire: Wire, oracle: nat -> Reply, a: nat, b: nat, native: bool,
                     ceiling: int)
    requires a <= b
    ensures before + Requests(wire, oracle, a, b + 1, native, ceiling)
      == before + Requests(wire, oracle, a, b, native, ceiling) + [NextRequest(wire, oracle, a, b, native, ceiling)]
  {
  }

  /** What is left of a ladder after a reply of a kind, at call k. */
  function Onward(wire: Wire, oracle: nat -> Reply, k: nat, left: nat, mayDescend: bool, kind: Kind): (End, nat)
    requires left >= 1
  {
    match kind
    case Accepted => (Succeeded, k)
    case Exhausting => (BudgetExhausted, k)
    case Fatal => (Escaped, k)
    case Retryable => Ladder(wire, oracle, k, left - 1, mayDescend)
    case Refusal => if mayDescend then Ladder(wire, oracle, k, left, false) else (Escaped, k)
  }

  lemma LadderGoesOn(wire: Wire, oracle: nat -> Reply, k: nat, left: nat, mayDescend: bool)
    requires left >= 1
    ensures Ladder(wire, oracle, k, left, mayDescend)
      == Onward(wire, oracle, k + 1, left, mayDescend, KindOf(wire, oracle(k)))
  {
  }

  /** One pass of either loop: a call, its accounting, what kind of reply it was, and how
      many corrective turns the next request carries. */
  method TryOnce(wire: Wire, q: Request, t: Transport, usage: LLMUsage, ghost before: seq<Request>, ghost native: bool,
                 ghost want: (End, nat), ghost left: nat) returns (kind: Kind, corrections: nat)
    requires left >= 1 && want == Ladder(wire, t.oracle, |t.sent|, left, q.native)
    requires UnderWay(wire, t, usage, before, native, q.ceiling)
    requires q == NextRequest(wire, t.oracle, |before|, |t.sent|, native, q.ceiling)
    modifies t, usage
    ensures want == Onward(wire, t.oracle, |t.sent|, left, q.native, kind)
    ensures NextRequest(wire, t.oracle, |before|, |t.sent|, native, q.ceiling)
      == Request(q.ceiling, q.native && kind != Refusal, corrections)
    ensures UnderWay(wire, t, usage, before, native, q.ceiling)
  {
    LadderGoesOn(wire, t.oracle, |t.sent|, left, q.native);
    NextRequestStep(wire, t.oracle, |before|, |t.sent|, native, q.ceiling);
    RequestsPush(before, wire, t.oracle, |before|, |t.sent|, native, q.ceiling);
    var r := Call(q, t, usage, |before|);
    kind := KindOf(wire, r);
    corrections := if kind == Refusal then 0 else q.corrections + if Corrigible(wire, r) then 1 else 0;
  }

  method Call(q: Request, t: Transport, usage: LLMUsage, ghost start: nat) returns (r: Reply)
    requires start <= |t.sent| && usage.tally == Spent(t.oracle, start, |t.sent|)
    modifies t, usage
    ensures r == t.oracle(|old(t.sent)|) && t.sent == old(t.sent) + [q]
    ensures usage.tally == Spent(t.oracle, start, |t.sent|)
  {
    ghost var bills := Bills(t.oracle, start, |t.sent|);
    r := t.Send(q);
    assert bills + [] == bills;
    if r.Responded? {
      SumPush(bills, Contribution(r));
      Account(usage, r);
    }
  }

  /** _structured_openai: the loop raises its own bound once, on the one descent. */
  method StructuredOpenAi(t: Transport, attempts: nat, native: bool, ceiling: int)
    returns (end: End, usage: LLMUsage)
    requires attempts >= 1
    modifies t
    ensures fresh(usage)
    ensures (end, |t.sent|) == Ladder(OpenAi, t.oracle, |old(t.sent)|, attempts, native)
    ensures UnderWay(OpenAi, t, usage, old(t.sent), native, ceiling)
  {
    usage := new LLMUsage();
    ghost var before, want := t.sent, Ladder(OpenAi, t.oracle, |t.sent|, attempts, native);
    var q, descended := Request(ceiling, native, 0), false;
    var budget: int, attempt: int := attempts, -1;
    while attempt + 1 < budget
      invariant -1 <= attempt < budget && fresh(usage) && (descended ==> !q.native)
      invariant UnderWay(OpenAi, t, usage, before, native, ceiling)
      invariant q == NextRequest(OpenAi, t.oracle, |before|, |t.sent|, native, ceiling)
      invariant want == Ladder(OpenAi, t.oracle, |t.sent|, budget - (attempt + 1), q.native)
      decreases budget - attempt, q.native
    {
      attempt := attempt + 1;
      var kind, corrections := TryOnce(OpenAi, q, t, usage, before, native, want, budget - attempt);
      match kind {
        case Accepted => return Succeeded, usage;
        case Exhausting => return BudgetExhausted, usage;
        case Fatal => return Escaped, usage;
        case Retryable => q := q.(corrections := corrections);
        case Refusal =>
          if !(q.native && !descended) { return Escaped, usage; }
          descended := true;
          budget := budget + 1;
          q := Request(ceiling, false, corrections);
      }
    }
    end := AttemptsExhausted;
  }

  /** _structured_anthropic: no rung to descend to, and nothing of the transport is retried. */
  method StructuredAnthropic(t: Transport, attempts: nat, ceiling: int) returns (end: End, usage: LLMUsage)
    requires attempts >= 1
    modifies t
    ensures fresh(usage)
    ensures (end, |t.sent|) == Ladder(Anthropic, t.oracle, |old(t.sent)|, attempts, false)
    ensures UnderWay(Anthropic, t, usage, old(t.sent), false, ceiling)
  {
    usage := new LLMUsage();
    ghost var before, want := t.sent, Ladder(Anthropic, t.oracle, |t.sent|, attempts, false);
    var attempt, q := 0, Request(ceiling, false, 0);
    while attempt < attempts
      invariant 0 <= attempt <= attempts && fresh(usage)
      invariant UnderWay(Anthropic, t, usage, before, false, ceiling)
      invariant q == NextRequest(Anthropic, t.oracle, |before|, |t.sent|, false, ceiling)
      invariant want == Ladder(Anthropic, t.oracle, |t.sent|, attempts - attempt, false)
    {
      var kind, corrections := TryOnce(Anthropic, q, t, usage, before, false, want, attempts - attempt);
      if kind.Accepted? { return Succeeded, usage; }
      if kind.Exhausting? { return BudgetExhausted, usage; }
      if !kind.Retryable? { return Escaped, usage; }
      q := q.(corrections := corrections);
      attempt := attempt + 1;
    }
    end := AttemptsExhausted;
  }

  method Dispatch(wire: Wire, t: Transport, attempts: nat, native: bool, ceiling: int)
    returns (end: End, usage: LLMUsage)
    requires attempts >= 1 && (wire.Anthropic? ==> !native)
    modifies t
    ensures fresh(usage)
    ensures (end, |t.sent|) == Ladder(wire, t.oracle, |old(t.sent)|, attempts, native)
    ensures UnderWay(wire, t, usage, old(t.sent), native, ceiling)
  {
    match wire {
      case OpenAi => end, usage := StructuredOpenAi(t, attempts, native, ceiling);
      case Anthropic => end, usage := StructuredAnthropic(t, attempts, ceiling);
    }
  }

  method SettleUsage(second: End, usage: LLMUsage, exhausted: LLMUsage) returns (end: CallEnd)
    requires usage != exhausted
    modifies usage
    ensures end == Settle(second, old(usage.tally), old(exhausted.tally))
  {
    if second.Escaped? { return OtherError; }
    if second.Succeeded? {
      usage.tally := usage.tally.(escalations := usage.tally.escalations + 1);
      usage.Absorb(exhausted);
      return Result(usage.tally);
    }
    usage.Absorb(exhausted);
    end := EndOf(second, usage.tally);
  }

  /** The dispatch, and the one escalation of an exhausted budget. */
  method DispatchTwice(wire: Wire, t: Transport, attempts: nat, native: bool, limit: nat, escalated: Option<int>)
    returns (end: CallEnd)
    requires attempts >= 1 && t.sent == [] && (wire.Anthropic? ==> !native)
    modifies t
    ensures (end, t.sent) == Structured(wire, t.oracle, attempts, native, limit, escalated)
  {
    var first, usage := Dispatch(wire, t, attempts, native, limit);
    assert t.sent == Requests(wire, t.oracle, 0, |t.sent|, native, limit);
    if !first.BudgetExhausted? { return EndOf(first, usage.tally); }
    if escalated.None? { return EndOf(first, usage.tally); }
    var second, usage2 := Dispatch(wire, t, attempts, native, escalated.value);
    end := SettleUsage(second, usage2, usage);
  }

  /** structured; limit is the first ceiling, factor the client's escalation factor. It
      returns a result exactly if the last reply is an answer, fails for want of budget
      exactly if that is out of budget, otherwise fails exactly if that is a failed attempt,
      and asks nothing after an answer. */
  method StructuredCall(wire: Wire, t: Transport, attempts: nat, native: bool, limit: nat, factor: real)
    returns (end: CallEnd)
    requires attempts >= 1 && t.sent == [] && (wire.Anthropic? ==> !native)
    modifies t
    ensures (end, t.sent) == Structured(wire, t.oracle, attempts, native, limit, EscalatedBudget(limit, factor))
    ensures t.sent != [] && CallEndsBy(end, wire, t.oracle(|t.sent| - 1))
    ensures forall i :: 0 <= i < |t.sent| - 1 ==> !Answers(wire, t.oracle(i))
  {
    var escalated := EscalatedBudget(limit, factor);
    FirstAnswerReturns(wire, t.oracle, attempts, native, limit, escalated);
    end := DispatchTwice(wire, t, attempts, native, limit, escalated);
  }
}
