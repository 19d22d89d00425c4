/** The bounded retry ladder of LLMClient.structured (src/krepis/llm.py): corrective retries,
    one rung descent, one escalation of an exhausted budget. What the provider answers to
    each transport call is chosen by an adversary. */
module RetryLadder {
  import opened Prelude
  import opened Usage

  datatype Wire = OpenAi | Anthropic

  datatype Block = OpenAiUsage(o: Option<OpenAiBlock>) | AnthropicUsage(a: Option<AnthropicBlock>)

  /** The part of a response the ladder looks at. On the Anthropic wire "empty" means that
      the forced tool call is missing and "atLimit" that stop_reason is max_tokens. */
  datatype Body = NoChoices | Choice(empty: bool, atLimit: bool, servedModelKnown: bool, valid: bool)

  datatype Reply =
    | Responded(block: Block, reported: bool, body: Body)
    | NotJson                        // a success for the SDK whose body is not JSON
    | Raised(refusesFormat: bool)    // any other exception of the transport call

  /** What the ladder makes of one reply. */
  datatype Kind = Accepted | Retryable | Refusal | Exhausting | Fatal

  function KindOf(wire: Wire, r: Reply): Kind {
    match r
    case NotJson => if wire.OpenAi? then Retryable else Fatal
    case Raised(refuses) => if wire.OpenAi? && refuses then Refusal else Fatal
    case Responded(_, _, NoChoices) => Retryable
    case Responded(_, _, Choice(empty, atLimit, served, valid)) =>
      if empty && atLimit then Exhausting
      else if wire.OpenAi? && !served then Fatal
      else if valid && !empty then Accepted
      else Retryable
  }

  /** What one response contributes; a streamed one may not have reported its usage. */
  function Contribution(r: Reply): Tally
    requires r.Responded?
  {
    (if r.block.OpenAiUsage? then OfOpenAi(r.block.o) else OfAnthropic(r.block.a)).(unknown := !r.reported)
  }

  /** One tally for each response among the transport calls numbered from a up to b. */
  function Bills(oracle: nat -> Reply, a: nat, b: nat): seq<Tally>
    decreases b - a
  {
    if b <= a then []
    else Bills(oracle, a, b - 1) + if oracle(b - 1).Responded? then [Contribution(oracle(b - 1))] else []
  }

  lemma {:induction false} BillsSplit(oracle: nat -> Reply, a: nat, b: nat, c: nat)
    requires a <= b <= c
    ensures Bills(oracle, a, c) == Bills(oracle, a, b) + Bills(oracle, b, c)
    decreases c - b
  {
    if b < c { BillsSplit(oracle, a, b, c - 1); }
  }

  lemma ContributionShape(r: Reply)
    requires r.Responded?
    ensures Contribution(r).attempts == 1 && Contribution(r).escalations == 0
    ensures Contribution(r).unknown == !r.reported
    ensures Contribution(r).maxReasoning == Max(0, Contribution(r).reasoning)
  {
  }

  lemma {:induction false} BillsShape(oracle: nat -> Reply, a: nat, b: nat)
    ensures forall i :: 0 <= i < |Bills(oracle, a, b)| ==>
      Bills(oracle, a, b)[i].attempts == 1 && Bills(oracle, a, b)[i].escalations == 0
    ensures (exists i :: 0 <= i < |Bills(oracle, a, b)| && Bills(oracle, a, b)[i].unknown) <==>
      exists k :: a <= k < b && oracle(k).Responded? && !oracle(k).reported
    decreases b - a
  {
    if a < b {
      BillsShape(oracle, a, b - 1);
      var before, all := Bills(oracle, a, b - 1), Bills(oracle, a, b);
      if oracle(b - 1).Responded? {
        ContributionShape(oracle(b - 1));
        assert all[|all| - 1] == Contribution(oracle(b - 1));
      }
      assert forall i :: 0 <= i < |before| ==> all[i] == before[i];
    }
  }

  function Spent(oracle: nat -> Reply, a: nat, b: nat): Tally { Sum(Bills(oracle, a, b)) }

  // ── one dispatch ──

  datatype End = Succeeded | BudgetExhausted | AttemptsExhausted | Escaped

  /** The ladder in terms of failures still allowed: call number k, left failures to go. */
  function Ladder(wire: Wire, oracle: nat -> Reply, k: nat, left: nat, mayDescend: bool): (End, nat)
    decreases left, mayDescend
  {
    if left == 0 then (AttemptsExhausted, k)
    else match KindOf(wire, oracle(k))
      case Accepted => (Succeeded, k + 1)
      case Exhausting => (BudgetExhausted, k + 1)
      case Fatal => (Escaped, k + 1)
      case Retryable => Ladder(wire, oracle, k + 1, left - 1, mayDescend)
      case Refusal =>
        if mayDescend then Ladder(wire, oracle, k + 1, left, false) else (Escaped, k + 1)
  }

  function Count(wire: Wire, oracle: nat -> Reply, a: nat, b: int, kind: Kind): nat
    decreases b - a
  {
    if b <= a then 0 else (if KindOf(wire, oracle(a)) == kind then 1 else 0) + Count(wire, oracle, a + 1, b, kind)
  }

  /** What a request asks for: its ceiling, its rung, and how many corrective turns follow
      the original question. */
  datatype Request = Request(ceiling: int, native: bool, corrections: nat)

  /** A response that failed validation, as opposed to a body that was no response at all. */
  predicate Corrigible(wire: Wire, r: Reply) {
    KindOf(wire, r) == Retryable && r.Responded? && (r.body.Choice? || wire.Anthropic?)
  }

  /** Failed validations among the calls from a up to b, since the last refusal: a descent
      starts the conversation again. */
  function Corrections(wire: Wire, oracle: nat -> Reply, a: nat, b: int): nat
    decreases b - a
  {
    if b <= a then 0
    else if KindOf(wire, oracle(b - 1)) == Refusal then 0
    else Corrections(wire, oracle, a, b - 1) + if Corrigible(wire, oracle(b - 1)) then 1 else 0
  }

  function Refused(wire: Wire, oracle: nat -> Reply, a: nat, b: int): bool
    decreases b - a
  {
    b > a && (KindOf(wire, oracle(b - 1)) == Refusal || Refused(wire, oracle, a, b - 1))
  }

  /** What call number b of a dispatch that began with call a asks for. */
  function NextRequest(wire: Wire, oracle: nat -> Reply, a: nat, b: int, native: bool, ceiling: int): Request {
    Request(ceiling, native && !Refused(wire, oracle, a, b), Corrections(wire, oracle, a, b))
  }

  /** The requests of one dispatch, calls a up to b. */
  function Requests(wire: Wire, oracle: nat -> Reply, a: nat, b: nat, native: bool, ceiling: int): (r: seq<Request>)
    ensures |r| == if b <= a then 0 else b - a
    decreases b - a
  {
    if b <= a then []
    else
      Requests(wire, oracle, a, b - 1, native, ceiling)
      + [NextRequest(wire, oracle, a, b - 1, native, ceiling)]
  }

  lemma {:induction false} RequestsMeaning(wire: Wire, oracle: nat -> Reply, a: nat, b: nat, native: bool,
                                           ceiling: int, i: nat)
    requires a <= i < b
    ensures var q := Requests(wire, oracle, a, b, native, ceiling)[i - a];
      && q.ceiling == ceiling
      && (q.native <==> native && forall j :: a <= j < i ==> KindOf(wire, oracle(j)) != Refusal)
      && q.corrections <= i - a
    decreases b - a
  {
    if i < b - 1 {
      RequestsMeaning(wire, oracle, a, b - 1, native, ceiling, i);
    } else {
      RefusedMeaning(wire, oracle, a, i);
      FewCorrections(wire, oracle, a, i);
    }
  }

  lemma {:induction false} RefusedMeaning(wire: Wire, oracle: nat -> Reply, a: nat, b: nat)
    ensures Refused(wire, oracle, a, b) <==> exists j :: a <= j < b && KindOf(wire, oracle(j)) == Refusal
    decreases b - a
  {
    if a < b { RefusedMeaning(wire, oracle, a, b - 1); }
  }

  lemma {:induction false} FewCorrections(wire: Wire, oracle: nat -> Reply, a: nat, b: nat)
    requires a <= b
    ensures Corrections(wire, oracle, a, b) <= b - a
    decreases b - a
  {
    if a < b { FewCorrections(wire, oracle, a, b - 1); }
  }

  /** A dispatch makes at least one and at most attempts + 1 transport calls; every call but
      the last failed retryably or was the one refusal; the last call decides the end; and
      running out of attempts means exactly that many non-refusal failures. In particular
      nothing is asked again after a budget was exhausted. */
  lemma {:induction false} LadderBounds(wire: Wire, oracle: nat -> Reply, k: nat, left: nat, mayDescend: bool)
    requires left >= 1
    ensures var (end, stop) := Ladder(wire, oracle, k, left, mayDescend);
      var refusals := Count(wire, oracle, k, stop - 1, Refusal);
      && k < stop <= k + left + (if mayDescend then 1 else 0)
      && (forall i :: k <= i < stop - 1 ==>
            KindOf(wire, oracle(i)) == Retryable || KindOf(wire, oracle(i)) == Refusal)
      && refusals <= (if mayDescend then 1 else 0)
      && Count(wire, oracle, k, stop, Retryable) <= left
      && (end == Succeeded <==> KindOf(wire, oracle(stop - 1)) == Accepted)
      && (end == BudgetExhausted <==> KindOf(wire, oracle(stop - 1)) == Exhausting)
      && (end == AttemptsExhausted <==> Count(wire, oracle, k, stop, Retryable) == left)
      && (end == AttemptsExhausted ==> KindOf(wire, oracle(stop - 1)) == Retryable)
    decreases left, mayDescend
  {
    var kind := KindOf(wire, oracle(k));
    if kind == Retryable && left > 1 {
      LadderBounds(wire, oracle, k + 1, left - 1, mayDescend);
    } else if kind == Refusal && mayDescend {
      LadderBounds(wire, oracle, k + 1, left, false);
    } else {
      var stop := Ladder(wire, oracle, k, left, mayDescend).1;
      assert stop == k + 1;
      assert Count(wire, oracle, k + 1, stop, Retryable) == 0;
    }
  }

  // ── structured: two dispatches at most ──

  /** The ceiling of the one escalated retry, or None to give up. */
  function EscalatedBudget(exhausted: nat, factor: real): (r: Option<int>)
    ensures r.Some? ==> r.value > exhausted
    ensures r.Some? <==> exhausted as real * factor >= exhausted as real + 1.0 && factor > 1.0
  {
    if factor <= 1.0 then None
    else
      var raised := (exhausted as real * factor).Floor;
      if raised > exhausted then Some(raised) else None
  }

  /** It is the product rounded down. */
  lemma EscalatedBudgetIs(exhausted: nat, factor: real)
    ensures var r, product := EscalatedBudget(exhausted, factor), exhausted as real * factor;
      r.Some? ==> r.value as real <= product < r.value as real + 1.0
  {
  }

  datatype CallEnd =
    | Result(usage: Tally)
    | Failed(usage: Tally, budget: bool) // LLMError or BudgetExhaustedError, with the usage so far
    | OtherError                         // an exception that carries no usage

  function EndOf(end: End, usage: Tally): CallEnd {
    match end
    case Succeeded => Result(usage)
    case BudgetExhausted => Failed(usage, true)
    case AttemptsExhausted => Failed(usage, false)
    case Escaped => OtherError
  }

  /** The exhausted dispatch's usage is merged into that of the escalated one. */
  function Settle(second: End, usage: Tally, exhausted: Tally): CallEnd {
    if second.Succeeded? then Result(Plus(usage.(escalations := usage.escalations + 1), exhausted))
    else EndOf(second, Plus(usage, exhausted))
  }

  /** The whole call: how it ends and the requests it made. escalated is the ceiling of the
      second dispatch, if EscalatedBudget gives one. */
  function Structured(wire: Wire, oracle: nat -> Reply, attempts: nat, native: bool, limit: int,
                      escalated: Option<int>): (CallEnd, seq<Request>)
  {
    var (end, n) := Ladder(wire, oracle, 0, attempts, native);
    var first := Requests(wire, oracle, 0, n, native, limit);
    if end.BudgetExhausted? && escalated.Some? then
      var (end2, n2) := Ladder(wire, oracle, n, attempts, native);
      (Settle(end2, Spent(oracle, n, n2), Spent(oracle, 0, n)),
       first + Requests(wire, oracle, n, n2, native, escalated.value))
    else (EndOf(end, Spent(oracle, 0, n)), first)
  }

  lemma SettleSums(second: End, usage: Tally, exhausted: Tally, all: Tally)
    requires all == Plus(exhausted, usage) && all.escalations == 0
    ensures var end := Settle(second, usage, exhausted);
      && (end.Result? <==> second.Succeeded?)
      && (end.Failed? ==> end.usage == all)
      && (end.Result? ==> end.usage == all.(escalations := 1))
  {
  }

  lemma SpentSplit(oracle: nat -> Reply, n: nat, n2: nat)
    requires n <= n2
    ensures Spent(oracle, 0, n2) == Plus(Spent(oracle, 0, n), Spent(oracle, n, n2))
  {
    BillsSplit(oracle, 0, n, n2);
    SumSplit(Bills(oracle, 0, n), Bills(oracle, n, n2));
  }

  lemma SettledUsage(second: End, oracle: nat -> Reply, n: nat, n2: nat)
    requires n <= n2
    ensures var end := Settle(second, Spent(oracle, n, n2), Spent(oracle, 0, n));
      && (end.Failed? ==> end.usage == Spent(oracle, 0, n2))
      && (end.Result? ==> end.usage == Spent(oracle, 0, n2).(escalations := 1))
  {
    SpentSplit(oracle, n, n2);
    NeverEscalates(oracle, n2);
    SettleSums(second, Spent(oracle, n, n2), Spent(oracle, 0, n), Spent(oracle, 0, n2));
  }

  /** At most 2(attempts + 1) transport calls ... */
  lemma StructuredCalls(wire: Wire, oracle: nat -> Reply, attempts: nat, native: bool, limit: int,
                        escalated: Option<int>)
    requires attempts >= 1
    ensures 1 <= |Structured(wire, oracle, attempts, native, limit, escalated).1| <= 2 * (attempts + 1)
    ensures var n := Ladder(wire, oracle, 0, attempts, native).1;
      |Structured(wire, oracle, attempts, native, limit, escalated).1| ==
        if Escalates(wire, oracle, attempts, native, escalated) then Ladder(wire, oracle, n, attempts, native).1 else n
  {
    LadderBounds(wire, oracle, 0, attempts, native);
    LadderBounds(wire, oracle, Ladder(wire, oracle, 0, attempts, native).1, attempts, native);
  }

  predicate Escalates(wire: Wire, oracle: nat -> Reply, attempts: nat, native: bool, escalated: Option<int>) {
    Ladder(wire, oracle, 0, attempts, native).0.BudgetExhausted? && escalated.Some?
  }

  /** ... and the usage returned, or carried by the error, is the sum over all responses of
      both dispatches; an escalation that succeeds is counted on top (one that fails is not,
      although its spend is). */
  lemma StructuredAccounting(wire: Wire, oracle: nat -> Reply, attempts: nat, native: bool, limit: int,
                             escalated: Option<int>)
    requires attempts >= 1
    ensures var (end, requests) := Structured(wire, oracle, attempts, native, limit, escalated);
      var spent := Spent(oracle, 0, |requests|);
      var twice := Escalates(wire, oracle, attempts, native, escalated);
      && (end.Result? ==> end.usage == spent.(escalations := if twice then 1 else 0))
      && (end.Failed? ==> end.usage == spent)
  {
    StructuredCalls(wire, oracle, attempts, native, limit, escalated);
    var (end, n) := Ladder(wire, oracle, 0, attempts, native);
    if Escalates(wire, oracle, attempts, native, escalated) {
      LadderBounds(wire, oracle, n, attempts, native);
      var (end2, n2) := Ladder(wire, oracle, n, attempts, native);
      SettledUsage(end2, oracle, n, n2);
    } else {
      NeverEscalates(oracle, n);
    }
  }

  /** budget_escalations tells how often the call escalated exactly unless it escalated and
      failed: a failed escalation is not counted. */
  lemma EscalationsCountedIff(wire: Wire, oracle: nat -> Reply, attempts: nat, native: bool, limit: int,
                              escalated: Option<int>)
    requires attempts >= 1
    ensures var end := Structured(wire, oracle, attempts, native, limit, escalated).0;
      var twice := Escalates(wire, oracle, attempts, native, escalated);
      end.Result? || end.Failed? ==>
        && end.usage.escalations == (if twice && end.Result? then 1 else 0)
        && (end.usage.escalations == (if twice then 1 else 0) <==> !(twice && end.Failed?))
  {
    StructuredAccounting(wire, oracle, attempts, native, limit, escalated);
    NeverEscalates(oracle, |Structured(wire, oracle, attempts, native, limit, escalated).1|);
  }

  lemma ExhaustedAtOnce(wire: Wire, oracle: nat -> Reply, k: nat, native: bool)
    requires KindOf(wire, oracle(k)) == Exhausting
    ensures Ladder(wire, oracle, k, 1, native) == (BudgetExhausted, k + 1)
  {
  }

  lemma TwiceExhausted(wire: Wire, oracle: nat -> Reply, attempts: nat, native: bool, limit: int,
                       escalated: Option<int>, n: nat, n2: nat)
    requires Ladder(wire, oracle, 0, attempts, native) == (BudgetExhausted, n) && n <= n2 && escalated.Some?
    requires Ladder(wire, oracle, n, attempts, native) == (BudgetExhausted, n2)
    ensures var (end, requests) := Structured(wire, oracle, attempts, native, limit, escalated);
      Escalates(wire, oracle, attempts, native, escalated) && |requests| == n2 && end.Failed? && end.budget
  {
  }

  /** The input: two exhausted budgets. The call escalated, and reports none. */
  lemma FailedEscalationIsNotCounted(wire: Wire, oracle: nat -> Reply, native: bool, limit: int, escalated: Option<int>)
    requires KindOf(wire, oracle(0)) == KindOf(wire, oracle(1)) == Exhausting && escalated.Some?
    ensures var (end, requests) := Structured(wire, oracle, 1, native, limit, escalated);
      Escalates(wire, oracle, 1, native, escalated) && |requests| == 2
      && end.Failed? && end.budget && end.usage.escalations == 0
  {
    ExhaustedAtOnce(wire, oracle, 0, native);
    ExhaustedAtOnce(wire, oracle, 1, native);
    TwiceExhausted(wire, oracle, 1, native, limit, escalated, 1, 2);
    EscalationsCountedIff(wire, oracle, 1, native, limit, escalated);
  }

  /** An exhausted budget ends its dispatch. */
  lemma ExhaustionIsLast(wire: Wire, oracle: nat -> Reply, k: nat, left: nat, mayDescend: bool, i: nat)
    requires left >= 1 && k <= i < Ladder(wire, oracle, k, left, mayDescend).1
    requires KindOf(wire, oracle(i)) == Exhausting
    ensures i == Ladder(wire, oracle, k, left, mayDescend).1 - 1
    ensures Ladder(wire, oracle, k, left, mayDescend).0 == BudgetExhausted
  {
    LadderBounds(wire, oracle, k, left, mayDescend);
  }

  /** After a budget was exhausted nothing is asked again at the same ceiling: every later
      request of the call has a strictly larger one. */
  lemma ExhaustedIsNeverRepeated(wire: Wire, oracle: nat -> Reply, attempts: nat, native: bool, limit: nat,
                                 factor: real, i: nat, j: nat)
    requires attempts >= 1
    requires i < j < |Structured(wire, oracle, attempts, native, limit, EscalatedBudget(limit, factor)).1|
    requires KindOf(wire, oracle(i)) == Exhausting
    ensures var requests := Structured(wire, oracle, attempts, native, limit, EscalatedBudget(limit, factor)).1;
      requests[i].ceiling < requests[j].ceiling
  {
    var escalated := EscalatedBudget(limit, factor);
    var n := Ladder(wire, oracle, 0, attempts, native).1;
    if i < n { ExhaustionIsLast(wire, oracle, 0, attempts, native, i); }
    TwoCeilings(wire, oracle, attempts, native, limit, escalated, i);
    TwoCeilings(wire, oracle, attempts, native, limit, escalated, j);
    if i >= n { ExhaustionIsLast(wire, oracle, n, attempts, native, i); }
  }

  lemma {:induction false} OneCeiling(wire: Wire, oracle: nat -> Reply, a: nat, b: nat, native: bool, ceiling: int)
    ensures forall q :: q in Requests(wire, oracle, a, b, native, ceiling) ==> q.ceiling == ceiling
    decreases b - a
  {
    if a < b { OneCeiling(wire, oracle, a, b - 1, native, ceiling); }
  }

  /** The ceiling of each request of a call, and where the second dispatch begins and ends. */
  lemma TwoCeilings(wire: Wire, oracle: nat -> Reply, attempts: nat, native: bool, limit: int,
                    escalated: Option<int>, i: nat)
    requires attempts >= 1 && i < |Structured(wire, oracle, attempts, native, limit, escalated).1|
    ensures var requests := Structured(wire, oracle, attempts, native, limit, escalated).1;
      var (end, n) := Ladder(wire, oracle, 0, attempts, native);
      && (i < n ==> requests[i].ceiling == limit)
      && (i >= n ==> escalated.Some? && requests[i].ceiling == escalated.value
                     && |requests| == Ladder(wire, oracle, n, attempts, native).1)
  {
    var (end, n) := Ladder(wire, oracle, 0, attempts, native);
    var n2 := Ladder(wire, oracle, n, attempts, native).1;
    LadderBounds(wire, oracle, 0, attempts, native);
    LadderBounds(wire, oracle, n, attempts, native);
    var first := Requests(wire, oracle, 0, n, native, limit);
    OneCeiling(wire, oracle, 0, n, native, limit);
    if i < n {
      assert first[i] in first;
    } else {
      var second := Requests(wire, oracle, n, n2, native, escalated.value);
      OneCeiling(wire, oracle, n, n2, native, escalated.value);
      assert second[i - n] in second;
    }
  }

  lemma NeverEscalates(oracle: nat -> Reply, n: nat)
    ensures Spent(oracle, 0, n).escalations == 0
  {
    BillsShape(oracle, 0, n);
    SumMeaning(Bills(oracle, 0, n));
  }

  /** The usage of a call in terms of its responses: attempts is their number, the
      per-attempt maximum is the largest reasoning draw of one of them, and usage is unknown
      iff some response reported no usage. */
  lemma UsageMeaning(oracle: nat -> Reply, n: nat)
    ensures var t, bills := Spent(oracle, 0, n), Bills(oracle, 0, n);
      && t.attempts == |bills|
      && (forall i :: 0 <= i < |bills| ==> bills[i].maxReasoning <= t.maxReasoning)
      && (t.maxReasoning > 0 ==> exists i :: 0 <= i < |bills| && bills[i].maxReasoning == t.maxReasoning)
      && (t.unknown <==> exists k :: 0 <= k < n && oracle(k).Responded? && !oracle(k).reported)
  {
    BillsShape(oracle, 0, n);
    SumMeaning(Bills(oracle, 0, n));
  }

  /** attempts counts responses, so it is the number of transport calls exactly if every
      call got one: a refused request and a body that is not JSON add nothing. */
  lemma {:induction false} AttemptsAreCallsIff(oracle: nat -> Reply, n: nat)
    ensures Spent(oracle, 0, n).attempts <= n
    ensures Spent(oracle, 0, n).attempts == n <==> forall k :: 0 <= k < n ==> oracle(k).Responded?
  {
    UsageMeaning(oracle, n);
    CallsWithResponse(oracle, n);
  }

  lemma {:induction false} CallsWithResponse(oracle: nat -> Reply, n: nat)
    ensures |Bills(oracle, 0, n)| <= n
    ensures |Bills(oracle, 0, n)| == n <==> forall k :: 0 <= k < n ==> oracle(k).Responded?
  {
    if n > 0 { CallsWithResponse(oracle, n - 1); }
  }

  /** The same of a whole call, whenever it reports usage. */
  lemma ReportedAttemptsIff(wire: Wire, oracle: nat -> Reply, attempts: nat, native: bool, limit: int,
                            escalated: Option<int>)
    requires attempts >= 1
    ensures var (end, requests) := Structured(wire, oracle, attempts, native, limit, escalated);
      end.Result? || end.Failed? ==>
        (end.usage.attempts == |requests| <==> forall k :: 0 <= k < |requests| ==> oracle(k).Responded?)
  {
    StructuredAccounting(wire, oracle, attempts, native, limit, escalated);
    AttemptsAreCallsIff(oracle, |Structured(wire, oracle, attempts, native, limit, escalated).1|);
  }

  lemma TwoCalls(wire: Wire, oracle: nat -> Reply)
    requires KindOf(wire, oracle(0)) == Refusal && KindOf(wire, oracle(1)) == Accepted
    ensures Ladder(wire, oracle, 0, 1, true) == (Succeeded, 2)
  {
    assert Ladder(wire, oracle, 1, 1, false) == (Succeeded, 2);
  }

  lemma CallsOfDescent(wire: Wire, oracle: nat -> Reply, limit: int, escalated: Option<int>)
    requires KindOf(wire, oracle(0)) == Refusal && KindOf(wire, oracle(1)) == Accepted
    ensures var (end, requests) := Structured(wire, oracle, 1, true, limit, escalated);
      end == Result(Spent(oracle, 0, 2)) && |requests| == 2
  {
    TwoCalls(wire, oracle);
  }

  /** A refused native request followed by a valid response: two calls, one attempt. */
  lemma DescentIsNotCounted(oracle: nat -> Reply, limit: int, escalated: Option<int>)
    requires KindOf(OpenAi, oracle(0)) == Refusal && KindOf(OpenAi, oracle(1)) == Accepted
    ensures var (end, requests) := Structured(OpenAi, oracle, 1, true, limit, escalated);
      end.Result? && |requests| == 2 && end.usage.attempts == 1
  {
    CallsOfDescent(OpenAi, oracle, limit, escalated);
    OneAttempt(OpenAi, oracle);
  }

  lemma OneAttempt(wire: Wire, oracle: nat -> Reply)
    requires KindOf(wire, oracle(0)) == Refusal && KindOf(wire, oracle(1)) == Accepted
    ensures Spent(oracle, 0, 2).attempts == 1
  {
    OneBill(oracle);
    UsageMeaning(oracle, 2);
  }

  lemma OneBill(oracle: nat -> Reply)
    requires !oracle(0).Responded? && oracle(1).Responded?
    ensures |Bills(oracle, 0, 2)| == 1
  {
    assert Bills(oracle, 0, 0) == [] && Bills(oracle, 0, 1) == [];
  }
}
