/** What LLMClient.structured (src/krepis/llm.py) returns, fails with and asks for, told from the
    replies alone: which reply is an answer, which is a failed attempt, and which ends a call. */
module RetryOutcomes {
  import opened Prelude
  import opened Usage
  import opened RetryLadder

  // ── what one reply is ──

  /** A validated answer; on the OpenAI wire it must be known which model served it. */
  predicate Answers(wire: Wire, r: Reply) {
    && r.Responded? && r.body.Choice? && !r.body.empty && r.body.valid
    && (wire.OpenAi? ==> r.body.servedModelKnown)
  }

  /** The ceiling was reached before any content. */
  predicate OutOfBudget(r: Reply) {
    r.Responded? && r.body.Choice? && r.body.empty && r.body.atLimit
  }

  /** The endpoint refuses the response format. */
  predicate RefusesFormat(wire: Wire, r: Reply) {
    wire.OpenAi? && r.Raised? && r.refusesFormat
  }

  /** A response that could be read and is not an answer. */
  predicate Invalid(wire: Wire, r: Reply) {
    && r.Responded? && r.body.Choice? && (r.body.empty || !r.body.valid) && !OutOfBudget(r)
    && (wire.OpenAi? ==> r.body.servedModelKnown)
  }

  predicate Unreadable(wire: Wire, r: Reply) {
    (r.Responded? && r.body.NoChoices?) || (wire.OpenAi? && r.NotJson?)
  }

  /** A failed attempt, which is retried while attempts are left. */
  predicate Fails(wire: Wire, r: Reply) { Invalid(wire, r) || Unreadable(wire, r) }

  /** Failed attempts among the calls from a up to b. */
  function Failures(wire: Wire, oracle: nat -> Reply, a: nat, b: nat): nat
    decreases b - a
  {
    if b <= a then 0 else Failures(wire, oracle, a, b - 1) + if Fails(wire, oracle(b - 1)) then 1 else 0
  }

  predicate RefusedIn(wire: Wire, oracle: nat -> Reply, a: nat, b: nat)
    decreases b - a
  {
    a < b && (RefusesFormat(wire, oracle(b - 1)) || RefusedIn(wire, oracle, a, b - 1))
  }

  /** The calls from a up to b failed, but for one refusal of the native rung at most. */
  predicate Attempted(wire: Wire, oracle: nat -> Reply, a: nat, b: nat, native: bool)
    decreases b - a
  {
    a < b ==>
      && Attempted(wire, oracle, a, b - 1, native)
      && (Fails(wire, oracle(b - 1))
          || (native && RefusesFormat(wire, oracle(b - 1)) && !RefusedIn(wire, oracle, a, b - 1)))
  }

  lemma {:induction false} RefusedInMeaning(wire: Wire, oracle: nat -> Reply, a: nat, b: nat)
    ensures RefusedIn(wire, oracle, a, b) <==> exists i :: a <= i < b && RefusesFormat(wire, oracle(i))
    decreases b - a
  {
    if a < b { RefusedInMeaning(wire, oracle, a, b - 1); }
  }

  lemma {:induction false} AttemptedMeaning(wire: Wire, oracle: nat -> Reply, a: nat, b: nat, native: bool, i: nat)
    requires Attempted(wire, oracle, a, b, native) && a <= i < b
    ensures Fails(wire, oracle(i)) || (native && RefusesFormat(wire, oracle(i)))
    ensures RefusesFormat(wire, oracle(i)) ==> forall j :: a <= j < b && j != i ==> !RefusesFormat(wire, oracle(j))
    decreases b - a
  {
    RefusedInMeaning(wire, oracle, a, b - 1);
    if i < b - 1 { AttemptedMeaning(wire, oracle, a, b - 1, native, i); }
  }

  lemma {:induction false} FailuresFrom(wire: Wire, oracle: nat -> Reply, a: nat, b: nat)
    requires a < b
    ensures Failures(wire, oracle, a, b)
      == Failures(wire, oracle, a + 1, b) + if Fails(wire, oracle(a)) then 1 else 0
    decreases b
  {
    if a + 1 < b { FailuresFrom(wire, oracle, a, b - 1); }
  }

  lemma {:induction false} RefusedFrom(wire: Wire, oracle: nat -> Reply, a: nat, b: nat)
    requires a < b
    ensures RefusedIn(wire, oracle, a, b) <==> RefusesFormat(wire, oracle(a)) || RefusedIn(wire, oracle, a + 1, b)
    decreases b
  {
    if a + 1 < b { RefusedFrom(wire, oracle, a, b - 1); }
  }

  lemma {:induction false} AttemptedFrom(wire: Wire, oracle: nat -> Reply, a: nat, b: nat, native: bool)
    requires a < b
    ensures Fails(wire, oracle(a)) && Attempted(wire, oracle, a + 1, b, native) ==>
      Attempted(wire, oracle, a, b, native)
    ensures RefusesFormat(wire, oracle(a)) && Attempted(wire, oracle, a + 1, b, false) ==>
      Attempted(wire, oracle, a, b, true)
    decreases b
  {
    if a + 1 < b {
      AttemptedFrom(wire, oracle, a, b - 1, native);
      RefusedFrom(wire, oracle, a, b - 1);
    }
  }

  // ── one dispatch ──

  /** How a dispatch that may descend or not ends, by its last reply. */
  ghost predicate EndsBy(end: End, wire: Wire, oracle: nat -> Reply, a: nat, last: nat, mayDescend: bool) {
    var r := oracle(last);
    && (end == Succeeded <==> Answers(wire, r))
    && (end == BudgetExhausted <==> OutOfBudget(r))
    && (end == AttemptsExhausted <==> Fails(wire, r))
    && (end == Escaped ==> !RefusesFormat(wire, r) || !mayDescend || RefusedIn(wire, oracle, a, last))
  }

  lemma Kinds(wire: Wire, r: Reply)
    ensures KindOf(wire, r) == Accepted <==> Answers(wire, r)
    ensures KindOf(wire, r) == Exhausting <==> OutOfBudget(r)
    ensures KindOf(wire, r) == Retryable <==> Fails(wire, r)
    ensures KindOf(wire, r) == Refusal <==> RefusesFormat(wire, r)
  {
  }

  /** All of this about a dispatch from call k up to stop, with left failures allowed. */
  ghost predicate Dispatched(end: End, stop: nat, wire: Wire, oracle: nat -> Reply, k: nat, left: nat,
                             mayDescend: bool)
  {
    && k < stop && Attempted(wire, oracle, k, stop - 1, mayDescend)
    && Failures(wire, oracle, k, stop - 1) < left
    && EndsBy(end, wire, oracle, k, stop - 1, mayDescend)
    && (end == AttemptsExhausted ==> Failures(wire, oracle, k, stop) == left)
  }

  lemma EndsByBefore(end: End, wire: Wire, oracle: nat -> Reply, a: nat, last: nat, mayDescend: bool)
    requires a < last && EndsBy(end, wire, oracle, a + 1, last, mayDescend && !RefusesFormat(wire, oracle(a)))
    ensures EndsBy(end, wire, oracle, a, last, mayDescend)
  {
    RefusedFrom(wire, oracle, a, last);
  }

  lemma FailedFirst(end: End, stop: nat, wire: Wire, oracle: nat -> Reply, k: nat, left: nat, mayDescend: bool)
    requires Fails(wire, oracle(k)) && Dispatched(end, stop, wire, oracle, k + 1, left, mayDescend)
    ensures Dispatched(end, stop, wire, oracle, k, left + 1, mayDescend)
  {
    FailuresFrom(wire, oracle, k, stop - 1);
    FailuresFrom(wire, oracle, k, stop);
    AttemptedFrom(wire, oracle, k, stop - 1, mayDescend);
    EndsByBefore(end, wire, oracle, k, stop - 1, mayDescend);
  }

  lemma RefusedFirst(end: End, stop: nat, wire: Wire, oracle: nat -> Reply, k: nat, left: nat)
    requires RefusesFormat(wire, oracle(k)) && Dispatched(end, stop, wire, oracle, k + 1, left, false)
    ensures Dispatched(end, stop, wire, oracle, k, left, true)
  {
    FailuresFrom(wire, oracle, k, stop - 1);
    FailuresFrom(wire, oracle, k, stop);
    AttemptedFrom(wire, oracle, k, stop - 1, true);
    EndsByBefore(end, wire, oracle, k, stop - 1, true);
  }

  lemma EndsAtOnce(wire: Wire, oracle: nat -> Reply, k: nat, left: nat, mayDescend: bool)
    requires left >= 1 && (Fails(wire, oracle(k)) ==> left == 1) && !(RefusesFormat(wire, oracle(k)) && mayDescend)
    ensures var (end, stop) := Ladder(wire, oracle, k, left, mayDescend);
      Dispatched(end, stop, wire, oracle, k, left, mayDescend)
  {
    Kinds(wire, oracle(k));
    assert Ladder(wire, oracle, k, left, mayDescend).1 == k + 1;
  }

  /** Every reply of a dispatch before its last is a failed attempt or the one refusal of the
      native rung; the last one decides how it ends. */
  lemma {:induction false} DispatchEnds(wire: Wire, oracle: nat -> Reply, k: nat, left: nat, mayDescend: bool)
    requires left >= 1
    ensures var (end, stop) := Ladder(wire, oracle, k, left, mayDescend);
      Dispatched(end, stop, wire, oracle, k, left, mayDescend)
    decreases left, mayDescend
  {
    Kinds(wire, oracle(k));
    var (end, stop) := Ladder(wire, oracle, k, left, mayDescend);
    if Fails(wire, oracle(k)) && left > 1 {
      DispatchEnds(wire, oracle, k + 1, left - 1, mayDescend);
      FailedFirst(end, stop, wire, oracle, k, left - 1, mayDescend);
    } else if RefusesFormat(wire, oracle(k)) && mayDescend {
      DispatchEnds(wire, oracle, k + 1, left, false);
      RefusedFirst(end, stop, wire, oracle, k, left);
    } else {
      EndsAtOnce(wire, oracle, k, left, mayDescend);
    }
  }

  // ── the whole call ──

  /** The first call of the dispatch that call i belongs to: the one after an exhausted budget. */
  function StartOf(oracle: nat -> Reply, i: nat): nat {
    if i == 0 then 0 else if OutOfBudget(oracle(i - 1)) then i else StartOf(oracle, i - 1)
  }

  lemma {:induction false} StartIs(wire: Wire, oracle: nat -> Reply, native: bool, a: nat, last: nat, i: nat)
    requires a <= i <= last && Attempted(wire, oracle, a, last, native) && (a == 0 || OutOfBudget(oracle(a - 1)))
    ensures StartOf(oracle, i) == a
    decreases last + i
  {
    if i < last {
      StartIs(wire, oracle, native, a, last - 1, i);
    } else if a < i {
      StartIs(wire, oracle, native, a, last - 1, i - 1);
    }
  }

  /** Call number last is the last one, and it belongs to a dispatch that began with call a. */
  ghost predicate Calls(wire: Wire, oracle: nat -> Reply, attempts: nat, native: bool, escalated: Option<int>,
                        a: nat, last: nat)
  {
    && a <= last && Attempted(wire, oracle, a, last, native) && Failures(wire, oracle, a, last) < attempts
    && (a > 0 ==> escalated.Some? && StartOf(oracle, a - 1) == 0 && Attempted(wire, oracle, 0, a - 1, native)
                  && Failures(wire, oracle, 0, a - 1) < attempts)
  }

  /** A call by its last reply r. It is an answer: the call returns it. It is out of budget:
      the call fails with a budget error. It failed: the attempts are used up. Anything
      else, a refusal that cannot be descended from included, is raised as it is. */
  ghost predicate CallEndsBy(end: CallEnd, wire: Wire, r: Reply) {
    && (end.Result? <==> Answers(wire, r))
    && (end.Failed? && end.budget <==> OutOfBudget(r))
    && (end.Failed? && !end.budget <==> Fails(wire, r))
  }

  /** All of this about a call whose last dispatch ended so, with transport call number last. */
  ghost predicate CallSays(end: End, wire: Wire, oracle: nat -> Reply, attempts: nat, native: bool,
                           escalated: Option<int>, last: nat)
  {
    var a := StartOf(oracle, last);
    && Calls(wire, oracle, attempts, native, escalated, a, last)
    && EndsBy(end, wire, oracle, a, last, native)
    && (end == BudgetExhausted ==> a > 0 || escalated.None?)
    && (end == AttemptsExhausted ==> Failures(wire, oracle, a, last + 1) == attempts)
  }

  /** How the last dispatch of a call ends, and with how many transport calls in all. */
  function LastDispatch(wire: Wire, oracle: nat -> Reply, attempts: nat, native: bool, escalated: Option<int>)
    : (End, nat)
  {
    var (end, n) := Ladder(wire, oracle, 0, attempts, native);
    if end.BudgetExhausted? && escalated.Some? then Ladder(wire, oracle, n, attempts, native) else (end, n)
  }

  lemma LastDispatchSays(wire: Wire, oracle: nat -> Reply, attempts: nat, native: bool, escalated: Option<int>)
    requires attempts >= 1
    ensures var (end, stop) := LastDispatch(wire, oracle, attempts, native, escalated);
      stop > 0 && CallSays(end, wire, oracle, attempts, native, escalated, stop - 1)
  {
    var (end, n) := Ladder(wire, oracle, 0, attempts, native);
    DispatchEnds(wire, oracle, 0, attempts, native);
    StartIs(wire, oracle, native, 0, n - 1, n - 1);
    if end.BudgetExhausted? && escalated.Some? {
      var n2 := Ladder(wire, oracle, n, attempts, native).1;
      DispatchEnds(wire, oracle, n, attempts, native);
      StartIs(wire, oracle, native, n, n2 - 1, n2 - 1);
    }
  }

  lemma EndsAsLastDispatch(wire: Wire, oracle: nat -> Reply, attempts: nat, native: bool, limit: int,
                           escalated: Option<int>)
    requires attempts >= 1
    ensures var (end, requests) := Structured(wire, oracle, attempts, native, limit, escalated);
      var (last, stop) := LastDispatch(wire, oracle, attempts, native, escalated);
      && |requests| == stop
      && (end.Result? <==> last.Succeeded?) && (end.OtherError? <==> last.Escaped?)
      && (end.Failed? ==> (end.budget <==> last.BudgetExhausted?))
  {
    StructuredCalls(wire, oracle, attempts, native, limit, escalated);
  }

  /** The law of a whole call, over every oracle. The last reply decides the end; no earlier
      one is an answer; earlier ones are failed attempts, fewer than allowed, at most one
      refusal of the native rung per dispatch, and at most one exhausted budget, after which
      the ceiling was raised. */
  lemma CallEnds(wire: Wire, oracle: nat -> Reply, attempts: nat, native: bool, limit: int, escalated: Option<int>)
    requires attempts >= 1
    ensures var (end, requests) := Structured(wire, oracle, attempts, native, limit, escalated);
      var last := |requests| - 1;
      && last >= 0 && CallEndsBy(end, wire, oracle(last))
      && var a := StartOf(oracle, last);
         && Calls(wire, oracle, attempts, native, escalated, a, last)
         && (end.Failed? && end.budget ==> a > 0 || escalated.None?)
         && (end.Failed? && !end.budget ==> Failures(wire, oracle, a, last + 1) == attempts)
         && (end.OtherError? && RefusesFormat(wire, oracle(last)) ==> !native || RefusedIn(wire, oracle, a, last))
  {
    EndsAsLastDispatch(wire, oracle, attempts, native, limit, escalated);
    LastDispatchSays(wire, oracle, attempts, native, escalated);
  }

  lemma NotAnAnswer(wire: Wire, oracle: nat -> Reply, attempts: nat, native: bool, escalated: Option<int>, a: nat,
                    last: nat, i: nat)
    requires i < last && Calls(wire, oracle, attempts, native, escalated, a, last)
    requires a > 0 ==> OutOfBudget(oracle(a - 1))
    ensures !Answers(wire, oracle(i))
  {
    if a <= i {
      AttemptedMeaning(wire, oracle, a, last, native, i);
    } else if i + 1 < a {
      AttemptedMeaning(wire, oracle, 0, a - 1, native, i);
    }
  }

  /** So a call returns a result exactly if its last reply is an answer, and it asks nothing
      after the first answer. */
  lemma FirstAnswerReturns(wire: Wire, oracle: nat -> Reply, attempts: nat, native: bool, limit: int,
                           escalated: Option<int>)
    requires attempts >= 1
    ensures var (end, requests) := Structured(wire, oracle, attempts, native, limit, escalated);
      var last := |requests| - 1;
      && last >= 0 && CallEndsBy(end, wire, oracle(last))
      && forall i :: 0 <= i < last ==> !Answers(wire, oracle(i))
  {
    CallEnds(wire, oracle, attempts, native, limit, escalated);
    var last := |Structured(wire, oracle, attempts, native, limit, escalated).1| - 1;
    StartAfter(oracle, last);
    forall i | 0 <= i < last
      ensures !Answers(wire, oracle(i))
    {
      NotAnAnswer(wire, oracle, attempts, native, escalated, StartOf(oracle, last), last, i);
    }
  }

  lemma {:induction false} StartAfter(oracle: nat -> Reply, i: nat)
    ensures StartOf(oracle, i) > 0 ==> OutOfBudget(oracle(StartOf(oracle, i) - 1))
  {
    if i > 0 { StartAfter(oracle, i - 1); }
  }

  // ── what it asks for ──

  /** Failed validations among the calls from a up to b; on the Anthropic wire an answer
      without the forced tool call is one too. */
  function FailedValidations(wire: Wire, oracle: nat -> Reply, a: nat, b: nat): nat
    decreases b - a
  {
    if b <= a then 0
    else
      var r := oracle(b - 1);
      FailedValidations(wire, oracle, a, b - 1)
      + if Invalid(wire, r) || (wire.Anthropic? && Unreadable(wire, r)) then 1 else 0
  }

  /** Since call d, or since before it, the conversation has been the same. */
  predicate SinceDescent(wire: Wire, oracle: nat -> Reply, a: nat, d: nat, i: nat) {
    a <= d <= i && (d == a || RefusesFormat(wire, oracle(d - 1))) && !RefusedIn(wire, oracle, d, i)
  }

  lemma {:induction false} TurnsAre(wire: Wire, oracle: nat -> Reply, a: nat, d: nat, i: nat)
    requires SinceDescent(wire, oracle, a, d, i)
    ensures Corrections(wire, oracle, a, i) == FailedValidations(wire, oracle, d, i)
    decreases i
  {
    if i > a {
      Kinds(wire, oracle(i - 1));
      if d < i {
        assert SinceDescent(wire, oracle, a, d, i - 1);
        assert !RefusesFormat(wire, oracle(i - 1));
        TurnsAre(wire, oracle, a, d, i - 1);
      }
    }
  }

  lemma RefusedIs(wire: Wire, oracle: nat -> Reply, a: nat, i: nat)
    ensures Refused(wire, oracle, a, i) <==> RefusedIn(wire, oracle, a, i)
  {
    RefusedMeaning(wire, oracle, a, i);
    forall j | a <= j < i ensures KindOf(wire, oracle(j)) == Refusal <==> RefusesFormat(wire, oracle(j)) {
      Kinds(wire, oracle(j));
    }
  }

  /** Request i of a dispatch, from the replies before it: the ceiling; native exactly until
      a refusal; and one corrective turn for each validation that failed since the last
      descent. */
  lemma {:induction false} RequestIs(wire: Wire, oracle: nat -> Reply, a: nat, b: nat, native: bool, ceiling: int,
                                     d: nat, i: nat)
    requires a <= i < b && SinceDescent(wire, oracle, a, d, i)
    ensures Requests(wire, oracle, a, b, native, ceiling)[i - a]
      == Request(ceiling, native && !RefusedIn(wire, oracle, a, i), FailedValidations(wire, oracle, d, i))
    decreases b
  {
    if i < b - 1 {
      RequestIs(wire, oracle, a, b - 1, native, ceiling, d, i);
    } else {
      TurnsAre(wire, oracle, a, d, i);
      RefusedIs(wire, oracle, a, i);
    }
  }

  /** The same of a whole call: every request of the first dispatch has the given ceiling and
      every one of the second the raised one, and both begin with the original question. */
  lemma RequestOfCall(wire: Wire, oracle: nat -> Reply, attempts: nat, native: bool, limit: int,
                      escalated: Option<int>, d: nat, i: nat)
    requires attempts >= 1 && i < |Structured(wire, oracle, attempts, native, limit, escalated).1|
    requires SinceDescent(wire, oracle, StartOf(oracle, i), d, i)
    ensures var a := StartOf(oracle, i);
      && (a > 0 ==> escalated.Some?)
      && Structured(wire, oracle, attempts, native, limit, escalated).1[i]
         == Request(if a == 0 then limit else escalated.value, native && !RefusedIn(wire, oracle, a, i),
                    FailedValidations(wire, oracle, d, i))
  {
    var n := Ladder(wire, oracle, 0, attempts, native).1;
    DispatchEnds(wire, oracle, 0, attempts, native);
    if i < n {
      InFirstDispatch(wire, oracle, attempts, native, limit, escalated, n, d, i);
    } else {
      StructuredCalls(wire, oracle, attempts, native, limit, escalated);
      DispatchEnds(wire, oracle, n, attempts, native);
      InSecondDispatch(wire, oracle, attempts, native, limit, escalated, n, d, i);
    }
  }

  lemma InFirstDispatch(wire: Wire, oracle: nat -> Reply, attempts: nat, native: bool, limit: int,
                        escalated: Option<int>, n: nat, d: nat, i: nat)
    requires var (end, stop) := Ladder(wire, oracle, 0, attempts, native);
      stop == n && i < n && Dispatched(end, n, wire, oracle, 0, attempts, native)
    requires SinceDescent(wire, oracle, StartOf(oracle, i), d, i)
    ensures StartOf(oracle, i) == 0 && i < |Structured(wire, oracle, attempts, native, limit, escalated).1|
    ensures Structured(wire, oracle, attempts, native, limit, escalated).1[i]
         == Request(limit, native && !RefusedIn(wire, oracle, 0, i), FailedValidations(wire, oracle, d, i))
  {
    StartIs(wire, oracle, native, 0, n - 1, i);
    RequestIs(wire, oracle, 0, n, native, limit, d, i);
  }

  lemma InSecondDispatch(wire: Wire, oracle: nat -> Reply, attempts: nat, native: bool, limit: int,
                         escalated: Option<int>, n: nat, d: nat, i: nat)
    requires Ladder(wire, oracle, 0, attempts, native) == (BudgetExhausted, n) && escalated.Some?
    requires n > 0 && OutOfBudget(oracle(n - 1))
    requires var (end, stop) := Ladder(wire, oracle, n, attempts, native);
      n <= i < stop && Dispatched(end, stop, wire, oracle, n, attempts, native)
    requires SinceDescent(wire, oracle, StartOf(oracle, i), d, i)
    ensures StartOf(oracle, i) == n
    ensures Structured(wire, oracle, attempts, native, limit, escalated).1[i]
         == Request(escalated.value, native && !RefusedIn(wire, oracle, n, i), FailedValidations(wire, oracle, d, i))
  {
    var n2 := Ladder(wire, oracle, n, attempts, native).1;
    StartIs(wire, oracle, native, n, n2 - 1, i);
    RequestIs(wire, oracle, n, n2, native, escalated.value, d, i);
    var first := Requests(wire, oracle, 0, n, native, limit);
    var second := Requests(wire, oracle, n, n2, native, escalated.value);
    assert (first + second)[i] == second[i - n];
  }
}
