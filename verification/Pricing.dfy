/** Effective-dated prices and cost arithmetic (src/krepis/cost.py). Dates are day numbers;
    prices and costs are reals. */
module Pricing {
  import opened Prelude

  datatype Card = Card(model: string, from: int, input: real, output: real, cacheRead: real,
                       cacheCreate: real, cacheCreate1h: Option<real>)

  // ── the table ──

  /** Cards of one model come in ascending order of their dates, no date twice. */
  predicate Valid(cards: seq<Card>) {
    forall i, j :: 0 <= i < j < |cards| && cards[i].model == cards[j].model ==> cards[i].from < cards[j].from
  }

  function DatesOf(cards: seq<Card>, model: string): seq<int> {
    if cards == [] then []
    else DatesOf(cards[..|cards| - 1], model)
         + if cards[|cards| - 1].model == model then [cards[|cards| - 1].from] else []
  }

  predicate Ascending(dates: seq<int>) { forall i, j :: 0 <= i < j < |dates| ==> dates[i] < dates[j] }

  lemma {:induction false} DatesContain(cards: seq<Card>, model: string)
    ensures forall k :: 0 <= k < |cards| && cards[k].model == model ==> cards[k].from in DatesOf(cards, model)
    ensures forall d :: d in DatesOf(cards, model) ==>
      exists k :: 0 <= k < |cards| && cards[k].model == model && cards[k].from == d
  {
    if cards != [] {
      var init := cards[..|cards| - 1];
      DatesContain(init, model);
      assert forall k :: 0 <= k < |init| ==> init[k] == cards[k];
    }
  }

  predicate Below(dates: seq<int>, d: int) { forall i :: 0 <= i < |dates| ==> dates[i] < d }

  lemma AscendingPush(dates: seq<int>, d: int)
    ensures Ascending(dates + [d]) <==> Ascending(dates) && Below(dates, d)
  {
    var all := dates + [d];
    if Ascending(all) {
      forall i | 0 <= i < |dates|
        ensures dates[i] < d
      {
        assert all[i] < all[|dates|];
      }
      forall i, j | 0 <= i < j < |dates|
        ensures dates[i] < dates[j]
      {
        assert all[i] < all[j];
      }
    }
  }

  predicate LastFits(cards: seq<Card>)
    requires cards != []
  {
    var last := cards[|cards| - 1];
    forall i :: 0 <= i < |cards| - 1 && cards[i].model == last.model ==> cards[i].from < last.from
  }

  lemma ValidPush(cards: seq<Card>)
    requires cards != []
    ensures Valid(cards) <==> Valid(cards[..|cards| - 1]) && LastFits(cards)
  {
    var init := cards[..|cards| - 1];
    assert forall i :: 0 <= i < |init| ==> init[i] == cards[i];
  }

  lemma LastFitsIff(cards: seq<Card>)
    requires cards != []
    ensures var last := cards[|cards| - 1];
      LastFits(cards) <==> Below(DatesOf(cards[..|cards| - 1], last.model), last.from)
  {
    var init, last := cards[..|cards| - 1], cards[|cards| - 1];
    var dates := DatesOf(init, last.model);
    DatesContain(init, last.model);
    assert forall i :: 0 <= i < |init| ==> init[i] == cards[i];
    forall k | 0 <= k < |dates|
      ensures exists i :: 0 <= i < |init| && init[i].model == last.model && init[i].from == dates[k]
    {
      var d: int := dates[k];
      assert d in dates;
    }
  }

  ghost predicate AllAscending(cards: seq<Card>) { forall model :: Ascending(DatesOf(cards, model)) }

  lemma AllAscendingPush(cards: seq<Card>)
    requires cards != []
    ensures AllAscending(cards) <==> AllAscending(cards[..|cards| - 1]) && LastFits(cards)
  {
    var init, last := cards[..|cards| - 1], cards[|cards| - 1];
    LastFitsIff(cards);
    AscendingPush(DatesOf(init, last.model), last.from);
    forall m
      ensures m != last.model ==> DatesOf(cards, m) == DatesOf(init, m)
      ensures m == last.model ==> DatesOf(cards, m) == DatesOf(init, m) + [last.from]
    {
    }
    if AllAscending(cards) {
      assert Ascending(DatesOf(cards, last.model));
    }
  }

  /** The table is valid iff the dates of each model ascend. */
  lemma {:induction false} ValidIff(cards: seq<Card>)
    ensures Valid(cards) <==> AllAscending(cards)
  {
    if cards != [] {
      ValidIff(cards[..|cards| - 1]);
      ValidPush(cards);
      AllAscendingPush(cards);
    }
  }

  /** _validate_card_ordering: collects the dates per model, then checks each list. */
  method ValidateOrdering(cards: seq<Card>) returns (ok: bool)
    ensures ok <==> Valid(cards)
  {
    var seen := CollectDates(cards);
    ValidIff(cards);
    var models := seen.Keys;
    while models != {}
      invariant models <= seen.Keys
      invariant forall m :: m in seen && m !in models ==> Ascending(seen[m])
      decreases |models|
    {
      var m :| m in models;
      var ascends := IsAscending(seen[m]);
      if !ascends {
        assert !Ascending(DatesOf(cards, m));
        return false;
      }
      models := models - {m};
    }
    ok := true;
  }

  method CollectDates(cards: seq<Card>) returns (seen: map<string, seq<int>>)
    ensures forall m :: m in seen ==> seen[m] == DatesOf(cards, m)
    ensures forall m :: m !in seen ==> DatesOf(cards, m) == []
  {
    seen := map[];
    var i := 0;
    while i < |cards|
      invariant 0 <= i <= |cards|
      invariant forall m :: m in seen ==> seen[m] == DatesOf(cards[..i], m)
      invariant forall m :: m !in seen ==> DatesOf(cards[..i], m) == []
    {
      var c := cards[i];
      assert cards[..i + 1][..i] == cards[..i];
      if c.model !in seen { seen := seen[c.model := []]; }
      seen := seen[c.model := seen[c.model] + [c.from]];
      i := i + 1;
    }
    assert cards[..i] == cards;
  }

  /** No duplicate, and sorted. */
  method IsAscending(dates: seq<int>) returns (ok: bool)
    ensures ok <==> Ascending(dates)
  {
    var i := 1;
    while i < |dates|
      invariant 1 <= i && (dates != [] ==> i <= |dates| && Ascending(dates[..i]))
    {
      if dates[i - 1] >= dates[i] { return false; }
      assert forall k :: 0 <= k < i ==> dates[k] == dates[..i][k] && dates[k] <= dates[..i][i - 1];
      i := i + 1;
    }
    assert dates != [] ==> dates[..i] == dates;
    ok := true;
  }

  // ── lookup ──

  /** The name asked for, without a dated-snapshot suffix, and without a variant suffix; the
      last two are whatever the suffix patterns leave. */
  datatype Names = Names(given: string, alias: string, bare: string)

  function Candidates(cards: seq<Card>, name: string, at: int): seq<Card> {
    if cards == [] then []
    else
      var c := cards[|cards| - 1];
      Candidates(cards[..|cards| - 1], name, at) + if c.model == name && c.from <= at then [c] else []
  }

  /** max(candidates, key=effective_from): the first of the latest. */
  function Latest(cs: seq<Card>): Card
    requires cs != []
  {
    if |cs| == 1 then cs[0]
    else
      var best := Latest(cs[..|cs| - 1]);
      if cs[|cs| - 1].from > best.from then cs[|cs| - 1] else best
  }

  /** PriceTable.get; None is PriceCardLookupError. */
  function Get(cards: seq<Card>, names: Names, at: int): Option<Card> {
    var c0 := Candidates(cards, names.given, at);
    var c1 := if c0 == [] && names.alias != names.given then Candidates(cards, names.alias, at) else c0;
    var c2 := if c1 == [] && names.bare != names.given then Candidates(cards, names.bare, at) else c1;
    if c2 == [] then None else Some(Latest(c2))
  }

  /** Card k is the last active one of its model in list order. */
  predicate IsLastActive(cards: seq<Card>, k: nat, name: string, at: int) {
    && k < |cards| && cards[k].model == name && cards[k].from <= at
    && forall j :: k < j < |cards| && cards[j].model == name ==> cards[j].from > at
  }

  predicate SomeActive(cards: seq<Card>, name: string, at: int) {
    exists k :: 0 <= k < |cards| && cards[k].model == name && cards[k].from <= at
  }

  /** The name form that decides: the first one with an active card. */
  function Matched(cards: seq<Card>, names: Names, at: int): Option<string> {
    if SomeActive(cards, names.given, at) then Some(names.given)
    else if SomeActive(cards, names.alias, at) then Some(names.alias)
    else if SomeActive(cards, names.bare, at) then Some(names.bare)
    else None
  }

  lemma LastActivePush(cards: seq<Card>, name: string, at: int)
    requires Valid(cards) && cards != []
    ensures var (init, last) := (cards[..|cards| - 1], cards[|cards| - 1]);
      var active := last.model == name && last.from <= at;
      && (active ==> IsLastActive(cards, |init|, name, at))
      && (!active ==> forall k: nat :: IsLastActive(init, k, name, at) ==> IsLastActive(cards, k, name, at))
      && (active ==> forall k: nat :: IsLastActive(init, k, name, at) ==> init[k].from < last.from)
  {
    var init, last := cards[..|cards| - 1], cards[|cards| - 1];
    assert forall j :: 0 <= j < |init| ==> init[j] == cards[j];
    if !(last.model == name && last.from <= at) {
      forall k: nat | IsLastActive(init, k, name, at)
        ensures IsLastActive(cards, k, name, at)
      {
        assert cards[k] == init[k];
        assert last.model == name ==> last.from > at;
      }
    }
  }

  lemma LatestPush(cs: seq<Card>, c: Card)
    ensures Latest(cs + [c]) == if cs == [] then c else if c.from > Latest(cs).from then c else Latest(cs)
  {
    assert (cs + [c])[..|cs|] == cs;
  }

  lemma {:induction false} CandidatesMeaning(cards: seq<Card>, name: string, at: int)
    requires Valid(cards)
    ensures Candidates(cards, name, at) != [] ==>
      exists k: nat :: IsLastActive(cards, k, name, at) && cards[k] == Latest(Candidates(cards, name, at))
  {
    if cards != [] {
      var init, last := cards[..|cards| - 1], cards[|cards| - 1];
      CandidatesMeaning(init, name, at);
      LastActivePush(cards, name, at);
      var before := Candidates(init, name, at);
      if last.model == name && last.from <= at {
        LatestPush(before, last);
        assert IsLastActive(cards, |init|, name, at) && cards[|init|] == Latest(before + [last]);
      } else if before != [] {
        assert before + [] == before;
        var k: nat :| IsLastActive(init, k, name, at) && init[k] == Latest(before);
        assert IsLastActive(cards, k, name, at) && cards[k] == init[k];
      }
    }
  }

  lemma {:induction false} SomeCandidate(cards: seq<Card>, name: string, at: int)
    ensures Candidates(cards, name, at) != [] <==> SomeActive(cards, name, at)
  {
    if cards != [] {
      var init := cards[..|cards| - 1];
      SomeCandidate(init, name, at);
      assert forall j :: 0 <= j < |init| ==> init[j] == cards[j];
    }
  }

  lemma Found(cards: seq<Card>, name: string, at: int)
    requires Valid(cards)
    ensures Candidates(cards, name, at) != [] <==> SomeActive(cards, name, at)
    ensures Candidates(cards, name, at) != [] ==>
      exists k: nat :: IsLastActive(cards, k, name, at) && cards[k] == Latest(Candidates(cards, name, at))
  {
    SomeCandidate(cards, name, at);
    CandidatesMeaning(cards, name, at);
  }

  /** For every valid table the lookup returns the last active card in list order of the
      first name form that has one, and fails exactly if none has. */
  lemma GetIsLastActive(cards: seq<Card>, names: Names, at: int)
    requires Valid(cards)
    ensures var m := Matched(cards, names, at);
      && (Get(cards, names, at).None? <==> m.None?)
      && (m.Some? ==> exists k: nat :: IsLastActive(cards, k, m.value, at) && Get(cards, names, at) == Some(cards[k]))
  {
    Found(cards, names.given, at);
    Found(cards, names.alias, at);
    Found(cards, names.bare, at);
  }

  lemma LastActiveIsMonotone(cards: seq<Card>, name: string, at: int, later: int, k: nat, k': nat)
    requires Valid(cards) && at <= later
    requires IsLastActive(cards, k, name, at) && IsLastActive(cards, k', name, later)
    ensures cards[k].from <= cards[k'].from
  {
    assert k <= k';
    assert k < k' ==> cards[k].from < cards[k'].from;
  }

  /** Once a name form has an active card it keeps one, so the form that decides can only
      change to an earlier form, whose cards have all become active since. */
  lemma FormsOnlyImprove(cards: seq<Card>, names: Names, at: int, later: int, k': nat)
    requires Valid(cards) && at <= later && Matched(cards, names, at).Some?
    ensures Matched(cards, names, later).Some?
    ensures var (m, m') := (Matched(cards, names, at).value, Matched(cards, names, later).value);
      m == m' || (IsLastActive(cards, k', m', later) ==> cards[k'].from > at)
  {
    StaysActive(cards, names.given, at, later);
    StaysActive(cards, names.alias, at, later);
    StaysActive(cards, names.bare, at, later);
    var m, m' := Matched(cards, names, at).value, Matched(cards, names, later).value;
    if m != m' {
      assert !SomeActive(cards, m', at);
    }
  }

  lemma StaysActive(cards: seq<Card>, name: string, at: int, later: int)
    requires at <= later
    ensures SomeActive(cards, name, at) ==> SomeActive(cards, name, later)
  {
  }

  /** Later dates never lose the card and never go back to an earlier one, even when the
      lookup moves from one name form to another. */
  lemma GetIsMonotone(cards: seq<Card>, names: Names, at: int, later: int)
    requires Valid(cards) && at <= later && Get(cards, names, at).Some?
    ensures Get(cards, names, later).Some?
    ensures Get(cards, names, at).value.from <= Get(cards, names, later).value.from
    ensures Get(cards, names, later).value.from <= later
  {
    GetIsLastActive(cards, names, at);
    GetIsLastActive(cards, names, later);
    FormsOnlyImprove(cards, names, at, later, 0);
    var m, m' := Matched(cards, names, at).value, Matched(cards, names, later).value;
    var k: nat :| IsLastActive(cards, k, m, at) && Get(cards, names, at) == Some(cards[k]);
    var k': nat :| IsLastActive(cards, k', m', later) && Get(cards, names, later) == Some(cards[k']);
    if m == m' {
      LastActiveIsMonotone(cards, m, at, later, k, k');
    } else {
      FormsOnlyImprove(cards, names, at, later, k');
    }
  }

  /** A step function: between a card's date and the next one's the answer does not change. */
  lemma GetIsStep(cards: seq<Card>, names: Names, at: int, later: int)
    requires Valid(cards) && at <= later
    requires forall k :: 0 <= k < |cards| && at < cards[k].from <= later ==>
      cards[k].model !in {names.given, names.alias, names.bare}
    ensures Get(cards, names, at) == Get(cards, names, later)
  {
    SameCandidates(cards, names.given, at, later);
    SameCandidates(cards, names.alias, at, later);
    SameCandidates(cards, names.bare, at, later);
  }

  lemma {:induction false} SameCandidates(cards: seq<Card>, name: string, at: int, later: int)
    requires at <= later
    requires forall k :: 0 <= k < |cards| && at < cards[k].from <= later ==> cards[k].model != name
    ensures Candidates(cards, name, at) == Candidates(cards, name, later)
  {
    if cards != [] { SameCandidates(cards[..|cards| - 1], name, at, later); }
  }

  // ── cost ──

  /** The token and tool-request counts of one attempt. Requests are listed per tool, every
      attempt in the same order, zero where a tool was not used. */
  datatype Counts = Counts(input: int, output: int, cacheRead: int, cacheCreate: int, cacheCreate1h: int,
                           requests: seq<int>)

  function Times(n: int, rate: real): real { n as real * rate }

  lemma TimesPlus(m: int, n: int, rate: real)
    ensures Times(m + n, rate) == Times(m, rate) + Times(n, rate)
  {
    assert (m + n) as real == m as real + n as real;
  }

  /** Without a 1-hour rate the 5-minute one applies. */
  function Rate1h(card: Card): real {
    if card.cacheCreate1h.Some? then card.cacheCreate1h.value else card.cacheCreate
  }

  function TokenSum(c: Counts, card: Card): real {
    Times(c.input, card.input) + Times(c.output, card.output) + Times(c.cacheRead, card.cacheRead)
    + Times(c.cacheCreate, card.cacheCreate) + Times(c.cacheCreate1h, Rate1h(card))
  }

  function TokenCost(c: Counts, card: Card): real { TokenSum(c, card) / 1_000_000.0 }

  /** The fee of tool k per thousand requests, None if the caller passed none. */
  type Fees = seq<Option<real>>

  predicate FeesCover(requests: seq<int>, fees: Fees)
    requires |requests| == |fees|
  {
    forall k :: 0 <= k < |requests| && requests[k] > 0 ==> fees[k].Some?
  }

  function ToolFee(count: int, fee: Option<real>): real {
    if count <= 0 || fee.None? then 0.0 else Times(count, fee.value) / 1000.0
  }

  function ToolCost(requests: seq<int>, fees: Fees): real
    requires |requests| == |fees|
  {
    if requests == [] then 0.0
    else
      var n := |requests| - 1;
      ToolCost(requests[..n], fees[..n]) + ToolFee(requests[n], fees[n])
  }

  /** None is PriceCardLookupError: requests without a matching fee. */
  function Cost(c: Counts, card: Card, fees: Fees): Option<real>
    requires |c.requests| == |fees|
  {
    if FeesCover(c.requests, fees) then Some(TokenCost(c, card) + ToolCost(c.requests, fees)) else None
  }

  /** compute_cost */
  method ComputeCost(c: Counts, card: Card, fees: Fees) returns (r: Option<real>)
    requires |c.requests| == |fees|
    ensures r == Cost(c, card, fees)
  {
    var rate1h := if card.cacheCreate1h.Some? then card.cacheCreate1h.value else card.cacheCreate;
    var cost := (Times(c.input, card.input) + Times(c.output, card.output) + Times(c.cacheRead, card.cacheRead)
                 + Times(c.cacheCreate, card.cacheCreate) + Times(c.cacheCreate1h, rate1h)) / 1_000_000.0;
    var k := 0;
    while k < |c.requests|
      invariant 0 <= k <= |c.requests|
      invariant FeesCover(c.requests[..k], fees[..k])
      invariant cost == TokenCost(c, card) + ToolCost(c.requests[..k], fees[..k])
    {
      assert c.requests[..k + 1][..k] == c.requests[..k] && fees[..k + 1][..k] == fees[..k];
      if c.requests[k] > 0 {
        if fees[k].None? { return None; }
        cost := cost + Times(c.requests[k], fees[k].value) / 1000.0;
      }
      k := k + 1;
    }
    assert c.requests[..k] == c.requests && fees[..k] == fees;
    r := Some(cost);
  }

  function PlusRequests(a: seq<int>, b: seq<int>): (r: seq<int>)
    requires |a| == |b|
    ensures |r| == |a| && (Natural(a) && Natural(b) ==> Natural(r))
  {
    seq(|a|, k requires 0 <= k < |a| => a[k] + b[k])
  }

  function Plus(a: Counts, b: Counts): Counts
    requires |a.requests| == |b.requests|
  {
    Counts(a.input + b.input, a.output + b.output, a.cacheRead + b.cacheRead,
           a.cacheCreate + b.cacheCreate, a.cacheCreate1h + b.cacheCreate1h, PlusRequests(a.requests, b.requests))
  }

  predicate Natural(requests: seq<int>) { forall k :: 0 <= k < |requests| ==> requests[k] >= 0 }

  lemma TokensAdd(a: Counts, b: Counts, card: Card)
    requires |a.requests| == |b.requests|
    ensures TokenSum(Plus(a, b), card) == TokenSum(a, card) + TokenSum(b, card)
  {
    TimesPlus(a.input, b.input, card.input);
    TimesPlus(a.output, b.output, card.output);
    TimesPlus(a.cacheRead, b.cacheRead, card.cacheRead);
    TimesPlus(a.cacheCreate, b.cacheCreate, card.cacheCreate);
    TimesPlus(a.cacheCreate1h, b.cacheCreate1h, Rate1h(card));
  }

  lemma FeeAdds(m: int, n: int, fee: Option<real>)
    requires m >= 0 && n >= 0
    ensures ToolFee(m + n, fee) == ToolFee(m, fee) + ToolFee(n, fee)
  {
    if fee.Some? { TimesPlus(m, n, fee.value); }
  }

  lemma {:induction false} ToolsAdd(a: seq<int>, b: seq<int>, fees: Fees)
    requires |a| == |b| == |fees| && Natural(a) && Natural(b)
    ensures ToolCost(PlusRequests(a, b), fees) == ToolCost(a, fees) + ToolCost(b, fees)
  {
    if a != [] {
      var n := |a| - 1;
      ToolsAdd(a[..n], b[..n], fees[..n]);
      FeeAdds(a[n], b[n], fees[n]);
      assert PlusRequests(a, b)[..n] == PlusRequests(a[..n], b[..n]);
    }
  }

  lemma Quotient(x: real, y: real, d: real)
    requires d != 0.0
    ensures (x + y) / d == x / d + y / d
  {
  }

  /** The cost of two attempts priced together is the sum of their costs, and has no price
      exactly if one of them has none. */
  lemma CostAdds(a: Counts, b: Counts, card: Card, fees: Fees)
    requires |a.requests| == |b.requests| == |fees| && Natural(a.requests) && Natural(b.requests)
    ensures var sum := Cost(Plus(a, b), card, fees);
      && (sum.None? <==> Cost(a, card, fees).None? || Cost(b, card, fees).None?)
      && (sum.Some? ==> sum.value == Cost(a, card, fees).value + Cost(b, card, fees).value)
  {
    TokensAdd(a, b, card);
    Quotient(TokenSum(a, card), TokenSum(b, card), 1_000_000.0);
    ToolsAdd(a.requests, b.requests, fees);
    CoverPlus(a.requests, b.requests, fees);
  }

  lemma CoverPlus(a: seq<int>, b: seq<int>, fees: Fees)
    requires |a| == |b| == |fees| && Natural(a) && Natural(b)
    ensures FeesCover(PlusRequests(a, b), fees) <==> FeesCover(a, fees) && FeesCover(b, fees)
  {
    var sum := PlusRequests(a, b);
    forall k | 0 <= k < |a|
      ensures sum[k] > 0 <==> a[k] > 0 || b[k] > 0
    {
    }
  }

  // ── over all attempts of a run ──

  function Total(attempts: seq<Counts>, tools: nat): (r: Counts)
    requires forall k :: 0 <= k < |attempts| ==> |attempts[k].requests| == tools && Natural(attempts[k].requests)
    ensures |r.requests| == tools && Natural(r.requests)
  {
    if attempts == [] then Counts(0, 0, 0, 0, 0, seq(tools, _ => 0))
    else Plus(Total(attempts[..|attempts| - 1], tools), attempts[|attempts| - 1])
  }

  function SumOfCosts(attempts: seq<Counts>, card: Card, fees: Fees): Option<real>
    requires forall k :: 0 <= k < |attempts| ==> |attempts[k].requests| == |fees|
  {
    if attempts == [] then Some(0.0)
    else
      var (before, last) := (SumOfCosts(attempts[..|attempts| - 1], card, fees),
                             Cost(attempts[|attempts| - 1], card, fees));
      if before.None? || last.None? then None else Some(before.value + last.value)
  }

  /** Pricing the summed counts of any number of attempts gives the sum of their costs. */
  lemma {:induction false} CostIsAdditive(attempts: seq<Counts>, card: Card, fees: Fees)
    requires forall k :: 0 <= k < |attempts| ==> |attempts[k].requests| == |fees| && Natural(attempts[k].requests)
    ensures Cost(Total(attempts, |fees|), card, fees) == SumOfCosts(attempts, card, fees)
  {
    if attempts == [] {
      NothingCostsNothing(Total(attempts, |fees|), card, fees);
    } else {
      CostIsAdditive(attempts[..|attempts| - 1], card, fees);
      CostAdds(Total(attempts[..|attempts| - 1], |fees|), attempts[|attempts| - 1], card, fees);
    }
  }

  lemma NothingCostsNothing(c: Counts, card: Card, fees: Fees)
    requires |c.requests| == |fees| && c == Counts(0, 0, 0, 0, 0, c.requests)
    requires forall k :: 0 <= k < |c.requests| ==> c.requests[k] == 0
    ensures Cost(c, card, fees) == Some(0.0)
  {
    ZeroTools(c.requests, fees);
  }

  lemma {:induction false} ZeroTools(requests: seq<int>, fees: Fees)
    requires |requests| == |fees| && forall k :: 0 <= k < |requests| ==> requests[k] == 0
    ensures ToolCost(requests, fees) == 0.0
  {
    if requests != [] { ZeroTools(requests[..|requests| - 1], fees[..|requests| - 1]); }
  }

  // ── what one unit costs ──

  function NoRequests(tools: nat): (r: seq<int>)
    ensures |r| == tools && forall k :: 0 <= k < tools ==> r[k] == 0
  {
    seq(tools, _ => 0)
  }

  /** A million tokens of each class cost the card's rate for that class; 1-hour cache writes
      fall back to the 5-minute rate when the card has none of their own. */
  lemma PerMillion(card: Card, fees: Fees)
    ensures var none, m := NoRequests(|fees|), 1_000_000;
      && Cost(Counts(m, 0, 0, 0, 0, none), card, fees) == Some(card.input)
      && Cost(Counts(0, m, 0, 0, 0, none), card, fees) == Some(card.output)
      && Cost(Counts(0, 0, m, 0, 0, none), card, fees) == Some(card.cacheRead)
      && Cost(Counts(0, 0, 0, m, 0, none), card, fees) == Some(card.cacheCreate)
      && (card.cacheCreate1h.Some? ==> Cost(Counts(0, 0, 0, 0, m, none), card, fees) == card.cacheCreate1h)
      && (card.cacheCreate1h.None? ==> Cost(Counts(0, 0, 0, 0, m, none), card, fees) == Some(card.cacheCreate))
  {
    var none, m := NoRequests(|fees|), 1_000_000;
    ZeroTools(none, fees);
    MillionTimes(card.input);
    MillionTimes(card.output);
    MillionTimes(card.cacheRead);
    MillionTimes(card.cacheCreate);
    MillionTimes(Rate1h(card));
  }

  lemma MillionTimes(rate: real)
    ensures Times(1_000_000, rate) / 1_000_000.0 == rate && Times(0, rate) == 0.0
  {
  }

  /** A thousand requests of one tool cost its fee, and no price if it has none. */
  lemma PerThousand(card: Card, fees: Fees, k: nat)
    requires k < |fees|
    ensures Cost(Counts(0, 0, 0, 0, 0, NoRequests(|fees|)[k := 1000]), card, fees) == fees[k]
  {
    var requests := NoRequests(|fees|)[k := 1000];
    OneTool(requests, fees, k);
    MillionTimes(card.input);
    MillionTimes(card.output);
    MillionTimes(card.cacheRead);
    MillionTimes(card.cacheCreate);
    MillionTimes(Rate1h(card));
    if fees[k].None? { assert requests[k] > 0; }
  }

  lemma {:induction false} OneTool(requests: seq<int>, fees: Fees, k: nat)
    requires |requests| == |fees| && k < |requests| && requests[k] == 1000
    requires forall j :: 0 <= j < |requests| && j != k ==> requests[j] == 0
    ensures ToolCost(requests, fees) == if fees[k].Some? then fees[k].value else 0.0
  {
    var n := |requests| - 1;
    if k < n {
      OneTool(requests[..n], fees[..n], k);
    } else {
      ZeroTools(requests[..n], fees[..n]);
    }
  }

  /** A negative count would break that: it is skipped on its own but not in a sum. */
  lemma NegativeCountsDoNotAdd(m: int, n: int, fee: real)
    requires n < 0 <= m + n && fee > 0.0
    ensures ToolFee(m + n, Some(fee)) < ToolFee(m, Some(fee)) + ToolFee(n, Some(fee))
  {
    TimesPlus(m, n, fee);
    assert Times(n, fee) < 0.0;
  }
}
