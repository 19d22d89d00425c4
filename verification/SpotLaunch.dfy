/** The replay-safe spot launch of src/krepis/ec2_spot.py. EC2 is a log of every instance
    ever created; what it answers (capacity, quota, lost replies, pages of a listing) is
    chosen by an adversary, and a dispatcher may be killed before or after any request. */
module SpotLaunch {
  import opened Prelude

  datatype Market = Spot | OnDemand

  datatype Reason = SpotOk | CapacityExhausted | QuotaExceeded | ForceOnDemand

  /** Everything a RunInstances request carries besides its token: EC2 compares it when a
      token is reused. LaunchReason is a tag, so it is part of it; rest is all the others. */
  datatype Params = Params(market: Market, itype: string, subnet: string, reason: Reason, rest: int)

  datatype Instance = Instance(token: string, params: Params)

  /** Instance ids are positions in the log. A terminated instance stays in it. */
  type Cloud = seq<Instance>

  // ── client tokens ──

  function MarketName(m: Market): string { if m.Spot? then "spot" else "on-demand" }

  /** What client_token hashes; the digest is treated as injective. */
  function ClientToken(key: string, m: Market, itype: string, subnet: string): string {
    key + "|" + MarketName(m) + "|" + itype + "|" + subnet
  }

  lemma NoBarAfter(a: string, x: string)
    requires '|' !in x
    ensures forall i :: |a| < i < |a| + 1 + |x| ==> (a + "|" + x)[i] != '|'
  {
    forall i | |a| < i < |a| + 1 + |x| ensures (a + "|" + x)[i] != '|' {
      assert (a + "|" + x)[i] == x[i - |a| - 1];
    }
  }

  lemma LastBar(a: string, x: string, b: string, y: string)
    requires '|' !in x && '|' !in y && a + "|" + x == b + "|" + y
    ensures a == b && x == y
  {
    var s := a + "|" + x;
    NoBarAfter(a, x);
    NoBarAfter(b, y);
    assert s[|a|] == '|' && s[|b|] == '|';
    assert |a| == |b|;
    assert a == s[..|a|] == b;
    assert x == s[|a| + 1..] == y;
  }

  /** One token per (key, market, type, subnet), for any keys whatever: only types and
      subnets must be free of the separator, as EC2 names are. */
  lemma ClientTokenInjective(k1: string, m1: Market, t1: string, s1: string,
                             k2: string, m2: Market, t2: string, s2: string)
    requires '|' !in t1 && '|' !in s1 && '|' !in t2 && '|' !in s2
    requires ClientToken(k1, m1, t1, s1) == ClientToken(k2, m2, t2, s2)
    ensures k1 == k2 && m1 == m2 && t1 == t2 && s1 == s2
  {
    var a1, a2 := k1 + "|" + MarketName(m1), k2 + "|" + MarketName(m2);
    LastBar(a1 + "|" + t1, s1, a2 + "|" + t2, s2);
    LastBar(a1, t1, a2, t2);
    LastBar(k1, MarketName(m1), k2, MarketName(m2));
  }

  lemma SameKeyTokens(key: string, m1: Market, t1: string, s1: string, m2: Market, t2: string, s2: string)
    requires ClientToken(key, m1, t1, s1) == ClientToken(key, m2, t2, s2)
    ensures m1 == m2 && t1 + "|" + s1 == t2 + "|" + s2
  {
    var a1, a2 := key + "|" + MarketName(m1) + "|", key + "|" + MarketName(m2) + "|";
    var x1, x2 := t1 + "|" + s1, t2 + "|" + s2;
    TokenSplits(key, m1, t1, s1, a1, x1);
    TokenSplits(key, m2, t2, s2, a2, x2);
    assert x1 == (a1 + x1)[|a1|..] && x2 == (a2 + x2)[|a2|..];
  }

  lemma TokenSplits(key: string, m: Market, t: string, s: string, a: string, x: string)
    requires a == key + "|" + MarketName(m) + "|" && x == t + "|" + s
    ensures ClientToken(key, m, t, s) == a + x && (a + x)[|key| + 1] == MarketName(m)[0]
  {
  }

  lemma SplitAt(s: string, i: nat)
    requires i < |s| && s[i] == '|'
    ensures s == s[..i] + "|" + s[i + 1..]
  {
  }

  lemma MovedBar(key: string, m: Market, a: string, b: string, c: string)
    ensures ClientToken(key, m, a + "|" + b, c) == ClientToken(key, m, a, b + "|" + c)
  {
    assert (a + "|" + b) + "|" + c == a + "|" + (b + "|" + c);
    assert ClientToken(key, m, a + "|" + b, c) == key + "|" + MarketName(m) + "|" + ((a + "|" + b) + "|" + c);
    assert ClientToken(key, m, a, b + "|" + c) == key + "|" + MarketName(m) + "|" + (a + "|" + (b + "|" + c));
  }

  ghost predicate Identifies(key: string, m: Market, t: string, s: string) {
    forall m2, t2, s2 :: ClientToken(key, m2, t2, s2) == ClientToken(key, m, t, s) ==> m2 == m && t2 == t && s2 == s
  }

  /** Within one key a token tells its market, type and subnet from all others exactly if
      neither name contains the separator. */
  lemma TokenIdentifiesIff(key: string, m: Market, t: string, s: string)
    ensures Identifies(key, m, t, s) <==> '|' !in t && '|' !in s
  {
    if '|' in t {
      var i :| 0 <= i < |t| && t[i] == '|';
      SplitAt(t, i);
      MovedBar(key, m, t[..i], t[i + 1..], s);
      assert t[..i] != t;
      assert ClientToken(key, m, t[..i], t[i + 1..] + "|" + s) == ClientToken(key, m, t, s);
    } else if '|' in s {
      var i :| 0 <= i < |s| && s[i] == '|';
      SplitAt(s, i);
      MovedBar(key, m, t, s[..i], s[i + 1..]);
      assert s[i + 1..] != s;
      assert ClientToken(key, m, t + "|" + s[..i], s[i + 1..]) == ClientToken(key, m, t, s);
    } else {
      forall m2, t2, s2 | ClientToken(key, m2, t2, s2) == ClientToken(key, m, t, s)
        ensures m2 == m && t2 == t && s2 == s
      {
        SameKeyTokens(key, m2, t2, s2, m, t, s);
        OneBar(t, s, t2, s2);
      }
    }
  }

  lemma OneBar(t: string, s: string, t2: string, s2: string)
    requires '|' !in t && '|' !in s && t2 + "|" + s2 == t + "|" + s
    ensures t2 == t && s2 == s
  {
    var x, y := t + "|" + s, t2 + "|" + s2;
    assert y[|t2|] == '|';
    assert forall i :: 0 <= i < |x| && i != |t| ==> x[i] == if i < |t| then t[i] else s[i - |t| - 1];
    assert |t2| == |t|;
    assert t2 == y[..|t|] && t == x[..|t|] && s2 == y[|t| + 1..] && s == x[|t| + 1..];
  }

  // ── the rotation order ──

  function Row(itype: string, subnets: seq<string>): seq<(string, string)> {
    if subnets == [] then [] else [(itype, subnets[0])] + Row(itype, subnets[1..])
  }

  /** Types outermost, subnets innermost. */
  function Rotation(types: seq<string>, subnets: seq<string>): seq<(string, string)> {
    if types == [] then [] else Row(types[0], subnets) + Rotation(types[1..], subnets)
  }

  lemma RowStep(itype: string, subnets: seq<string>, j: nat, later: seq<(string, string)>)
    requires j < |subnets|
    ensures Row(itype, subnets[j..]) + later != []
    ensures (Row(itype, subnets[j..]) + later)[0] == (itype, subnets[j])
    ensures (Row(itype, subnets[j..]) + later)[1..] == Row(itype, subnets[j + 1..]) + later
  {
    assert subnets[j..][1..] == subnets[j + 1..];
  }

  ghost predicate IsTokenOf(token: string, key: string, types: seq<string>, subnets: seq<string>) {
    exists m, t, s :: t in types && s in subnets && token == ClientToken(key, m, t, s)
  }

  lemma {:induction false} RowMembers(itype: string, subnets: seq<string>, t: string, s: string)
    ensures (t, s) in Row(itype, subnets) <==> t == itype && s in subnets
  {
    if subnets != [] {
      RowMembers(itype, subnets[1..], t, s);
    }
  }

  lemma {:induction false} RotationMembers(types: seq<string>, subnets: seq<string>, t: string, s: string)
    ensures (t, s) in Rotation(types, subnets) <==> t in types && s in subnets
  {
    if types != [] {
      RowMembers(types[0], subnets, t, s);
      RotationMembers(types[1..], subnets, t, s);
    }
  }

  /** Every attempt's token with its market, as the dict comprehension builds it: spot
      first, and a later entry replaces an earlier one under the same token. */
  function AllTokens(key: string, types: seq<string>, subnets: seq<string>): map<string, Market> {
    TokensFor(key, Spot, Rotation(types, subnets)) + TokensFor(key, OnDemand, Rotation(types, subnets))
  }

  function TokensFor(key: string, m: Market, combos: seq<(string, string)>): map<string, Market> {
    if combos == [] then map[]
    else TokensFor(key, m, combos[1..])[ClientToken(key, m, combos[0].0, combos[0].1) := m]
  }

  lemma {:induction false} TokensForExact(key: string, m: Market, combos: seq<(string, string)>, token: string)
    ensures token in TokensFor(key, m, combos) <==>
      exists c :: c in combos && token == ClientToken(key, m, c.0, c.1)
    ensures token in TokensFor(key, m, combos) ==> TokensFor(key, m, combos)[token] == m
  {
    if combos != [] {
      TokensForExact(key, m, combos[1..], token);
      assert combos == [combos[0]] + combos[1..];
    }
  }

  lemma MarketTokens(key: string, m: Market, types: seq<string>, subnets: seq<string>, token: string)
    ensures token in TokensFor(key, m, Rotation(types, subnets)) <==>
      exists t, s :: t in types && s in subnets && token == ClientToken(key, m, t, s)
  {
    var combos := Rotation(types, subnets);
    TokensForExact(key, m, combos, token);
    if t, s :| t in types && s in subnets && token == ClientToken(key, m, t, s) {
      RotationMembers(types, subnets, t, s);
      assert (t, s) in combos;
    }
    if c :| c in combos && token == ClientToken(key, m, c.0, c.1) {
      RotationMembers(types, subnets, c.0, c.1);
    }
  }

  /** The probe looks for exactly the tokens an attempt of this key can carry. */
  lemma AllTokensExact(key: string, types: seq<string>, subnets: seq<string>, token: string)
    ensures token in AllTokens(key, types, subnets) <==> IsTokenOf(token, key, types, subnets)
  {
    MarketTokens(key, Spot, types, subnets, token);
    MarketTokens(key, OnDemand, types, subnets, token);
    if m, t, s :| t in types && s in subnets && token == ClientToken(key, m, t, s) {
      assert m == Spot || m == OnDemand;
    }
  }

  /** ... and knows each token's market, whatever the names contain. */
  lemma AllTokensMarket(key: string, types: seq<string>, subnets: seq<string>, m: Market, t: string, s: string)
    requires t in types && s in subnets
    ensures var token := ClientToken(key, m, t, s);
      token in AllTokens(key, types, subnets) && AllTokens(key, types, subnets)[token] == m
  {
    var token := ClientToken(key, m, t, s);
    MarketTokens(key, m, types, subnets, token);
    TokensForExact(key, m, Rotation(types, subnets), token);
    MarketTokens(key, OnDemand, types, subnets, token);
    if t', s' :| t' in types && s' in subnets && token == ClientToken(key, OnDemand, t', s') {
      SameKeyTokens(key, m, t, s, OnDemand, t', s');
    }
  }

  // ── EC2 ──

  function FindToken(c: Cloud, token: string): (r: Option<nat>)
    ensures r.Some? ==> r.value < |c| && c[r.value].token == token
    ensures r.None? ==> forall i :: 0 <= i < |c| ==> c[i].token != token
  {
    if c == [] then None
    else if c[|c| - 1].token == token then Some(|c| - 1)
    else FindToken(c[..|c| - 1], token)
  }

  datatype RunReply =
    | Grant                // EC2 is willing
    | Refuse(code: string) // a ClientError of the adversary's choosing
    | Lost(landed: bool)   // the connection died; the request may have landed

  datatype RunResult = Launched(id: nat) | ClientError(code: string) | ConnectionError

  const MISMATCH := "IdempotentParameterMismatch"

  const CAPACITY_CODES := {"InsufficientInstanceCapacity", "InsufficientHostCapacity",
                           "SpotMaxPriceTooLow", "Unsupported", "InvalidAvailabilityZone"}

  const QUOTA_CODES := {"MaxSpotInstanceCountExceeded", "SpotInstanceRequestLimitExceeded",
                        "MaxSpotFleetRequestCountExceeded"}

  /** RunInstances with a ClientToken: a token seen before gives its instance back, or is
      refused when the parameters differ; it never creates a second instance. */
  function RunSpec(c: Cloud, token: string, p: Params, reply: RunReply): (Cloud, RunResult) {
    if reply.Refuse? then (c, ClientError(reply.code))
    else if reply.Lost? && !reply.landed then (c, ConnectionError)
    else
      var seen := FindToken(c, token);
      var c' := if seen.Some? then c else c + [Instance(token, p)];
      if reply.Lost? then (c', ConnectionError)
      else if seen.None? then (c', Launched(|c|))
      else if c[seen.value].params == p then (c', Launched(seen.value))
      else (c', ClientError(MISMATCH))
  }

  /** One entry of a DescribeInstances answer; id and token may be missing. */
  datatype Entry = Entry(id: Option<nat>, token: Option<string>, marketTag: Option<string>)

  /** What DescribeInstances answers for a token filter: pages in order, or an exception. */
  type Describe = seq<string> -> Option<seq<seq<Entry>>>

  /** One dispatcher invocation and the adversary's choices for it. life counts half-steps:
      request n is sent only if life exceeds 2n, and its reply is seen only beyond 2n+1. */
  datatype Invocation = Invocation(
    key: string, types: seq<string>, subnets: seq<string>, forceOnDemand: bool, rest: int,
    life: nat, reply: nat -> RunReply, probe: Describe, reprobe: Describe, pageRaises: bool)

  // ── launch ──

  datatype LaunchEnd = Started(id: nat) | Exhausted | QuotaHit | Conflict | OtherError | Killed

  function Attempt(inv: Invocation, m: Market, why: Reason, combo: (string, string)): (string, Params) {
    (ClientToken(inv.key, m, combo.0, combo.1), Params(m, combo.0, combo.1, why, inv.rest))
  }

  /** One attempt of the rotation: how launch ends there, or None to rotate on. */
  function TryOne(c: Cloud, inv: Invocation, m: Market, why: Reason, combo: (string, string), n: nat)
    : (Cloud, Option<LaunchEnd>)
  {
    var (token, p) := Attempt(inv, m, why, combo);
    var (c', got) := RunSpec(c, token, p, inv.reply(n));
    if inv.life == 2 * n + 1 then (c', Some(Killed))
    else match got
      case Launched(id) => (c', Some(Started(id)))
      case ConnectionError => (c', Some(OtherError))
      case ClientError(code) =>
        (c', if code in QUOTA_CODES then Some(QuotaHit)
             else if code in CAPACITY_CODES then None
             else if code == MISMATCH then Some(Conflict)
             else Some(OtherError))
  }

  /** launch over the combinations still to try, from request number n on. */
  function Rotate(c: Cloud, inv: Invocation, m: Market, why: Reason,
                  combos: seq<(string, string)>, n: nat): (Cloud, LaunchEnd, nat)
    decreases |combos|
  {
    if combos == [] then (c, Exhausted, n)
    else if inv.life <= 2 * n then (c, Killed, n)
    else
      var (c', stop) := TryOne(c, inv, m, why, combos[0], n);
      if stop.Some? then (c', stop.value, n + 1)
      else Rotate(c', inv, m, why, combos[1..], n + 1)
  }

  // ── the probe ──

  const PROBE_CHUNK := 50

  datatype ProbeEnd = Raised | Nothing | Found(id: nat, market: string)

  function Flatten(pages: seq<seq<Entry>>): seq<Entry> {
    if pages == [] then [] else pages[0] + Flatten(pages[1..])
  }

  /** The first listed entry that has an id. */
  function FirstWithId(es: seq<Entry>): (r: Option<Entry>)
    ensures r.Some? ==> r.value in es && r.value.id.Some?
    ensures r.None? ==> forall e :: e in es ==> e.id.None?
  {
    if es == [] then None
    else if es[0].id.Some? then Some(es[0])
    else FirstWithId(es[1..])
  }

  function MarketOf(tokens: map<string, Market>, e: Entry): string {
    if e.token.Some? && e.token.value in tokens then MarketName(tokens[e.token.value])
    else if e.marketTag.Some? then e.marketTag.value
    else "unknown"
  }

  function ProbeSpec(tokens: map<string, Market>, ordered: seq<string>, describe: Describe): ProbeEnd
    decreases |ordered|
  {
    if ordered == [] then Nothing
    else
      var k := Min(PROBE_CHUNK, |ordered|);
      match describe(ordered[..k])
      case None => Raised
      case Some(pages) =>
        match FirstWithId(Flatten(pages))
        case Some(e) => Found(e.id.value, MarketOf(tokens, e))
        case None => ProbeSpec(tokens, ordered[k..], describe)
  }

  /** The listing for a filter is complete and correct: exactly the ids of the instances
      that carry one of its tokens, each with its own token when it has one. */
  ghost predicate AccurateFor(describe: Describe, c: Cloud, filter: seq<string>) {
    && describe(filter).Some?
    && (forall e :: e in Flatten(describe(filter).value) && e.id.Some? ==>
          && e.id.value < |c|
          && c[e.id.value].token in filter
          && (e.token.Some? ==> e.token.value == c[e.id.value].token))
    && (forall i :: 0 <= i < |c| && c[i].token in filter ==>
          exists e :: e in Flatten(describe(filter).value) && e.id == Some(i))
  }

  ghost predicate Accurate(describe: Describe, c: Cloud) {
    forall filter :: AccurateFor(describe, c, filter)
  }

  /** With an accurate listing the chunked, paginated search finds an instance iff one
      carries some token of the key, and what it names is such an instance. */
  lemma {:induction false} ProbeExact(tokens: map<string, Market>, ordered: seq<string>,
                                      describe: Describe, c: Cloud)
    requires Accurate(describe, c)
    ensures var r := ProbeSpec(tokens, ordered, describe);
      && !r.Raised?
      && (r.Nothing? <==> forall i :: 0 <= i < |c| ==> c[i].token !in ordered)
      && (r.Found? ==> r.id < |c| && c[r.id].token in ordered)
    decreases |ordered|
  {
    if ordered != [] {
      var k := Min(PROBE_CHUNK, |ordered|);
      var chunk, later := ordered[..k], ordered[k..];
      assert ordered == chunk + later;
      assert AccurateFor(describe, c, chunk);
      var hit := FirstWithId(Flatten(describe(chunk).value));
      if hit.None? {
        ProbeExact(tokens, later, describe, c);
        forall i | 0 <= i < |c| ensures c[i].token !in chunk {}
      }
    }
  }

  // ── one invocation ──

  datatype Outcome =
    | Returned(id: nat, market: string, replayed: bool, degraded: bool)
    | RaisedError
    | WasKilled

  predicate WellFormed(inv: Invocation) {
    inv.key != "" && inv.types != [] && inv.subnets != []
  }

  /** Spot first unless forced, then on-demand when spot ran out of capacity or quota. */
  function RotateMarkets(c: Cloud, inv: Invocation): (Cloud, LaunchEnd, Market) {
    var combos := Rotation(inv.types, inv.subnets);
    if inv.forceOnDemand then
      var (c1, end, _) := Rotate(c, inv, OnDemand, ForceOnDemand, combos, 0);
      (c1, end, OnDemand)
    else
      var (c1, end, n) := Rotate(c, inv, Spot, SpotOk, combos, 0);
      if end.Exhausted? then
        var (c2, end2, _) := Rotate(c1, inv, OnDemand, CapacityExhausted, combos, n);
        (c2, end2, OnDemand)
      else if end.QuotaHit? && !inv.pageRaises then
        var (c2, end2, _) := Rotate(c1, inv, OnDemand, QuotaExceeded, combos, n);
        (c2, end2, OnDemand)
      else (c1, end, Spot)
  }

  function SelfStart(c: Cloud, inv: Invocation, tokens: map<string, Market>, ordered: seq<string>)
    : (Cloud, Outcome)
  {
    if inv.key == "" then (c, RaisedError)
    else if inv.life == 0 then (c, WasKilled)
    else
      var first := ProbeSpec(tokens, ordered, inv.probe);
      if first.Found? then (c, Returned(first.id, first.market, true, false))
      else if !WellFormed(inv) then (c, RaisedError)
      else
        var (c', end, market) := RotateMarkets(c, inv);
        (c', OutcomeOf(end, market, first.Raised?, ProbeSpec(tokens, ordered, inv.reprobe)))
  }

  /** What an invocation makes of its launch; a token conflict is looked up once more. */
  function OutcomeOf(end: LaunchEnd, market: Market, degraded: bool, again: ProbeEnd): Outcome {
    match end
    case Started(id) => Returned(id, MarketName(market), false, degraded)
    case Killed => WasKilled
    case Conflict => if again.Found? then Returned(again.id, again.market, true, degraded) else RaisedError
    case _ => RaisedError
  }

  /** ordered lists the key's tokens, each at least once, in any order. */
  ghost predicate Lists(ordered: seq<string>, key: string, types: seq<string>, subnets: seq<string>) {
    forall token :: token in ordered <==> IsTokenOf(token, key, types, subnets)
  }

  ghost predicate NoneOf(c: Cloud, ordered: seq<string>) {
    forall i :: 0 <= i < |c| ==> c[i].token !in ordered
  }

  ghost predicate AtMostOneOf(c: Cloud, ordered: seq<string>) {
    forall i, j :: 0 <= i < |c| && 0 <= j < |c| && c[i].token in ordered && c[j].token in ordered ==> i == j
  }

  /** EC2's own guarantee, over everything it ever created. */
  ghost predicate TokensDistinct(c: Cloud) {
    forall i, j :: 0 <= i < j < |c| ==> c[i].token != c[j].token
  }

  ghost predicate TriesOnly(inv: Invocation, combos: seq<(string, string)>) {
    forall k :: 0 <= k < |combos| ==> combos[k].0 in inv.types && combos[k].1 in inv.subnets
  }

  ghost predicate SameOrOneMore(c: Cloud, c': Cloud, ordered: seq<string>) {
    c' == c || (|c'| == |c| + 1 && c'[..|c|] == c && c'[|c|].token in ordered)
  }

  lemma TryOneCreatesAtMostOne(c: Cloud, inv: Invocation, m: Market, why: Reason,
      combo: (string, string), n: nat, ordered: seq<string>)
    requires NoneOf(c, ordered) && Lists(ordered, inv.key, inv.types, inv.subnets)
    requires combo.0 in inv.types && combo.1 in inv.subnets
    ensures var (c', stop) := TryOne(c, inv, m, why, combo, n);
      && SameOrOneMore(c, c', ordered)
      && (stop == None || stop == Some(QuotaHit) ==> c' == c)
      && stop != Some(Exhausted)
      && (stop.Some? && stop.value.Started? ==> stop.value.id == |c| && |c'| == |c| + 1)
  {
    var token := ClientToken(inv.key, m, combo.0, combo.1);
    assert IsTokenOf(token, inv.key, inv.types, inv.subnets);
    assert FindToken(c, token).None?;
  }

  /** One rotation from a cloud without the key's instances creates at most one, and an
      end that lets the caller go on to the next market created none. */
  lemma {:induction false} RotateCreatesAtMostOne(c: Cloud, inv: Invocation, m: Market, why: Reason,
      combos: seq<(string, string)>, n: nat, ordered: seq<string>)
    requires NoneOf(c, ordered) && Lists(ordered, inv.key, inv.types, inv.subnets)
    requires TriesOnly(inv, combos)
    ensures var (c', end, _) := Rotate(c, inv, m, why, combos, n);
      && SameOrOneMore(c, c', ordered)
      && (end.Exhausted? || end.QuotaHit? ==> c' == c)
      && (end.Started? ==> end.id == |c| && |c'| == |c| + 1)
    decreases |combos|
  {
    if combos != [] && inv.life > 2 * n {
      TryOneCreatesAtMostOne(c, inv, m, why, combos[0], n, ordered);
      if TryOne(c, inv, m, why, combos[0], n).1.None? {
        RotateCreatesAtMostOne(c, inv, m, why, combos[1..], n + 1, ordered);
      }
    }
  }

  lemma WholeRotationTriesOnly(inv: Invocation)
    ensures TriesOnly(inv, Rotation(inv.types, inv.subnets))
  {
    var combos := Rotation(inv.types, inv.subnets);
    forall k | 0 <= k < |combos| ensures combos[k].0 in inv.types && combos[k].1 in inv.subnets {
      RotationMembers(inv.types, inv.subnets, combos[k].0, combos[k].1);
      assert combos[k] in combos;
    }
  }

  lemma MarketsCreateAtMostOne(c: Cloud, inv: Invocation, ordered: seq<string>)
    requires NoneOf(c, ordered) && Lists(ordered, inv.key, inv.types, inv.subnets)
    ensures var (c', end, _) := RotateMarkets(c, inv);
      && SameOrOneMore(c, c', ordered)
      && (end.Started? ==> end.id == |c| && |c'| == |c| + 1)
  {
    var combos := Rotation(inv.types, inv.subnets);
    WholeRotationTriesOnly(inv);
    if inv.forceOnDemand {
      RotateCreatesAtMostOne(c, inv, OnDemand, ForceOnDemand, combos, 0, ordered);
    } else {
      RotateCreatesAtMostOne(c, inv, Spot, SpotOk, combos, 0, ordered);
      var (_, end, n) := Rotate(c, inv, Spot, SpotOk, combos, 0);
      if end.Exhausted? {
        RotateCreatesAtMostOne(c, inv, OnDemand, CapacityExhausted, combos, n, ordered);
      } else if end.QuotaHit? {
        RotateCreatesAtMostOne(c, inv, OnDemand, QuotaExceeded, combos, n, ordered);
      }
    }
  }

  /** One invocation, killed anywhere, with accurate probes: still at most one instance of
      the key, nothing in the log disturbed, and a normal return names that instance. */
  lemma InvocationKeepsOne(c: Cloud, inv: Invocation, tokens: map<string, Market>, ordered: seq<string>)
    requires AtMostOneOf(c, ordered) && Lists(ordered, inv.key, inv.types, inv.subnets)
    requires Accurate(inv.probe, c) && Accurate(inv.reprobe, SelfStart(c, inv, tokens, ordered).0)
    ensures var (c', r) := SelfStart(c, inv, tokens, ordered);
      && c <= c' && AtMostOneOf(c', ordered)
      && (r.Returned? ==> r.id < |c'| && c'[r.id].token in ordered)
  {
    ProbeExact(tokens, ordered, inv.probe, c);
    if NoneOf(c, ordered) { FirstLaunchKeepsOne(c, inv, tokens, ordered); }
  }

  /** ... where the key has no instance yet. */
  lemma FirstLaunchKeepsOne(c: Cloud, inv: Invocation, tokens: map<string, Market>, ordered: seq<string>)
    requires NoneOf(c, ordered) && Lists(ordered, inv.key, inv.types, inv.subnets)
    requires ProbeSpec(tokens, ordered, inv.probe).Nothing?
    requires Accurate(inv.reprobe, SelfStart(c, inv, tokens, ordered).0)
    ensures var (c', r) := SelfStart(c, inv, tokens, ordered);
      && c <= c' && AtMostOneOf(c', ordered)
      && (r.Returned? ==> r.id < |c'| && c'[r.id].token in ordered)
  {
    MarketsCreateAtMostOne(c, inv, ordered);
    if inv.key != "" && inv.life > 0 && WellFormed(inv) {
      var (c', end, market) := RotateMarkets(c, inv);
      var again := ProbeSpec(tokens, ordered, inv.reprobe);
      ProbeExact(tokens, ordered, inv.reprobe, c');
      OneMoreIsOne(c, c', ordered);
      ReturnedIsOne(c, c', end, market, false, again, ordered);
    }
  }

  lemma ReturnedIsOne(c: Cloud, c': Cloud, end: LaunchEnd, market: Market, degraded: bool, again: ProbeEnd,
                      ordered: seq<string>)
    requires SameOrOneMore(c, c', ordered) && (end.Started? ==> end.id == |c| && |c'| == |c| + 1)
    requires again.Found? ==> again.id < |c'| && c'[again.id].token in ordered
    ensures var r := OutcomeOf(end, market, degraded, again);
      r.Returned? ==> r.id < |c'| && c'[r.id].token in ordered
  {
  }

  lemma OneMoreIsOne(c: Cloud, c': Cloud, ordered: seq<string>)
    requires NoneOf(c, ordered) && SameOrOneMore(c, c', ordered)
    ensures c <= c' && AtMostOneOf(c', ordered)
  {
    assert forall i :: 0 <= i < |c| ==> c'[i] == c[i];
  }

  // ── any sequence of invocations of one key ──

  function Replay(c: Cloud, invs: seq<Invocation>, tokens: map<string, Market>, ordered: seq<string>)
    : (r: (Cloud, seq<Outcome>))
    ensures |r.1| == |invs|
    decreases |invs|
  {
    if invs == [] then (c, [])
    else
      var (c1, r1) := SelfStart(c, invs[0], tokens, ordered);
      var (c2, rs) := Replay(c1, invs[1..], tokens, ordered);
      (c2, [r1] + rs)
  }

  ghost predicate SameKey(invs: seq<Invocation>, key: string, types: seq<string>, subnets: seq<string>) {
    forall k :: 0 <= k < |invs| ==>
      invs[k].key == key && invs[k].types == types && invs[k].subnets == subnets
  }

  ghost predicate ProbesAccurate(c: Cloud, invs: seq<Invocation>, tokens: map<string, Market>,
                                 ordered: seq<string>)
    decreases |invs|
  {
    invs == [] ||
    var c' := SelfStart(c, invs[0], tokens, ordered).0;
    Accurate(invs[0].probe, c) && Accurate(invs[0].reprobe, c')
    && ProbesAccurate(c', invs[1..], tokens, ordered)
  }

  /** Crash-replay idempotence: however many invocations of a key run one after the other,
      each killed wherever the adversary likes, EC2 holds at most one instance of the key
      and every normal return, of every invocation, names it. */
  lemma {:induction false} ReplayIdempotent(c: Cloud, invs: seq<Invocation>, key: string,
      types: seq<string>, subnets: seq<string>, tokens: map<string, Market>, ordered: seq<string>)
    requires AtMostOneOf(c, ordered) && Lists(ordered, key, types, subnets)
    requires SameKey(invs, key, types, subnets) && ProbesAccurate(c, invs, tokens, ordered)
    ensures var (c', rs) := Replay(c, invs, tokens, ordered);
      && c <= c' && AtMostOneOf(c', ordered)
      && forall k :: 0 <= k < |rs| && rs[k].Returned? ==> rs[k].id < |c'| && c'[rs[k].id].token in ordered
    decreases |invs|
  {
    if invs != [] {
      InvocationKeepsOne(c, invs[0], tokens, ordered);
      var (c1, r1) := SelfStart(c, invs[0], tokens, ordered);
      ReplayIdempotent(c1, invs[1..], key, types, subnets, tokens, ordered);
    }
  }

  /** ... so two returns, of whichever invocations, are the same instance. */
  lemma ReturnsAgree(c: Cloud, invs: seq<Invocation>, key: string, types: seq<string>,
      subnets: seq<string>, tokens: map<string, Market>, ordered: seq<string>, j: nat, k: nat)
    requires AtMostOneOf(c, ordered) && Lists(ordered, key, types, subnets)
    requires SameKey(invs, key, types, subnets) && ProbesAccurate(c, invs, tokens, ordered)
    requires j < |invs| && k < |invs|
    ensures var rs := Replay(c, invs, tokens, ordered).1;
      rs[j].Returned? && rs[k].Returned? ==> rs[j].id == rs[k].id
  {
    ReplayIdempotent(c, invs, key, types, subnets, tokens, ordered);
  }

  // ── probes that fail or lie ──

  lemma RunKeepsTokensDistinct(c: Cloud, token: string, p: Params, reply: RunReply)
    requires TokensDistinct(c)
    ensures TokensDistinct(RunSpec(c, token, p, reply).0) && c <= RunSpec(c, token, p, reply).0
  {
  }

  lemma {:induction false} RotateKeepsTokensDistinct(c: Cloud, inv: Invocation, m: Market, why: Reason,
      combos: seq<(string, string)>, n: nat)
    requires TokensDistinct(c)
    ensures TokensDistinct(Rotate(c, inv, m, why, combos, n).0) && c <= Rotate(c, inv, m, why, combos, n).0
    decreases |combos|
  {
    if combos != [] && inv.life > 2 * n {
      var (token, p) := Attempt(inv, m, why, combos[0]);
      RunKeepsTokensDistinct(c, token, p, inv.reply(n));
      RotateKeepsTokensDistinct(RunSpec(c, token, p, inv.reply(n)).0, inv, m, why, combos[1..], n + 1);
    }
  }

  /** The instance carries the token of the key for what it is. */
  predicate MadeFor(i: Instance, key: string) {
    i.token == ClientToken(key, i.params.market, i.params.itype, i.params.subnet)
  }

  ghost predicate AddsOnlyFor(c: Cloud, c': Cloud, key: string) {
    c <= c' && forall i :: |c| <= i < |c'| ==> MadeFor(c'[i], key)
  }

  lemma AddsOnlyForTrans(c: Cloud, c1: Cloud, c2: Cloud, key: string)
    requires AddsOnlyFor(c, c1, key) && AddsOnlyFor(c1, c2, key)
    ensures AddsOnlyFor(c, c2, key)
  {
    forall i | |c| <= i < |c2|
      ensures MadeFor(c2[i], key)
    {
      if i < |c1| { assert c2[i] == c1[i]; }
    }
  }

  lemma TryOneMakesFor(c: Cloud, inv: Invocation, m: Market, why: Reason, combo: (string, string), n: nat)
    ensures AddsOnlyFor(c, TryOne(c, inv, m, why, combo, n).0, inv.key)
  {
  }

  lemma {:induction false} RotateMakesFor(c: Cloud, inv: Invocation, m: Market, why: Reason,
      combos: seq<(string, string)>, n: nat)
    ensures AddsOnlyFor(c, Rotate(c, inv, m, why, combos, n).0, inv.key)
    decreases |combos|
  {
    if combos != [] && inv.life > 2 * n {
      var (c1, stop) := TryOne(c, inv, m, why, combos[0], n);
      TryOneMakesFor(c, inv, m, why, combos[0], n);
      if stop.None? {
        RotateMakesFor(c1, inv, m, why, combos[1..], n + 1);
        AddsOnlyForTrans(c, c1, Rotate(c1, inv, m, why, combos[1..], n + 1).0, inv.key);
      }
    }
  }

  lemma MarketsMakeFor(c: Cloud, inv: Invocation)
    requires TokensDistinct(c)
    ensures var c' := RotateMarkets(c, inv).0;
      AddsOnlyFor(c, c', inv.key) && TokensDistinct(c')
  {
    var combos := Rotation(inv.types, inv.subnets);
    if inv.forceOnDemand {
      RotateMakesFor(c, inv, OnDemand, ForceOnDemand, combos, 0);
      RotateKeepsTokensDistinct(c, inv, OnDemand, ForceOnDemand, combos, 0);
    } else {
      RotateMakesFor(c, inv, Spot, SpotOk, combos, 0);
      RotateKeepsTokensDistinct(c, inv, Spot, SpotOk, combos, 0);
      var (c1, end, n) := Rotate(c, inv, Spot, SpotOk, combos, 0);
      var why := if end.Exhausted? then CapacityExhausted else QuotaExceeded;
      RotateMakesFor(c1, inv, OnDemand, why, combos, n);
      RotateKeepsTokensDistinct(c1, inv, OnDemand, why, combos, n);
      AddsOnlyForTrans(c, c1, Rotate(c1, inv, OnDemand, why, combos, n).0, inv.key);
    }
  }

  lemma InvocationMakesFor(c: Cloud, inv: Invocation, tokens: map<string, Market>, ordered: seq<string>)
    requires TokensDistinct(c)
    ensures var c' := SelfStart(c, inv, tokens, ordered).0;
      AddsOnlyFor(c, c', inv.key) && TokensDistinct(c')
  {
    MarketsMakeFor(c, inv);
  }

  ghost predicate MadeForSome(i: Instance, invs: seq<Invocation>) {
    exists k :: 0 <= k < |invs| && MadeFor(i, invs[k].key)
  }

  /** Whatever the probes say, every instance that invocations of any keys add carries the
      token of one of those keys for its own market, type and subnet. */
  lemma {:induction false} ReplayMakesFor(c: Cloud, invs: seq<Invocation>, tokens: map<string, Market>,
      ordered: seq<string>)
    requires TokensDistinct(c)
    ensures var c' := Replay(c, invs, tokens, ordered).0;
      && c <= c' && TokensDistinct(c')
      && forall i :: |c| <= i < |c'| ==> MadeForSome(c'[i], invs)
    decreases |invs|
  {
    if invs != [] {
      InvocationMakesFor(c, invs[0], tokens, ordered);
      var c1 := SelfStart(c, invs[0], tokens, ordered).0;
      ReplayMakesFor(c1, invs[1..], tokens, ordered);
      var c' := Replay(c, invs, tokens, ordered).0;
      forall i | |c| <= i < |c'|
        ensures MadeForSome(c'[i], invs)
      {
        if i < |c1| {
          assert MadeFor(c1[i], invs[0].key);
        } else {
          var k :| 0 <= k < |invs[1..]| && MadeFor(c'[i], invs[1..][k].key);
          assert MadeFor(c'[i], invs[k + 1].key);
        }
      }
    }
  }

  /** So whatever the probes say there is at most one instance per key, market, type and
      subnet among all that exist. */
  lemma OnePerCombinationWhateverTheProbe(c: Cloud, invs: seq<Invocation>, tokens: map<string, Market>,
      ordered: seq<string>, key: string, i: nat, j: nat)
    requires TokensDistinct(c)
    requires var c' := Replay(c, invs, tokens, ordered).0;
      && i < |c'| && j < |c'| && MadeFor(c'[i], key) && MadeFor(c'[j], key)
      && c'[i].params.market == c'[j].params.market
      && c'[i].params.itype == c'[j].params.itype && c'[i].params.subnet == c'[j].params.subnet
    ensures i == j
  {
    ReplayMakesFor(c, invs, tokens, ordered);
  }

  lemma CapacityRotates(c: Cloud, inv: Invocation, m: Market, why: Reason, combo: (string, string), n: nat)
    requires inv.life > 2 * n + 1 && inv.reply(n).Refuse? && inv.reply(n).code in CAPACITY_CODES
    ensures TryOne(c, inv, m, why, combo, n) == (c, None)
  {
    assert inv.reply(n).code !in QUOTA_CODES;
  }

  /** Rotation is row-major and stops at the first answer that is not a capacity error. */
  lemma {:induction false} RotateSkipsCapacityOnly(c: Cloud, inv: Invocation, m: Market, why: Reason,
      combos: seq<(string, string)>, n: nat, k: nat)
    requires k <= |combos| && inv.life > 2 * (n + k)
    requires forall j :: n <= j < n + k ==>
      inv.reply(j).Refuse? && inv.reply(j).code in CAPACITY_CODES
    ensures Rotate(c, inv, m, why, combos, n) == Rotate(c, inv, m, why, combos[k..], n + k)
    decreases k
  {
    if k > 0 {
      CapacityRotates(c, inv, m, why, combos[0], n);
      RotateSkipsCapacityOnly(c, inv, m, why, combos[1..], n + 1, k - 1);
      assert combos[1..][k - 1..] == combos[k..];
    } else {
      assert combos[0..] == combos;
    }
  }

  // ── the accurate probe is needed ──

  function FirstTry(): Invocation {
    var down: Describe := filter => None;
    Invocation("k", ["a", "b"], ["s"], false, 0, 4,
               n => if n == 0 then Refuse("Unsupported") else Grant, down, down, false)
  }

  function Retry(): Invocation { FirstTry().(reply := n => Grant) }

  function BoxB(): Instance {
    Instance(ClientToken("k", Spot, "b", "s"), Params(Spot, "b", "s", SpotOk, 0))
  }

  function BoxA(): Instance {
    Instance(ClientToken("k", Spot, "a", "s"), Params(Spot, "a", "s", SpotOk, 0))
  }

  lemma TwoTypes()
    ensures Rotation(["a", "b"], ["s"]) == [("a", "s"), ("b", "s")]
  {
    assert ["a", "b"][1..] == ["b"] && ["b"][1..] == [] && ["s"][1..] == [];
    assert Rotation(["b"], ["s"]) == [("b", "s")];
  }

  lemma FirstBox()
    ensures SelfStart([], FirstTry(), map[], ["t"]) == ([BoxB()], Returned(0, "spot", false, true))
  {
    var first := FirstTry();
    TwoTypes();
    assert [] + [BoxB()] == [BoxB()];
    assert TryOne([], first, Spot, SpotOk, ("a", "s"), 0) == ([], None);
    assert TryOne([], first, Spot, SpotOk, ("b", "s"), 1) == ([BoxB()], Some(Started(0)));
    assert [("a", "s"), ("b", "s")][1..] == [("b", "s")];
  }

  lemma SecondBox()
    ensures SelfStart([BoxB()], Retry(), map[], ["t"]) == ([BoxB(), BoxA()], Returned(1, "spot", false, true))
  {
    var retry := Retry();
    TwoTypes();
    assert BoxA().token == "k|spot|a|s" && BoxB().token == "k|spot|b|s";
    assert BoxA().token[7] != BoxB().token[7];
    assert [BoxB()][..0] == [] && [BoxB()] + [BoxA()] == [BoxB(), BoxA()];
    assert TryOne([BoxB()], retry, Spot, SpotOk, ("a", "s"), 0) == ([BoxB(), BoxA()], Some(Started(1)));
  }

  /** With a probe that fails, one retry after capacity came back creates a second box:
      the first dispatcher is refused in "a" and launches in "b", its retry gets "a". */
  lemma TwoBoxesWithoutTheProbe()
    ensures var (c, rs) := Replay([], [FirstTry(), Retry()], map[], ["t"]);
      |c| == 2 && rs == [Returned(0, "spot", false, true), Returned(1, "spot", false, true)]
  {
    FirstBox();
    SecondBox();
    var c1, c2 := [BoxB()], [BoxB(), BoxA()];
    assert [FirstTry(), Retry()][1..] == [Retry()] && [Retry()][1..] == [];
    var noneLeft: seq<Outcome> := [];
    assert Replay(c2, [], map[], ["t"]) == (c2, noneLeft);
    assert Replay(c1, [Retry()], map[], ["t"]) == (c2, [Returned(1, "spot", false, true)] + noneLeft);
  }

  // ── the code, over a mutable cloud ──

  class Ec2 {
    var log: Cloud

    method RunInstances(token: string, p: Params, reply: RunReply) returns (r: RunResult)
      modifies this
      ensures (log, r) == RunSpec(old(log), token, p, reply)
    {
      if reply.Refuse? { return ClientError(reply.code); }
      if reply.Lost? && !reply.landed { return ConnectionError; }
      var seen := FindToken(log, token);
      if seen.None? { log := log + [Instance(token, p)]; }
      if reply.Lost? { return ConnectionError; }
      if seen.None? { return Launched(|log| - 1); }
      if log[seen.value].params == p { return Launched(seen.value); }
      r := ClientError(MISMATCH);
    }

    method TryCombination(inv: Invocation, m: Market, why: Reason, combo: (string, string), n: nat)
      returns (stop: Option<LaunchEnd>)
      modifies this
      ensures (log, stop) == TryOne(old(log), inv, m, why, combo, n)
    {
      var (token, p) := Attempt(inv, m, why, combo);
      var got := RunInstances(token, p, inv.reply(n));
      if inv.life == 2 * n + 1 { return Some(Killed); }
      match got {
        case Launched(id) => return Some(Started(id));
        case ConnectionError => return Some(OtherError);
        case ClientError(code) =>
          if code in QUOTA_CODES { return Some(QuotaHit); }
          if code in CAPACITY_CODES { return None; }
          return Some(if code == MISMATCH then Conflict else OtherError);
      }
    }

    method Launch(inv: Invocation, m: Market, why: Reason, n0: nat) returns (end: LaunchEnd, n: nat)
      modifies this
      ensures (log, end, n) == Rotate(old(log), inv, m, why, Rotation(inv.types, inv.subnets), n0)
    {
      n := n0;
      var i := 0;
      assert inv.types[0..] == inv.types;
      while i < |inv.types|
        invariant 0 <= i <= |inv.types|
        invariant Rotate(old(log), inv, m, why, Rotation(inv.types, inv.subnets), n0)
               == Rotate(log, inv, m, why, Rotation(inv.types[i..], inv.subnets), n)
      {
        ghost var later := Rotation(inv.types[i + 1..], inv.subnets);
        assert inv.types[i..][1..] == inv.types[i + 1..];
        assert inv.subnets[0..] == inv.subnets;
        var j := 0;
        while j < |inv.subnets|
          invariant 0 <= j <= |inv.subnets|
          invariant Rotate(old(log), inv, m, why, Rotation(inv.types, inv.subnets), n0)
                 == Rotate(log, inv, m, why, Row(inv.types[i], inv.subnets[j..]) + later, n)
        {
          RowStep(inv.types[i], inv.subnets, j, later);
          if inv.life <= 2 * n { return Killed, n; }
          var stop := TryCombination(inv, m, why, (inv.types[i], inv.subnets[j]), n);
          n := n + 1;
          if stop.Some? { return stop.value, n; }
          j := j + 1;
        }
        assert Row(inv.types[i], inv.subnets[|inv.subnets|..]) + later == later;
        i := i + 1;
      }
      end := Exhausted;
    }

    method LaunchSelfStarting(inv: Invocation, tokens: map<string, Market>, ordered: seq<string>)
      returns (r: Outcome)
      modifies this
      ensures (log, r) == SelfStart(old(log), inv, tokens, ordered)
    {
      if inv.key == "" { return RaisedError; }
      if inv.life == 0 { return WasKilled; }
      var first := FindByIdempotencyKey(tokens, ordered, inv.probe);
      if first.Found? { return Returned(first.id, first.market, true, false); }
      if !WellFormed(inv) { return RaisedError; }
      var market, end, n := OnDemand, Exhausted, 0;
      if inv.forceOnDemand {
        end, n := Launch(inv, OnDemand, ForceOnDemand, 0);
      } else {
        market := Spot;
        end, n := Launch(inv, Spot, SpotOk, 0);
        if end.Exhausted? {
          market := OnDemand;
          end, n := Launch(inv, OnDemand, CapacityExhausted, n);
        } else if end.QuotaHit? && !inv.pageRaises {
          market := OnDemand;
          end, n := Launch(inv, OnDemand, QuotaExceeded, n);
        }
      }
      match end {
        case Started(id) => return Returned(id, MarketName(market), false, first.Raised?);
        case Killed => return WasKilled;
        case Conflict =>
          var again := FindByIdempotencyKey(tokens, ordered, inv.reprobe);
          if again.Found? { return Returned(again.id, again.market, true, first.Raised?); }
          return RaisedError;
        case _ => return RaisedError;
      }
    }
  }

  /** The probe's chunk, page and entry loops. */
  method FindByIdempotencyKey(tokens: map<string, Market>, ordered: seq<string>, describe: Describe)
    returns (r: ProbeEnd)
    ensures r == ProbeSpec(tokens, ordered, describe)
  {
    var start := 0;
    assert ordered[0..] == ordered;
    while start < |ordered|
      invariant 0 <= start <= |ordered|
      invariant ProbeSpec(tokens, ordered, describe) == ProbeSpec(tokens, ordered[start..], describe)
    {
      var stop := Min(start + PROBE_CHUNK, |ordered|);
      var chunk := ordered[start..stop];
      assert ordered[start..][..stop - start] == chunk;
      assert ordered[start..][stop - start..] == ordered[stop..];
      var pages := describe(chunk);
      if pages.None? { return Raised; }
      var hit := FirstOnPages(pages.value);
      if hit.Some? { return Found(hit.value.id.value, MarketOf(tokens, hit.value)); }
      start := stop;
    }
    r := Nothing;
  }

  lemma NextEntry(es: seq<Entry>, i: nat, later: seq<Entry>)
    requires i < |es|
    ensures FirstWithId(es[i..] + later)
      == if es[i].id.Some? then Some(es[i]) else FirstWithId(es[i + 1..] + later)
  {
    assert (es[i..] + later)[0] == es[i];
    assert (es[i..] + later)[1..] == es[i + 1..] + later;
  }

  method FirstOnPages(pages: seq<seq<Entry>>) returns (hit: Option<Entry>)
    ensures hit == FirstWithId(Flatten(pages))
  {
    var page := 0;
    assert pages[0..] == pages;
    while page < |pages|
      invariant 0 <= page <= |pages|
      invariant FirstWithId(Flatten(pages)) == FirstWithId(Flatten(pages[page..]))
    {
      var es := pages[page];
      ghost var later := Flatten(pages[page + 1..]);
      assert pages[page..][1..] == pages[page + 1..];
      assert es[0..] == es;
      var i := 0;
      while i < |es|
        invariant 0 <= i <= |es|
        invariant FirstWithId(Flatten(pages)) == FirstWithId(es[i..] + later)
      {
        NextEntry(es, i, later);
        if es[i].id.Some? { return Some(es[i]); }
        i := i + 1;
      }
      assert es[|es|..] + later == later;
      page := page + 1;
    }
    hit := None;
  }
}
