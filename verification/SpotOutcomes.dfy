/** What launch_self_starting of src/krepis/ec2_spot.py launches, told from EC2's answers alone:
    which combination of which market, under which reason, and when it gives up. */
module SpotOutcomes {
  import opened Prelude
  import opened SpotLaunch

  // ── what EC2 answers ──

  predicate CapacityCode(code: string) {
    || code == "InsufficientInstanceCapacity" || code == "InsufficientHostCapacity" || code == "SpotMaxPriceTooLow"
    || code == "Unsupported" || code == "InvalidAvailabilityZone"
  }

  predicate QuotaCode(code: string) {
    || code == "MaxSpotInstanceCountExceeded" || code == "SpotInstanceRequestLimitExceeded"
    || code == "MaxSpotFleetRequestCountExceeded"
  }

  /** Request number n is refused for want of capacity. */
  predicate NoCapacity(inv: Invocation, n: nat) { inv.reply(n).Refuse? && CapacityCode(inv.reply(n).code) }

  predicate NoQuota(inv: Invocation, n: nat) { inv.reply(n).Refuse? && QuotaCode(inv.reply(n).code) }

  /** So are all requests from a up to b. */
  predicate AllFull(inv: Invocation, a: nat, b: nat) { forall n :: a <= n < b ==> NoCapacity(inv, n) }

  lemma Codes(code: string)
    ensures CapacityCode(code) <==> code in CAPACITY_CODES
    ensures QuotaCode(code) <==> code in QUOTA_CODES
    ensures CapacityCode(code) ==> !QuotaCode(code)
  {
  }

  /** Whatever it is asked, the probe lists no instance; it may also fail. */
  ghost predicate ListsNothing(describe: Describe) {
    forall filter, page, e ::
      describe(filter).Some? && page in describe(filter).value && e in page ==> e.id.None?
  }

  lemma {:induction false} NothingFlattened(pages: seq<seq<Entry>>)
    requires forall page, e :: page in pages && e in page ==> e.id.None?
    ensures forall e :: e in Flatten(pages) ==> e.id.None?
  {
    if pages != [] {
      assert forall e :: e in pages[0] ==> e.id.None?;
      NothingFlattened(pages[1..]);
    }
  }

  lemma {:induction false} ProbeFindsNothing(tokens: map<string, Market>, ordered: seq<string>, describe: Describe)
    requires ListsNothing(describe)
    ensures !ProbeSpec(tokens, ordered, describe).Found?
    decreases |ordered|
  {
    if ordered != [] {
      var k := Min(PROBE_CHUNK, |ordered|);
      if describe(ordered[..k]).Some? {
        NothingFlattened(describe(ordered[..k]).value);
        ProbeFindsNothing(tokens, ordered[k..], describe);
      }
    }
  }

  // ── one rotation ──

  /** The instance an attempt asks for. */
  function Wanted(inv: Invocation, m: Market, why: Reason, combo: (string, string)): Instance {
    Instance(ClientToken(inv.key, m, combo.0, combo.1), Params(m, combo.0, combo.1, why, inv.rest))
  }

  /** No other instance has its token. */
  predicate Free(c: Cloud, want: Instance) { forall x :: x in c && x.token == want.token ==> x == want }

  /** The cloud has grown by no other instance than the wanted one, which is number id. */
  predicate Got(c: Cloud, c': Cloud, id: nat, want: Instance) {
    id < |c'| && c'[id] == want && (c' == c || c' == c + [want])
  }

  lemma Full(c: Cloud, inv: Invocation, m: Market, why: Reason, combos: seq<(string, string)>, n: nat, k: nat)
    requires k <= |combos| && AllFull(inv, n, n + k) && inv.life > 2 * (n + k)
    ensures Rotate(c, inv, m, why, combos, n) == Rotate(c, inv, m, why, combos[k..], n + k)
  {
    forall j | n <= j < n + k
      ensures inv.reply(j).Refuse? && inv.reply(j).code in CAPACITY_CODES
    {
      assert NoCapacity(inv, j);
      Codes(inv.reply(j).code);
    }
    RotateSkipsCapacityOnly(c, inv, m, why, combos, n, k);
  }

  lemma AllRefused(c: Cloud, inv: Invocation, m: Market, why: Reason, combos: seq<(string, string)>, n: nat)
    requires AllFull(inv, n, n + |combos|) && inv.life > 2 * (n + |combos|)
    ensures Rotate(c, inv, m, why, combos, n) == (c, Exhausted, n + |combos|)
  {
    Full(c, inv, m, why, combos, n, |combos|);
  }

  lemma OutOfQuota(c: Cloud, inv: Invocation, m: Market, why: Reason, combos: seq<(string, string)>, n: nat, k: nat)
    requires k < |combos| && AllFull(inv, n, n + k) && NoQuota(inv, n + k) && inv.life > 2 * (n + k) + 1
    ensures Rotate(c, inv, m, why, combos, n) == (c, QuotaHit, n + k + 1)
  {
    Full(c, inv, m, why, combos, n, k);
    Codes(inv.reply(n + k).code);
  }

  lemma Granted(c: Cloud, inv: Invocation, m: Market, why: Reason, combos: seq<(string, string)>, n: nat, k: nat)
    requires k < |combos| && AllFull(inv, n, n + k) && inv.reply(n + k) == Grant && inv.life > 2 * (n + k) + 1
    requires Free(c, Wanted(inv, m, why, combos[k]))
    ensures var (c', end, _) := Rotate(c, inv, m, why, combos, n);
      end.Started? && Got(c, c', end.id, Wanted(inv, m, why, combos[k]))
  {
    Full(c, inv, m, why, combos, n, k);
    assert combos[k..][0] == combos[k];
    GrantedAtOnce(c, inv, m, why, combos[k], n + k);
  }

  lemma GrantedAtOnce(c: Cloud, inv: Invocation, m: Market, why: Reason, combo: (string, string), n: nat)
    requires inv.reply(n) == Grant && inv.life > 2 * n + 1 && Free(c, Wanted(inv, m, why, combo))
    ensures var (c', stop) := TryOne(c, inv, m, why, combo, n);
      stop.Some? && stop.value.Started? && Got(c, c', stop.value.id, Wanted(inv, m, why, combo))
  {
    var seen := FindToken(c, Wanted(inv, m, why, combo).token);
    if seen.Some? { assert c[seen.value] in c; }
  }

  // ── the order of the attempts ──

  /** The number of the attempt for type i in subnet j, counted from the rotation's first. */
  function Number(inv: Invocation, i: nat, j: nat): nat { i * |inv.subnets| + j }

  lemma {:induction false} RowAt(itype: string, subnets: seq<string>, j: nat)
    ensures |Row(itype, subnets)| == |subnets|
    ensures j < |subnets| ==> Row(itype, subnets)[j] == (itype, subnets[j])
  {
    if subnets != [] { RowAt(itype, subnets[1..], if j > 0 then j - 1 else 0); }
  }

  function Offset(i: nat, width: nat): nat { if i == 0 then 0 else width + Offset(i - 1, width) }

  lemma {:induction false} OffsetIs(i: nat, width: nat)
    ensures Offset(i, width) == i * width
  {
    if i > 0 { OffsetIs(i - 1, width); }
  }

  lemma {:induction false} RotationSize(types: seq<string>, subnets: seq<string>)
    ensures |Rotation(types, subnets)| == Offset(|types|, |subnets|)
  {
    if types != [] {
      RowAt(types[0], subnets, 0);
      RotationSize(types[1..], subnets);
    }
  }

  lemma ConcatAt<T>(a: seq<T>, b: seq<T>, k: nat, x: T)
    requires if k < |a| then a[k] == x else k - |a| < |b| && b[k - |a|] == x
    ensures k < |a + b| && (a + b)[k] == x
  {
  }

  /** Types outermost, subnets innermost, each pair once. */
  lemma {:induction false} RotationAt(types: seq<string>, subnets: seq<string>, i: nat, j: nat)
    requires i < |types| && j < |subnets|
    ensures Offset(i, |subnets|) + j < |Rotation(types, subnets)|
    ensures Rotation(types, subnets)[Offset(i, |subnets|) + j] == (types[i], subnets[j])
  {
    RowAt(types[0], subnets, j);
    if i > 0 { RotationAt(types[1..], subnets, i - 1, j); }
    ConcatAt(Row(types[0], subnets), Rotation(types[1..], subnets), Offset(i, |subnets|) + j, (types[i], subnets[j]));
  }

  lemma AttemptAt(inv: Invocation, i: nat, j: nat)
    ensures |Rotation(inv.types, inv.subnets)| == Attempts(inv)
    ensures i < |inv.types| && j < |inv.subnets| ==>
      && Number(inv, i, j) < Attempts(inv)
      && Rotation(inv.types, inv.subnets)[Number(inv, i, j)] == (inv.types[i], inv.subnets[j])
  {
    RotationSize(inv.types, inv.subnets);
    if i < |inv.types| && j < |inv.subnets| { RotationAt(inv.types, inv.subnets, i, j); }
    OffsetIs(i, |inv.subnets|);
    OffsetIs(|inv.types|, |inv.subnets|);
  }

  // ── one invocation ──

  /** An invocation that gets to launching: complete, and its probe lists nothing. */
  ghost predicate Launches(inv: Invocation) {
    inv.key != "" && inv.types != [] && inv.subnets != [] && inv.life > 0 && ListsNothing(inv.probe)
  }

  /** The number of attempts of one market. */
  function Attempts(inv: Invocation): nat { |inv.types| * |inv.subnets| }

  /** The call has returned the instance of type i in subnet j of market m, launched for that
      reason, and says which market it is of. */
  ghost predicate ReturnsNew(c: Cloud, p: (Cloud, Outcome), inv: Invocation, m: Market, why: Reason, i: nat, j: nat)
    requires i < |inv.types| && j < |inv.subnets|
  {
    var (c', r) := p;
    && r.Returned? && Got(c, c', r.id, Wanted(inv, m, why, (inv.types[i], inv.subnets[j])))
    && r.market == (if m.Spot? then "spot" else "on-demand") && !r.replayed
  }

  /** The attempt for type i in subnet j is granted: its request number is n, and no other
      instance has its token. */
  ghost predicate GrantsAt(c: Cloud, inv: Invocation, m: Market, why: Reason, i: nat, j: nat, n: nat)
    requires i < |inv.types| && j < |inv.subnets|
  {
    && inv.reply(n) == Grant && inv.life > 2 * n + 1
    && Free(c, Wanted(inv, m, why, (inv.types[i], inv.subnets[j])))
  }

  lemma AfterTheProbe(c: Cloud, inv: Invocation, tokens: map<string, Market>, ordered: seq<string>)
    requires Launches(inv)
    ensures var (c', end, market) := RotateMarkets(c, inv);
      var (c2, r) := SelfStart(c, inv, tokens, ordered);
      && c2 == c'
      && (end.Started? ==> r.Returned? && r.id == end.id && r.market == MarketName(market) && !r.replayed)
      && (end.Exhausted? || end.QuotaHit? || end.OtherError? ==> r == RaisedError)
  {
    ProbeFindsNothing(tokens, ordered, inv.probe);
  }

  /** A return says whether the probe in front of it had failed. */
  lemma SaysTheProbeFailed(c: Cloud, inv: Invocation, tokens: map<string, Market>, ordered: seq<string>)
    requires Launches(inv) && SelfStart(c, inv, tokens, ordered).1.Returned?
    ensures (forall filter :: inv.probe(filter).Some?) ==> !SelfStart(c, inv, tokens, ordered).1.degraded
    ensures ordered != [] && (forall filter :: inv.probe(filter).None?) ==>
      SelfStart(c, inv, tokens, ordered).1.degraded
  {
    ProbeFindsNothing(tokens, ordered, inv.probe);
    if forall filter :: inv.probe(filter).Some? { ProbeAnswers(tokens, ordered, inv.probe); }
  }

  lemma {:induction false} ProbeAnswers(tokens: map<string, Market>, ordered: seq<string>, describe: Describe)
    requires forall filter :: describe(filter).Some?
    ensures !ProbeSpec(tokens, ordered, describe).Raised?
    decreases |ordered|
  {
    if ordered != [] { ProbeAnswers(tokens, ordered[Min(PROBE_CHUNK, |ordered|)..], describe); }
  }

  /** Spot while it lasts: the first combination not refused for capacity, if it is granted. */
  lemma SpotGranted(c: Cloud, inv: Invocation, tokens: map<string, Market>, ordered: seq<string>, i: nat, j: nat)
    requires Launches(inv) && !inv.forceOnDemand && i < |inv.types| && j < |inv.subnets|
    requires AllFull(inv, 0, Number(inv, i, j)) && GrantsAt(c, inv, Spot, SpotOk, i, j, Number(inv, i, j))
    ensures ReturnsNew(c, SelfStart(c, inv, tokens, ordered), inv, Spot, SpotOk, i, j)
  {
    AfterTheProbe(c, inv, tokens, ordered);
    AttemptAt(inv, i, j);
    Granted(c, inv, Spot, SpotOk, Rotation(inv.types, inv.subnets), 0, Number(inv, i, j));
  }

  /** On-demand from the start when it is forced. */
  lemma ForcedGranted(c: Cloud, inv: Invocation, tokens: map<string, Market>, ordered: seq<string>, i: nat, j: nat)
    requires Launches(inv) && inv.forceOnDemand && i < |inv.types| && j < |inv.subnets|
    requires AllFull(inv, 0, Number(inv, i, j)) && GrantsAt(c, inv, OnDemand, ForceOnDemand, i, j, Number(inv, i, j))
    ensures ReturnsNew(c, SelfStart(c, inv, tokens, ordered), inv, OnDemand, ForceOnDemand, i, j)
  {
    AfterTheProbe(c, inv, tokens, ordered);
    AttemptAt(inv, i, j);
    Granted(c, inv, OnDemand, ForceOnDemand, Rotation(inv.types, inv.subnets), 0, Number(inv, i, j));
  }

  /** On-demand once every spot combination was refused for capacity: again in the same order,
      and the instance says why. */
  lemma OnDemandAfterCapacity(c: Cloud, inv: Invocation, tokens: map<string, Market>, ordered: seq<string>,
                              i: nat, j: nat)
    requires Launches(inv) && !inv.forceOnDemand && i < |inv.types| && j < |inv.subnets|
    requires AllFull(inv, 0, Attempts(inv) + Number(inv, i, j))
    requires GrantsAt(c, inv, OnDemand, CapacityExhausted, i, j, Attempts(inv) + Number(inv, i, j))
    ensures ReturnsNew(c, SelfStart(c, inv, tokens, ordered), inv, OnDemand, CapacityExhausted, i, j)
  {
    AttemptAt(inv, i, j);
    MarketsAfterCapacity(c, inv, Rotation(inv.types, inv.subnets), Number(inv, i, j));
    AfterTheProbe(c, inv, tokens, ordered);
  }

  lemma MarketsAfterCapacity(c: Cloud, inv: Invocation, combos: seq<(string, string)>, k: nat)
    requires !inv.forceOnDemand && combos == Rotation(inv.types, inv.subnets) && k < |combos|
    requires AllFull(inv, 0, |combos| + k) && inv.reply(|combos| + k) == Grant && inv.life > 2 * (|combos| + k) + 1
    requires Free(c, Wanted(inv, OnDemand, CapacityExhausted, combos[k]))
    ensures var (c', end, market) := RotateMarkets(c, inv);
      end.Started? && market == OnDemand && Got(c, c', end.id, Wanted(inv, OnDemand, CapacityExhausted, combos[k]))
  {
    AllRefused(c, inv, Spot, SpotOk, combos, 0);
    Granted(c, inv, OnDemand, CapacityExhausted, combos, |combos|, k);
  }

  /** On-demand once one spot combination was refused for quota, provided the operator page
      did not raise. */
  lemma OnDemandAfterQuota(c: Cloud, inv: Invocation, tokens: map<string, Market>, ordered: seq<string>,
                           q: nat, i: nat, j: nat)
    requires Launches(inv) && !inv.forceOnDemand && i < |inv.types| && j < |inv.subnets|
    requires q < Attempts(inv) && AllFull(inv, 0, q) && NoQuota(inv, q) && !inv.pageRaises
    requires AllFull(inv, q + 1, q + 1 + Number(inv, i, j))
    requires GrantsAt(c, inv, OnDemand, QuotaExceeded, i, j, q + 1 + Number(inv, i, j))
    ensures ReturnsNew(c, SelfStart(c, inv, tokens, ordered), inv, OnDemand, QuotaExceeded, i, j)
  {
    AttemptAt(inv, i, j);
    MarketsAfterQuota(c, inv, q, Rotation(inv.types, inv.subnets), Number(inv, i, j));
    AfterTheProbe(c, inv, tokens, ordered);
  }

  lemma MarketsAfterQuota(c: Cloud, inv: Invocation, q: nat, combos: seq<(string, string)>, k: nat)
    requires !inv.forceOnDemand && combos == Rotation(inv.types, inv.subnets) && k < |combos|
    requires q < |combos| && AllFull(inv, 0, q) && NoQuota(inv, q) && !inv.pageRaises
    requires AllFull(inv, q + 1, q + 1 + k) && inv.reply(q + 1 + k) == Grant && inv.life > 2 * (q + 1 + k) + 1
    requires Free(c, Wanted(inv, OnDemand, QuotaExceeded, combos[k]))
    ensures var (c', end, market) := RotateMarkets(c, inv);
      end.Started? && market == OnDemand && Got(c, c', end.id, Wanted(inv, OnDemand, QuotaExceeded, combos[k]))
  {
    OutOfQuota(c, inv, Spot, SpotOk, combos, 0, q);
    Granted(c, inv, OnDemand, QuotaExceeded, combos, q + 1, k);
  }

  /** A page that raises keeps the call from going on-demand. */
  lemma QuotaPageRaises(c: Cloud, inv: Invocation, tokens: map<string, Market>, ordered: seq<string>, q: nat)
    requires Launches(inv) && !inv.forceOnDemand && q < Attempts(inv) && inv.life > 2 * q + 1
    requires AllFull(inv, 0, q) && NoQuota(inv, q) && inv.pageRaises
    ensures SelfStart(c, inv, tokens, ordered) == (c, RaisedError)
  {
    AfterTheProbe(c, inv, tokens, ordered);
    AttemptAt(inv, 0, 0);
    OutOfQuota(c, inv, Spot, SpotOk, Rotation(inv.types, inv.subnets), 0, q);
  }

  // ── giving up ──

  /** Spot and on-demand both ran out: nothing is launched, and the call raises. */
  lemma EverythingFull(c: Cloud, inv: Invocation, tokens: map<string, Market>, ordered: seq<string>)
    requires Launches(inv) && AllFull(inv, 0, if inv.forceOnDemand then Attempts(inv) else 2 * Attempts(inv))
    requires inv.life > 4 * Attempts(inv)
    ensures SelfStart(c, inv, tokens, ordered) == (c, RaisedError)
  {
    var combos := Rotation(inv.types, inv.subnets);
    AfterTheProbe(c, inv, tokens, ordered);
    AttemptAt(inv, 0, 0);
    if inv.forceOnDemand {
      AllRefused(c, inv, OnDemand, ForceOnDemand, combos, 0);
    } else {
      AllRefused(c, inv, Spot, SpotOk, combos, 0);
      AllRefused(c, inv, OnDemand, CapacityExhausted, combos, |combos|);
    }
  }

  /** EC2 answers with grants and capacity refusals only. */
  ghost predicate OnlyCapacityFails(inv: Invocation) {
    forall n :: inv.reply(n) == Grant || NoCapacity(inv, n)
  }

  /** No instance carries a token of the key. */
  ghost predicate NothingOfTheKey(c: Cloud, inv: Invocation) {
    forall x, m, why, combo :: x in c ==> x.token != Wanted(inv, m, why, combo).token
  }

  lemma FirstGrant(inv: Invocation, n: nat) returns (k: nat)
    requires OnlyCapacityFails(inv) && !AllFull(inv, 0, n)
    ensures k < n && AllFull(inv, 0, k) && inv.reply(k) == Grant
  {
    k := 0;
    while NoCapacity(inv, k)
      invariant k < n && AllFull(inv, 0, k)
      decreases n - k
    {
      if k + 1 == n { assert AllFull(inv, 0, n); }
      k := k + 1;
    }
  }

  /** When only capacity can fail, a call raises exactly if every combination of both markets
      was refused; otherwise it returns an instance. */
  lemma RaisesOnlyWhenFull(c: Cloud, inv: Invocation, tokens: map<string, Market>, ordered: seq<string>)
    requires Launches(inv) && !inv.forceOnDemand && OnlyCapacityFails(inv) && NothingOfTheKey(c, inv)
    requires inv.life > 4 * Attempts(inv) + 1
    ensures SelfStart(c, inv, tokens, ordered).1 == RaisedError <==> AllFull(inv, 0, 2 * Attempts(inv))
    ensures SelfStart(c, inv, tokens, ordered).1 != RaisedError ==> SelfStart(c, inv, tokens, ordered).1.Returned?
  {
    if AllFull(inv, 0, 2 * Attempts(inv)) {
      EverythingFull(c, inv, tokens, ordered);
    } else {
      var k := FirstGrant(inv, 2 * Attempts(inv));
      SomethingGranted(c, inv, k);
      AfterTheProbe(c, inv, tokens, ordered);
    }
  }

  lemma SomethingGranted(c: Cloud, inv: Invocation, k: nat)
    requires !inv.forceOnDemand && NothingOfTheKey(c, inv) && inv.life > 4 * Attempts(inv) + 1
    requires k < 2 * Attempts(inv) && AllFull(inv, 0, k) && inv.reply(k) == Grant
    ensures RotateMarkets(c, inv).1.Started?
  {
    var combos := Rotation(inv.types, inv.subnets);
    AttemptAt(inv, 0, 0);
    if k < |combos| {
      Granted(c, inv, Spot, SpotOk, combos, 0, k);
    } else {
      AllRefused(c, inv, Spot, SpotOk, combos, 0);
      Granted(c, inv, OnDemand, CapacityExhausted, combos, |combos|, k - |combos|);
    }
  }

  /** An answer other than a grant, a capacity or a quota refusal ends the call: nothing else
      is tried. */
  lemma OtherErrorRaises(c: Cloud, inv: Invocation, tokens: map<string, Market>, ordered: seq<string>, k: nat)
    requires Launches(inv) && k < Attempts(inv) && AllFull(inv, 0, k) && inv.life > 2 * k + 1
    requires inv.reply(k).Refuse? && !NoCapacity(inv, k) && !NoQuota(inv, k) && inv.reply(k).code != MISMATCH
    ensures SelfStart(c, inv, tokens, ordered) == (c, RaisedError)
  {
    AttemptAt(inv, 0, 0);
    MarketsStop(c, inv, Rotation(inv.types, inv.subnets), k);
    AfterTheProbe(c, inv, tokens, ordered);
  }

  lemma MarketsStop(c: Cloud, inv: Invocation, combos: seq<(string, string)>, k: nat)
    requires combos == Rotation(inv.types, inv.subnets) && k < |combos| && AllFull(inv, 0, k) && inv.life > 2 * k + 1
    requires inv.reply(k).Refuse? && !NoCapacity(inv, k) && !NoQuota(inv, k) && inv.reply(k).code != MISMATCH
    ensures RotateMarkets(c, inv).0 == c && RotateMarkets(c, inv).1.OtherError?
  {
    StopsAt(c, inv, OnDemand, ForceOnDemand, combos, k);
    StopsAt(c, inv, Spot, SpotOk, combos, k);
  }

  lemma StopsAt(c: Cloud, inv: Invocation, m: Market, why: Reason, combos: seq<(string, string)>, k: nat)
    requires k < |combos| && AllFull(inv, 0, k) && inv.life > 2 * k + 1
    requires inv.reply(k).Refuse? && !NoCapacity(inv, k) && !NoQuota(inv, k) && inv.reply(k).code != MISMATCH
    ensures Rotate(c, inv, m, why, combos, 0) == (c, OtherError, k + 1)
  {
    Full(c, inv, m, why, combos, 0, k);
    RefusedOtherwise(c, inv, m, why, combos[k], k);
  }

  lemma RefusedOtherwise(c: Cloud, inv: Invocation, m: Market, why: Reason, combo: (string, string), n: nat)
    requires inv.life > 2 * n + 1 && inv.reply(n).Refuse? && inv.reply(n).code != MISMATCH
    requires !NoCapacity(inv, n) && !NoQuota(inv, n)
    ensures TryOne(c, inv, m, why, combo, n) == (c, Some(OtherError))
  {
    Codes(inv.reply(n).code);
  }

  /** A spot attempt whose token belongs to an instance with other parameters is a conflict:
      the key's instance is looked up once more, and returned if it is found. */
  lemma ConflictIsLookedUp(c: Cloud, inv: Invocation, tokens: map<string, Market>, ordered: seq<string>,
                           i: nat, j: nat, x: Instance)
    requires Launches(inv) && !inv.forceOnDemand && i < |inv.types| && j < |inv.subnets|
    requires AllFull(inv, 0, Number(inv, i, j)) && inv.reply(Number(inv, i, j)) == Grant
    requires inv.life > 2 * Number(inv, i, j) + 1 && TokensDistinct(c)
    requires var want := Wanted(inv, Spot, SpotOk, (inv.types[i], inv.subnets[j]));
      x in c && x.token == want.token && x.params != want.params
    ensures var (c', r) := SelfStart(c, inv, tokens, ordered);
      var again := ProbeSpec(tokens, ordered, inv.reprobe);
      && c' == c && (r.Returned? <==> again.Found?)
      && (r.Returned? ==> r.id == again.id && r.market == again.market && r.replayed)
      && (!again.Found? ==> r == RaisedError)
  {
    var combos, k := Rotation(inv.types, inv.subnets), Number(inv, i, j);
    AttemptAt(inv, i, j);
    Full(c, inv, Spot, SpotOk, combos, 0, k);
    assert combos[k..][0] == combos[k];
    Conflicts(c, inv, combos[k], k, x);
    ProbeFindsNothing(tokens, ordered, inv.probe);
  }

  lemma Conflicts(c: Cloud, inv: Invocation, combo: (string, string), n: nat, x: Instance)
    requires inv.reply(n) == Grant && inv.life > 2 * n + 1 && TokensDistinct(c)
    requires var want := Wanted(inv, Spot, SpotOk, combo);
      x in c && x.token == want.token && x.params != want.params
    ensures TryOne(c, inv, Spot, SpotOk, combo, n) == (c, Some(Conflict))
  {
    var seen := FindToken(c, x.token);
    var k :| 0 <= k < |c| && c[k] == x;
    assert seen.Some? && seen.value == k;
    assert MISMATCH !in QUOTA_CODES && MISMATCH !in CAPACITY_CODES;
  }

  // ── a replay ──

  /** Every listed instance comes with its token. */
  ghost predicate ListsTokens(describe: Describe) {
    forall filter, e ::
      describe(filter).Some? && e in Flatten(describe(filter).value) && e.id.Some? ==> e.token.Some?
  }

  /** When the key has an instance, a call launches nothing and returns one of the key's. */
  lemma ReplayReturnsIt(c: Cloud, inv: Invocation, tokens: map<string, Market>, ordered: seq<string>, i: nat)
    requires inv.key != "" && inv.life > 0 && Accurate(inv.probe, c) && i < |c| && c[i].token in ordered
    ensures var (c', r) := SelfStart(c, inv, tokens, ordered);
      c' == c && r.Returned? && r.replayed && !r.degraded && r.id < |c| && c[r.id].token in ordered
  {
    ProbeExact(tokens, ordered, inv.probe, c);
  }

  lemma {:induction false} ProbeNames(c: Cloud, tokens: map<string, Market>, ordered: seq<string>, describe: Describe)
    requires Accurate(describe, c) && ListsTokens(describe) && forall token :: token in ordered ==> token in tokens
    ensures var r := ProbeSpec(tokens, ordered, describe);
      r.Found? ==> r.id < |c| && c[r.id].token in tokens && r.market == MarketName(tokens[c[r.id].token])
    decreases |ordered|
  {
    if ordered != [] {
      var k := Min(PROBE_CHUNK, |ordered|);
      assert AccurateFor(describe, c, ordered[..k]);
      ProbeNames(c, tokens, ordered[k..], describe);
    }
  }

  /** And says of which market that instance is, by its token. */
  lemma ReplayNamesItsMarket(c: Cloud, inv: Invocation, ordered: seq<string>, i: nat, m: Market, t: string, s: string)
    requires inv.key != "" && inv.life > 0 && Accurate(inv.probe, c) && ListsTokens(inv.probe)
    requires Lists(ordered, inv.key, inv.types, inv.subnets) && i < |c| && t in inv.types && s in inv.subnets
    requires c[i].token == ClientToken(inv.key, m, t, s)
    requires forall j :: 0 <= j < |c| && c[j].token in ordered ==> j == i
    ensures SelfStart(c, inv, AllTokens(inv.key, inv.types, inv.subnets), ordered)
      == (c, Returned(i, if m.Spot? then "spot" else "on-demand", true, false))
  {
    var tokens := AllTokens(inv.key, inv.types, inv.subnets);
    AllTokensMarket(inv.key, inv.types, inv.subnets, m, t, s);
    assert IsTokenOf(c[i].token, inv.key, inv.types, inv.subnets);
    forall token | token in ordered
      ensures token in tokens
    {
      AllTokensExact(inv.key, inv.types, inv.subnets, token);
    }
    ProbeExact(tokens, ordered, inv.probe, c);
    ProbeNames(c, tokens, ordered, inv.probe);
    var first := ProbeSpec(tokens, ordered, inv.probe);
    assert first.Found? && first.id == i && first.market == MarketName(m);
  }
}
