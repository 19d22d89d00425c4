/** Object keys of src/krepis/cost_sink.py: {prefix}/{date}/{run_id}/{callsite}.{seq}.jsonl. */
module CostSinkKeys {
  import opened Prelude

  datatype Record = Record(ts: Option<string>, callsiteId: string, payload: int)

  /** (date, callsite): what the sink buffers and partitions by. */
  type Group = g: (string, string) | IsDate(g.0) witness (UNKNOWN_DATE, "")

  const UNKNOWN_DATE := "unknown-date"

  function RecordDate(r: Record): (d: string)
    ensures IsDate(d)
  {
    if r.ts.Some? && |r.ts.value| >= 10 && r.ts.value[4] == '-' && r.ts.value[7] == '-'
    then r.ts.value[..10] else UNKNOWN_DATE
  }

  /** Every partition date there is; the ten characters may otherwise be anything. */
  predicate IsDate(d: string) {
    d == UNKNOWN_DATE || (|d| == 10 && d[4] == '-' && d[7] == '-')
  }

  function GroupOf(r: Record): Group {
    (RecordDate(r), if r.callsiteId == "" then "unknown" else r.callsiteId)
  }

  function Digit(n: nat): (c: char)
    requires n < 10
  {
    "0123456789"[n]
  }

  function Decimal(n: nat): (s: string)
    ensures s != ""
  {
    if n < 10 then [Digit(n)] else Decimal(n / 10) + [Digit(n % 10)]
  }

  lemma {:induction false} DecimalHasNoDot(n: nat)
    ensures '.' !in Decimal(n)
  {
    if n >= 10 { DecimalHasNoDot(n / 10); }
  }

  lemma {:induction false} DecimalInjective(m: nat, n: nat)
    requires Decimal(m) == Decimal(n)
    ensures m == n
    decreases m + n
  {
    var s, t := Decimal(m), Decimal(n);
    assert s[|s| - 1] == Digit(m % 10) && t[|t| - 1] == Digit(n % 10);
    assert m < 10 <==> |s| == 1;
    assert n < 10 <==> |t| == 1;
    if m >= 10 {
      assert Decimal(m / 10) == s[..|s| - 1] == t[..|t| - 1] == Decimal(n / 10);
      DecimalInjective(m / 10, n / 10);
    }
  }

  function ObjectKey(prefix: string, runId: string, g: Group, seqNo: nat): string {
    prefix + "/" + g.0 + "/" + runId + "/" + g.1 + "." + Decimal(seqNo) + ".jsonl"
  }

  lemma SplitAtLastDot(a: string, x: string, b: string, y: string)
    requires '.' !in x && '.' !in y && a + "." + x == b + "." + y
    ensures a == b && x == y
  {
    var s := a + "." + x;
    assert s[|a|] == '.' && s[|b|] == '.';
    assert forall i :: |a| < i < |s| ==> s[i] == x[i - |a| - 1];
    assert forall i :: |b| < i < |s| ==> s[i] == y[i - |b| - 1];
    assert |a| == |b|;
    assert a == s[..|a|] && b == s[..|b|];
    assert x == s[|a| + 1..] && y == s[|b| + 1..];
  }

  lemma Middle(head: string, x: string, y: string, tail: string)
    requires head + x + tail == head + y + tail
    ensures x == y
  {
    var k := head + x + tail;
    assert x == k[|head|..|k| - |tail|];
    assert y == k[|head|..|k| - |tail|];
  }

  lemma DatesAgree(d: string, x: string, e: string, y: string)
    requires IsDate(d) && IsDate(e) && d + x == e + y
    ensures d == e && x == y
  {
    assert d[4] == (d + x)[4] == (e + y)[4] == e[4];
    assert UNKNOWN_DATE[4] == 'o';
    assert |d| == |e|;
    assert d == (d + x)[..|d|] == e;
    assert x == (d + x)[|d|..] == y;
  }

  function Stem(runId: string, g: Group): string { g.0 + ("/" + runId + "/" + g.1) }

  lemma KeyShape(prefix: string, runId: string, g: Group, n: nat)
    ensures ObjectKey(prefix, runId, g, n) == (prefix + "/") + (Stem(runId, g) + "." + Decimal(n)) + ".jsonl"
  {
  }

  /** One sink never names two objects alike: for its fixed prefix and run id the key is
      injective in date, callsite and sequence number, whatever dots, slashes or digits the
      callsite or the run id contain. */
  lemma ObjectKeyInjective(prefix: string, runId: string, g: Group, m: nat, h: Group, n: nat)
    requires ObjectKey(prefix, runId, g, m) == ObjectKey(prefix, runId, h, n)
    ensures g == h && m == n
  {
    KeyShape(prefix, runId, g, m);
    KeyShape(prefix, runId, h, n);
    Middle(prefix + "/", Stem(runId, g) + "." + Decimal(m), Stem(runId, h) + "." + Decimal(n), ".jsonl");
    DecimalHasNoDot(m);
    DecimalHasNoDot(n);
    SplitAtLastDot(Stem(runId, g), Decimal(m), Stem(runId, h), Decimal(n));
    DecimalInjective(m, n);
    DatesAgree(g.0, "/" + runId + "/" + g.1, h.0, "/" + runId + "/" + h.1);
    Middle("/" + runId + "/", g.1, h.1, "");
  }
}
