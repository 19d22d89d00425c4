/** Alert deduplication over a stored marker (src/krepis/_dedup.py and its use in
    src/krepis/alerts.py). Times are in microseconds; a marker's stamps are whole seconds. */
module DedupWindow {
  import opened Prelude

  const SECOND := 1_000_000
  const MINUTE := 60_000_000

  function Stamp(now: nat): nat { now - now % SECOND }

  datatype Marker = Marker(first: nat, last: nat, count: nat)

  /** A marker is stored per bucket and dedup key; marker keys are taken to be injective. */
  datatype Key = Key(bucket: string, dedupKey: string)

  type Markers = map<Key, Marker>

  /** One publish with a dedup key: when it checks, whether a channel takes the message, when
      it then writes, and which of its three store requests succeed. */
  datatype Event = Publish(
    key: Key, window: Option<int>, checkAt: nat, taken: bool, writeAt: nat,
    checkOk: bool, rereadOk: bool, putOk: bool)

  /** check_marker: is the publish to be skipped? */
  predicate Within(markers: Markers, key: Key, window: Option<int>, now: nat) {
    key in markers && (window.None? || now - markers[key].last < window.value * MINUTE)
  }

  predicate Suppressed(markers: Markers, e: Event) {
    e.checkOk && Within(markers, e.key, e.window, e.checkAt)
  }

  predicate Delivers(markers: Markers, e: Event) { !Suppressed(markers, e) && e.taken }

  /** write_marker: an unreadable marker is started afresh. */
  function Written(markers: Markers, e: Event): Markers {
    var now := Stamp(e.writeAt);
    if !e.putOk then markers
    else if e.rereadOk && e.key in markers then
      markers[e.key := Marker(markers[e.key].first, now, markers[e.key].count + 1)]
    else markers[e.key := Marker(now, now, 1)]
  }

  function Step(markers: Markers, e: Event): Markers {
    if Delivers(markers, e) then Written(markers, e) else markers
  }

  function After(es: seq<Event>): Markers {
    if es == [] then map[] else Step(After(es[..|es| - 1]), es[|es| - 1])
  }

  /** The deliveries of a key, in order. */
  function Deliveries(es: seq<Event>, key: Key): seq<Event> {
    if es == [] then []
    else
      var (before, e) := (es[..|es| - 1], es[|es| - 1]);
      Deliveries(before, key) + if e.key == key && Delivers(After(before), e) then [e] else []
  }

  /** Callers take turns and the clock does not go back. */
  predicate Sequential(es: seq<Event>) {
    && (forall k :: 0 <= k < |es| ==> es[k].checkAt <= es[k].writeAt)
    && (forall j, k :: 0 <= j < k < |es| ==> es[j].writeAt <= es[k].checkAt)
  }

  predicate Working(es: seq<Event>) {
    forall k :: 0 <= k < |es| ==> es[k].checkOk && es[k].rereadOk && es[k].putOk
  }

  // ── with a working store ──

  /** The marker tells of all deliveries: how many, when the first, when the last. */
  lemma {:induction false} MarkerRecords(es: seq<Event>, key: Key)
    requires Working(es)
    ensures var ds := Deliveries(es, key);
      if ds == [] then key !in After(es)
      else key in After(es) && After(es)[key] == Marker(Stamp(ds[0].writeAt), Stamp(ds[|ds| - 1].writeAt), |ds|)
  {
    if es != [] { MarkerRecords(es[..|es| - 1], key); }
  }

  lemma {:induction false} DeliveriesAreEvents(es: seq<Event>, key: Key)
    ensures forall d :: d in Deliveries(es, key) ==> d in es && d.key == key
  {
    if es != [] { DeliveriesAreEvents(es[..|es| - 1], key); }
  }

  /** So the first delivery's time never changes and the count only grows. */
  lemma FirstNeverChanges(es: seq<Event>, more: seq<Event>, key: Key)
    requires Working(es + more) && key in After(es)
    ensures key in After(es + more)
    ensures After(es + more)[key].first == After(es)[key].first
    ensures After(es + more)[key].count >= After(es)[key].count
    decreases |more|
  {
    if more == [] {
      assert es + more == es;
    } else {
      var init := more[..|more| - 1];
      assert (es + more)[..|es + more| - 1] == es + init;
      assert Working(es + init) by {
        assert forall k :: 0 <= k < |es + init| ==> (es + init)[k] == (es + more)[k];
      }
      FirstNeverChanges(es, init, key);
    }
  }

  /** Window minus one second: what lies between two deliveries' write and check. */
  predicate FarEnough(earlier: Event, later: Event) {
    later.window.Some? && later.checkAt - earlier.writeAt > later.window.value * MINUTE - SECOND
  }

  lemma LatestDecides(es: seq<Event>, e: Event)
    requires Working(es) && e.checkOk && Deliveries(es, e.key) != []
    ensures var ds := Deliveries(es, e.key);
      Delivers(After(es), e) ==> FarEnough(ds[|ds| - 1], e)
  {
    MarkerRecords(es, e.key);
  }

  predicate AllFarApart(ds: seq<Event>) {
    forall i, j :: 0 <= i < j < |ds| ==> FarEnough(ds[i], ds[j])
  }

  lemma {:induction false} DeliveriesInOrder(es: seq<Event>, key: Key)
    requires Sequential(es)
    ensures Sequential(Deliveries(es, key))
  {
    if es != [] {
      var before, e := es[..|es| - 1], es[|es| - 1];
      DeliveriesInOrder(before, key);
      DeliveriesAreEvents(before, key);
      var ds := Deliveries(before, key);
      forall i | 0 <= i < |ds|
        ensures ds[i].writeAt <= e.checkAt
      {
        assert ds[i] in before;
      }
    }
  }

  /** Any delivery is checked more than 60 w - 1 seconds after every earlier delivery of its
      key was written. */
  lemma {:induction false} DeliveriesFarApart(es: seq<Event>, key: Key)
    requires Working(es) && Sequential(es)
    ensures AllFarApart(Deliveries(es, key))
  {
    if es != [] {
      var before, e := es[..|es| - 1], es[|es| - 1];
      DeliveriesFarApart(before, key);
      DeliveriesInOrder(before, key);
      var ds := Deliveries(before, key);
      if e.key == key && Delivers(After(before), e) && ds != [] {
        LatestDecides(before, e);
        FarFromAll(ds, e);
      }
    }
  }

  lemma FarFromAll(ds: seq<Event>, e: Event)
    requires AllFarApart(ds) && Sequential(ds) && ds != [] && FarEnough(ds[|ds| - 1], e)
    ensures AllFarApart(ds + [e])
  {
    forall i | 0 <= i < |ds|
      ensures FarEnough(ds[i], e)
    {
      var last := ds[|ds| - 1];
      assert i < |ds| - 1 ==> ds[i].writeAt <= last.checkAt;
    }
  }

  /** With an unlimited window the first message a channel takes is the only delivery. */
  lemma AtMostOneForever(es: seq<Event>, key: Key)
    requires Working(es) && Sequential(es)
    requires forall k :: 0 <= k < |es| && es[k].key == key ==> es[k].window.None?
    ensures |Deliveries(es, key)| <= 1
    ensures |Deliveries(es, key)| == 1 <==> exists k :: 0 <= k < |es| && es[k].key == key && es[k].taken
  {
    DeliveriesFarApart(es, key);
    DeliveriesAreEvents(es, key);
    var ds := Deliveries(es, key);
    assert forall d :: d in es && d.key == key ==> d.window.None?;
    forall j | 0 <= j < |ds|
      ensures ds[j].window.None?
    {
      assert ds[j] in ds;
    }
    AtMostOne(ds);
    SomeDelivery(es, key);
  }

  lemma AtMostOne(ds: seq<Event>)
    requires AllFarApart(ds) && forall j :: 0 <= j < |ds| ==> ds[j].window.None?
    ensures |ds| <= 1
  {
    var j := |ds| - 1;
    assert |ds| > 1 ==> FarEnough(ds[0], ds[j]);
  }

  /** A channel taking some message is all it needs for a first delivery. */
  lemma {:induction false} SomeDelivery(es: seq<Event>, key: Key)
    requires Working(es)
    ensures Deliveries(es, key) == [] <==> forall k :: 0 <= k < |es| && es[k].key == key ==> !es[k].taken
  {
    if es != [] {
      var before, e := es[..|es| - 1], es[|es| - 1];
      SomeDelivery(before, key);
      MarkerRecords(before, key);
      assert forall k :: 0 <= k < |before| ==> before[k] == es[k];
    }
  }

  lemma Push(es: seq<Event>, e: Event, key: Key)
    ensures After(es + [e]) == Step(After(es), e)
    ensures Deliveries(es + [e], key) ==
      Deliveries(es, key) + if e.key == key && Delivers(After(es), e) then [e] else []
  {
    assert (es + [e])[..|es|] == es;
  }

  /** Exactly when a message that a channel takes is delivered: a full window after the
      second in which the last delivery was written. */
  lemma DeliversIff(es: seq<Event>, e: Event)
    requires Working(es) && e.checkOk && e.taken && e.window.Some? && Deliveries(es, e.key) != []
    ensures var ds := Deliveries(es, e.key);
      Delivers(After(es), e) <==> e.checkAt - Stamp(ds[|ds| - 1].writeAt) >= e.window.value * MINUTE
  {
    MarkerRecords(es, e.key);
  }

  /** e is a later publish that would be delivered next. */
  predicate NextDelivery(es: seq<Event>, last: Event, e: Event) {
    e.key == last.key && e.window.Some? && e.checkOk && last.writeAt <= e.checkAt && Delivers(After(es), e)
  }

  /** The window promised in minutes is kept after a delivery, by whatever comes next,
      exactly if that delivery was written on a whole second. */
  lemma FullWindowIff(es: seq<Event>, key: Key)
    requires Working(es) && Deliveries(es, key) != []
    ensures var ds := Deliveries(es, key);
      var last := ds[|ds| - 1];
      last.writeAt % SECOND == 0 <==>
      forall e :: NextDelivery(es, last, e) ==> e.checkAt - last.writeAt >= e.window.value * MINUTE
  {
    var ds := Deliveries(es, key);
    var last := ds[|ds| - 1];
    DeliveriesAreEvents(es, key);
    assert last in ds;
    forall e | NextDelivery(es, last, e)
      ensures e.checkAt - Stamp(last.writeAt) >= e.window.value * MINUTE
    {
      DeliversIff(es, e);
    }
    if last.writeAt % SECOND != 0 {
      var at := Stamp(last.writeAt) + MINUTE;
      var e := Publish(key, Some(1), at, true, at, true, true, true);
      DeliversIff(es, e);
      assert NextDelivery(es, last, e);
    }
  }

  lemma TwoDeliveries(a: Event, b: Event)
    requires a.key == b.key && Delivers(map[], a) && Delivers(Step(map[], a), b)
    ensures Deliveries([a, b], a.key) == [a, b]
  {
    Push([], a, a.key);
    Push([a], b, a.key);
    assert [] + [a] == [a] && [a] + [b] == [a, b];
    assert Deliveries([], a.key) == [] && After([]) == map[];
  }

  /** The stamp is cut to whole seconds, so deliveries can be closer than the window. */
  lemma CloserThanTheWindow(a: Event)
    requires a.window == Some(1) && a.checkAt == a.writeAt == 999_999
    requires a.taken && a.checkOk && a.rereadOk && a.putOk
    ensures var b := a.(checkAt := 60_000_000, writeAt := 60_000_000);
      Working([a, b]) && Sequential([a, b]) && Deliveries([a, b], a.key) == [a, b] && b.checkAt - a.writeAt < MINUTE
  {
    var b := a.(checkAt := 60_000_000, writeAt := 60_000_000);
    assert Stamp(a.writeAt) == 0;
    assert Step(map[], a) == map[a.key := Marker(0, 0, 1)];
    assert Delivers(Step(map[], a), b);
    TwoDeliveries(a, b);
  }

  // ── with any faults ──

  /** A publish is skipped only on evidence: an earlier delivery of the same key, within the
      window of the skipped one as counted from the second of that delivery's write. */
  lemma {:induction false} MarkerIsEvidence(es: seq<Event>, key: Key)
    requires key in After(es)
    ensures exists d :: d in Deliveries(es, key) && d.taken && Stamp(d.writeAt) == After(es)[key].last
  {
    if es != [] {
      var before, e := es[..|es| - 1], es[|es| - 1];
      if key in After(before) && After(es)[key].last == After(before)[key].last {
        MarkerIsEvidence(before, key);
        var d :| d in Deliveries(before, key) && d.taken && Stamp(d.writeAt) == After(before)[key].last;
        assert d in Deliveries(es, key);
      } else {
        assert e in Deliveries(es, key);
      }
    }
  }

  lemma SkippedOnEvidence(es: seq<Event>, e: Event)
    requires Suppressed(After(es), e)
    ensures exists d | d in Deliveries(es, e.key) ::
      d.taken && (e.window.Some? ==> e.checkAt - Stamp(d.writeAt) < e.window.value * MINUTE)
  {
    MarkerIsEvidence(es, e.key);
  }

  // ── the code ──

  class MarkerStore {
    var markers: Markers

    /** check_marker; any error means "proceed". */
    method CheckMarker(key: Key, window: Option<int>, now: nat, readOk: bool) returns (within: bool)
      ensures within <==> readOk && Within(markers, key, window, now)
    {
      if !readOk { return false; }
      if key !in markers { return false; }
      if window.None? { return true; }
      var elapsed := now - markers[key].last;
      within := elapsed < window.value * MINUTE;
    }

    /** write_marker */
    method WriteMarker(e: Event)
      modifies this
      ensures markers == Written(old(markers), e)
    {
      var now := Stamp(e.writeAt);
      var first, count := now, 1;
      if e.rereadOk && e.key in markers {
        first := markers[e.key].first;
        count := markers[e.key].count + 1;
      }
      if e.putOk { markers := markers[e.key := Marker(first, now, count)]; }
    }

    /** The dedup part of publish. */
    method PublishOnce(e: Event) returns (skipped: bool)
      modifies this
      ensures markers == Step(old(markers), e) && skipped == Suppressed(old(markers), e)
    {
      skipped := CheckMarker(e.key, e.window, e.checkAt, e.checkOk);
      if !skipped && e.taken { WriteMarker(e); }
    }
  }
}
