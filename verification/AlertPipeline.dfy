/** The stages of publish in src/krepis/alerts.py one after the other: the consecutive-detection
    gate, then the dedup check, then delivery and the dedup marker. An emission without an
    identity of its own is known to the gate by its dedup key. */
module AlertPipeline {
  import opened Prelude
  import opened StreakGate
  import Dedup = DedupWindow

  datatype Event =
    /** A publish, when it checks and writes, whether a channel takes the message, and which
        of its store requests succeed. */
    | Detection(bucket: Option<string>, identityKey: string, dedupKey: string, cleared: bool, tier: Tier,
                pageAfter: int, window: Option<int>, checkAt: nat, taken: bool, writeAt: nat,
                readOk: bool, writeOk: bool, checkOk: bool, rereadOk: bool, putOk: bool)
    | Clearing(identity: string, deleteOk: bool)

  datatype State = State(counts: Counts, markers: Dedup.Markers)

  /** identity_key or dedup_key */
  function Identity(e: Event): string
    requires e.Detection?
  {
    if e.identityKey != "" then e.identityKey else e.dedupKey
  }

  function AtGate(e: Event): StreakGate.Event {
    if e.Clearing? then Clear(e.identity, e.deleteOk)
    else Emit(e.bucket, Identity(e), e.cleared, e.tier, e.pageAfter, e.readOk, e.writeOk)
  }

  function KeyOf(e: Event): Dedup.Key
    requires e.Detection?
  {
    Dedup.Key(BucketOf(e.bucket), e.dedupKey)
  }

  function AtDedup(e: Event): Dedup.Event
    requires e.Detection?
  {
    Dedup.Publish(KeyOf(e), e.window, e.checkAt, e.taken, e.writeAt, e.checkOk, e.rereadOk, e.putOk)
  }

  // ── one publish ──

  datatype Outcome = Skipped | Delivered(tier: Tier) | NotTaken

  /** Only an emission with a dedup key is checked, and only then is a marker written. */
  function OutcomeOf(s: State, e: Event): Outcome
    requires e.Detection?
  {
    if e.dedupKey != "" && Dedup.Suppressed(s.markers, AtDedup(e)) then Skipped
    else if !e.taken then NotTaken
    else Delivered(if Held(s.counts, AtGate(e)) then NotifySilent else e.tier)
  }

  function Next(s: State, e: Event): State {
    State(StreakGate.Step(s.counts, AtGate(e)),
          if e.Detection? && e.dedupKey != "" then Dedup.Step(s.markers, AtDedup(e)) else s.markers)
  }

  function After(es: seq<Event>): State {
    if es == [] then State(map[], map[]) else Next(After(es[..|es| - 1]), es[|es| - 1])
  }

  predicate Pages(s: State, e: Event) { e.Detection? && OutcomeOf(s, e) == Delivered(Page) }

  // ── the two stages see their own runs ──

  function GateRun(es: seq<Event>): seq<StreakGate.Event> {
    if es == [] then [] else GateRun(es[..|es| - 1]) + [AtGate(es[|es| - 1])]
  }

  function DedupRun(es: seq<Event>): seq<Dedup.Event> {
    if es == [] then []
    else
      var e := es[|es| - 1];
      DedupRun(es[..|es| - 1]) + if e.Detection? && e.dedupKey != "" then [AtDedup(e)] else []
  }

  lemma {:induction false} StagesAgree(es: seq<Event>)
    ensures After(es).counts == StreakGate.After(GateRun(es))
    ensures After(es).markers == Dedup.After(DedupRun(es))
  {
    if es != [] {
      var init, e := es[..|es| - 1], es[|es| - 1];
      StagesAgree(init);
      assert GateRun(es)[..|GateRun(es)| - 1] == GateRun(init);
      if e.Detection? && e.dedupKey != "" {
        assert DedupRun(es)[..|DedupRun(es)| - 1] == DedupRun(init);
      } else {
        assert DedupRun(es) == DedupRun(init);
      }
    }
  }

  // ── exactly when a detection pages ──

  /** Detections recorded for e's condition since its last effective clear. */
  function Standing(es: seq<Event>, e: Event): nat
    requires e.Detection?
  {
    var slot := SlotOf(AtGate(e));
    CountRecorded(SinceClear(GateRun(es), slot), slot)
  }

  /** The deliveries under e's dedup key, silent ones included. */
  function DeliveriesOf(es: seq<Event>, e: Event): seq<Dedup.Event>
    requires e.Detection?
  {
    Dedup.Deliveries(DedupRun(es), KeyOf(e))
  }

  /** A full window has passed since the second in which the last of them was written. */
  predicate WindowPassed(es: seq<Event>, e: Event)
    requires e.Detection?
  {
    var ds := DeliveriesOf(es, e);
    e.dedupKey == "" || ds == []
    || (e.window.Some? && e.checkAt - Dedup.Stamp(ds[|ds| - 1].writeAt) >= e.window.value * Dedup.MINUTE)
  }

  predicate DedupWorks(es: seq<Event>) {
    forall k :: 0 <= k < |es| && es[k].Detection? ==> es[k].checkOk && es[k].rereadOk && es[k].putOk
  }

  lemma {:induction false} DedupRunWorks(es: seq<Event>)
    requires DedupWorks(es)
    ensures Dedup.Working(DedupRun(es))
  {
    if es != [] { DedupRunWorks(es[..|es| - 1]); }
  }

  lemma HeldAt(es: seq<Event>, e: Event)
    requires e.Detection?
    ensures Held(After(es).counts, AtGate(e)) <==>
      ReachesGate(AtGate(e)) && e.readOk && Standing(es, e) + 1 < e.pageAfter
  {
    StagesAgree(es);
    StoredCounts(GateRun(es), SlotOf(AtGate(e)));
  }

  lemma SkippedAt(es: seq<Event>, e: Event)
    requires e.Detection? && e.checkOk && DedupWorks(es)
    ensures OutcomeOf(After(es), e) == Skipped <==> !WindowPassed(es, e)
  {
    StagesAgree(es);
    DedupRunWorks(es);
    if e.dedupKey != "" { Dedup.MarkerRecords(DedupRun(es), KeyOf(e)); }
  }

  /** Any run, any faults of the gate's own store: a page-tier detection pages exactly if a
      channel takes it, the gate does not hold it, and its window has passed. */
  lemma PagesIff(es: seq<Event>, e: Event)
    requires e.Detection? && e.tier == Page && e.checkOk && DedupWorks(es)
    ensures Pages(After(es), e) <==>
      && e.taken
      && !(ReachesGate(AtGate(e)) && e.readOk && Standing(es, e) + 1 < e.pageAfter)
      && WindowPassed(es, e)
  {
    HeldAt(es, e);
    SkippedAt(es, e);
  }

  predicate GateFaultless(es: seq<Event>) {
    forall k :: 0 <= k < |es| ==> if es[k].Detection? then es[k].readOk && es[k].writeOk else es[k].deleteOk
  }

  lemma {:induction false} GateRunFaultless(es: seq<Event>)
    requires GateFaultless(es)
    ensures Faultless(GateRun(es))
  {
    if es != [] { GateRunFaultless(es[..|es| - 1]); }
  }

  /** Without faults and in the default bucket, a detection that the gate sees pages exactly
      if at least pageAfter detections, it included, stand since the condition was last
      cleared and a full window has passed since the second of the key's last delivery. */
  lemma SurvivorPagesIff(es: seq<Event>, e: Event)
    requires e.Detection? && ReachesGate(AtGate(e)) && BucketOf(e.bucket) == DEFAULT_BUCKET && e.taken
    requires GateFaultless(es) && e.readOk && e.writeOk && DedupWorks(es) && e.checkOk
    ensures Pages(After(es), e) <==>
      Detections(GateRun(es), SlotOf(AtGate(e))) + 1 >= e.pageAfter && WindowPassed(es, e)
  {
    PagesIff(es, e);
    GateRunFaultless(es);
    FirstAreHeld(GateRun(es), AtGate(e));
    assert (GateRun(es) + [AtGate(e)])[..|GateRun(es)|] == GateRun(es);
    StoredCounts(GateRun(es), SlotOf(AtGate(e)));
    StagesAgree(es);
  }

  /** So without a dedup key the n-th detection onward does page. */
  lemma WithoutKeyTheNthPages(es: seq<Event>, e: Event)
    requires e.Detection? && ReachesGate(AtGate(e)) && BucketOf(e.bucket) == DEFAULT_BUCKET && e.taken
    requires GateFaultless(es) && e.readOk && e.writeOk && DedupWorks(es) && e.checkOk && e.dedupKey == ""
    ensures Pages(After(es), e) <==> Detections(GateRun(es), SlotOf(AtGate(e))) + 1 >= e.pageAfter
  {
    SurvivorPagesIff(es, e);
  }

  /** Every detection of the run carries one dedup key, deduplicated for ever, is taken by a
      channel, and meets a gate that can read. */
  predicate AllForever(es: seq<Event>, key: Dedup.Key) {
    key.dedupKey != "" &&
    forall k :: 0 <= k < |es| && es[k].Detection? ==>
      && KeyOf(es[k]) == key && es[k].window.None? && es[k].taken
      && ReachesGate(AtGate(es[k])) && es[k].readOk
  }

  lemma {:induction false} DedupRunOfOneKey(es: seq<Event>, key: Dedup.Key)
    requires AllForever(es, key)
    ensures forall j :: 0 <= j < |DedupRun(es)| ==> DedupRun(es)[j].key == key && DedupRun(es)[j].taken
    ensures DedupRun(es) == [] <==> forall k :: 0 <= k < |es| ==> es[k].Clearing?
  {
    if es != [] { DedupRunOfOneKey(es[..|es| - 1], key); }
  }

  lemma NothingDelivered(es: seq<Event>, key: Dedup.Key)
    requires DedupWorks(es) && AllForever(es, key)
    ensures Dedup.Deliveries(DedupRun(es), key) == [] ==> forall k :: 0 <= k < |es| ==> es[k].Clearing?
  {
    DedupRunWorks(es);
    DedupRunOfOneKey(es, key);
    Dedup.SomeDelivery(DedupRun(es), key);
    var ds := DedupRun(es);
    assert ds != [] ==> ds[0].key == key && ds[0].taken;
  }

  lemma {:induction false} OnlyClears(es: seq<Event>, slot: Slot)
    requires forall k :: 0 <= k < |es| ==> es[k].Clearing?
    ensures CountRecorded(SinceClear(GateRun(es), slot), slot) == 0
  {
    if es != [] {
      var init, e := es[..|es| - 1], es[|es| - 1];
      OnlyClears(init, slot);
      assert GateRun(es)[..|GateRun(es)| - 1] == GateRun(init);
      CountRecordedPush(SinceClear(GateRun(init), slot), AtGate(e), slot);
    }
  }

  /** A condition deduplicated for ever never pages once its threshold exceeds one: the first
      detection is delivered silently, and its marker suppresses every other. */
  lemma ForeverNeverPages(es: seq<Event>, key: Dedup.Key, k: nat)
    requires DedupWorks(es) && AllForever(es, key) && k < |es|
    ensures !Pages(After(es[..k]), es[k])
  {
    var before, e := es[..k], es[k];
    if e.Detection? {
      assert forall j :: 0 <= j < |before| ==> before[j] == es[j];
      PagesIff(before, e);
      NothingDelivered(before, key);
      if DeliveriesOf(before, e) == [] { OnlyClears(before, SlotOf(AtGate(e))); }
    }
  }

  /** The input: a threshold of two, a window of an hour, detections half an hour apart. The
      first is delivered silently, and the second, which should page, is skipped. */
  lemma QuietThenSkipped(a: Event)
    requires a.Detection? && a.dedupKey != "" && ReachesGate(AtGate(a)) && a.pageAfter == 2
    requires a.window == Some(60) && a.checkAt == a.writeAt == 0 && a.taken
    requires a.readOk && a.writeOk && a.checkOk && a.rereadOk && a.putOk
    ensures var b := a.(checkAt := 30 * Dedup.MINUTE, writeAt := 30 * Dedup.MINUTE);
      OutcomeOf(After([]), a) == Delivered(NotifySilent) && OutcomeOf(After([a]), b) == Skipped
  {
    assert [a][..0] == [];
    assert After([a]) == Next(State(map[], map[]), a);
    assert After([a]).markers == map[KeyOf(a) := Dedup.Marker(0, 0, 1)];
  }

  // ── the code ──

  ghost function Seen(gate: StreakGate.MarkerStore, dedup: Dedup.MarkerStore): State
    reads gate, dedup
  {
    State(gate.counts, dedup.markers)
  }

  /** The gate, the dedup check, the delivery and the marker, in that order. */
  method Publish(gate: StreakGate.MarkerStore, dedup: Dedup.MarkerStore, e: Event) returns (r: Outcome)
    requires e.Detection?
    modifies gate, dedup
    ensures Seen(gate, dedup) == Next(old(Seen(gate, dedup)), e) && r == OutcomeOf(old(Seen(gate, dedup)), e)
  {
    var tier, _ := gate.Gate(AtGate(e));
    if e.dedupKey == "" { return if e.taken then Delivered(tier) else NotTaken; }
    var skipped := dedup.PublishOnce(AtDedup(e));
    r := if skipped then Skipped else if e.taken then Delivered(tier) else NotTaken;
  }
}
