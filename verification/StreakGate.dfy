/** The consecutive-detection gate of src/krepis/alerts.py and src/krepis/alert_tiers.py: a
    condition pages only once it has survived n detections in a row. The marker store may
    fail to answer any read, write or delete. */
module StreakGate {
  import opened Prelude

  const DEFAULT_BUCKET := "alpha-engine-research"

  datatype Tier = Page | NotifySilent | TrackedOnly

  /** A marker is stored per bucket and condition; marker keys are taken to be injective. */
  datatype Slot = Slot(bucket: string, identity: string)

  datatype Event =
    /** A publish that got as far as the gate, and which of its store requests succeed. */
    | Emit(bucket: Option<string>, identity: string, cleared: bool, tier: Tier, pageAfter: int,
           readOk: bool, writeOk: bool)
    /** publish_clear, and whether its delete succeeds. */
    | Clear(identity: string, deleteOk: bool)

  function BucketOf(bucket: Option<string>): string {
    if bucket.Some? && bucket.value != "" then bucket.value else DEFAULT_BUCKET
  }

  predicate ReachesGate(e: Event) {
    e.Emit? && e.tier.Page? && e.pageAfter > 1 && !e.cleared && e.identity != ""
  }

  function SlotOf(e: Event): Slot
    requires e.Emit?
  {
    Slot(BucketOf(e.bucket), e.identity)
  }

  type Counts = map<Slot, nat>

  function Stored(counts: Counts, slot: Slot): nat { if slot in counts then counts[slot] else 0 }

  // ── what a run of emissions and clears leaves behind ──

  /** The emission is counted: the gate saw it, and both its read and its write succeeded. */
  predicate Recorded(e: Event, slot: Slot) {
    ReachesGate(e) && SlotOf(e) == slot && e.readOk && e.writeOk
  }

  predicate Resets(e: Event, slot: Slot) {
    e.Clear? && e.deleteOk && Slot(DEFAULT_BUCKET, e.identity) == slot
  }

  /** What comes after the last successful clear of the slot. */
  function SinceClear(es: seq<Event>, slot: Slot): seq<Event> {
    if es == [] then []
    else if Resets(es[|es| - 1], slot) then []
    else SinceClear(es[..|es| - 1], slot) + [es[|es| - 1]]
  }

  function CountRecorded(es: seq<Event>, slot: Slot): nat {
    if es == [] then 0
    else CountRecorded(es[..|es| - 1], slot) + if Recorded(es[|es| - 1], slot) then 1 else 0
  }

  /** What one event does to the markers. */
  function Step(counts: Counts, e: Event): Counts {
    match e
    case Emit(_, _, _, _, _, readOk, writeOk) =>
      if ReachesGate(e) && readOk && writeOk then counts[SlotOf(e) := Stored(counts, SlotOf(e)) + 1] else counts
    case Clear(identity, deleteOk) =>
      if deleteOk then counts - {Slot(DEFAULT_BUCKET, identity)} else counts
  }

  function After(es: seq<Event>): Counts {
    if es == [] then map[] else Step(After(es[..|es| - 1]), es[|es| - 1])
  }

  /** Whether the gate holds an emission back, given the markers before it. */
  predicate Held(counts: Counts, e: Event) {
    ReachesGate(e) && e.readOk && Stored(counts, SlotOf(e)) + 1 < e.pageAfter
  }

  lemma CountRecordedPush(es: seq<Event>, e: Event, slot: Slot)
    ensures CountRecorded(es + [e], slot) == CountRecorded(es, slot) + if Recorded(e, slot) then 1 else 0
  {
    assert (es + [e])[..|es|] == es;
  }

  /** Over any run with any faults: the stored count of a slot is the number of emissions
      recorded since its last successful clear. */
  lemma {:induction false} StoredCounts(es: seq<Event>, slot: Slot)
    ensures Stored(After(es), slot) == CountRecorded(SinceClear(es, slot), slot)
  {
    if es != [] {
      var before, e := es[..|es| - 1], es[|es| - 1];
      StoredCounts(before, slot);
      if !Resets(e, slot) {
        CountRecordedPush(SinceClear(before, slot), e, slot);
      }
    }
  }

  /** The k-th event of a run is held exactly when the gate saw it, its read answered, and
      the detections recorded since the last clear, with this one, fall short. */
  lemma HeldIff(es: seq<Event>, k: nat)
    requires k < |es| && es[k].Emit?
    ensures var slot := SlotOf(es[k]);
      Held(After(es[..k]), es[k]) <==>
        ReachesGate(es[k]) && es[k].readOk
        && CountRecorded(SinceClear(es[..k], slot), slot) + 1 < es[k].pageAfter
  {
    StoredCounts(es[..k], SlotOf(es[k]));
  }

  // ── without faults: the first n - 1 are held, the n-th onward page ──

  predicate Faultless(es: seq<Event>) {
    forall k :: 0 <= k < |es| ==> if es[k].Emit? then es[k].readOk && es[k].writeOk else es[k].deleteOk
  }

  /** The condition was cleared in between, by its identity. */
  predicate IsClear(e: Event, identity: string) { e.Clear? && e.identity == identity }

  /** The detections of a condition since it was last cleared. */
  function Detections(es: seq<Event>, slot: Slot): nat {
    if es == [] then 0
    else
      var e := es[|es| - 1];
      if IsClear(e, slot.identity) then 0
      else Detections(es[..|es| - 1], slot) + if ReachesGate(e) && SlotOf(e) == slot then 1 else 0
  }

  lemma {:induction false} FaultlessStored(es: seq<Event>, identity: string)
    requires Faultless(es)
    ensures Stored(After(es), Slot(DEFAULT_BUCKET, identity)) == Detections(es, Slot(DEFAULT_BUCKET, identity))
  {
    if es != [] { FaultlessStored(es[..|es| - 1], identity); }
  }

  /** In the default bucket and without faults, a detection is held iff it is among the
      first pageAfter - 1 since the condition was last cleared. */
  lemma FirstAreHeld(es: seq<Event>, e: Event)
    requires Faultless(es + [e]) && ReachesGate(e) && BucketOf(e.bucket) == DEFAULT_BUCKET
    ensures Held(After(es), e) <==> Detections(es + [e], SlotOf(e)) < e.pageAfter
  {
    assert (es + [e])[..|es|] == es && (es + [e])[|es|] == e;
    assert Faultless(es) by {
      assert forall k :: 0 <= k < |es| ==> (es + [e])[k] == es[k];
    }
    FaultlessStored(es, e.identity);
  }

  // ── clearing only reaches the default bucket ──

  /** After a clear that succeeds the next detection starts from zero exactly if the slot is
      in the default bucket or had nothing recorded anyway. */
  lemma {:induction false} ClearResetsIff(es: seq<Event>, slot: Slot)
    ensures var after := After(es + [Clear(slot.identity, true)]);
      Stored(after, slot) == 0 <==> slot.bucket == DEFAULT_BUCKET || CountRecorded(es, slot) == 0
  {
    var e := Clear(slot.identity, true);
    assert (es + [e])[..|es|] == es;
    StoredCounts(es, slot);
    if slot.bucket != DEFAULT_BUCKET { NeverReset(es, slot); }
  }

  lemma {:induction false} NeverReset(es: seq<Event>, slot: Slot)
    requires slot.bucket != DEFAULT_BUCKET
    ensures SinceClear(es, slot) == es
  {
    if es != [] {
      NeverReset(es[..|es| - 1], slot);
      assert es == es[..|es| - 1] + [es[|es| - 1]];
    }
  }

  /** So in another bucket the first detection after a clear can page at once. */
  lemma FreshDetectionPages(bucket: string, identity: string)
    requires bucket != DEFAULT_BUCKET && bucket != "" && identity != ""
    ensures var open := Emit(Some(bucket), identity, false, Page, 2, true, true);
      var es := [open, Clear(identity, true)];
      ReachesGate(open) && !Held(After(es), open)
      && Held(After(es), open.(bucket := None))
  {
    var open := Emit(Some(bucket), identity, false, Page, 2, true, true);
    var es := [open, Clear(identity, true)];
    assert es[..1] == [open] && [open][..0] == [];
    assert After([open]) == map[Slot(bucket, identity) := 1];
  }

  // ── the code ──

  class MarkerStore {
    var counts: Counts

    /** consecutive_count: None is "could not tell"; a missing marker counts as zero. */
    method ConsecutiveCount(slot: Slot, readOk: bool) returns (r: Option<nat>)
      ensures r == if readOk then Some(Stored(counts, slot)) else None
    {
      if !readOk { return None; }
      if slot !in counts { return Some(0); }
      return Some(counts[slot]);
    }

    /** record_open */
    method RecordOpen(slot: Slot, count: nat, writeOk: bool)
      modifies this
      ensures counts == if writeOk then old(counts)[slot := count] else old(counts)
    {
      if writeOk { counts := counts[slot := count]; }
    }

    /** clear_streak */
    method ClearStreak(slot: Slot, deleteOk: bool)
      modifies this
      ensures counts == if deleteOk then old(counts) - {slot} else old(counts)
    {
      if deleteOk { counts := counts - {slot}; }
    }

    /** The gate in publish: the tier the emission is delivered at. */
    method Gate(e: Event) returns (tier: Tier, held: bool)
      requires e.Emit?
      modifies this
      ensures counts == Step(old(counts), e) && held == Held(old(counts), e)
      ensures tier == if held then NotifySilent else e.tier
    {
      tier, held := e.tier, false;
      var bucket := BucketOf(e.bucket);
      if tier.Page? && e.pageAfter > 1 && !e.cleared && e.identity != "" {
        var seen := ConsecutiveCount(Slot(bucket, e.identity), e.readOk);
        if seen.Some? {
          var streak := seen.value + 1;
          RecordOpen(Slot(bucket, e.identity), streak, e.writeOk);
          if streak < e.pageAfter {
            tier, held := NotifySilent, true;
          }
        }
      }
    }

    /** publish_clear: always the default bucket; the publish it then makes is not gated. A
        clear that names no condition is refused. */
    method PublishClear(identity: string, deleteOk: bool) returns (raised: bool)
      modifies this
      ensures raised <==> identity == ""
      ensures counts == if raised then old(counts) else Step(old(counts), Clear(identity, deleteOk))
    {
      if identity == "" { return true; }
      ClearStreak(Slot(DEFAULT_BUCKET, identity), deleteOk);
      var _, _ := Gate(Emit(None, identity, true, Page, 2, true, true));
      raised := false;
    }
  }
}
