/** S3JsonlCostSink of src/krepis/cost_sink.py used by one thread: the object with its
    fields, and the bucket content below its prefix. How the PUTs of a flush end is the
    adversary's choice, one reply per group. */
module CostSink {
  import opened Prelude
  import Keys = CostSinkKeys

  // ── dictionaries of batches, in insertion order ──

  datatype Entry<G, R> = Entry(group: G, records: seq<R>)

  datatype Batches<G, R> = Empty | More(rest: Batches<G, R>, last: Entry<G, R>)

  predicate Has<G(==), R>(b: Batches<G, R>, g: G) {
    b.More? && (b.last.group == g || Has(b.rest, g))
  }

  function Get<G(==), R>(b: Batches<G, R>, g: G): seq<R> {
    if b.Empty? then [] else if b.last.group == g then b.last.records else Get(b.rest, g)
  }

  /** b[g] = rs */
  function Set<G(==), R>(b: Batches<G, R>, g: G, rs: seq<R>): Batches<G, R> {
    if b.Empty? then More(Empty, Entry(g, rs))
    else if b.last.group == g then More(b.rest, Entry(g, rs))
    else More(Set(b.rest, g, rs), b.last)
  }

  /** Number of groups. */
  function Count<G, R>(b: Batches<G, R>): nat {
    if b.Empty? then 0 else Count(b.rest) + 1
  }

  /** Number of records in all groups together. */
  function Total<G, R>(b: Batches<G, R>): nat {
    if b.Empty? then 0 else Total(b.rest) + |b.last.records|
  }

  /** The items of a dictionary, as a loop goes over them, and the dictionary of the first n. */
  function Items<G, R>(b: Batches<G, R>): seq<Entry<G, R>> {
    if b.Empty? then [] else Items(b.rest) + [b.last]
  }

  function FirstOf<G, R>(items: seq<Entry<G, R>>, n: nat): Batches<G, R>
    requires n <= |items|
  {
    if n == 0 then Empty else More(FirstOf(items, n - 1), items[n - 1])
  }

  lemma {:induction false} FirstOfMore<G, R>(items: seq<Entry<G, R>>, e: Entry<G, R>, n: nat)
    requires n <= |items|
    ensures FirstOf(items + [e], n) == FirstOf(items, n)
  {
    if n > 0 { FirstOfMore(items, e, n - 1); }
  }

  lemma {:induction false} AllItems<G, R>(b: Batches<G, R>)
    ensures FirstOf(Items(b), |Items(b)|) == b
  {
    if b.More? {
      AllItems(b.rest);
      FirstOfMore(Items(b.rest), b.last, |Items(b.rest)|);
    }
  }

  lemma {:induction false} SetEffect<G, R>(b: Batches<G, R>, g: G, rs: seq<R>, h: G)
    ensures Get(Set(b, g, rs), h) == if h == g then rs else Get(b, h)
    ensures Has(Set(b, g, rs), h) <==> h == g || Has(b, h)
    ensures Total(Set(b, g, rs)) + |Get(b, g)| == Total(b) + |rs|
  {
    if b.More? && b.last.group != g { SetEffect(b.rest, g, rs, h); }
  }

  lemma {:induction false} NotHas<G, R>(b: Batches<G, R>, g: G)
    requires !Has(b, g)
    ensures Get(b, g) == []
  {
    if b.More? { NotHas(b.rest, g); }
  }

  /** Dictionary keys differ, and each batch satisfies the length bounds. */
  ghost predicate WellFormed<G, R>(b: Batches<G, R>, cap: nat) {
    b.More? ==> !Has(b.rest, b.last.group) && 0 < |b.last.records| <= cap && WellFormed(b.rest, cap)
  }

  lemma {:induction false} SetKeepsWellFormed<G, R>(b: Batches<G, R>, g: G, rs: seq<R>, cap: nat)
    requires WellFormed(b, cap) && 0 < |rs| <= cap
    ensures WellFormed(Set(b, g, rs), cap)
  {
    if b.More? && b.last.group != g {
      SetKeepsWellFormed(b.rest, g, rs, cap);
      SetEffect(b.rest, g, rs, b.last.group);
    }
  }

  // ── what a flush does ──

  /** What the cap drops from such a batch: its oldest records. */
  function Oldest<R>(rs: seq<R>, cap: nat): seq<R> {
    if |rs| > cap then rs[..|rs| - cap] else []
  }

  /** What the cap leaves of a batch that could not be written: its newest records. */
  function Newest<R>(rs: seq<R>, cap: nat): seq<R> {
    if |rs| > cap then rs[|rs| - cap..] else rs
  }

  lemma TrimSplits<R>(rs: seq<R>, cap: nat)
    ensures Oldest(rs, cap) + Newest(rs, cap) == rs && |Newest(rs, cap)| == Min(|rs|, cap)
  {
  }

  /** The bucket below this sink's prefix and run id: per partition, its objects by number. */
  type Objects<G, R> = map<G, seq<seq<R>>>

  function ObjectsOf<G, R>(objects: Objects<G, R>, g: G): seq<seq<R>> {
    if g in objects then objects[g] else []
  }

  /** A PUT under number n: a number already in use is overwritten. */
  function PutAt<R>(objs: seq<seq<R>>, n: nat, records: seq<R>): seq<seq<R>> {
    if n < |objs| then objs[n := records] else objs + [records]
  }

  /** One partition: what is stored, and the number the next PUT will use. */
  datatype Shelf<R> = Shelf(objects: seq<seq<R>>, number: nat)

  /** At most one stored object is not accounted for: one that landed unacknowledged. */
  predicate Numbered<R>(s: Shelf<R>) { s.number <= |s.objects| <= s.number + 1 }

  function PutOn<R>(s: Shelf<R>, records: seq<R>, reply: PutReply): Shelf<R> {
    match reply
    case RaisedBeforeLanding => s
    case RaisedAfterLanding => s.(objects := PutAt(s.objects, s.number, records))
    case Answered => Shelf(PutAt(s.objects, s.number, records), s.number + 1)
  }

  /** All partitions: the bucket, and the numbers the sink keeps. */
  datatype Store<!G, R> = Store(objects: Objects<G, R>, seqs: map<G, nat>)

  function ShelfOf<G, R>(b: Store<G, R>, g: G): Shelf<R> {
    Shelf(ObjectsOf(b.objects, g), if g in b.seqs then b.seqs[g] else 0)
  }

  function WithShelf<G, R>(b: Store<G, R>, g: G, s: Shelf<R>): Store<G, R> {
    Store(b.objects[g := s.objects], b.seqs[g := s.number])
  }

  /** The store after one PUT per group. */
  function PutAll<G, R>(b: Store<G, R>, groups: Batches<G, R>, replies: G -> PutReply): Store<G, R> {
    match groups
    case Empty => b
    case More(rest, e) =>
      var before := PutAll(b, rest, replies);
      WithShelf(before, e.group, PutOn(ShelfOf(before, e.group), e.records, replies(e.group)))
  }

  function Failed<G, R>(groups: Batches<G, R>, replies: G -> PutReply): Batches<G, R> {
    match groups
    case Empty => Empty
    case More(rest, e) =>
      if replies(e.group).Answered? then Failed(rest, replies) else More(Failed(rest, replies), e)
  }

  function Sent<G, R>(groups: Batches<G, R>, replies: G -> PutReply): Batches<G, R> {
    match groups
    case Empty => Empty
    case More(rest, e) =>
      if replies(e.group).Answered? then More(Sent(rest, replies), e) else Sent(rest, replies)
  }

  /** Buffers and the records dropped from them so far, per group. */
  datatype Retained<G, R> = Retained(buffers: Batches<G, R>, lost: Batches<G, R>)

  /** One failed batch goes back in front of its buffer; what exceeds the cap is dropped. */
  function RequeueOne<G(==), R>(b: Retained<G, R>, e: Entry<G, R>, cap: nat): Retained<G, R> {
    var merged := e.records + Get(b.buffers, e.group);
    Retained(Set(b.buffers, e.group, Newest(merged, cap)),
             Set(b.lost, e.group, Get(b.lost, e.group) + Oldest(merged, cap)))
  }

  /** After all failed batches have been put back. */
  function RequeueAll<G(==), R>(b: Retained<G, R>, failed: Batches<G, R>, cap: nat): Retained<G, R> {
    match failed
    case Empty => b
    case More(rest, e) => RequeueOne(RequeueAll(b, rest, cap), e, cap)
  }

  lemma {:induction false} SentAndFailed<G, R>(groups: Batches<G, R>, replies: G -> PutReply)
    ensures Count(Sent(groups, replies)) + Count(Failed(groups, replies)) == Count(groups)
    ensures Total(Sent(groups, replies)) + Total(Failed(groups, replies)) == Total(groups)
  {
    if groups.More? { SentAndFailed(groups.rest, replies); }
  }

  lemma {:induction false} FailedFacts<G, R>(groups: Batches<G, R>, replies: G -> PutReply, cap: nat, g: G)
    requires WellFormed(groups, cap)
    ensures WellFormed(Failed(groups, replies), cap)
    ensures Has(Failed(groups, replies), g) <==> Has(groups, g) && !replies(g).Answered?
    ensures Get(Failed(groups, replies), g) == if replies(g).Answered? then [] else Get(groups, g)
  {
    if groups.More? {
      FailedFacts(groups.rest, replies, cap, g);
      FailedFacts(groups.rest, replies, cap, groups.last.group);
      if replies(g).Answered? && groups.last.group == g { NotHas(Failed(groups.rest, replies), g); }
    }
  }

  /** Each group's shelf sees its own PUT, and nothing else. */
  lemma {:induction false} PutAllEffect<G, R>(b: Store<G, R>, groups: Batches<G, R>,
                                              replies: G -> PutReply, cap: nat, g: G)
    requires WellFormed(groups, cap)
    ensures ShelfOf(PutAll(b, groups, replies), g) ==
      if Has(groups, g) then PutOn(ShelfOf(b, g), Get(groups, g), replies(g)) else ShelfOf(b, g)
  {
    if groups.More? {
      PutAllEffect(b, groups.rest, replies, cap, g);
      PutAllEffect(b, groups.rest, replies, cap, groups.last.group);
    }
  }

  /** b holds what requeueing the failed batches into empty buffers leaves of g. */
  ghost predicate Requeued<G, R>(b: Retained<G, R>, lost: Batches<G, R>, failed: Batches<G, R>, cap: nat, g: G) {
    && WellFormed(b.buffers, cap) && (Has(b.buffers, g) <==> Has(failed, g))
    && Get(b.buffers, g) == Newest(Get(failed, g), cap)
    && Get(b.lost, g) == Get(lost, g) + Oldest(Get(failed, g), cap)
  }

  /** A requeue into emptied buffers keeps, per failed group, its newest cap records, and
      drops the ones before. */
  lemma {:induction false} RequeueAllEffect<G, R>(lost: Batches<G, R>, failed: Batches<G, R>, bound: nat, cap: nat,
                                                  g: G)
    requires WellFormed(failed, bound) && cap >= 1
    ensures Requeued(RequeueAll(Retained(Empty, lost), failed, cap), lost, failed, cap, g)
  {
    if failed.Empty? {
      assert Get(lost, g) + [] == Get(lost, g);
    } else {
      RequeueAllEffect(lost, failed.rest, bound, cap, g);
      RequeueAllEffect(lost, failed.rest, bound, cap, failed.last.group);
      RequeueOneMore(RequeueAll(Retained(Empty, lost), failed.rest, cap), lost, failed.rest, failed.last, cap, g);
    }
  }

  lemma RequeueOneMore<G, R>(b: Retained<G, R>, lost: Batches<G, R>, rest: Batches<G, R>, e: Entry<G, R>,
                             cap: nat, g: G)
    requires Requeued(b, lost, rest, cap, g) && Requeued(b, lost, rest, cap, e.group)
    requires !Has(rest, e.group) && e.records != [] && cap >= 1
    ensures Requeued(RequeueOne(b, e, cap), lost, More(rest, e), cap, g)
  {
    NotHas(rest, e.group);
    assert Newest<R>([], cap) == [] && Oldest<R>([], cap) == [];
    assert Get(lost, e.group) + [] == Get(lost, e.group);
    RequeueOneEffect(b, e, cap, g);
  }

  lemma RequeueOneEffect<G, R>(b: Retained<G, R>, e: Entry<G, R>, cap: nat, g: G)
    requires WellFormed(b.buffers, cap) && Get(b.buffers, e.group) == [] && e.records != [] && cap >= 1
    ensures var b' := RequeueOne(b, e, cap);
      && WellFormed(b'.buffers, cap) && (Has(b'.buffers, g) <==> g == e.group || Has(b.buffers, g))
      && Get(b'.buffers, g) == (if g == e.group then Newest(e.records, cap) else Get(b.buffers, g))
      && Get(b'.lost, g) == if g == e.group then Get(b.lost, g) + Oldest(e.records, cap) else Get(b.lost, g)
  {
    assert e.records + [] == e.records;
    TrimSplits(e.records, cap);
    SetEffect(b.buffers, e.group, Newest(e.records, cap), g);
    SetKeepsWellFormed(b.buffers, e.group, Newest(e.records, cap), cap);
    SetEffect(b.lost, e.group, Get(b.lost, e.group) + Oldest(e.records, cap), g);
  }

  /** A requeue in general: per failed group, its batch in front of what the buffer holds, of
      which the newest cap records stay and the ones before are dropped; nothing changes for
      other groups. */
  lemma {:induction false} RequeueInFront<G, R>(b: Retained<G, R>, failed: Batches<G, R>, bound: nat, cap: nat, g: G)
    requires WellFormed(failed, bound)
    ensures var b', all := RequeueAll(b, failed, cap), Get(failed, g) + Get(b.buffers, g);
      if !Has(failed, g) then
        Get(b'.buffers, g) == Get(b.buffers, g) && Get(b'.lost, g) == Get(b.lost, g)
      else
        var n := if |all| > cap then |all| - cap else 0;
        Get(b'.buffers, g) == all[n..] && Get(b'.lost, g) == Get(b.lost, g) + all[..n]
  {
    if failed.More? {
      var e, before := failed.last, RequeueAll(b, failed.rest, cap);
      RequeueInFront(b, failed.rest, bound, cap, g);
      NotHasIsEmpty(failed.rest, e.group);
      var merged := e.records + Get(before.buffers, e.group);
      SetEffect(before.buffers, e.group, Newest(merged, cap), g);
      SetEffect(before.lost, e.group, Get(before.lost, e.group) + Oldest(merged, cap), g);
      if g == e.group { SlicesOf(merged, cap); }
    }
  }

  lemma SlicesOf<R>(all: seq<R>, cap: nat)
    ensures var n := if |all| > cap then |all| - cap else 0;
      Newest(all, cap) == all[n..] && Oldest(all, cap) == all[..n]
  {
  }

  lemma RequeueOneTotals<G, R>(b: Retained<G, R>, e: Entry<G, R>, cap: nat)
    ensures var b' := RequeueOne(b, e, cap);
      Total(b'.buffers) + Total(b'.lost) == Total(b.buffers) + Total(b.lost) + |e.records|
    ensures Total(RequeueOne(b, e, cap).lost) == Total(b.lost) + |Oldest(e.records + Get(b.buffers, e.group), cap)|
  {
    var merged := e.records + Get(b.buffers, e.group);
    TrimSplits(merged, cap);
    SetEffect(b.buffers, e.group, Newest(merged, cap), e.group);
    SetEffect(b.lost, e.group, Get(b.lost, e.group) + Oldest(merged, cap), e.group);
  }

  /** What is thrown away for good when the sink closes. */
  function Discard<G(==), R>(lost: Batches<G, R>, buffers: Batches<G, R>): Batches<G, R> {
    match buffers
    case Empty => lost
    case More(rest, e) =>
      var before := Discard(lost, rest);
      Set(before, e.group, Get(before, e.group) + e.records)
  }

  lemma {:induction false} DiscardTotal<G, R>(lost: Batches<G, R>, buffers: Batches<G, R>)
    ensures Total(Discard(lost, buffers)) == Total(lost) + Total(buffers)
  {
    if buffers.More? {
      DiscardTotal(lost, buffers.rest);
      var before, e := Discard(lost, buffers.rest), buffers.last;
      SetEffect(before, e.group, Get(before, e.group) + e.records, e.group);
    }
  }

  // ── every record stays in its own partition ──

  ghost predicate AllOf<G, R>(records: seq<R>, g: G, groupOf: R -> G) {
    forall r :: r in records ==> groupOf(r) == g
  }

  ghost predicate Placed<G, R>(b: Batches<G, R>, groupOf: R -> G) {
    b.More? ==> AllOf(b.last.records, b.last.group, groupOf) && Placed(b.rest, groupOf)
  }

  ghost predicate PlacedObjects<G, R>(objects: Objects<G, R>, groupOf: R -> G) {
    forall g, n :: g in objects && 0 <= n < |objects[g]| ==> AllOf(objects[g][n], g, groupOf)
  }

  ghost predicate AllPlaced<G, R>(store: Store<G, R>, kept: Retained<G, R>, groupOf: R -> G) {
    PlacedObjects(store.objects, groupOf) && Placed(kept.buffers, groupOf) && Placed(kept.lost, groupOf)
  }

  lemma {:induction false} GetPlaced<G, R>(b: Batches<G, R>, g: G, groupOf: R -> G)
    requires Placed(b, groupOf)
    ensures AllOf(Get(b, g), g, groupOf)
  {
    if b.More? { GetPlaced(b.rest, g, groupOf); }
  }

  lemma {:induction false} SetPlaced<G, R>(b: Batches<G, R>, g: G, rs: seq<R>, groupOf: R -> G)
    requires Placed(b, groupOf) && AllOf(rs, g, groupOf)
    ensures Placed(Set(b, g, rs), groupOf)
  {
    if b.More? { SetPlaced(b.rest, g, rs, groupOf); }
  }

  lemma TrimPlaced<G, R>(rs: seq<R>, cap: nat, g: G, groupOf: R -> G)
    requires AllOf(rs, g, groupOf)
    ensures AllOf(Oldest(rs, cap), g, groupOf) && AllOf(Newest(rs, cap), g, groupOf)
  {
  }

  lemma {:induction false} FailedPlaced<G, R>(groups: Batches<G, R>, replies: G -> PutReply, groupOf: R -> G)
    requires Placed(groups, groupOf)
    ensures Placed(Failed(groups, replies), groupOf)
  {
    if groups.More? { FailedPlaced(groups.rest, replies, groupOf); }
  }

  lemma {:induction false} RequeueAllPlaced<G, R>(b: Retained<G, R>, failed: Batches<G, R>, cap: nat, groupOf: R -> G)
    requires Placed(b.buffers, groupOf) && Placed(b.lost, groupOf) && Placed(failed, groupOf)
    ensures var b' := RequeueAll(b, failed, cap);
      Placed(b'.buffers, groupOf) && Placed(b'.lost, groupOf)
  {
    if failed.More? {
      RequeueAllPlaced(b, failed.rest, cap, groupOf);
      RequeueOnePlaced(RequeueAll(b, failed.rest, cap), failed.last, cap, groupOf);
    }
  }

  lemma RequeueOnePlaced<G, R>(b: Retained<G, R>, e: Entry<G, R>, cap: nat, groupOf: R -> G)
    requires Placed(b.buffers, groupOf) && Placed(b.lost, groupOf) && AllOf(e.records, e.group, groupOf)
    ensures var b' := RequeueOne(b, e, cap);
      Placed(b'.buffers, groupOf) && Placed(b'.lost, groupOf)
  {
    var merged := e.records + Get(b.buffers, e.group);
    GetPlaced(b.buffers, e.group, groupOf);
    GetPlaced(b.lost, e.group, groupOf);
    TrimPlaced(merged, cap, e.group, groupOf);
    SetPlaced(b.buffers, e.group, Newest(merged, cap), groupOf);
    SetPlaced(b.lost, e.group, Get(b.lost, e.group) + Oldest(merged, cap), groupOf);
  }

  lemma {:induction false} PutAllPlaced<G, R>(b: Store<G, R>, groups: Batches<G, R>, replies: G -> PutReply,
                                              groupOf: R -> G)
    requires PlacedObjects(b.objects, groupOf) && Placed(groups, groupOf)
    ensures PlacedObjects(PutAll(b, groups, replies).objects, groupOf)
  {
    if groups.More? { PutAllPlaced(b, groups.rest, replies, groupOf); }
  }

  lemma FlushPlaced<G, R>(store: Store<G, R>, kept: Retained<G, R>, replies: G -> PutReply, cap: nat, groupOf: R -> G)
    requires AllPlaced(store, kept, groupOf)
    ensures AllPlaced(PutAll(store, kept.buffers, replies),
                      RequeueAll(Retained(Empty, kept.lost), Failed(kept.buffers, replies), cap), groupOf)
  {
    PutAllPlaced(store, kept.buffers, replies, groupOf);
    FailedPlaced(kept.buffers, replies, groupOf);
    RequeueAllPlaced(Retained(Empty, kept.lost), Failed(kept.buffers, replies), cap, groupOf);
  }

  lemma {:induction false} DiscardPlaced<G, R>(lost: Batches<G, R>, buffers: Batches<G, R>, groupOf: R -> G)
    requires Placed(lost, groupOf) && Placed(buffers, groupOf)
    ensures Placed(Discard(lost, buffers), groupOf)
  {
    if buffers.More? {
      DiscardPlaced(lost, buffers.rest, groupOf);
      var before, e := Discard(lost, buffers.rest), buffers.last;
      GetPlaced(before, e.group, groupOf);
      SetPlaced(before, e.group, Get(before, e.group) + e.records, groupOf);
    }
  }

  class S3JsonlCostSink<G(==), R> {
    const threshold: nat
    /** The partition of a record: its date and its call site. */
    const groupOf: R -> G
    var buffers: Batches<G, R>
    var seqs: map<G, nat>
    var recordsWritten: nat
    var recordsDropped: nat
    var flushErrors: nat
    /** The bucket, of which the sink only learns what PUTs answer. */
    var objects: Objects<G, R>
    /** How many records have ever been accepted, and which were dropped. */
    ghost var accepted: nat
    ghost var lost: Batches<G, R>

    /** MAX_RETAINED_MULTIPLE times the threshold. */
    function Cap(): nat { 10 * threshold }

    ghost function Stored(): Store<G, R>
      reads this`objects, this`seqs
    {
      Store(objects, seqs)
    }

    ghost function Kept(): Retained<G, R>
      reads this`buffers, this`lost
    {
      Retained(buffers, lost)
    }

    /** Memory is bounded by the cap, and no record is lost track of. */
    ghost predicate Valid()
      reads this
    {
      && threshold >= 1 && WellFormed(buffers, Cap())
      && recordsDropped == Total(lost)
      && accepted == recordsWritten + recordsDropped + Total(buffers)
    }

    /** Every record, buffered, stored or dropped, is in its own partition. */
    ghost predicate InPlace()
      reads this
    {
      AllPlaced(Stored(), Kept(), groupOf)
    }

    constructor (groupOf: R -> G, flushThreshold: int)
      ensures InPlace() && Valid() && accepted == 0 && objects == map[] && seqs == map[]
      ensures buffers == Empty && lost == Empty
      ensures threshold == (if flushThreshold > 1 then flushThreshold else 1)
      ensures this.groupOf == groupOf
    {
      this.groupOf := groupOf;
      threshold := if flushThreshold > 1 then flushThreshold else 1;
      buffers, seqs, objects := Empty, map[], map[];
      recordsWritten, recordsDropped, flushErrors := 0, 0, 0;
      accepted, lost := 0, Empty;
    }

    /** _put_group, and the bump of the group's number that follows a success. A PUT under a
        number already in use overwrites that object. */
    method PutGroup(e: Entry<G, R>, reply: PutReply) returns (ok: bool)
      modifies this`objects, this`seqs, this`recordsWritten, this`flushErrors
      ensures ok == reply.Answered?
      ensures Stored() == WithShelf(old(Stored()), e.group, PutOn(ShelfOf(old(Stored()), e.group), e.records, reply))
      ensures recordsWritten == old(recordsWritten) + if ok then |e.records| else 0
      ensures flushErrors == old(flushErrors) + if ok then 0 else 1
    {
      ok := reply.Answered?;
      var n := if e.group in seqs then seqs[e.group] else 0;
      var there := ObjectsOf(objects, e.group);
      objects := objects[e.group := if reply.RaisedBeforeLanding? then there else PutAt(there, n, e.records)];
      seqs := seqs[e.group := if ok then n + 1 else n];
      if ok {
        recordsWritten := recordsWritten + |e.records|;
      } else {
        flushErrors := flushErrors + 1;
      }
    }

    /** One turn of the loop of _requeue_failed. */
    method RequeueGroup(e: Entry<G, R>)
      modifies this`buffers, this`recordsDropped, this`lost
      ensures Kept() == RequeueOne(old(Kept()), e, Cap())
      ensures recordsDropped + Total(old(lost)) == old(recordsDropped) + Total(lost)
    {
      var merged := e.records + Get(buffers, e.group);
      RequeueOneTotals(Kept(), e, Cap());
      recordsDropped := recordsDropped + |Oldest(merged, Cap())|;
      lost := Set(lost, e.group, Get(lost, e.group) + Oldest(merged, Cap()));
      buffers := Set(buffers, e.group, Newest(merged, Cap()));
    }

    /** Puts failed batches back in front of what the buffers hold, dropping past the cap. */
    method RequeueFailed(failed: Batches<G, R>)
      modifies this`buffers, this`recordsDropped, this`lost
      ensures Kept() == RequeueAll(old(Kept()), failed, Cap())
      ensures recordsDropped + Total(old(lost)) == old(recordsDropped) + Total(lost)
      ensures Total(lost) + Total(buffers) == Total(old(lost)) + Total(old(buffers)) + Total(failed)
    {
      var items := Items(failed);
      ghost var before, done := Kept(), Empty;
      var i := 0;
      while i < |items|
        invariant 0 <= i <= |items| && done == FirstOf(items, i)
        invariant Kept() == RequeueAll(before, done, Cap())
        invariant recordsDropped + Total(before.lost) == old(recordsDropped) + Total(lost)
      {
        var e := items[i];
        done := More(done, e);
        RequeueGroup(e);
        i := i + 1;
      }
      AllItems(failed);
      assert done == failed;
      RequeueAllTotals(before, failed, Cap());
    }

    /** The PUT loop of flush, over the groups it has taken out of the buffers. */
    method WriteGroups(groups: Batches<G, R>, replies: G -> PutReply) returns (written: nat, failed: Batches<G, R>)
      modifies this`objects, this`seqs, this`recordsWritten, this`flushErrors
      ensures Stored() == PutAll(old(Stored()), groups, replies)
      ensures failed == Failed(groups, replies) && written == Count(Sent(groups, replies))
      ensures recordsWritten == old(recordsWritten) + Total(Sent(groups, replies))
      ensures flushErrors == old(flushErrors) + Count(failed)
    {
      written, failed := 0, Empty;
      var items := Items(groups);
      AllItems(groups);
      ghost var before, done := Stored(), Empty;
      var i := 0;
      while i < |items|
        invariant 0 <= i <= |items| && done == FirstOf(items, i)
        invariant Stored() == PutAll(before, done, replies)
        invariant failed == Failed(done, replies) && written == Count(Sent(done, replies))
        invariant recordsWritten == old(recordsWritten) + Total(Sent(done, replies))
        invariant flushErrors == old(flushErrors) + Count(failed)
      {
        var e := items[i];
        done := More(done, e);
        var ok := PutGroup(e, replies(e.group));
        if ok { written := written + 1; } else { failed := More(failed, e); }
        i := i + 1;
      }
    }

    /** flush: every group is PUT whole as one object; what is not acknowledged is requeued. */
    method Flush(replies: G -> PutReply) returns (written: nat)
      requires threshold >= 1 && WellFormed(buffers, Cap() + 1) && recordsDropped == Total(lost)
      requires accepted == recordsWritten + recordsDropped + Total(buffers)
      modifies this
      ensures Valid() && accepted == old(accepted)
      ensures Stored() == PutAll(old(Stored()), old(buffers), replies)
      ensures Kept() == RequeueAll(Retained(Empty, old(lost)), Failed(old(buffers), replies), Cap())
      ensures recordsWritten == old(recordsWritten) + Total(Sent(old(buffers), replies))
      ensures written == Count(Sent(old(buffers), replies))
      ensures flushErrors == old(flushErrors) + Count(Failed(old(buffers), replies))
      ensures old(InPlace()) ==> InPlace()
    {
      if InPlace() { FlushPlaced(Stored(), Kept(), replies, Cap(), groupOf); }
      SentAndFailed(buffers, replies);
      FlushedWellFormed(buffers, replies, lost, Cap());
      var groups := buffers;
      buffers := Empty;
      var failed;
      written, failed := WriteGroups(groups, replies);
      RequeueFailed(failed);
    }

    /** The append of a call, and whether the record's group has reached the threshold. */
    method Append(record: R) returns (full: bool)
      requires Valid()
      modifies this`buffers, this`accepted
      ensures var g := groupOf(record);
        && buffers == Set(old(buffers), g, Get(old(buffers), g) + [record])
        && full == (|Get(buffers, g)| >= threshold)
      ensures WellFormed(buffers, if full then Cap() + 1 else Cap()) && accepted == old(accepted) + 1
      ensures accepted == recordsWritten + recordsDropped + Total(buffers)
      ensures old(InPlace()) ==> InPlace()
    {
      var g := groupOf(record);
      var more := Get(buffers, g) + [record];
      AppendEffect(buffers, g, record, Cap());
      if InPlace() {
        GetPlaced(buffers, g, groupOf);
        SetPlaced(buffers, g, more, groupOf);
      }
      full := |more| >= threshold;
      if !full { SetKeepsWellFormed(buffers, g, more, Cap()); }
      buffers := Set(buffers, g, more);
      accepted := accepted + 1;
    }

    /** Accepts one record; a group that has reached the threshold triggers a flush. */
    method Call(record: R, replies: G -> PutReply)
      requires Valid()
      modifies this
      ensures Valid() && accepted == old(accepted) + 1
      ensures var g := groupOf(record);
        var filled := Set(old(buffers), g, Get(old(buffers), g) + [record]);
        if |Get(filled, g)| < threshold then
          buffers == filled && Stored() == old(Stored()) && lost == old(lost) && recordsWritten == old(recordsWritten)
        else
          && Stored() == PutAll(old(Stored()), filled, replies)
          && Kept() == RequeueAll(Retained(Empty, old(lost)), Failed(filled, replies), Cap())
      ensures old(InPlace()) ==> InPlace()
    {
      var full := Append(record);
      if full {
        var _ := Flush(replies);
      }
    }

    /** close: a last flush, and what it could not write is counted as lost. */
    method Close(replies: G -> PutReply)
      requires Valid()
      modifies this
      ensures Valid() && accepted == old(accepted) && buffers == Empty
      ensures accepted == recordsWritten + recordsDropped
      ensures recordsWritten == old(recordsWritten) + Total(Sent(old(buffers), replies))
      ensures Stored() == PutAll(old(Stored()), old(buffers), replies)
      ensures old(InPlace()) ==> InPlace()
    {
      WellFormedWeaken(buffers, Cap());
      var _ := Flush(replies);
      if InPlace() { DiscardPlaced(lost, buffers, groupOf); }
      DiscardTotal(lost, buffers);
      recordsDropped := recordsDropped + Total(buffers);
      lost := Discard(lost, buffers);
      buffers := Empty;
    }
  }

  lemma {:induction false} WellFormedWeaken<G, R>(b: Batches<G, R>, cap: nat)
    requires WellFormed(b, cap)
    ensures WellFormed(b, cap + 1)
  {
    if b.More? { WellFormedWeaken(b.rest, cap); }
  }

  lemma {:induction false} GetBound<G, R>(b: Batches<G, R>, cap: nat, g: G)
    requires WellFormed(b, cap)
    ensures |Get(b, g)| <= cap && (Has(b, g) ==> Get(b, g) != [])
  {
    if b.More? { GetBound(b.rest, cap, g); }
  }

  lemma AppendEffect<G, R>(b: Batches<G, R>, g: G, r: R, cap: nat)
    requires WellFormed(b, cap)
    ensures var more := Get(b, g) + [r];
      && WellFormed(Set(b, g, more), cap + 1) && Get(Set(b, g, more), g) == more
      && Total(Set(b, g, more)) == Total(b) + 1
  {
    var more := Get(b, g) + [r];
    GetBound(b, cap, g);
    WellFormedWeaken(b, cap);
    SetKeepsWellFormed(b, g, more, cap + 1);
    SetEffect(b, g, more, g);
  }

  lemma FlushedWellFormed<G, R>(groups: Batches<G, R>, replies: G -> PutReply, lost: Batches<G, R>, cap: nat)
    requires WellFormed(groups, cap + 1) && cap >= 1
    ensures WellFormed(RequeueAll(Retained(Empty, lost), Failed(groups, replies), cap).buffers, cap)
  {
    if groups.More? {
      FailedFacts(groups, replies, cap + 1, groups.last.group);
      RequeueAllEffect(lost, Failed(groups, replies), cap + 1, cap, groups.last.group);
    }
  }

  /** A requeue loses count of no record. */
  lemma {:induction false} RequeueAllTotals<G, R>(b: Retained<G, R>, failed: Batches<G, R>, cap: nat)
    ensures var b' := RequeueAll(b, failed, cap);
      Total(b'.lost) + Total(b'.buffers) == Total(b.lost) + Total(b.buffers) + Total(failed)
  {
    if failed.More? {
      RequeueAllTotals(b, failed.rest, cap);
      RequeueOneTotals(RequeueAll(b, failed.rest, cap), failed.last, cap);
    }
  }

  // ── one group on its own ──

  /** What a sink holds of one group: the stored objects and the next number, the buffer, and
      the records dropped from it. */
  datatype Group<R> = Group(shelf: Shelf<R>, buffer: seq<R>, lost: seq<R>)

  function GroupIn<G(==), R>(b: Store<G, R>, kept: Retained<G, R>, g: G): Group<R> {
    Group(ShelfOf(b, g), Get(kept.buffers, g), Get(kept.lost, g))
  }

  /** What a flush does to one group. */
  function TryPut<R>(s: Group<R>, reply: PutReply, cap: nat): Group<R> {
    if s.buffer == [] then s
    else if reply.Answered? then Group(PutOn(s.shelf, s.buffer, reply), [], s.lost)
    else Group(PutOn(s.shelf, s.buffer, reply), Newest(s.buffer, cap), s.lost + Oldest(s.buffer, cap))
  }

  /** A flush of well-formed buffers does that to every group: an acknowledged one gains
      exactly one object and leaves the buffer, any other keeps its newest cap records. */
  lemma FlushPerGroup<G, R>(b: Store<G, R>, buffers: Batches<G, R>, lost: Batches<G, R>, replies: G -> PutReply,
                            cap: nat, g: G)
    requires WellFormed(buffers, cap + 1) && cap >= 1
    ensures GroupIn(PutAll(b, buffers, replies), RequeueAll(Retained(Empty, lost), Failed(buffers, replies), cap), g)
      == TryPut(GroupIn(b, Retained(buffers, lost), g), replies(g), cap)
  {
    PutAllEffect(b, buffers, replies, cap + 1, g);
    FailedFacts(buffers, replies, cap + 1, g);
    RequeueAllEffect(lost, Failed(buffers, replies), cap + 1, cap, g);
    GetBound(buffers, cap + 1, g);
    NotHasIsEmpty(buffers, g);
    assert Get(lost, g) + [] == Get(lost, g);
  }

  lemma NotHasIsEmpty<G, R>(b: Batches<G, R>, g: G)
    ensures !Has(b, g) ==> Get(b, g) == []
  {
    if !Has(b, g) { NotHas(b, g); }
  }

  /** Accepting a record adds it to its own group only. */
  lemma AppendPerGroup<G, R>(b: Store<G, R>, kept: Retained<G, R>, g: G, record: R, h: G)
    ensures var filled := kept.(buffers := Set(kept.buffers, g, Get(kept.buffers, g) + [record]));
      var s := GroupIn(b, kept, h);
      GroupIn(b, filled, h) == if h == g then s.(buffer := s.buffer + [record]) else s
  {
    SetEffect(kept.buffers, g, Get(kept.buffers, g) + [record], h);
  }

  // ── as deployed ──

  /** The sink partitioned by (date, callsite). */
  method NewCostSink(flushThreshold: int) returns (sink: S3JsonlCostSink<Keys.Group, Keys.Record>)
    ensures fresh(sink) && sink.Valid() && sink.InPlace() && sink.accepted == 0 && sink.objects == map[]
    ensures forall r :: sink.groupOf(r) == Keys.GroupOf(r)
  {
    sink := new S3JsonlCostSink<Keys.Group, Keys.Record>((r: Keys.Record) => Keys.GroupOf(r), flushThreshold);
  }

  /** The bucket by object key. */
  ghost predicate Stores(objects: Objects<Keys.Group, Keys.Record>, prefix: string, runId: string,
                         bucket: map<string, seq<Keys.Record>>)
  {
    && (forall g: Keys.Group, n: nat :: n < |ObjectsOf(objects, g)| ==>
          var k := Keys.ObjectKey(prefix, runId, g, n);
          k in bucket && bucket[k] == ObjectsOf(objects, g)[n])
  }

  /** One more object of a partition is a new key: no object of any partition under the
      same prefix and run id is overwritten by it. */
  lemma NextObjectIsNewKey(objects: Objects<Keys.Group, Keys.Record>, prefix: string, runId: string,
                           bucket: map<string, seq<Keys.Record>>, g: Keys.Group, rs: seq<Keys.Record>)
    requires Stores(objects, prefix, runId, bucket)
    ensures var k := Keys.ObjectKey(prefix, runId, g, |ObjectsOf(objects, g)|);
      Stores(objects[g := ObjectsOf(objects, g) + [rs]], prefix, runId, bucket[k := rs])
  {
    var n0 := |ObjectsOf(objects, g)|;
    var k0 := Keys.ObjectKey(prefix, runId, g, n0);
    var objects' := objects[g := ObjectsOf(objects, g) + [rs]];
    forall h: Keys.Group, n: nat | n < |ObjectsOf(objects', h)|
      ensures var k := Keys.ObjectKey(prefix, runId, h, n);
        k in bucket[k0 := rs] && bucket[k0 := rs][k] == ObjectsOf(objects', h)[n]
    {
      if Keys.ObjectKey(prefix, runId, h, n) == k0 {
        Keys.ObjectKeyInjective(prefix, runId, h, n, g, n0);
      }
    }
  }

  /** A PUT under any number in use or next to it writes that one object, and no other of any
      partition under the same prefix and run id. */
  lemma PutWritesOneKey(objects: Objects<Keys.Group, Keys.Record>, prefix: string, runId: string,
                        bucket: map<string, seq<Keys.Record>>, g: Keys.Group, n: nat, rs: seq<Keys.Record>)
    requires Stores(objects, prefix, runId, bucket) && n <= |ObjectsOf(objects, g)|
    ensures var k := Keys.ObjectKey(prefix, runId, g, n);
      Stores(objects[g := PutAt(ObjectsOf(objects, g), n, rs)], prefix, runId, bucket[k := rs])
  {
    var k0 := Keys.ObjectKey(prefix, runId, g, n);
    var objects' := objects[g := PutAt(ObjectsOf(objects, g), n, rs)];
    forall h: Keys.Group, m: nat | m < |ObjectsOf(objects', h)|
      ensures var k := Keys.ObjectKey(prefix, runId, h, m);
        k in bucket[k0 := rs] && bucket[k0 := rs][k] == ObjectsOf(objects', h)[m]
    {
      if Keys.ObjectKey(prefix, runId, h, m) == k0 {
        Keys.ObjectKeyInjective(prefix, runId, h, m, g, n);
      }
    }
  }
}
