/** The partition law of the deployed cost sink (src/krepis/cost_sink.py): a record is buffered and
    stored under its own date and call site, told from its own fields. */
module CostSinkPartitions {
  import opened Prelude
  import opened CostSink
  import Keys = CostSinkKeys

  type Sink = S3JsonlCostSink<Keys.Group, Keys.Record>

  /** d and c are the date and the call site under which r belongs: the first ten characters
      of its timestamp if those look like a date, and "unknown" for an empty call site. */
  predicate Belongs(r: Keys.Record, d: string, c: string) {
    && (r.callsiteId != "" ==> c == r.callsiteId)
    && (r.callsiteId == "" ==> c == "unknown")
    && (LooksDated(r) ==> d == r.ts.value[..10])
    && (!LooksDated(r) ==> d == "unknown-date")
  }

  predicate LooksDated(r: Keys.Record) {
    r.ts.Some? && |r.ts.value| >= 10 && r.ts.value[4] == '-' && r.ts.value[7] == '-'
  }

  /** What NewCostSink makes; a sink's partition function never changes. */
  ghost predicate Deployed(sink: Sink) { forall r :: sink.groupOf(r) == Keys.GroupOf(r) }

  lemma OwnGroup(r: Keys.Record)
    ensures Belongs(r, Keys.GroupOf(r).0, Keys.GroupOf(r).1)
  {
  }

  /** In a deployed sink, whatever calls, flushes and closes it went through, every buffered
      and every stored record is where it belongs. */
  lemma PartitionLaw(sink: Sink)
    requires Deployed(sink) && sink.InPlace()
    ensures forall g: Keys.Group, r :: r in Get(sink.buffers, g) ==> Belongs(r, g.0, g.1)
    ensures forall g: Keys.Group, n, r ::
      g in sink.objects && 0 <= n < |sink.objects[g]| && r in sink.objects[g][n] ==> Belongs(r, g.0, g.1)
  {
    forall g: Keys.Group, r | r in Get(sink.buffers, g)
      ensures Belongs(r, g.0, g.1)
    {
      GetPlaced(sink.buffers, g, sink.groupOf);
      OwnGroup(r);
    }
    forall g: Keys.Group, n, r | g in sink.objects && 0 <= n < |sink.objects[g]| && r in sink.objects[g][n]
      ensures Belongs(r, g.0, g.1)
    {
      assert AllOf(sink.objects[g][n], g, sink.groupOf);
      OwnGroup(r);
    }
  }

  /** And the key of the object that holds a stored record spells out the record's own date and
      call site. */
  lemma StoredUnderItsOwnKey(sink: Sink, prefix: string, runId: string, bucket: map<string, seq<Keys.Record>>,
                             g: Keys.Group, n: nat, r: Keys.Record, d: string, c: string)
    requires Deployed(sink) && sink.InPlace() && Stores(sink.objects, prefix, runId, bucket)
    requires g in sink.objects && n < |sink.objects[g]| && r in sink.objects[g][n] && Belongs(r, d, c)
    ensures var key := prefix + "/" + d + "/" + runId + "/" + c + "." + Keys.Decimal(n) + ".jsonl";
      key in bucket && r in bucket[key]
  {
    PartitionLaw(sink);
    assert ObjectsOf(sink.objects, g) == sink.objects[g];
    assert g.0 == d && g.1 == c;
  }
}
