/** Runs of one group of the cost sink (src/krepis/cost_sink.py): records accepted, and
    flushes whose PUT may be acknowledged, fail, or land and fail all the same. */
module CostSinkRetries {
  import opened Prelude
  import opened CostSink

  datatype Event<R> = Append(record: R) | Flush(reply: PutReply)

  function Step<R>(s: Group<R>, e: Event<R>, cap: nat): Group<R> {
    match e
    case Append(r) => s.(buffer := s.buffer + [r])
    case Flush(reply) => TryPut(s, reply, cap)
  }

  /** The group after a run, from a sink that has seen nothing of it. */
  function After<R>(es: seq<Event<R>>, cap: nat): Group<R> {
    if es == [] then Group(Shelf([], 0), [], [])
    else Step(After(es[..|es| - 1], cap), es[|es| - 1], cap)
  }

  /** Event k is a flush that has something to write. */
  predicate Puts<R(==)>(es: seq<Event<R>>, k: nat, cap: nat)
    requires k < |es|
  {
    es[k].Flush? && After(es[..k], cap).buffer != []
  }

  function NumberAt<R>(es: seq<Event<R>>, k: nat, cap: nat): nat
    requires k <= |es|
  {
    After(es[..k], cap).shelf.number
  }

  // ── an acknowledged object is never overwritten ──

  predicate Keeps<R(==)>(s: Shelf<R>, s': Shelf<R>) {
    s.number <= s'.number && s.number <= |s.objects| && s.number <= |s'.objects|
    && s'.objects[..s.number] == s.objects[..s.number]
  }

  lemma {:induction false} AlwaysNumbered<R>(es: seq<Event<R>>, cap: nat)
    ensures Numbered(After(es, cap).shelf)
  {
    if es != [] { AlwaysNumbered(es[..|es| - 1], cap); }
  }

  lemma StepKeeps<R>(s: Group<R>, e: Event<R>, cap: nat)
    requires Numbered(s.shelf)
    ensures Keeps(s.shelf, Step(s, e, cap).shelf)
  {
  }

  lemma KeepsTransitive<R>(a: Shelf<R>, b: Shelf<R>, c: Shelf<R>)
    requires Keeps(a, b) && Keeps(b, c)
    ensures Keeps(a, c)
  {
    assert c.objects[..a.number] == c.objects[..b.number][..a.number];
    assert b.objects[..a.number] == b.objects[..b.number][..a.number];
  }

  /** Under any replies whatever, the acknowledged objects of a group stay as they are. */
  lemma {:induction false} AcknowledgedIsNeverOverwritten<R>(es: seq<Event<R>>, more: seq<Event<R>>, cap: nat)
    ensures Keeps(After(es, cap).shelf, After(es + more, cap).shelf)
    decreases |more|
  {
    AlwaysNumbered(es, cap);
    if more == [] {
      assert es + more == es;
    } else {
      var init := more[..|more| - 1];
      assert (es + more)[..|es + more| - 1] == es + init;
      AcknowledgedIsNeverOverwritten(es, init, cap);
      AlwaysNumbered(es + init, cap);
      StepKeeps(After(es + init, cap), more[|more| - 1], cap);
      KeepsTransitive(After(es, cap).shelf, After(es + init, cap).shelf, After(es + more, cap).shelf);
    }
  }

  // ── exactly which PUTs overwrite ──

  /** PUT j landed under number n, unacknowledged. */
  predicate LandedUnder<R(==)>(es: seq<Event<R>>, j: nat, n: nat, cap: nat)
    requires j < |es|
  {
    Puts(es, j, cap) && es[j].reply.RaisedAfterLanding? && NumberAt(es, j, cap) == n
  }

  ghost predicate SomeLandedUnder<R>(es: seq<Event<R>>, k: nat, n: nat, cap: nat)
    requires k <= |es|
  {
    exists j :: 0 <= j < k && LandedUnder(es, j, n, cap)
  }

  lemma SomeLandedPush<R>(es: seq<Event<R>>, n: nat, cap: nat)
    requires es != []
    ensures SomeLandedUnder(es, |es|, n, cap) <==>
      SomeLandedUnder(es[..|es| - 1], |es| - 1, n, cap) || LandedUnder(es, |es| - 1, n, cap)
  {
    var init := es[..|es| - 1];
    forall j | 0 <= j < |init|
      ensures LandedUnder(es, j, n, cap) <==> LandedUnder(init, j, n, cap)
    {
      assert init[..j] == es[..j];
    }
  }

  /** A number beyond the group's current one has never been used. */
  lemma {:induction false} FreshNumbers<R>(es: seq<Event<R>>, n: nat, cap: nat)
    requires n > After(es, cap).shelf.number
    ensures !SomeLandedUnder(es, |es|, n, cap)
  {
    if es != [] {
      FreshNumbers(es[..|es| - 1], n, cap);
      SomeLandedPush(es, n, cap);
    }
  }

  /** An unaccounted object is stored exactly if a PUT under the current number landed. */
  lemma {:induction false} PendingIff<R>(es: seq<Event<R>>, cap: nat)
    ensures var s := After(es, cap).shelf;
      |s.objects| > s.number <==> SomeLandedUnder(es, |es|, s.number, cap)
  {
    AlwaysNumbered(es, cap);
    if es != [] {
      var init, e := es[..|es| - 1], es[|es| - 1];
      AlwaysNumbered(init, cap);
      PendingIff(init, cap);
      var s, s' := After(init, cap).shelf, After(es, cap).shelf;
      SomeLandedPush(es, s'.number, cap);
      if s'.number > s.number { FreshNumbers(init, s'.number, cap); }
    }
  }

  /** A PUT that lands replaces a stored object exactly if an earlier PUT of the group under
      the same number landed unacknowledged. */
  lemma OverwritesIff<R>(es: seq<Event<R>>, k: nat, cap: nat)
    requires k < |es| && Puts(es, k, cap) && !es[k].reply.RaisedBeforeLanding?
    ensures var s := After(es[..k], cap);
      && After(es[..k + 1], cap).shelf.objects == PutAt(s.shelf.objects, s.shelf.number, s.buffer)
      && (s.shelf.number < |s.shelf.objects| <==> SomeLandedUnder(es, k, s.shelf.number, cap))
  {
    assert es[..k + 1][..k] == es[..k] && es[..k + 1][k] == es[k];
    PendingIff(es[..k], cap);
    var n := NumberAt(es, k, cap);
    forall j | 0 <= j < k
      ensures LandedUnder(es, j, n, cap) <==> LandedUnder(es[..k], j, n, cap)
    {
      assert es[..k][..j] == es[..j];
    }
  }

  // ── where the replaced object's records are ──

  /** The records p stand in a row at position i of lost ++ buffer, the first of them lost if
      any is before the buffer. */
  predicate StandsAt<R(==)>(p: seq<R>, lost: seq<R>, buffer: seq<R>, i: nat) {
    i <= |lost| && i + |p| <= |lost| + |buffer| && (lost + buffer)[i..i + |p|] == p
  }

  ghost predicate Stands<R>(p: seq<R>, lost: seq<R>, buffer: seq<R>) { exists i: nat :: StandsAt(p, lost, buffer, i) }

  lemma StillStands<R>(p: seq<R>, lost: seq<R>, buffer: seq<R>, lost': seq<R>, buffer': seq<R>, more: seq<R>)
    requires Stands(p, lost, buffer) && lost <= lost' && lost' + buffer' == lost + buffer + more
    ensures Stands(p, lost', buffer')
  {
    var i: nat :| StandsAt(p, lost, buffer, i);
    assert (lost' + buffer')[i..i + |p|] == (lost + buffer)[i..i + |p|];
    assert StandsAt(p, lost', buffer', i);
  }

  lemma WholeBufferStands<R>(buffer: seq<R>, lost: seq<R>, cap: nat)
    ensures Stands(buffer, lost + Oldest(buffer, cap), Newest(buffer, cap))
  {
    assert (lost + buffer)[|lost|..|lost| + |buffer|] == buffer;
    assert StandsAt(buffer, lost, buffer, |lost|);
    StandsWhenTrimmed(buffer, lost, buffer, cap);
  }

  lemma StandsWithMore<R>(p: seq<R>, lost: seq<R>, buffer: seq<R>, r: R)
    requires Stands(p, lost, buffer)
    ensures Stands(p, lost, buffer + [r])
  {
    assert lost + (buffer + [r]) == lost + buffer + [r];
    StillStands(p, lost, buffer, lost, buffer + [r], [r]);
  }

  lemma StandsWhenTrimmed<R>(p: seq<R>, lost: seq<R>, buffer: seq<R>, cap: nat)
    requires Stands(p, lost, buffer)
    ensures Stands(p, lost + Oldest(buffer, cap), Newest(buffer, cap))
  {
    TrimSplits(buffer, cap);
    StandsAcross(p, lost, Oldest(buffer, cap), Newest(buffer, cap));
  }

  lemma StandsAcross<R>(p: seq<R>, lost: seq<R>, x: seq<R>, y: seq<R>)
    requires Stands(p, lost, x + y)
    ensures Stands(p, lost + x, y)
  {
    assert lost + x + y == lost + (x + y) + [];
    StillStands(p, lost, x + y, lost + x, y, []);
  }

  ghost predicate PendingStands<R>(s: Group<R>) {
    |s.shelf.objects| > s.shelf.number ==> Stands(s.shelf.objects[s.shelf.number], s.lost, s.buffer)
  }

  lemma StepKeepsPendingStands<R>(s: Group<R>, e: Event<R>, cap: nat)
    requires Numbered(s.shelf) && PendingStands(s)
    ensures PendingStands(Step(s, e, cap))
  {
    var s' := Step(s, e, cap);
    if |s'.shelf.objects| > s'.shelf.number {
      var p' := s'.shelf.objects[s'.shelf.number];
      match e {
        case Append(r) =>
          StandsWithMore(p', s.lost, s.buffer, r);
        case Flush(reply) =>
          if s.buffer != [] && reply.RaisedAfterLanding? {
            WholeBufferStands(s.buffer, s.lost, cap);
          } else if s.buffer != [] {
            StandsWhenTrimmed(p', s.lost, s.buffer, cap);
          }
      }
    }
  }

  lemma {:induction false} AlwaysPendingStands<R>(es: seq<Event<R>>, cap: nat)
    ensures PendingStands(After(es, cap))
  {
    if es != [] {
      AlwaysNumbered(es[..|es| - 1], cap);
      AlwaysPendingStands(es[..|es| - 1], cap);
      StepKeepsPendingStands(After(es[..|es| - 1], cap), es[|es| - 1], cap);
    }
  }

  /** The object that the next PUT may replace is made of records dropped and counted, in a
      row, and then of the first records of the buffer, which that PUT writes whole. */
  lemma ReplacedRecords<R>(es: seq<Event<R>>, cap: nat) returns (k: nat, i: nat)
    requires var s := After(es, cap).shelf; |s.objects| > s.number
    ensures var s := After(es, cap);
      var p := s.shelf.objects[s.shelf.number];
      && k <= |p| && i + k <= |s.lost| && p[..k] == s.lost[i..i + k]
      && p[k..] <= s.buffer
  {
    AlwaysPendingStands(es, cap);
    var s := After(es, cap);
    var p := s.shelf.objects[s.shelf.number];
    i :| StandsAt(p, s.lost, s.buffer, i);
    k := Min(|p|, |s.lost| - i);
    CutAt(p, s.lost, s.buffer, i, k);
  }

  lemma CutAt<R>(p: seq<R>, lost: seq<R>, buffer: seq<R>, i: nat, k: nat)
    requires StandsAt(p, lost, buffer, i) && k <= |p| && i + k <= |lost| && (k == |p| || i + k == |lost|)
    ensures p[..k] == lost[i..i + k] && p[k..] <= buffer
  {
    var all := lost + buffer;
    assert forall x :: 0 <= x < |p| ==> p[x] == all[i..i + |p|][x] == all[i + x];
    assert forall x :: 0 <= x < |lost| ==> all[x] == lost[x];
    if k < |p| {
      forall x | 0 <= x < |p| - k
        ensures p[k..][x] == buffer[x]
      {
        assert all[i + (k + x)] == buffer[x];
      }
    }
  }

  /** The input: a PUT that lands and times out, one more record, a PUT that is acknowledged.
      The stored object [1] is replaced by [1, 2] under the same number. */
  lemma LandedObjectIsReplaced(cap: nat)
    requires cap >= 2
    ensures var es := [] + [Append(1)] + [Flush(RaisedAfterLanding)] + [Append(2)] + [Flush(Answered)];
      After(es[..2], cap).shelf == Shelf([[1]], 0) && After(es, cap).shelf == Shelf([[1, 2]], 1)
  {
    var e0: seq<Event<int>> := [];
    var e1 := e0 + [Append(1)];
    var e2 := e1 + [Flush(RaisedAfterLanding)];
    var e3 := e2 + [Append(2)];
    var e4 := e3 + [Flush(Answered)];
    AfterPush(e0, Append(1), cap);
    AfterPush(e1, Flush(RaisedAfterLanding), cap);
    AfterPush(e2, Append(2), cap);
    AfterPush(e3, Flush(Answered), cap);
    assert e4[..2] == e2;
    assert After(e1, cap) == Group(Shelf([], 0), [1], []);
    assert After(e2, cap) == Group(Shelf([[1]], 0), [1], []);
    assert After(e3, cap) == Group(Shelf([[1]], 0), [1, 2], []);
  }

  lemma AfterPush<R>(es: seq<Event<R>>, e: Event<R>, cap: nat)
    ensures After(es + [e], cap) == Step(After(es, cap), e, cap)
  {
    assert (es + [e])[..|es|] == es;
  }

  // ── the sink's own calls, group by group ──

  /** A call that fills a group to the threshold: for every group a flush follows, and for
      the record's own group the record comes first. With AppendPerGroup for a call below the
      threshold and FlushPerGroup for a flush on its own, each group of a sink goes through
      one of the runs above. */
  lemma CallPerGroup<G, R>(b: Store<G, R>, kept: Retained<G, R>, g: G, record: R, replies: G -> PutReply, cap: nat,
                           h: G)
    requires WellFormed(kept.buffers, cap) && cap >= 1
    ensures var filled := Set(kept.buffers, g, Get(kept.buffers, g) + [record]);
      var s := GroupIn(b, kept, h);
      GroupIn(PutAll(b, filled, replies),
              RequeueAll(Retained(Empty, kept.lost), Failed(filled, replies), cap), h)
      == Step(if h == g then Step(s, Append(record), cap) else s, Flush(replies(h)), cap)
  {
    var filled := Set(kept.buffers, g, Get(kept.buffers, g) + [record]);
    GetBound(kept.buffers, cap, g);
    WellFormedWeaken(kept.buffers, cap);
    SetKeepsWellFormed(kept.buffers, g, Get(kept.buffers, g) + [record], cap + 1);
    AppendPerGroup(b, kept, g, record, h);
    FlushPerGroup(b, filled, kept.lost, replies, cap, h);
  }
}
