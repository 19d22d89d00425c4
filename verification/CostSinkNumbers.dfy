/** The sequence numbers of src/krepis/cost_sink.py along the runs of CostSinkSteps: a flush
    reads them when it takes the buffers, and writes one back after each acknowledged PUT. */
module CostSinkNumbers {
  import opened Prelude
  import opened CostSinkSteps

  /** seqs is the sink's field, read[f] what flush f read, stored the bucket by group and
      number, used every acknowledged PUT. */
  datatype Numbers = Numbers(seqs: map<Group, nat>, read: seq<map<Group, nat>>,
                             stored: map<(Group, nat), seq<Record>>, used: seq<(Group, nat)>)

  const NONE := Numbers(map[], [], map[], [])

  function NumberIn(m: map<Group, nat>, g: Group): nat { if g in m then m[g] else 0 }

  function StepNumbers(s: State, k: Numbers, e: Event): (r: Numbers)
    requires Enabled(s, e) && |k.read| == |s.flights|
    ensures |r.read| == |k.read| + if e.Begin? then 1 else 0
  {
    match e
    case Append(_, _) => k
    case Begin => k.(read := k.read + [map g | g in s.buffers :: NumberIn(k.seqs, g)])
    case PutEnds(f, g, reply) =>
      var n := NumberIn(k.read[f], g);
      var stored := k.stored[(g, n) := s.flights[f].pending[g]];
      (match reply
       case RaisedBeforeLanding => k
       case RaisedAfterLanding => k.(stored := stored)
       case Answered => k.(seqs := k.seqs[g := n + 1], stored := stored, used := k.used + [(g, n)]))
    case Requeue(_) => k
    case Abort(_) => k
  }

  lemma StepFlights(s: State, e: Event)
    requires Enabled(s, e)
    ensures |Step(s, e).flights| == |s.flights| + if e.Begin? then 1 else 0
  {
  }

  ghost function NumbersAfter(s: State, k: Numbers, es: seq<Event>): Numbers
    requires IsRun(s, es) && |k.read| == |s.flights|
    decreases |es|
  {
    if es == [] then k
    else
      StepFlights(s, es[0]);
      NumbersAfter(Step(s, es[0]), StepNumbers(s, k, es[0]), es[1..])
  }

  ghost predicate NeverReused(k: Numbers) { forall i, j :: 0 <= i < j < |k.used| ==> k.used[i] != k.used[j] }

  /** Earlier flushes are over, and the running one read the numbers that still hold. */
  ghost predicate UpToDate(s: State, k: Numbers) {
    && |k.read| == |s.flights|
    && (forall f :: 0 <= f < |s.flights| - 1 ==> s.flights[f].pending == map[])
    && (s.flights != [] ==>
          forall g :: g in s.flights[|s.flights| - 1].pending ==>
            NumberIn(k.read[|s.flights| - 1], g) == NumberIn(k.seqs, g))
    && (forall i :: 0 <= i < |k.used| ==>
          k.used[i].1 < NumberIn(k.seqs, k.used[i].0) && k.used[i] in k.stored)
    && NeverReused(k)
  }

  lemma PutUsesFresh(s: State, k: Numbers, f: nat, g: Group, reply: PutReply)
    requires UpToDate(s, k) && Enabled(s, PutEnds(f, g, reply))
    ensures f == |s.flights| - 1 && NumberIn(k.read[f], g) == NumberIn(k.seqs, g)
    ensures (g, NumberIn(k.seqs, g)) !in k.used
  {
    assert f == |s.flights| - 1;
    var n := NumberIn(k.seqs, g);
    forall i | 0 <= i < |k.used|
      ensures k.used[i] != (g, n)
    {
      assert k.used[i].1 < NumberIn(k.seqs, k.used[i].0);
    }
  }

  lemma PutKeepsRead(s: State, k: Numbers, f: nat, g: Group, reply: PutReply)
    requires UpToDate(s, k) && Enabled(s, PutEnds(f, g, reply))
    ensures var s', k' := Step(s, PutEnds(f, g, reply)), StepNumbers(s, k, PutEnds(f, g, reply));
      forall h :: h in s'.flights[f].pending ==> NumberIn(k'.read[f], h) == NumberIn(k'.seqs, h)
  {
    PutUsesFresh(s, k, f, g, reply);
    var s', k' := Step(s, PutEnds(f, g, reply)), StepNumbers(s, k, PutEnds(f, g, reply));
    forall h | h in s'.flights[f].pending
      ensures NumberIn(k'.read[f], h) == NumberIn(k'.seqs, h)
    {
      assert h in s.flights[|s.flights| - 1].pending && h != g;
      assert NumberIn(k.read[|s.flights| - 1], h) == NumberIn(k.seqs, h);
      assert k'.read == k.read && NumberIn(k'.seqs, h) == NumberIn(k.seqs, h);
    }
  }

  lemma PutKeepsUpToDate(s: State, k: Numbers, f: nat, g: Group, reply: PutReply)
    requires UpToDate(s, k) && Enabled(s, PutEnds(f, g, reply))
    ensures UpToDate(Step(s, PutEnds(f, g, reply)), StepNumbers(s, k, PutEnds(f, g, reply)))
  {
    PutUsesFresh(s, k, f, g, reply);
    PutKeepsRead(s, k, f, g, reply);
  }

  lemma StepKeepsUpToDate(s: State, k: Numbers, e: Event)
    requires UpToDate(s, k) && Enabled(s, e)
    requires e.Begin? ==> forall f :: 0 <= f < |s.flights| ==> Idle(s.flights[f])
    ensures UpToDate(Step(s, e), StepNumbers(s, k, e))
  {
    match e
    case PutEnds(f, g, reply) => PutKeepsUpToDate(s, k, f, g, reply);
    case _ =>
  }

  /** When flushes do not overlap, no two acknowledged PUTs of a group use one number, however
      appends interleave with them. */
  lemma {:induction false} NumbersAreFresh(s: State, k: Numbers, es: seq<Event>)
    requires IsRun(s, es) && Sequential(s, es)
    requires (Init(s) && k == NONE) || UpToDate(s, k)
    ensures UpToDate(s, k) && NeverReused(NumbersAfter(s, k, es))
    decreases |es|
  {
    if es != [] {
      StepKeepsUpToDate(s, k, es[0]);
      NumbersAreFresh(Step(s, es[0]), StepNumbers(s, k, es[0]), es[1..]);
    }
  }

  /** The acknowledged objects of k are the same in k'. */
  ghost predicate KeepsAcknowledged(k: Numbers, k': Numbers) {
    forall u :: u in k.used ==> u in k'.used && u in k.stored && u in k'.stored && k'.stored[u] == k.stored[u]
  }

  lemma StepKeepsAcknowledged(s: State, k: Numbers, e: Event)
    requires UpToDate(s, k) && Enabled(s, e)
    ensures KeepsAcknowledged(k, StepNumbers(s, k, e))
  {
    if e.PutEnds? {
      assert e.f == |s.flights| - 1;
      assert NumberIn(k.read[e.f], e.g) == NumberIn(k.seqs, e.g);
    }
    forall u | u in k.used
      ensures u.1 < NumberIn(k.seqs, u.0) && u in k.stored
    {
      var i :| 0 <= i < |k.used| && k.used[i] == u;
    }
  }

  /** When flushes do not overlap, an acknowledged object is never overwritten, whichever PUTs
      are acknowledged, fail, or land and raise, and however appends interleave. */
  lemma {:induction false} AcknowledgedStays(s: State, k: Numbers, es: seq<Event>)
    requires IsRun(s, es) && Sequential(s, es) && UpToDate(s, k)
    ensures KeepsAcknowledged(k, NumbersAfter(s, k, es))
    decreases |es|
  {
    if es == [] {
      forall u | u in k.used
        ensures u in k.stored
      {
        var i :| 0 <= i < |k.used| && k.used[i] == u;
      }
    } else {
      StepKeepsAcknowledged(s, k, es[0]);
      StepKeepsUpToDate(s, k, es[0]);
      AcknowledgedStays(Step(s, es[0]), StepNumbers(s, k, es[0]), es[1..]);
    }
  }

  /** Overlapping flushes use a number twice, and the later PUT replaces the earlier object. */
  lemma OverlapReusesNumber()
    ensures var s := State(10, {}, map[], map[], map[], map[], map[], []);
      var es := [Append(0, 1), Begin, Append(0, 2), Begin, PutEnds(1, 0, Answered), PutEnds(0, 0, Answered)];
      && Init(s) && IsRun(s, es)
      && NumbersAfter(s, NONE, es).used == [(0, 0), (0, 0)]
  {
    OverlapReorders();
    var s := State(10, {}, map[], map[], map[], map[], map[], []);
    var es := [Append(0, 1), Begin, Append(0, 2), Begin, PutEnds(1, 0, Answered), PutEnds(0, 0, Answered)];
    var k := NONE;
    var s1 := Step(s, es[0]);
    var s2 := Step(s1, es[1]);
    var s3 := Step(s2, es[2]);
    var s4 := Step(s3, es[3]);
    var s5 := Step(s4, es[4]);
    var k2 := StepNumbers(s1, k, es[1]);
    var k4 := StepNumbers(s3, k2, es[3]);
    var k5 := StepNumbers(s4, k4, es[4]);
    var k6 := StepNumbers(s5, k5, es[5]);
    assert s1.buffers.Keys == {0} && s3.buffers.Keys == {0};
    assert k2.read[0] == map[0 := 0] && k4.read[1] == map[0 := 0];
    assert k2.read == [map[0 := 0]] && k4.read == [map[0 := 0], map[0 := 0]];
    assert k6.used == [(0, 0), (0, 0)];
    assert es[1..][1..] == es[2..] && es[2..][1..] == es[3..] && es[3..][1..] == es[4..];
    assert es[4..][1..] == es[5..] && es[5..][1..] == [];
    assert IsRun(s5, es[5..]) && NumbersAfter(s5, k5, es[5..]) == k6;
    assert IsRun(s4, es[4..]) && NumbersAfter(s4, k4, es[4..]) == k6;
    assert IsRun(s3, es[3..]) && NumbersAfter(s3, k2, es[3..]) == k6;
    assert IsRun(s2, es[2..]) && NumbersAfter(s2, k2, es[2..]) == k6;
    assert IsRun(s1, es[1..]) && NumbersAfter(s1, k, es[1..]) == k6;
  }
}
