/** src/krepis/cost_sink.py as interleaved steps: appends and any number of flushes, each
    PUT landing or failing outside the lock, failed batches requeued and trimmed. */
module CostSinkSteps {
  import opened Prelude

  type Group = nat
  type Record = nat

  type Batches = map<Group, seq<Record>>

  function Get(m: Batches, g: Group): seq<Record> { if g in m then m[g] else [] }

  function Add(m: Batches, g: Group, rs: seq<Record>): Batches { m[g := Get(m, g) + rs] }

  /** One running flush: batches whose PUT is still to end, and batches whose PUT failed. */
  datatype Flight = Flight(pending: Batches, failed: Batches)

  /** accepted, acked, dropped and vanished are the history; buffers and flights are the
      sink. Rows in bad cannot be printed as JSON. */
  datatype State = State(cap: nat, bad: set<Record>, accepted: Batches, acked: Batches, dropped: Batches,
                         vanished: Batches, buffers: Batches, flights: seq<Flight>)

  datatype Event =
    | Append(g: Group, r: Record)
    | Begin                        // flush takes every buffer under the lock
    | PutEnds(f: nat, g: Group, reply: PutReply)
    | Requeue(f: nat)              // failed batches go back under the lock
    | Abort(f: nat)                // printing a batch raises, and flush with it

  predicate Printable(s: State, rs: seq<Record>) { forall i :: 0 <= i < |rs| ==> rs[i] !in s.bad }

  predicate Enabled(s: State, e: Event) {
    match e
    case Append(_, _) => true
    case Begin => true
    case PutEnds(f, g, _) =>
      f < |s.flights| && g in s.flights[f].pending && Printable(s, s.flights[f].pending[g])
    case Abort(f) =>
      f < |s.flights| && exists g :: g in s.flights[f].pending && !Printable(s, s.flights[f].pending[g])
    case Requeue(f) => f < |s.flights| && s.flights[f].pending == map[]
  }

  function Overflow(merged: seq<Record>, cap: nat): (n: nat)
    ensures n <= |merged|
  {
    if |merged| > cap then |merged| - cap else 0
  }

  function Merged(s: State, f: nat, g: Group): seq<Record>
    requires f < |s.flights|
  {
    Get(s.flights[f].failed, g) + Get(s.buffers, g)
  }

  /** Failed batches go in front; what exceeds the cap is dropped from the front. */
  function Lost(s: State, f: nat, g: Group): seq<Record>
    requires f < |s.flights|
  {
    if g in s.flights[f].failed then Merged(s, f, g)[..Overflow(Merged(s, f, g), s.cap)] else []
  }

  function Kept(s: State, f: nat, g: Group): seq<Record>
    requires f < |s.flights|
  {
    if g in s.flights[f].failed then Merged(s, f, g)[Overflow(Merged(s, f, g), s.cap)..] else Get(s.buffers, g)
  }

  function StepRequeue(s: State, f: nat): State
    requires Enabled(s, Requeue(f))
  {
    s.(buffers := map g | g in s.buffers.Keys + s.flights[f].failed.Keys :: Kept(s, f, g),
       dropped := map g | g in s.dropped.Keys + s.flights[f].failed.Keys :: Get(s.dropped, g) + Lost(s, f, g),
       flights := s.flights[f := Flight(map[], map[])])
  }

  function StepPut(s: State, f: nat, g: Group, reply: PutReply): State
    requires Enabled(s, PutEnds(f, g, reply))
  {
    var fl := s.flights[f];
    var batch := fl.pending[g];
    if reply.Answered? then
      s.(acked := Add(s.acked, g, batch), flights := s.flights[f := fl.(pending := fl.pending - {g})])
    else
      s.(flights := s.flights[f := Flight(fl.pending - {g}, Add(fl.failed, g, batch))])
  }

  /** What a flush had taken and not written is gone; no counter tells. */
  function StepAbort(s: State, f: nat): State
    requires Enabled(s, Abort(f))
  {
    var fl := s.flights[f];
    s.(vanished := map g | g in s.vanished.Keys + fl.pending.Keys + fl.failed.Keys ::
                     Get(s.vanished, g) + (Get(fl.pending, g) + Get(fl.failed, g)),
       flights := s.flights[f := Flight(map[], map[])])
  }

  lemma AbortEffect(s: State, f: nat, g: Group)
    requires Enabled(s, Abort(f))
    ensures Get(StepAbort(s, f).vanished, g)
      == Get(s.vanished, g) + (Get(s.flights[f].pending, g) + Get(s.flights[f].failed, g))
  {
  }

  lemma RequeueBuffers(s: State, f: nat, g: Group)
    requires Enabled(s, Requeue(f))
    ensures Get(StepRequeue(s, f).buffers, g) == Kept(s, f, g)
  {
  }

  lemma RequeueDrops(s: State, f: nat, g: Group)
    requires Enabled(s, Requeue(f))
    ensures Get(StepRequeue(s, f).dropped, g) == Get(s.dropped, g) + Lost(s, f, g)
  {
  }

  lemma RequeueSplits(s: State, f: nat, g: Group)
    requires Enabled(s, Requeue(f))
    ensures Get(s.flights[f].failed, g) + Get(s.buffers, g) == Lost(s, f, g) + Kept(s, f, g)
  {
  }

  /** What a requeue does to one group. */
  lemma RequeueEffect(s: State, f: nat, g: Group)
    requires Enabled(s, Requeue(f))
    ensures Get(StepRequeue(s, f).buffers, g) == Kept(s, f, g)
    ensures Get(StepRequeue(s, f).dropped, g) == Get(s.dropped, g) + Lost(s, f, g)
    ensures Get(s.flights[f].failed, g) + Get(s.buffers, g) == Lost(s, f, g) + Kept(s, f, g)
  {
    RequeueBuffers(s, f, g);
    RequeueDrops(s, f, g);
    RequeueSplits(s, f, g);
  }

  /** What the end of a PUT does to one group. */
  lemma PutEffect(s: State, f: nat, h: Group, reply: PutReply, g: Group)
    requires Enabled(s, PutEnds(f, h, reply))
    ensures var s' := StepPut(s, f, h, reply);
      var fl, fl' := s.flights[f], s'.flights[f];
      && |s'.flights| == |s.flights| && s'.flights == s.flights[f := fl']
      && (g != h ==> Get(s'.acked, g) == Get(s.acked, g)
                     && Get(fl'.pending, g) == Get(fl.pending, g) && Get(fl'.failed, g) == Get(fl.failed, g))
      && (g == h ==> Get(fl'.pending, g) == []
                     && (if reply.Answered? then Get(s'.acked, g) == Get(s.acked, g) + Get(fl.pending, g)
                                    && Get(fl'.failed, g) == Get(fl.failed, g)
                         else Get(s'.acked, g) == Get(s.acked, g)
                              && Get(fl'.failed, g) == Get(fl.failed, g) + Get(fl.pending, g)))
  {
  }

  function Step(s: State, e: Event): State
    requires Enabled(s, e)
  {
    match e
    case Append(g, r) => s.(accepted := Add(s.accepted, g, [r]), buffers := Add(s.buffers, g, [r]))
    case Begin => s.(buffers := map[], flights := s.flights + [Flight(s.buffers, map[])])
    case PutEnds(f, g, reply) => StepPut(s, f, g, reply)
    case Requeue(f) => StepRequeue(s, f)
    case Abort(f) => StepAbort(s, f)
  }

  ghost predicate IsRun(s: State, es: seq<Event>)
    decreases |es|
  {
    es == [] || (Enabled(s, es[0]) && IsRun(Step(s, es[0]), es[1..]))
  }

  ghost function After(s: State, es: seq<Event>): State
    requires IsRun(s, es)
    decreases |es|
  {
    if es == [] then s else After(Step(s, es[0]), es[1..])
  }

  predicate Init(s: State) {
    s.accepted == s.acked == s.dropped == s.vanished == s.buffers == map[] && s.flights == []
  }

  // ── conservation, under every interleaving ──

  function Count(rs: seq<Record>, r: Record): nat { multiset(rs)[r] }

  function Held(fl: Flight, g: Group, r: Record): nat {
    Count(Get(fl.pending, g), r) + Count(Get(fl.failed, g), r)
  }

  function InFlight(fls: seq<Flight>, g: Group, r: Record): nat {
    if fls == [] then 0 else Held(fls[0], g, r) + InFlight(fls[1..], g, r)
  }

  lemma {:induction false} InFlightUpdate(fls: seq<Flight>, f: nat, fl: Flight, g: Group, r: Record)
    requires f < |fls|
    ensures InFlight(fls[f := fl], g, r) + Held(fls[f], g, r) == InFlight(fls, g, r) + Held(fl, g, r)
  {
    if f > 0 {
      InFlightUpdate(fls[1..], f - 1, fl, g, r);
      assert fls[f := fl][1..] == fls[1..][f - 1 := fl];
    } else {
      assert fls[0 := fl][1..] == fls[1..];
    }
  }

  lemma {:induction false} InFlightAppend(fls: seq<Flight>, fl: Flight, g: Group, r: Record)
    ensures InFlight(fls + [fl], g, r) == InFlight(fls, g, r) + Held(fl, g, r)
  {
    if fls == [] {
      assert fls + [fl] == [fl];
    } else {
      InFlightAppend(fls[1..], fl, g, r);
      assert (fls + [fl])[1..] == fls[1..] + [fl];
    }
  }

  ghost predicate Conserved(s: State, g: Group, r: Record) {
    Count(Get(s.accepted, g), r) ==
      Count(Get(s.acked, g), r) + Count(Get(s.dropped, g), r) + Count(Get(s.vanished, g), r)
      + Count(Get(s.buffers, g), r) + InFlight(s.flights, g, r)
  }

  lemma CountConcat(a: seq<Record>, b: seq<Record>, r: Record)
    ensures Count(a + b, r) == Count(a, r) + Count(b, r)
  {
  }

  lemma RequeueConserves(s: State, f: nat, g: Group, r: Record)
    requires Enabled(s, Requeue(f)) && Conserved(s, g, r)
    ensures Conserved(StepRequeue(s, f), g, r)
  {
    InFlightUpdate(s.flights, f, Flight(map[], map[]), g, r);
    RequeueEffect(s, f, g);
    var kept, lost := Kept(s, f, g), Lost(s, f, g);
    CountConcat(Get(s.dropped, g), lost, r);
    CountConcat(lost, kept, r);
    CountConcat(Get(s.flights[f].failed, g), Get(s.buffers, g), r);
  }

  lemma PutConserves(s: State, f: nat, h: Group, reply: PutReply, g: Group, r: Record)
    requires Enabled(s, PutEnds(f, h, reply)) && Conserved(s, g, r)
    ensures Conserved(StepPut(s, f, h, reply), g, r)
  {
    PutEffect(s, f, h, reply, g);
    var fl := s.flights[f];
    InFlightUpdate(s.flights, f, StepPut(s, f, h, reply).flights[f], g, r);
    CountConcat(Get(s.acked, g), Get(fl.pending, g), r);
    CountConcat(Get(fl.failed, g), Get(fl.pending, g), r);
  }

  lemma AbortConserves(s: State, f: nat, g: Group, r: Record)
    requires Enabled(s, Abort(f)) && Conserved(s, g, r)
    ensures Conserved(StepAbort(s, f), g, r)
  {
    InFlightUpdate(s.flights, f, Flight(map[], map[]), g, r);
    AbortEffect(s, f, g);
    var fl := s.flights[f];
    CountConcat(Get(s.vanished, g), Get(fl.pending, g) + Get(fl.failed, g), r);
    CountConcat(Get(fl.pending, g), Get(fl.failed, g), r);
  }

  lemma AppendConserves(s: State, h: Group, x: Record, g: Group, r: Record)
    requires Conserved(s, g, r)
    ensures Conserved(Step(s, Append(h, x)), g, r)
  {
    CountConcat(Get(s.accepted, g), [x], r);
    CountConcat(Get(s.buffers, g), [x], r);
  }

  lemma StepConserves(s: State, e: Event, g: Group, r: Record)
    requires Enabled(s, e) && Conserved(s, g, r)
    ensures Conserved(Step(s, e), g, r)
  {
    match e
    case Append(h, x) => AppendConserves(s, h, x, g, r);
    case Begin => InFlightAppend(s.flights, Flight(s.buffers, map[]), g, r);
    case PutEnds(f, h, reply) => PutConserves(s, f, h, reply, g, r);
    case Requeue(f) => RequeueConserves(s, f, g, r);
    case Abort(f) => AbortConserves(s, f, g, r);
  }

  /** Conservation: whatever the interleaving of appends and flushes, overlapping or not,
      and whichever PUTs fail, each accepted record of a group is in exactly one of
      acknowledged, dropped, vanished, buffered, in flight, as often as it was accepted. */
  lemma {:induction false} Conservation(s: State, es: seq<Event>, g: Group, r: Record)
    requires IsRun(s, es) && (Init(s) || Conserved(s, g, r))
    ensures Conserved(After(s, es), g, r)
    decreases |es|
  {
    if es != [] {
      StepConserves(s, es[0], g, r);
      Conservation(Step(s, es[0]), es[1..], g, r);
    }
  }

  // ── the history is that of the run ──

  /** What a run accepts for group g, in order. */
  function Accepts(es: seq<Event>, g: Group): seq<Record> {
    if es == [] then []
    else (if es[0].Append? && es[0].g == g then [es[0].r] else []) + Accepts(es[1..], g)
  }

  /** The batches of group g whose PUTs are acknowledged in a run, in a row. */
  ghost function Acknowledges(s: State, es: seq<Event>, g: Group): seq<Record>
    requires IsRun(s, es)
    decreases |es|
  {
    if es == [] then []
    else
      var e := es[0];
      (if e.PutEnds? && e.g == g && e.reply == Answered then s.flights[e.f].pending[g] else [])
      + Acknowledges(Step(s, e), es[1..], g)
  }

  /** So that conservation is about the records that were appended and the PUTs that were
      acknowledged: the accepted and the acknowledged history hold those and no others. */
  lemma HistoryIs(s: State, es: seq<Event>, g: Group)
    requires IsRun(s, es)
    ensures Get(After(s, es).accepted, g) == Get(s.accepted, g) + Accepts(es, g)
    ensures Get(After(s, es).acked, g) == Get(s.acked, g) + Acknowledges(s, es, g)
  {
    AcceptedIs(s, es, g);
    AckedIs(s, es, g);
  }

  lemma {:induction false} AcceptedIs(s: State, es: seq<Event>, g: Group)
    requires IsRun(s, es)
    ensures Get(After(s, es).accepted, g) == Get(s.accepted, g) + Accepts(es, g)
    decreases |es|
  {
    if es != [] {
      var e := es[0];
      AcceptedIs(Step(s, e), es[1..], g);
      AcceptStep(s, e, g);
      Assoc(Get(s.accepted, g), if e.Append? && e.g == g then [e.r] else [], Accepts(es[1..], g));
    }
  }

  lemma AcceptStep(s: State, e: Event, g: Group)
    requires Enabled(s, e)
    ensures Get(Step(s, e).accepted, g) == Get(s.accepted, g) + if e.Append? && e.g == g then [e.r] else []
  {
    assert Get(s.accepted, g) + [] == Get(s.accepted, g);
  }

  lemma {:induction false} AckedIs(s: State, es: seq<Event>, g: Group)
    requires IsRun(s, es)
    ensures Get(After(s, es).acked, g) == Get(s.acked, g) + Acknowledges(s, es, g)
    decreases |es|
  {
    if es != [] {
      var e := es[0];
      AckedIs(Step(s, e), es[1..], g);
      AckStep(s, e, g);
      Assoc(Get(s.acked, g), if e.PutEnds? && e.g == g && e.reply == Answered then s.flights[e.f].pending[g] else [],
            Acknowledges(Step(s, e), es[1..], g));
    }
  }

  lemma AckStep(s: State, e: Event, g: Group)
    requires Enabled(s, e)
    ensures Get(Step(s, e).acked, g)
      == Get(s.acked, g) + if e.PutEnds? && e.g == g && e.reply == Answered then s.flights[e.f].pending[g] else []
  {
    assert Get(s.acked, g) + [] == Get(s.acked, g);
  }

  lemma Assoc(a: seq<Record>, b: seq<Record>, c: seq<Record>)
    ensures (a + b) + c == a + (b + c)
  {
  }

  // ── a flush raises exactly on rows that cannot be printed ──

  ghost predicate AllPrintable(s: State) {
    && s.vanished == map[]
    && (forall g :: g in s.buffers ==> Printable(s, s.buffers[g]))
    && forall f :: 0 <= f < |s.flights| ==> PrintableFlight(s, s.flights[f])
  }

  ghost predicate PrintableFlight(s: State, fl: Flight) {
    && (forall g :: g in fl.pending ==> Printable(s, fl.pending[g]))
    && (forall g :: g in fl.failed ==> Printable(s, fl.failed[g]))
  }

  ghost predicate AppendsPrintable(s: State, es: seq<Event>) {
    forall k :: 0 <= k < |es| && es[k].Append? ==> es[k].r !in s.bad
  }

  lemma PrintableConcat(s: State, a: seq<Record>, b: seq<Record>)
    ensures Printable(s, a + b) <==> Printable(s, a) && Printable(s, b)
  {
    var ab := a + b;
    assert forall i :: 0 <= i < |a| ==> ab[i] == a[i];
    assert forall i :: 0 <= i < |b| ==> ab[|a| + i] == b[i];
  }

  lemma PrintableGet(s: State, m: Batches, g: Group)
    requires forall h :: h in m ==> Printable(s, m[h])
    ensures Printable(s, Get(m, g))
  {
  }

  lemma KeptIsPrintable(s: State, f: nat, g: Group)
    requires AllPrintable(s) && Enabled(s, Requeue(f))
    ensures Printable(s, Kept(s, f, g))
  {
    PrintableGet(s, s.flights[f].failed, g);
    PrintableGet(s, s.buffers, g);
    PrintableConcat(s, Get(s.flights[f].failed, g), Get(s.buffers, g));
    RequeueSplits(s, f, g);
    PrintableConcat(s, Lost(s, f, g), Kept(s, f, g));
  }

  lemma AppendKeepsPrintable(s: State, g: Group, r: Record)
    requires AllPrintable(s) && r !in s.bad
    ensures AllPrintable(Step(s, Append(g, r)))
  {
    PrintableGet(s, s.buffers, g);
    PrintableConcat(s, Get(s.buffers, g), [r]);
    SameFlights(s, Step(s, Append(g, r)));
  }

  lemma SameFlights(s: State, s': State)
    requires s'.bad == s.bad && s'.flights == s.flights && AllPrintable(s)
    ensures forall f :: 0 <= f < |s'.flights| ==> PrintableFlight(s', s'.flights[f])
  {
    forall f | 0 <= f < |s'.flights|
      ensures PrintableFlight(s', s'.flights[f])
    {
      assert PrintableFlight(s, s.flights[f]);
    }
  }

  lemma OneFlightChanged(s: State, s': State, f: nat)
    requires s'.bad == s.bad && f < |s.flights| && AllPrintable(s)
    requires |s'.flights| == |s.flights| && s'.flights == s.flights[f := s'.flights[f]]
    requires PrintableFlight(s, s'.flights[f])
    ensures forall k :: 0 <= k < |s'.flights| ==> PrintableFlight(s', s'.flights[k])
  {
    forall k | 0 <= k < |s'.flights|
      ensures PrintableFlight(s', s'.flights[k])
    {
      assert PrintableFlight(s, s.flights[k]);
    }
  }

  lemma PutKeepsPrintable(s: State, f: nat, g: Group, reply: PutReply)
    requires AllPrintable(s) && Enabled(s, PutEnds(f, g, reply))
    ensures AllPrintable(StepPut(s, f, g, reply))
  {
    var fl := s.flights[f];
    assert PrintableFlight(s, fl);
    PrintableGet(s, fl.failed, g);
    PrintableConcat(s, Get(fl.failed, g), fl.pending[g]);
    OneFlightChanged(s, StepPut(s, f, g, reply), f);
  }

  lemma RequeueKeepsPrintable(s: State, f: nat)
    requires AllPrintable(s) && Enabled(s, Requeue(f))
    ensures AllPrintable(StepRequeue(s, f))
  {
    var s' := StepRequeue(s, f);
    forall g | g in s'.buffers
      ensures Printable(s', s'.buffers[g])
    {
      KeptIsPrintable(s, f, g);
      RequeueBuffers(s, f, g);
    }
    OneFlightChanged(s, s', f);
  }

  lemma BeginKeepsPrintable(s: State)
    requires AllPrintable(s)
    ensures AllPrintable(Step(s, Begin))
  {
    var s' := Step(s, Begin);
    forall f | 0 <= f < |s'.flights|
      ensures PrintableFlight(s', s'.flights[f])
    {
      if f < |s.flights| { assert PrintableFlight(s, s.flights[f]); }
    }
  }

  lemma NothingToRaise(s: State)
    requires AllPrintable(s)
    ensures forall f :: !Enabled(s, Abort(f))
  {
    forall f: nat | f < |s.flights|
      ensures !Enabled(s, Abort(f))
    {
      assert PrintableFlight(s, s.flights[f]);
    }
  }

  /** As long as only printable rows are accepted no flush raises and nothing vanishes. */
  lemma {:induction false} NothingVanishes(s: State, es: seq<Event>)
    requires (Init(s) || AllPrintable(s)) && IsRun(s, es) && AppendsPrintable(s, es)
    ensures AllPrintable(After(s, es)) && forall k :: 0 <= k < |es| ==> !es[k].Abort?
    decreases |es|
  {
    if es != [] {
      var e := es[0];
      match e {
        case Append(g, r) =>
          assert es[0].r !in s.bad;
          AppendKeepsPrintable(s, g, r);
        case Begin => BeginKeepsPrintable(s);
        case PutEnds(f, g, reply) => PutKeepsPrintable(s, f, g, reply);
        case Requeue(f) => RequeueKeepsPrintable(s, f);
        case Abort(f) => NothingToRaise(s);
      }
      SameBad(s, e);
      NothingVanishes(Step(s, e), es[1..]);
      assert forall k :: 0 < k < |es| ==> es[k] == es[1..][k - 1];
    }
  }

  lemma SameBad(s: State, e: Event)
    requires Enabled(s, e)
    ensures Step(s, e).bad == s.bad
  {
  }

  ghost predicate Stuck(s: State, f: nat, g: Group, batch: seq<Record>) {
    f < |s.flights| && g in s.flights[f].pending && s.flights[f].pending[g] == batch && !Printable(s, batch)
  }

  lemma PutLeavesStuck(s: State, k: nat, h: Group, reply: PutReply, f: nat, g: Group, batch: seq<Record>)
    requires Stuck(s, f, g, batch) && Enabled(s, PutEnds(k, h, reply))
    ensures Stuck(StepPut(s, k, h, reply), f, g, batch)
  {
    if k == f { assert h != g; }
  }

  lemma StillStuck(s: State, e: Event, f: nat, g: Group, batch: seq<Record>)
    requires Stuck(s, f, g, batch) && Enabled(s, e) && e != Abort(f)
    ensures Stuck(Step(s, e), f, g, batch)
  {
    match e
    case PutEnds(k, h, reply) => PutLeavesStuck(s, k, h, reply, f, g, batch);
    case Requeue(k) => assert k != f;
    case _ =>
  }

  /** And a flush that took a row that cannot be printed cannot end in any other way than by
      raising: that batch stays pending. */
  lemma {:induction false} StuckUntilItRaises(s: State, es: seq<Event>, f: nat, g: Group, batch: seq<Record>)
    requires IsRun(s, es) && Stuck(s, f, g, batch) && forall k :: 0 <= k < |es| ==> es[k] != Abort(f)
    ensures Stuck(After(s, es), f, g, batch) && Enabled(After(s, es), Abort(f))
    decreases |es|
  {
    if es != [] {
      StillStuck(s, es[0], f, g, batch);
      assert forall k :: 0 <= k < |es[1..]| ==> es[1..][k] == es[k + 1];
      StuckUntilItRaises(Step(s, es[0]), es[1..], f, g, batch);
    }
  }

  lemma Prepend(s: State, e: Event, es: seq<Event>)
    requires Enabled(s, e) && IsRun(Step(s, e), es)
    ensures IsRun(s, [e] + es) && After(s, [e] + es) == After(Step(s, e), es)
  {
    assert ([e] + es)[1..] == es;
  }

  /** The input: one row that cannot be printed takes another group's row with it. */
  lemma PrintableRowVanishes(s: State)
    requires Init(s) && 1 !in s.bad && 2 in s.bad
    ensures var es := [Append(0, 1), Append(5, 2), Begin, Abort(0)];
      IsRun(s, es) && Get(After(s, es).vanished, 0) == [1]
      && Get(After(s, es).acked, 0) == Get(After(s, es).dropped, 0) == []
  {
    var es := [Append(0, 1), Append(5, 2), Begin, Abort(0)];
    var s1 := Step(s, Append(0, 1));
    var s2 := Step(s1, Append(5, 2));
    var s3 := Step(s2, Begin);
    assert Get(s2.buffers, 0) == [1] && Get(s2.buffers, 5) == [2];
    assert [2][0] in s3.bad && !Printable(s3, s3.flights[0].pending[5]);
    AbortEffect(s3, 0, 0);
    Prepend(s3, Abort(0), []);
    Prepend(s2, Begin, [Abort(0)] + []);
    Prepend(s1, Append(5, 2), [Begin] + ([Abort(0)] + []));
    Prepend(s, Append(0, 1), [Append(5, 2)] + ([Begin] + ([Abort(0)] + [])));
    assert [Append(0, 1)] + ([Append(5, 2)] + ([Begin] + ([Abort(0)] + []))) == es;
  }

  // ── order, when flushes do not overlap ──

  predicate Idle(fl: Flight) { fl.pending == map[] && fl.failed == map[] }

  /** A flush starts only when every earlier one has ended. */
  ghost predicate Sequential(s: State, es: seq<Event>)
    requires IsRun(s, es)
    decreases |es|
  {
    es != [] ==>
      && (es[0].Begin? ==> forall f :: 0 <= f < |s.flights| ==> Idle(s.flights[f]))
      && Sequential(Step(s, es[0]), es[1..])
  }

  /** x is what is left of y after deleting some of its elements. */
  ghost predicate Subsequence(x: seq<Record>, y: seq<Record>)
    decreases |y|
  {
    x == [] ||
    (y != [] && ((x[0] == y[0] && Subsequence(x[1..], y[1..])) || Subsequence(x, y[1..])))
  }

  lemma {:induction false} SubsequenceExtend(x: seq<Record>, y: seq<Record>, r: Record)
    requires Subsequence(x, y)
    ensures Subsequence(x + [r], y + [r])
    decreases |y|
  {
    if y == [] {
      assert x + [r] == [r] && y + [r] == [r];
    } else {
      assert (y + [r])[1..] == y[1..] + [r];
      if x != [] && x[0] == y[0] && Subsequence(x[1..], y[1..]) {
        SubsequenceExtend(x[1..], y[1..], r);
        assert (x + [r])[1..] == x[1..] + [r];
      } else {
        SubsequenceExtend(x, y[1..], r);
      }
    }
  }

  /** Deleting a stretch in the middle leaves a subsequence. */
  lemma {:induction false} SubsequenceDrop(a: seq<Record>, b: seq<Record>, c: seq<Record>, y: seq<Record>)
    requires Subsequence(a + b + c, y)
    ensures Subsequence(a + c, y)
    decreases |y|
  {
    var x := a + b + c;
    if a + c == [] {
    } else if x[0] == y[0] && Subsequence(x[1..], y[1..]) {
      if a != [] {
        assert x[1..] == a[1..] + b + c;
        SubsequenceDrop(a[1..], b, c, y[1..]);
        assert (a + c)[1..] == a[1..] + c;
      } else if b != [] {
        assert x[1..] == a + b[1..] + c;
        SubsequenceDrop(a, b[1..], c, y[1..]);
      } else {
        assert x == a + c;
      }
    } else {
      SubsequenceDrop(a, b, c, y[1..]);
    }
  }

  /** At most the last flight is running, and each of its batches has one place. */
  ghost predicate OneFlight(s: State) {
    && (forall f :: 0 <= f < |s.flights| - 1 ==> Idle(s.flights[f]))
    && (s.flights != [] ==>
          s.flights[|s.flights| - 1].pending.Keys !! s.flights[|s.flights| - 1].failed.Keys)
  }

  function Flying(s: State, g: Group): seq<Record> {
    if s.flights == [] then []
    else var fl := s.flights[|s.flights| - 1]; Get(fl.pending, g) + Get(fl.failed, g)
  }

  /** Acknowledged, then in flight, then buffered: the group in the order it was accepted. */
  function Line(s: State, g: Group): seq<Record> {
    Get(s.acked, g) + Flying(s, g) + Get(s.buffers, g)
  }

  ghost predicate Ordered(s: State, g: Group) {
    OneFlight(s) && Subsequence(Line(s, g), Get(s.accepted, g))
  }

  lemma Regroup(a: seq<Record>, b: seq<Record>, c: seq<Record>, d: seq<Record>, e: seq<Record>)
    requires b + c == d + e
    ensures a + b + c == a + d + e
  {
    assert a + b + c == a + (b + c);
    assert a + d + e == a + (d + e);
  }

  lemma RequeueLineBefore(s: State, g: Group)
    requires s.flights != [] && Enabled(s, Requeue(|s.flights| - 1))
    ensures var f := |s.flights| - 1;
      Line(s, g) == Get(s.acked, g) + Lost(s, f, g) + Kept(s, f, g)
  {
    var f := |s.flights| - 1;
    RequeueEffect(s, f, g);
    assert Flying(s, g) == Get(s.flights[f].failed, g);
    Regroup(Get(s.acked, g), Get(s.flights[f].failed, g), Get(s.buffers, g), Lost(s, f, g), Kept(s, f, g));
  }

  lemma RequeueLineAfter(s: State, g: Group)
    requires s.flights != [] && Enabled(s, Requeue(|s.flights| - 1))
    ensures var f := |s.flights| - 1;
      Line(StepRequeue(s, f), g) == Get(s.acked, g) + Kept(s, f, g)
  {
    var s' := StepRequeue(s, |s.flights| - 1);
    RequeueEffect(s, |s.flights| - 1, g);
    FlyingIs(s', g);
    assert Get(s.acked, g) + ([] + []) == Get(s.acked, g);
  }

  lemma RequeueKeepsOrder(s: State, g: Group)
    requires s.flights != [] && Enabled(s, Requeue(|s.flights| - 1)) && Ordered(s, g)
    ensures Ordered(StepRequeue(s, |s.flights| - 1), g)
  {
    var f := |s.flights| - 1;
    RequeueLineBefore(s, g);
    RequeueLineAfter(s, g);
    SubsequenceDrop(Get(s.acked, g), Lost(s, f, g), Kept(s, f, g), Get(s.accepted, g));
  }

  lemma PutOneFlight(s: State, h: Group, reply: PutReply)
    requires s.flights != [] && Enabled(s, PutEnds(|s.flights| - 1, h, reply)) && OneFlight(s)
    ensures OneFlight(StepPut(s, |s.flights| - 1, h, reply))
  {
  }

  lemma FlyingIs(s: State, g: Group)
    requires s.flights != []
    ensures Flying(s, g) == Get(s.flights[|s.flights| - 1].pending, g) + Get(s.flights[|s.flights| - 1].failed, g)
  {
  }

  lemma MoveFront(a: seq<Record>, p: seq<Record>, none: seq<Record>)
    requires none == []
    ensures a + (p + none) == (a + p) + (none + none)
    ensures p + none == none + (none + p)
  {
  }

  lemma PutFlying(s: State, h: Group, reply: PutReply, g: Group)
    requires s.flights != [] && Enabled(s, PutEnds(|s.flights| - 1, h, reply))
    requires h !in s.flights[|s.flights| - 1].failed
    ensures var s' := StepPut(s, |s.flights| - 1, h, reply);
      Get(s'.acked, g) + Flying(s', g) == Get(s.acked, g) + Flying(s, g)
  {
    var f := |s.flights| - 1;
    var s' := StepPut(s, f, h, reply);
    PutEffect(s, f, h, reply, g);
    FlyingIs(s, g);
    FlyingIs(s', g);
    MoveFront(Get(s.acked, g), Get(s.flights[f].pending, g), []);
  }

  lemma SameLine(s: State, s': State, g: Group)
    requires Get(s'.acked, g) + Flying(s', g) == Get(s.acked, g) + Flying(s, g) && s'.buffers == s.buffers
    ensures Line(s', g) == Line(s, g)
  {
  }

  lemma PutKeepsBuffers(s: State, f: nat, h: Group, reply: PutReply)
    requires Enabled(s, PutEnds(f, h, reply))
    ensures StepPut(s, f, h, reply).buffers == s.buffers
  {
  }

  lemma PutLine(s: State, h: Group, reply: PutReply, g: Group)
    requires s.flights != [] && Enabled(s, PutEnds(|s.flights| - 1, h, reply)) && OneFlight(s)
    ensures var s' := StepPut(s, |s.flights| - 1, h, reply);
      Line(s', g) == Line(s, g) && OneFlight(s')
  {
    PutOneFlight(s, h, reply);
    PutFlying(s, h, reply, g);
    PutKeepsBuffers(s, |s.flights| - 1, h, reply);
    SameLine(s, StepPut(s, |s.flights| - 1, h, reply), g);
  }

  lemma AppendLine(s: State, h: Group, r: Record, g: Group)
    ensures var s' := Step(s, Append(h, r));
      var more := if h == g then [r] else [];
      Line(s', g) == Line(s, g) + more && Get(s'.accepted, g) == Get(s.accepted, g) + more
  {
    var more := if h == g then [r] else [];
    AddGet(s.buffers, h, r, g);
    AddGet(s.accepted, h, r, g);
    AtTheEnd(Get(s.acked, g) + Flying(s, g), Get(s.buffers, g), more);
  }

  lemma AddGet(m: map<Group, seq<Record>>, h: Group, r: Record, g: Group)
    ensures Get(Add(m, h, [r]), g) == Get(m, g) + if h == g then [r] else []
  {
    assert Get(m, g) + [] == Get(m, g);
  }

  lemma AtTheEnd(a: seq<Record>, b: seq<Record>, c: seq<Record>)
    ensures a + (b + c) == a + b + c
  {
  }

  lemma BeginLine(s: State, g: Group)
    requires forall f :: 0 <= f < |s.flights| ==> Idle(s.flights[f])
    ensures Line(Step(s, Begin), g) == Line(s, g) && OneFlight(Step(s, Begin))
  {
    var s' := Step(s, Begin);
    assert Flying(s, g) == [];
    assert Flying(s', g) == Get(s.buffers, g) + [];
    assert Get(s'.buffers, g) == [];
  }

  lemma IdleRequeueLine(s: State, f: nat, g: Group)
    requires Enabled(s, Requeue(f)) && OneFlight(s) && f < |s.flights| - 1
    ensures var s' := Step(s, Requeue(f));
      Line(s', g) == Line(s, g) && OneFlight(s')
  {
    var s' := Step(s, Requeue(f));
    assert Idle(s.flights[f]);
    RequeueEffect(s, f, g);
    assert Get(s'.buffers, g) == Get(s.buffers, g) && s'.flights == s.flights;
  }

  lemma OrderedAgain(s: State, s': State, g: Group)
    requires Ordered(s, g) && OneFlight(s') && Line(s', g) == Line(s, g) && s'.accepted == s.accepted
    ensures Ordered(s', g)
  {
  }

  lemma AppendKeepsOrder(s: State, h: Group, r: Record, g: Group)
    requires Ordered(s, g)
    ensures Ordered(Step(s, Append(h, r)), g)
  {
    var s' := Step(s, Append(h, r));
    AppendLine(s, h, r, g);
    if h == g {
      SubsequenceExtend(Line(s, g), Get(s.accepted, g), r);
    } else {
      assert Line(s, g) + [] == Line(s, g) && Get(s.accepted, g) + [] == Get(s.accepted, g);
    }
  }

  lemma BeginKeepsOrder(s: State, g: Group)
    requires Ordered(s, g) && forall f :: 0 <= f < |s.flights| ==> Idle(s.flights[f])
    ensures Ordered(Step(s, Begin), g)
  {
    BeginLine(s, g);
    OrderedAgain(s, Step(s, Begin), g);
  }

  lemma PutKeepsOrder(s: State, f: nat, h: Group, reply: PutReply, g: Group)
    requires Enabled(s, PutEnds(f, h, reply)) && Ordered(s, g)
    ensures Ordered(StepPut(s, f, h, reply), g)
  {
    assert !Idle(s.flights[f]);
    PutLine(s, h, reply, g);
    OrderedAgain(s, StepPut(s, f, h, reply), g);
  }

  lemma AbortLine(s: State, f: nat, g: Group)
    requires Enabled(s, Abort(f)) && f == |s.flights| - 1
    ensures Line(StepAbort(s, f), g) == Get(s.acked, g) + Get(s.buffers, g)
  {
    FlyingIs(StepAbort(s, f), g);
    assert Get(s.acked, g) + ([] + []) == Get(s.acked, g);
  }

  lemma AbortKeepsOrder(s: State, f: nat, g: Group)
    requires Enabled(s, Abort(f)) && Ordered(s, g)
    ensures Ordered(StepAbort(s, f), g)
  {
    assert !Idle(s.flights[f]);
    AbortLine(s, f, g);
    SubsequenceDrop(Get(s.acked, g), Flying(s, g), Get(s.buffers, g), Get(s.accepted, g));
  }

  lemma IdleRequeueKeepsOrder(s: State, f: nat, g: Group)
    requires Enabled(s, Requeue(f)) && Ordered(s, g) && f < |s.flights| - 1
    ensures Ordered(StepRequeue(s, f), g)
  {
    IdleRequeueLine(s, f, g);
    OrderedAgain(s, StepRequeue(s, f), g);
  }

  lemma StepKeepsOrder(s: State, e: Event, g: Group)
    requires Enabled(s, e) && Ordered(s, g)
    requires e.Begin? ==> forall f :: 0 <= f < |s.flights| ==> Idle(s.flights[f])
    ensures Ordered(Step(s, e), g)
  {
    match e
    case Append(h, r) => AppendKeepsOrder(s, h, r, g);
    case Begin => BeginKeepsOrder(s, g);
    case PutEnds(f, h, reply) => PutKeepsOrder(s, f, h, reply, g);
    case Abort(f) => AbortKeepsOrder(s, f, g);
    case Requeue(f) =>
      if f < |s.flights| - 1 { IdleRequeueKeepsOrder(s, f, g); } else { RequeueKeepsOrder(s, g); }
  }

  /** Order: when flushes do not overlap, per group acknowledged ++ in flight ++ buffered is
      an order-preserving subsequence of what was accepted, appends interleaving anywhere. */
  lemma {:induction false} OrderPreserved(s: State, es: seq<Event>, g: Group)
    requires IsRun(s, es) && Sequential(s, es) && (Init(s) || Ordered(s, g))
    ensures Ordered(After(s, es), g)
    decreases |es|
  {
    if es != [] {
      StepKeepsOrder(s, es[0], g);
      OrderPreserved(Step(s, es[0]), es[1..], g);
    }
  }

  /** A requeue keeps the newest cap records of failed ++ buffered and drops the rest,
      which are the oldest of the group then retained. */
  lemma TrimDropsOldest(s: State, f: nat, g: Group) returns (lost: seq<Record>)
    requires Enabled(s, Requeue(f)) && g in s.flights[f].failed
    ensures var s' := Step(s, Requeue(f));
      && Get(s'.dropped, g) == Get(s.dropped, g) + lost
      && lost + Get(s'.buffers, g) == Get(s.flights[f].failed, g) + Get(s.buffers, g)
      && |Get(s'.buffers, g)| <= s.cap
      && (lost != [] ==> |Get(s'.buffers, g)| == s.cap)
  {
    RequeueEffect(s, f, g);
    lost := Lost(s, f, g);
  }

  /** Overlapping flushes can acknowledge a group out of order: the later batch lands first. */
  lemma OverlapReorders()
    ensures var s := State(10, {}, map[], map[], map[], map[], map[], []);
      var es := [Append(0, 1), Begin, Append(0, 2), Begin, PutEnds(1, 0, Answered), PutEnds(0, 0, Answered)];
      && Init(s) && IsRun(s, es) && !Sequential(s, es)
      && Get(After(s, es).accepted, 0) == [1, 2] && Get(After(s, es).acked, 0) == [2, 1]
  {
    var s := State(10, {}, map[], map[], map[], map[], map[], []);
    var es := [Append(0, 1), Begin, Append(0, 2), Begin, PutEnds(1, 0, Answered), PutEnds(0, 0, Answered)];
    var s1 := Step(s, Append(0, 1));
    var s2 := Step(s1, Begin);
    var s3 := Step(s2, Append(0, 2));
    var s4 := Step(s3, Begin);
    var s5 := Step(s4, PutEnds(1, 0, Answered));
    var last := [PutEnds(0, 0, Answered)] + [];
    var puts := [PutEnds(1, 0, Answered)] + last;
    assert !Idle(s3.flights[0]);
    Prepend(s5, PutEnds(0, 0, Answered), []);
    Prepend(s4, PutEnds(1, 0, Answered), last);
    Prepend(s3, Begin, puts);
    StillOverlapping(s2, Append(0, 2), [Begin] + puts);
    StillOverlapping(s1, Begin, [Append(0, 2)] + ([Begin] + puts));
    StillOverlapping(s, Append(0, 1), [Begin] + ([Append(0, 2)] + ([Begin] + puts)));
    assert [Append(0, 1)] + ([Begin] + ([Append(0, 2)] + ([Begin] + puts))) == es;
  }

  lemma StillOverlapping(s: State, e: Event, es: seq<Event>)
    requires Enabled(s, e) && IsRun(Step(s, e), es) && !Sequential(Step(s, e), es)
    ensures IsRun(s, [e] + es) && After(s, [e] + es) == After(Step(s, e), es)
    ensures !Sequential(s, [e] + es)
  {
    Prepend(s, e, es);
    assert ([e] + es)[1..] == es;
  }
}
