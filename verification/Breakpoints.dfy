/** Cache breakpoints in the messages of a request (src/krepis/anthropic_payload.py): the
    in-place placement of intermediate markers and the ceiling check. */
module Breakpoints {
  import opened Prelude

  const WINDOW := 20
  const INTERVAL := 15
  const MAX_BREAKPOINTS := 4

  /** One content block and whether it carries cache_control. A block of a content list that
      is a dict can be given a marker; other blocks, and content that is not a list, cannot. */
  datatype Cell = Markable(marked: bool) | Fixed(marked: bool)

  /** The content of a message, its blocks updated in place. Content that is a string or one
      dict is one Fixed block, any other content none. */
  type Content = array<Cell>

  // ── what the pass does, on the blocks of all messages in a row ──

  /** Blocks since the last marker the pass found, this one included. */
  function Counter(cells: seq<Cell>, k: nat): nat {
    if cells == [] then k
    else if cells[|cells| - 1].marked then 0
    else Counter(cells[..|cells| - 1], k) + 1
  }

  predicate IsSlot(k: nat) { k >= WINDOW && (k - WINDOW) % INTERVAL == 0 }

  function Placed(c: Cell, k: nat): Cell { if c == Markable(false) && IsSlot(k) then Markable(true) else c }

  /** k is the counter before the first of the cells. */
  function Place(cells: seq<Cell>, k: nat): (r: seq<Cell>)
    ensures |r| == |cells|
  {
    if cells == [] then []
    else Place(cells[..|cells| - 1], k) + [Placed(cells[|cells| - 1], Counter(cells, k))]
  }

  lemma {:induction false} CounterConcat(a: seq<Cell>, b: seq<Cell>, k: nat)
    ensures Counter(a + b, k) == Counter(b, Counter(a, k))
    decreases |b|
  {
    if b == [] {
      assert a + b == a;
    } else {
      CounterConcat(a, b[..|b| - 1], k);
      assert (a + b)[..|a + b| - 1] == a + b[..|b| - 1];
    }
  }

  lemma {:induction false} PlaceConcat(a: seq<Cell>, b: seq<Cell>, k: nat)
    ensures Place(a + b, k) == Place(a, k) + Place(b, Counter(a, k))
    decreases |b|
  {
    if b == [] {
      assert a + b == a;
    } else {
      PlaceConcat(a, b[..|b| - 1], k);
      assert (a + b)[..|a + b| - 1] == a + b[..|b| - 1];
      CounterConcat(a, b, k);
    }
  }

  /** A marker that is there separates what comes before it from what comes after. */
  lemma RunsAreIndependent(a: seq<Cell>, m: Cell, b: seq<Cell>)
    requires m.marked
    ensures Place(a + [m] + b, 0) == Place(a, 0) + [m] + Place(b, 0)
  {
    PlaceConcat(a + [m], b, 0);
    PlaceConcat(a, [m], 0);
    CounterConcat(a, [m], 0);
    OneMore(m, Counter(a, 0));
  }

  /** Blocks keep their order and kind, and no marker is lost. */
  lemma {:induction false} NothingIsLost(cells: seq<Cell>)
    ensures forall i :: 0 <= i < |cells| ==>
      Place(cells, 0)[i] == cells[i] || (cells[i] == Markable(false) && Place(cells, 0)[i] == Markable(true))
  {
    if cells != [] { NothingIsLost(cells[..|cells| - 1]); }
  }

  // ── spacing ──

  predicate AllMarkable(cells: seq<Cell>) { forall i :: 0 <= i < |cells| ==> cells[i].Markable? }

  function At(cells: seq<Cell>, i: nat): nat
    requires i < |cells|
  {
    Counter(cells[..i + 1], 0)
  }

  /** Every 20 consecutive blocks contain a marker. */
  ghost predicate Spaced(cells: seq<Cell>) {
    forall w: nat :: w + WINDOW <= |cells| ==> MarkedWithin(cells, w)
  }

  predicate MarkedWithin(cells: seq<Cell>, w: nat)
    requires w + WINDOW <= |cells|
  {
    exists m :: w <= m < w + WINDOW && cells[m].marked
  }

  /** No block that cannot be marked stands at the first slot of a run, or at a later slot
      with five more unmarked blocks behind it. */
  predicate SlotsServed(cells: seq<Cell>) {
    forall i :: 0 <= i < |cells| && cells[i] == Fixed(false) && IsSlot(At(cells, i)) ==>
      At(cells, i) != WINDOW && !(i + 5 < |cells| && At(cells, i + 5) == At(cells, i) + 5)
  }

  lemma AtStep(cells: seq<Cell>, i: nat)
    requires i < |cells|
    ensures At(cells, i) == if cells[i].marked then 0 else (if i == 0 then 0 else At(cells, i - 1)) + 1
  {
    var upTo := cells[..i + 1];
    assert upTo[|upTo| - 1] == cells[i] && upTo[..|upTo| - 1] == cells[..i];
    assert Counter(upTo, 0) == if cells[i].marked then 0 else Counter(cells[..i], 0) + 1;
    if i > 0 {
      assert cells[..i] == cells[..i - 1 + 1];
    } else {
      assert cells[..i] == [] && Counter([], 0) == 0;
    }
  }

  /** The block has a marker after the pass. */
  predicate MarkedAfter(cells: seq<Cell>, i: nat)
    requires i < |cells|
  {
    cells[i].marked || (cells[i].Markable? && IsSlot(At(cells, i)))
  }

  lemma {:induction false} PlacedAt(cells: seq<Cell>, i: nat)
    requires i < |cells|
    ensures Place(cells, 0)[i].marked <==> MarkedAfter(cells, i)
  {
    if i < |cells| - 1 {
      PlacedAt(cells[..|cells| - 1], i);
      assert cells[..|cells| - 1][..i + 1] == cells[..i + 1];
    } else {
      assert cells[..i + 1] == cells;
    }
  }

  /** Along unmarked blocks the counter goes up by one each. */
  lemma {:induction false} AlongRun(cells: seq<Cell>, i: nat, n: nat)
    requires i + n < |cells| && forall j :: i < j <= i + n ==> !cells[j].marked
    ensures At(cells, i + n) == At(cells, i) + n
    decreases n
  {
    if n > 0 {
      AlongRun(cells, i, n - 1);
      AtStep(cells, i + n);
    }
  }

  /** A positive counter tells how far back the unmarked run goes. */
  lemma {:induction false} BackAlongRun(cells: seq<Cell>, i: nat, n: nat)
    requires i < |cells| && n < At(cells, i)
    ensures n <= i && !cells[i - n].marked && At(cells, i - n) == At(cells, i) - n
    decreases n
  {
    if n == 0 {
      AtStep(cells, i);
    } else {
      BackAlongRun(cells, i, n - 1);
      AtStep(cells, i - (n - 1));
      AtStep(cells, if i - (n - 1) > 0 then i - n else 0);
    }
  }

  /** The next slot at or after a counter, at most 14 steps away past the window. */
  function NextSlot(a: nat): (s: nat)
    requires a >= 1
    ensures IsSlot(s) && s >= a && (a <= WINDOW ==> s == WINDOW) && (a > WINDOW ==> s < a + INTERVAL)
  {
    if a <= WINDOW then WINDOW
    else
      var r := (a - WINDOW) % INTERVAL;
      if r == 0 then a
      else
        assert (a + (INTERVAL - r) - WINDOW) % INTERVAL == 0;
        a + (INTERVAL - r)
  }

  predicate Bare(cells: seq<Cell>, w: nat)
    requires w + WINDOW <= |cells|
  {
    forall m :: w <= m < w + WINDOW ==> !MarkedAfter(cells, m)
  }

  lemma BareIsUnmarked(cells: seq<Cell>, w: nat)
    requires w + WINDOW <= |cells|
    ensures Bare(cells, w) <==> !MarkedWithin(Place(cells, 0), w)
  {
    forall m | w <= m < w + WINDOW
      ensures Place(cells, 0)[m].marked <==> MarkedAfter(cells, m)
    {
      PlacedAt(cells, m);
    }
  }

  lemma BareWindow(cells: seq<Cell>, w: nat)
    requires w + WINDOW <= |cells| && Bare(cells, w)
    ensures !SlotsServed(cells)
  {
    forall m | w <= m < w + WINDOW
      ensures !cells[m].marked
    {
      assert !MarkedAfter(cells, m);
    }
    AtStep(cells, w);
    assert !MarkedAfter(cells, w);
    var a := At(cells, w);
    var s := NextSlot(a);
    var i := w + (s - a);
    AlongRun(cells, w, s - a);
    assert !MarkedAfter(cells, i);
    if a > WINDOW { AlongRun(cells, i, 5); }
  }

  lemma UnservedSlot(cells: seq<Cell>, i: nat) returns (w: nat)
    requires i < |cells| && cells[i] == Fixed(false) && IsSlot(At(cells, i))
    requires At(cells, i) == WINDOW || (i + 5 < |cells| && At(cells, i + 5) == At(cells, i) + 5)
    ensures w + WINDOW <= |cells| && Bare(cells, w)
  {
    var k := At(cells, i);
    var last: nat := if k == WINDOW then i else i + 5;
    assert At(cells, last) == if k == WINDOW then WINDOW else k + 5;
    BackAlongRun(cells, last, 19);
    w := last - 19;
    forall m | w <= m < w + WINDOW
      ensures !MarkedAfter(cells, m)
    {
      BackAlongRun(cells, last, last - m);
      OnlySlot(k, At(cells, m));
      assert At(cells, m) == k ==> m == i;
    }
  }

  /** Between the slots around k there is none but k. */
  lemma OnlySlot(k: nat, x: nat)
    requires IsSlot(k) && x < k + INTERVAL && (k == WINDOW || k - INTERVAL < x)
    ensures IsSlot(x) <==> x == k
  {
    if IsSlot(x) {
      assert (x - WINDOW) - (k - WINDOW) == INTERVAL * ((x - WINDOW) / INTERVAL - (k - WINDOW) / INTERVAL);
    }
  }

  /** After the pass every 20 consecutive blocks contain a marker exactly if every slot that
      matters was served; in particular when all blocks are dicts in content lists. */
  lemma SpacedIff(cells: seq<Cell>)
    ensures Spaced(Place(cells, 0)) <==> SlotsServed(cells)
    ensures AllMarkable(cells) ==> Spaced(Place(cells, 0))
  {
    if !SlotsServed(cells) {
      var i :| 0 <= i < |cells| && cells[i] == Fixed(false) && IsSlot(At(cells, i))
        && (At(cells, i) == WINDOW || (i + 5 < |cells| && At(cells, i + 5) == At(cells, i) + 5));
      var w := UnservedSlot(cells, i);
      BareIsUnmarked(cells, w);
    }
    if !Spaced(Place(cells, 0)) {
      var w: nat :| w + WINDOW <= |cells| && !MarkedWithin(Place(cells, 0), w);
      BareIsUnmarked(cells, w);
      BareWindow(cells, w);
    }
  }

  /** The input: 19 dict blocks and then a string. No marker is placed anywhere. */
  lemma StringAtTheSlot()
    ensures !Spaced(Place(Run(19) + [Fixed(false)], 0))
  {
    var cells := Run(19) + [Fixed(false)];
    RunGains(19);
    assert cells[..20] == cells && cells[..19] == Run(19);
    assert At(cells, 19) == Counter(Run(19), 0) + 1;
    SpacedIff(cells);
    assert cells[19] == Fixed(false) && IsSlot(At(cells, 19));
  }

  // ── a second pass ──

  /** Blocks since the last marker in the output, when every block can be marked. */
  function Since(k: nat): nat { if k < WINDOW then k else (k - WINDOW) % INTERVAL }

  lemma SinceStep(k: nat)
    ensures Since(k + 1) == if IsSlot(k + 1) then 0 else Since(k) + 1
    ensures Since(k) < WINDOW
  {
  }

  lemma {:induction false} CounterAfter(cells: seq<Cell>)
    requires AllMarkable(cells)
    ensures Counter(Place(cells, 0), 0) == Since(Counter(cells, 0))
  {
    if cells != [] {
      var init, last := cells[..|cells| - 1], cells[|cells| - 1];
      CounterAfter(init);
      var k := Counter(init, 0);
      var c := Placed(last, Counter(cells, 0));
      assert Place(cells, 0) == Place(init, 0) + [c];
      CounterConcat(Place(init, 0), [c], 0);
      OneMore(c, Since(k));
      SinceStep(k);
    }
  }

  lemma OneMore(c: Cell, k: nat)
    ensures Counter([c], k) == if c.marked then 0 else k + 1
    ensures Place([c], k) == [Placed(c, Counter([c], k))]
  {
    assert [c][..0] == [];
    assert Place([c], k) == Place([], k) + [Placed(c, Counter([c], k))];
  }

  /** When every block can be marked a second pass changes nothing. */
  lemma {:induction false} SecondPassIsIdle(cells: seq<Cell>)
    requires AllMarkable(cells)
    ensures Place(Place(cells, 0), 0) == Place(cells, 0)
  {
    if cells != [] {
      var init, last := cells[..|cells| - 1], cells[|cells| - 1];
      SecondPassIsIdle(init);
      CounterAfter(init);
      var k := Counter(init, 0);
      assert cells == init + [last];
      PlaceConcat(init, [last], 0);
      OneMore(last, k);
      var c := Placed(last, if last.marked then 0 else k + 1);
      PlaceConcat(Place(init, 0), [c], 0);
      OneMore(c, Since(k));
      SinceStep(k);
    }
  }

  // ── how many markers a run gains ──

  function CountMarked(cells: seq<Cell>): nat {
    if cells == [] then 0
    else CountMarked(cells[..|cells| - 1]) + if cells[|cells| - 1].marked then 1 else 0
  }

  function Gains(n: nat): nat { if n < WINDOW then 0 else 1 + (n - WINDOW) / INTERVAL }

  lemma GainsStep(n: nat)
    ensures Gains(n + 1) == Gains(n) + if IsSlot(n + 1) then 1 else 0
  {
  }

  function Run(n: nat): seq<Cell> { seq(n, _ => Markable(false)) }

  lemma CountPush(cells: seq<Cell>, c: Cell)
    ensures CountMarked(cells + [c]) == CountMarked(cells) + if c.marked then 1 else 0
  {
    assert (cells + [c])[..|cells|] == cells;
  }

  /** A run of n unmarked blocks gains no marker below 20 and 1 + floor((n - 20) / 15) from there. */
  lemma {:induction false} RunGains(n: nat)
    ensures Counter(Run(n), 0) == n && CountMarked(Place(Run(n), 0)) == Gains(n)
  {
    if n > 0 {
      RunGains(n - 1);
      assert Run(n) == Run(n - 1) + [Markable(false)];
      assert Run(n)[..n - 1] == Run(n - 1);
      PlaceConcat(Run(n - 1), [Markable(false)], 0);
      OneMore(Markable(false), n - 1);
      CountPush(Place(Run(n - 1), 0), Placed(Markable(false), n));
      GainsStep(n - 1);
    }
  }

  lemma {:induction false} CountConcat(a: seq<Cell>, b: seq<Cell>)
    ensures CountMarked(a + b) == CountMarked(a) + CountMarked(b)
    decreases |b|
  {
    if b == [] {
      assert a + b == a;
    } else {
      CountConcat(a, b[..|b| - 1]);
      assert (a + b)[..|a + b| - 1] == a + b[..|b| - 1];
    }
  }

  /** Nothing, or content that a run of unmarked blocks cannot extend across. */
  predicate EndsMarked(a: seq<Cell>) { a != [] ==> a[|a| - 1].marked }

  predicate StartsMarked(b: seq<Cell>) { b != [] ==> b[0].marked }

  lemma AfterMarker(a: seq<Cell>)
    requires EndsMarked(a)
    ensures Counter(a, 0) == 0
  {
  }

  lemma {:induction false} MarkerForgets(b: seq<Cell>, k: nat)
    requires StartsMarked(b)
    ensures Place(b, k) == Place(b, 0)
  {
    if b != [] {
      assert b == [b[0]] + b[1..];
      PlaceConcat([b[0]], b[1..], k);
      PlaceConcat([b[0]], b[1..], 0);
      OneMore(b[0], k);
      OneMore(b[0], 0);
    }
  }

  /** Wherever a maximal run of n unmarked blocks stands, it gains 0 markers below 20 and
      1 + floor((n - 20) / 15) from there, and the content around it what it gains alone. */
  lemma EveryRunGains(a: seq<Cell>, n: nat, b: seq<Cell>)
    requires EndsMarked(a) && StartsMarked(b)
    ensures Place(a + Run(n) + b, 0) == Place(a, 0) + Place(Run(n), 0) + Place(b, 0)
    ensures CountMarked(Place(a + Run(n) + b, 0))
      == CountMarked(Place(a, 0)) + Gains(n) + CountMarked(Place(b, 0))
  {
    PlaceConcat(a + Run(n), b, 0);
    PlaceConcat(a, Run(n), 0);
    AfterMarker(a);
    MarkerForgets(b, Counter(a + Run(n), 0));
    RunGains(n);
    CountConcat(Place(a, 0), Place(Run(n), 0));
    CountConcat(Place(a, 0) + Place(Run(n), 0), Place(b, 0));
  }

  /** A request with one system marker and one run of n blocks passes the ceiling after the
      pass exactly if n is below 65. */
  lemma OneRunFits(n: nat)
    ensures CountMarked([Markable(true)] + Place(Run(n), 0)) <= MAX_BREAKPOINTS <==> n < 65
  {
    RunGains(n);
    CountConcat([Markable(true)], Place(Run(n), 0));
    CountPush([], Markable(true));
    assert [] + [Markable(true)] == [Markable(true)];
  }

  // ── the code ──

  ghost function Contents(ms: seq<Content>): (r: seq<seq<Cell>>)
    reads ms
    ensures |r| == |ms| && forall i :: 0 <= i < |ms| ==> r[i] == ms[i][..]
  {
    if ms == [] then [] else Contents(ms[..|ms| - 1]) + [ms[|ms| - 1][..]]
  }

  function Concat(parts: seq<seq<Cell>>): seq<Cell> {
    if parts == [] then [] else Concat(parts[..|parts| - 1]) + parts[|parts| - 1]
  }

  /** The blocks of all messages in a row. */
  ghost function Flat(ms: seq<Content>): seq<Cell>
    reads ms
  {
    Concat(Contents(ms))
  }

  /** The pass, message by message. */
  function PlaceEach(parts: seq<seq<Cell>>): (r: seq<seq<Cell>>)
    ensures |r| == |parts|
  {
    if parts == [] then []
    else
      var init := parts[..|parts| - 1];
      PlaceEach(init) + [Place(parts[|parts| - 1], Counter(Concat(init), 0))]
  }

  lemma {:induction false} PlaceEachIsPlace(parts: seq<seq<Cell>>)
    ensures Concat(PlaceEach(parts)) == Place(Concat(parts), 0)
  {
    if parts != [] {
      var init := parts[..|parts| - 1];
      PlaceEachIsPlace(init);
      PlaceConcat(Concat(init), parts[|parts| - 1], 0);
      assert PlaceEach(parts)[..|init|] == PlaceEach(init);
    }
  }

  lemma {:induction false} PlaceEachAt(parts: seq<seq<Cell>>, i: nat)
    requires i < |parts|
    ensures PlaceEach(parts)[i] == Place(parts[i], Counter(Concat(parts[..i]), 0))
  {
    if i < |parts| - 1 {
      PlaceEachAt(parts[..|parts| - 1], i);
      assert parts[..|parts| - 1][..i] == parts[..i];
    }
  }

  lemma ConcatStep(parts: seq<seq<Cell>>, i: nat)
    requires i < |parts|
    ensures Concat(parts[..i + 1]) == Concat(parts[..i]) + parts[i]
  {
    assert parts[..i + 1][..i] == parts[..i];
  }

  /** The counter when the pass reaches part i. */
  function CounterBefore(parts: seq<seq<Cell>>, i: nat): nat
    requires i <= |parts|
  {
    Counter(Concat(parts[..i]), 0)
  }

  lemma OnePart(parts: seq<seq<Cell>>, i: nat)
    requires i < |parts|
    ensures PlaceEach(parts)[i] == Place(parts[i], CounterBefore(parts, i))
    ensures CounterBefore(parts, i + 1) == Counter(parts[i], CounterBefore(parts, i))
  {
    PlaceEachAt(parts, i);
    ConcatStep(parts, i);
    CounterConcat(Concat(parts[..i]), parts[i], 0);
  }

  /** No two messages share one content list. */
  ghost predicate Separate(ms: seq<Content>) {
    forall i, j :: 0 <= i < j < |ms| ==> ms[i] != ms[j]
  }

  /** The inner loop: one content list, from a counter to the next. */
  method SpaceBlocks(a: array<Cell>, before: nat) returns (after: nat)
    modifies a
    ensures a[..] == Place(old(a[..]), before) && after == Counter(old(a[..]), before)
  {
    ghost var was := a[..];
    after := before;
    var i := 0;
    while i < a.Length
      invariant 0 <= i <= a.Length
      invariant a[..i] == Place(was[..i], before) && after == Counter(was[..i], before)
      invariant forall j :: i <= j < a.Length ==> a[j] == was[j]
    {
      assert was[..i + 1][..i] == was[..i];
      ghost var done := a[..i];
      if a[i].marked {
        after := 0;
      } else {
        after := after + 1;
        if a[i].Markable? && after >= WINDOW && (after - WINDOW) % INTERVAL == 0 {
          a[i] := Markable(true);
        }
      }
      assert a[..i + 1] == done + [a[i]];
      i := i + 1;
    }
    assert a[..] == a[..i] && was == was[..i];
  }

  /** ensure_message_breakpoint_spacing */
  method EnsureSpacing(ms: seq<Content>, supported: bool)
    requires Separate(ms)
    modifies ms
    ensures Flat(ms) == if supported then Place(old(Flat(ms)), 0) else old(Flat(ms))
  {
    if !supported { return; }
    ghost var was := Contents(ms);
    ghost var want := PlaceEach(was);
    var counter := 0;
    var i := 0;
    while i < |ms|
      invariant 0 <= i <= |ms| && counter == CounterBefore(was, i)
      invariant forall j :: 0 <= j < i ==> ms[j][..] == want[j]
      invariant forall j :: i <= j < |ms| ==> ms[j][..] == was[j]
    {
      OnePart(was, i);
      counter := SpaceBlocks(ms[i], counter);
      i := i + 1;
    }
    assert Contents(ms) == want;
    PlaceEachIsPlace(was);
  }

  /** _count_cache_breakpoints */
  method CountBreakpoints(system: seq<Cell>, ms: seq<Content>) returns (count: nat)
    ensures count == CountMarked(system) + CountMarked(Flat(ms))
  {
    count := CountSystem(system);
    var i := 0;
    ghost var parts := Contents(ms);
    while i < |ms|
      invariant 0 <= i <= |ms|
      invariant count == CountMarked(system) + CountMarked(Concat(parts[..i]))
    {
      ConcatStep(parts, i);
      CountConcat(Concat(parts[..i]), ms[i][..]);
      var n := CountList(ms[i]);
      count := count + n;
      i := i + 1;
    }
    assert parts[..i] == parts;
  }

  method CountSystem(system: seq<Cell>) returns (count: nat)
    ensures count == CountMarked(system)
  {
    count := 0;
    var i := 0;
    while i < |system|
      invariant 0 <= i <= |system| && count == CountMarked(system[..i])
    {
      CountPush(system[..i], system[i]);
      assert system[..i + 1] == system[..i] + [system[i]];
      if system[i].marked { count := count + 1; }
      i := i + 1;
    }
    assert system[..i] == system;
  }

  method CountList(a: array<Cell>) returns (count: nat)
    ensures count == CountMarked(a[..])
  {
    count := 0;
    var i := 0;
    while i < a.Length
      invariant 0 <= i <= a.Length && count == CountMarked(a[..i])
    {
      CountPush(a[..i], a[i]);
      assert a[..i + 1] == a[..i] + [a[i]];
      if a[i].marked { count := count + 1; }
      i := i + 1;
    }
    assert a[..i] == a[..];
  }

  datatype Verdict = Accepted | PrefillWithServerTool | TooManyBreakpoints(count: nat)

  /** validate_payload */
  method ValidatePayload(system: seq<Cell>, ms: seq<Content>, serverTool: bool, endsWithAssistant: bool)
    returns (v: Verdict)
    ensures v == Accepted <==>
      !(serverTool && endsWithAssistant && ms != [])
      && CountMarked(system) + CountMarked(Flat(ms)) <= MAX_BREAKPOINTS
    ensures v == PrefillWithServerTool <==> serverTool && endsWithAssistant && ms != []
  {
    if serverTool && ms != [] && endsWithAssistant { return PrefillWithServerTool; }
    var count := CountBreakpoints(system, ms);
    v := if count > MAX_BREAKPOINTS then TooManyBreakpoints(count) else Accepted;
  }
}
