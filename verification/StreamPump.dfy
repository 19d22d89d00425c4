/** _iter_with_idle_timeout of src/krepis/llm.py: a daemon thread pumps a provider stream into
    a queue, the consumer waits on the queue under an idle and a total deadline. Producer,
    consumer and clock interleave freely; the stream is whatever the producer's events say. */
module StreamPump {
  import opened Prelude

  datatype Message<T> = Item(value: T) | Error | Done

  /** The pump thread: in its for loop, past the except clause, past the finally clause. */
  datatype Pump = Pumping | Forwarded | Ended(failed: bool)

  datatype Consumer =
    | Starting
    | Ready                                  // at the top of the loop, or suspended in yield
    | Waiting(since: real, wait: real)       // the clock was read at since; q.get(timeout=wait)
    | Expired(since: real, till: real)       // queue.Empty was raised at till
    | Finished(outcome: Outcome)

  datatype Outcome =
    | Returned
    | Raised
    | Idle(since: real, till: real)
    | TotalExceeded(at: real)

  /** The queue is the part of log that was not taken yet. putAt, takenAt and askedAt say
      when each message was put, was dequeued, and when the wait that got it began. */
  datatype State<T> = State(
    idle: real, total: Option<real>, now: real, started: real,
    pump: Pump, produced: seq<T>, log: seq<Message<T>>, taken: nat,
    consumer: Consumer, yielded: seq<T>,
    putAt: seq<real>, takenAt: seq<real>, askedAt: seq<real>)

  datatype Event<T> =
    | Tick(d: real)
    | Produce(item: T) | Fail | Exhaust | Finish       // the pump thread
    | Start | Check | Get | Expire | Classify          // the consumer

  ghost predicate Init<T>(s: State<T>) {
    && s.pump.Pumping? && s.consumer.Starting? && s.taken == 0
    && s.produced == s.yielded == [] && s.log == []
    && s.putAt == s.takenAt == s.askedAt == []
  }

  predicate Enabled<T>(s: State<T>, e: Event<T>) {
    match e
    case Tick(d) => d >= 0.0
    case Produce(_) => s.pump.Pumping?
    case Fail => s.pump.Pumping?
    case Exhaust => s.pump.Pumping?
    case Finish => s.pump.Forwarded?
    case Start => s.consumer.Starting?
    case Check => s.consumer.Ready?
    case Get => s.consumer.Waiting? && s.taken < |s.log|
    case Expire => s.consumer.Waiting? && s.taken == |s.log| && s.now >= s.consumer.since + s.consumer.wait
    case Classify => s.consumer.Expired?
  }

  function Put<T>(s: State<T>, m: Message<T>): State<T> {
    s.(log := s.log + [m], putAt := s.putAt + [s.now])
  }

  function Take<T>(s: State<T>): State<T>
    requires Enabled(s, Get)
  {
    var m := s.log[s.taken];
    s.(taken := s.taken + 1, takenAt := s.takenAt + [s.now], askedAt := s.askedAt + [s.consumer.since],
       yielded := if m.Item? then s.yielded + [m.value] else s.yielded,
       consumer := if m.Item? then Ready else Finished(if m.Error? then Raised else Returned))
  }

  function Remaining<T>(s: State<T>): real
    requires s.total.Some?
  {
    s.total.value - (s.now - s.started)
  }

  function LookAtClock<T>(s: State<T>): Consumer {
    if s.total.None? then Waiting(s.now, s.idle)
    else if Remaining(s) <= 0.0 then Finished(TotalExceeded(s.now))
    else Waiting(s.now, if s.idle <= Remaining(s) then s.idle else Remaining(s))
  }

  function Step<T>(s: State<T>, e: Event<T>): State<T>
    requires Enabled(s, e)
  {
    match e
    case Tick(d) => s.(now := s.now + d)
    case Produce(x) => Put(s.(produced := s.produced + [x]), Item(x))
    case Fail => Put(s.(pump := Forwarded), Error)
    case Exhaust => Put(s.(pump := Ended(false)), Done)
    case Finish => Put(s.(pump := Ended(true)), Done)
    case Start => s.(started := s.now, consumer := Ready)
    case Check => s.(consumer := LookAtClock(s))
    case Get => Take(s)
    case Expire => s.(consumer := Expired(s.consumer.since, s.now))
    case Classify =>
      s.(consumer := Finished(
           if s.total.Some? && s.now - s.started >= s.total.value then TotalExceeded(s.now)
           else Idle(s.consumer.since, s.consumer.till)))
  }

  ghost predicate IsRun<T>(s: State<T>, es: seq<Event<T>>)
    decreases |es|
  {
    es != [] ==> Enabled(s, es[0]) && IsRun(Step(s, es[0]), es[1..])
  }

  ghost function After<T>(s: State<T>, es: seq<Event<T>>): State<T>
    requires IsRun(s, es)
    decreases |es|
  {
    if es == [] then s else After(Step(s, es[0]), es[1..])
  }

  /** q.get hands over a message no later than its own deadline. */
  ghost predicate Prompt<T>(s: State<T>, es: seq<Event<T>>)
    requires IsRun(s, es)
    decreases |es|
  {
    es != [] ==>
      && (es[0].Get? ==> s.now <= s.consumer.since + s.consumer.wait)
      && Prompt(Step(s, es[0]), es[1..])
  }

  // ── what the pump guarantees ──

  /** The caller sees a prefix of the stream, in order; a normal return means the whole of
      a stream that ended well; a forwarded error comes after everything produced before it. */
  ghost predicate Faithful<T>(s: State<T>) {
    && s.yielded <= s.produced
    && (s.consumer == Finished(Returned) ==> s.yielded == s.produced && s.pump == Ended(false))
    && (s.consumer == Finished(Raised) ==>
          s.yielded == s.produced && (s.pump == Forwarded || s.pump == Ended(true)))
  }

  /** The idle signal means a full idle_timeout in which nothing arrived. */
  ghost predicate IdleIsSilence<T>(s: State<T>) {
    s.consumer.Finished? && s.consumer.outcome.Idle? ==>
      var (since, till) := (s.consumer.outcome.since, s.consumer.outcome.till);
      && till - since >= s.idle
      && forall i :: 0 <= i < |s.putAt| ==> s.putAt[i] <= since || till <= s.putAt[i]
  }

  /** Nothing is waited for once the total budget is spent, and the total signal is never early. */
  ghost predicate TotalIsBound<T>(s: State<T>) {
    && (s.total.Some? ==> forall i :: 0 <= i < |s.askedAt| ==> s.askedAt[i] < s.started + s.total.value)
    && (s.consumer.Finished? && s.consumer.outcome.TotalExceeded? ==>
          s.total.Some? && s.consumer.outcome.at >= s.started + s.total.value)
  }

  ghost predicate TakenInTime<T>(s: State<T>) {
    s.total.Some? ==> forall i :: 0 <= i < |s.takenAt| ==> s.takenAt[i] <= s.started + s.total.value
  }

  // ── the invariant ──

  function Wrap<T>(xs: seq<T>): seq<Message<T>> {
    seq(|xs|, i requires 0 <= i < |xs| => Item(xs[i]))
  }

  function Tail<T>(p: Pump): seq<Message<T>> {
    match p
    case Pumping => []
    case Forwarded => [Error]
    case Ended(failed) => if failed then [Error, Done] else [Done]
  }

  ghost predicate ConsumerInv<T>(s: State<T>) {
    match s.consumer
    case Starting => s.taken == 0 && s.yielded == []
    case Ready => TakenItems(s)
    case Waiting(since, wait) =>
      && TakenItems(s) && since <= s.now
      && (s.taken == |s.log| ==> forall i :: 0 <= i < |s.putAt| ==> s.putAt[i] <= since)
      && (s.total.None? ==> wait == s.idle)
      && (s.total.Some? ==>
            var due := s.started + s.total.value;
            since < due && since + wait <= due && (wait == s.idle || since + wait == due))
    case Expired(since, till) =>
      && TakenItems(s) && till <= s.now
      && (till - since >= s.idle || (s.total.Some? && till >= s.started + s.total.value))
      && forall i :: 0 <= i < |s.putAt| ==> s.putAt[i] <= since || till <= s.putAt[i]
    case Finished(outcome) =>
      if outcome.Idle? then TakenItems(s) && outcome.till <= s.now
      else outcome.TotalExceeded? ==> TakenItems(s)
  }

  ghost predicate TakenItems<T>(s: State<T>) {
    s.taken <= |s.produced| && s.yielded == s.produced[..s.taken]
  }

  ghost predicate Inv<T>(s: State<T>) {
    && s.log == Wrap(s.produced) + Tail(s.pump)
    && s.taken <= |s.log| && |s.putAt| == |s.log|
    && (s.consumer.Starting? ==> s.askedAt == s.takenAt == [])
    && (forall i :: 0 <= i < |s.putAt| ==> s.putAt[i] <= s.now)
    && ConsumerInv(s) && Faithful(s) && IdleIsSilence(s) && TotalIsBound(s)
  }

  lemma ProducerKeepsInv<T>(s: State<T>, e: Event<T>)
    requires Inv(s) && Enabled(s, e) && (e.Produce? || e.Fail? || e.Exhaust? || e.Finish?)
    ensures Inv(Step(s, e))
  {
    var s' := Step(s, e);
    assert s'.log == Wrap(s'.produced) + Tail(s'.pump);
    assert s'.putAt == s.putAt + [s.now];
    assert s'.produced[..|s.produced|] == s.produced;
  }

  lemma GetKeepsInv<T>(s: State<T>)
    requires Inv(s) && Enabled(s, Get)
    ensures Inv(Step(s, Get))
  {
    var s' := Step(s, Get);
    if s.taken < |s.produced| {
      assert s.log[s.taken] == Item(s.produced[s.taken]);
      assert s'.yielded == s.produced[..s.taken + 1];
    } else {
      assert s.log[s.taken] == Tail<T>(s.pump)[0];
      assert s.produced[..s.taken] == s.produced;
    }
  }

  lemma StepKeepsInv<T>(s: State<T>, e: Event<T>)
    requires Inv(s) && Enabled(s, e)
    ensures Inv(Step(s, e))
  {
    match e
    case Tick(_) =>
    case Start =>
    case Check =>
    case Get => GetKeepsInv(s);
    case Expire =>
    case Classify =>
    case _ => ProducerKeepsInv(s, e);
  }

  /** Over every interleaving of producer, consumer and clock. */
  lemma {:induction false} PumpSafety<T>(s: State<T>, es: seq<Event<T>>)
    requires (Init(s) || Inv(s)) && IsRun(s, es)
    ensures var s' := After(s, es);
      Inv(s') && Faithful(s') && IdleIsSilence(s') && TotalIsBound(s')
    decreases |es|
  {
    if es != [] {
      StepKeepsInv(s, es[0]);
      PumpSafety(Step(s, es[0]), es[1..]);
    }
  }

  // ── hand-overs and the total deadline ──

  /** All hand-overs but the last came before the total deadline. */
  ghost predicate OnlyLastIsLate<T>(s: State<T>) {
    s.total.Some? ==> forall i :: 0 <= i < |s.takenAt| - 1 ==> s.takenAt[i] < s.started + s.total.value
  }

  ghost predicate TakenBefore<T>(s: State<T>, t: real) {
    forall i :: 0 <= i < |s.takenAt| ==> s.takenAt[i] <= t
  }

  /** A wait begins after every earlier hand-over, and never after the deadline. */
  ghost predicate TakenInOrder<T>(s: State<T>) {
    && TakenBefore(s, s.now) && OnlyLastIsLate(s)
    && (s.consumer.Starting? ==> s.takenAt == [])
    && (s.consumer.Waiting? ==> TakenBefore(s, s.consumer.since))
  }

  lemma StepKeepsTakenInOrder<T>(s: State<T>, e: Event<T>)
    requires Inv(s) && TakenInOrder(s) && Enabled(s, e)
    ensures TakenInOrder(Step(s, e))
  {
    if e.Get? {
      assert s.total.Some? ==> s.consumer.since < s.started + s.total.value;
    }
  }

  /** On every run, prompt or not, at most one message is handed over past the total
      deadline, and it is the last one taken. */
  lemma {:induction false} AtMostOneLate<T>(s: State<T>, es: seq<Event<T>>)
    requires (Init(s) || (Inv(s) && TakenInOrder(s))) && IsRun(s, es)
    ensures TakenInOrder(After(s, es)) && OnlyLastIsLate(After(s, es))
    decreases |es|
  {
    if es != [] {
      StepKeepsInv(s, es[0]);
      StepKeepsTakenInOrder(s, es[0]);
      AtMostOneLate(Step(s, es[0]), es[1..]);
    }
  }

  /** So nothing is taken after start + total_timeout exactly if the last message was not. */
  lemma InTimeIffLastIs<T>(s: State<T>, es: seq<Event<T>>)
    requires Init(s) && IsRun(s, es)
    ensures var s' := After(s, es);
      TakenInTime(s') <==>
      (s'.total.Some? && s'.takenAt != [] ==> s'.takenAt[|s'.takenAt| - 1] <= s'.started + s'.total.value)
  {
    AtMostOneLate(s, es);
  }

  /** After a late item the loop ends at its next look at the clock. */
  lemma LateItemEndsIt<T>(s: State<T>)
    requires Inv(s) && TakenInOrder(s) && s.consumer.Ready? && !TakenInTime(s)
    ensures Step(s, Check).consumer == Finished(TotalExceeded(s.now))
  {
  }

  /** When q.get keeps its own deadline, no item is dequeued after start + total_timeout. */
  lemma {:induction false} NothingTakenLate<T>(s: State<T>, es: seq<Event<T>>)
    requires (Init(s) || (Inv(s) && TakenInTime(s))) && IsRun(s, es) && Prompt(s, es)
    ensures TakenInTime(After(s, es))
    decreases |es|
  {
    if es != [] {
      StepKeepsInv(s, es[0]);
      NothingTakenLate(Step(s, es[0]), es[1..]);
    }
  }

  /** A wait never outlasts its deadline: there is something to take, or it expires. And the
      loop makes progress whenever the consumer is not waiting. */
  lemma NeverStuck<T>(s: State<T>)
    requires Inv(s) && !s.consumer.Finished?
    requires s.consumer.Waiting? ==> s.now >= s.consumer.since + s.consumer.wait
    ensures exists e: Event<T> :: Enabled(s, e) && (e.Start? || e.Check? || e.Get? || e.Expire? || e.Classify?)
  {
    assert Enabled(s, if s.consumer.Starting? then Start
                      else if s.consumer.Ready? then Check
                      else if s.consumer.Expired? then Classify
                      else if s.taken < |s.log| then Get else Expire);
  }

  lemma Then<T>(s: State<T>, e: Event<T>, es: seq<Event<T>>)
    requires Enabled(s, e) && IsRun(Step(s, e), es)
    ensures IsRun(s, [e] + es) && After(s, [e] + es) == After(Step(s, e), es)
  {
    assert ([e] + es)[1..] == es;
  }

  /** A message put after the deadline can be handed over: the wait began in time, the
      hand-over did not. */
  lemma LateHandOver(s: State<int>)
    requires Init(s) && s.idle == 9.0 && s.total == Some(10.0) && s.now == 0.0
    ensures var es := [Start] + ([Check] + ([Tick(20.0)] + ([Produce(7)] + ([Get] + []))));
      IsRun(s, es) && After(s, es).yielded == [7] && !TakenInTime(After(s, es))
  {
    var s1 := Step(s, Start);
    var s2 := s1.(consumer := Waiting(0.0, 9.0));
    var s3 := s2.(now := 20.0);
    var s4 := s3.(produced := [7], log := [Item(7)], putAt := [20.0]);
    var s5 := s4.(taken := 1, takenAt := [20.0], askedAt := [0.0], yielded := [7], consumer := Ready);
    assert Step(s1, Check) == s2;
    assert Step(s2, Tick(20.0)) == s3;
    HandedOverAt20(s3, s4, s5);
    Then(s2, Tick(20.0), [Produce(7)] + ([Get] + []));
    Then(s1, Check, [Tick(20.0)] + ([Produce(7)] + ([Get] + [])));
    Then(s, Start, [Check] + ([Tick(20.0)] + ([Produce(7)] + ([Get] + []))));
  }

  lemma HandedOverAt20(s: State<int>, s': State<int>, s'': State<int>)
    requires s.pump.Pumping? && s.consumer == Waiting(0.0, 9.0) && s.now == 20.0 && s.taken == 0
    requires s.produced == s.yielded == [] && s.log == [] && s.putAt == s.takenAt == s.askedAt == []
    requires s.total == Some(10.0) && s.started == 0.0
    requires s' == s.(produced := [7], log := [Item(7)], putAt := [20.0])
    requires s'' == s'.(taken := 1, takenAt := [20.0], askedAt := [0.0], yielded := [7], consumer := Ready)
    ensures IsRun(s, [Produce(7)] + ([Get] + [])) && After(s, [Produce(7)] + ([Get] + [])) == s''
    ensures !TakenInTime(s'')
  {
    assert Step(s, Produce(7)) == s';
    assert Step(s', Get) == s'';
    assert s''.takenAt[0] == 20.0;
    Then(s', Get, []);
    Then(s, Produce(7), [Get] + []);
  }

  // ── told from the run itself ──

  /** What the provider's stream delivered in a run. */
  function Delivered<T>(es: seq<Event<T>>): seq<T> {
    if es == [] then [] else (if es[0].Produce? then [es[0].item] else []) + Delivered(es[1..])
  }

  predicate RanOut<T>(es: seq<Event<T>>) { exists k :: 0 <= k < |es| && es[k].Exhaust? }

  predicate Broke<T>(es: seq<Event<T>>) { exists k :: 0 <= k < |es| && es[k].Fail? }

  lemma LaterEvents<T>(es: seq<Event<T>>)
    requires es != []
    ensures RanOut(es) <==> es[0].Exhaust? || RanOut(es[1..])
    ensures Broke(es) <==> es[0].Fail? || Broke(es[1..])
  {
    assert forall k :: 0 < k < |es| ==> es[k] == es[1..][k - 1];
    assert forall k :: 0 <= k < |es[1..]| ==> es[1..][k] == es[k + 1];
  }

  lemma {:induction false} RunDelivers<T>(s: State<T>, es: seq<Event<T>>)
    requires IsRun(s, es)
    ensures After(s, es).produced == s.produced + Delivered(es)
    decreases |es|
  {
    if es != [] { RunDelivers(Step(s, es[0]), es[1..]); }
  }

  lemma {:induction false} PumpEnds<T>(s: State<T>, es: seq<Event<T>>)
    requires IsRun(s, es)
    ensures s.pump.Pumping? ==> (After(s, es).pump == Ended(false) <==> RanOut(es))
    ensures s.pump.Pumping? ==> (After(s, es).pump in {Forwarded, Ended(true)} <==> Broke(es))
    ensures s.pump in {Forwarded, Ended(true)} ==> After(s, es).pump in {Forwarded, Ended(true)}
    ensures s.pump == Ended(false) ==> After(s, es).pump == Ended(false)
    ensures !s.pump.Pumping? ==> !RanOut(es) && !Broke(es)
    decreases |es|
  {
    if es != [] {
      LaterEvents(es);
      PumpEnds(Step(s, es[0]), es[1..]);
    }
  }

  /** Over every run the caller sees, in order, a prefix of what the stream delivered. It
      returns normally only when the stream ended by itself, and raises the provider's error
      only when the stream broke, in either case after everything that was delivered. */
  lemma CallerSeesTheStream<T>(s: State<T>, es: seq<Event<T>>)
    requires Init(s) && IsRun(s, es)
    ensures var s' := After(s, es);
      && s'.yielded <= Delivered(es)
      && (s'.consumer == Finished(Returned) ==> RanOut(es) && s'.yielded == Delivered(es))
      && (s'.consumer == Finished(Raised) ==> Broke(es) && s'.yielded == Delivered(es))
  {
    PumpSafety(s, es);
    RunDelivers(s, es);
    PumpEnds(s, es);
    assert s.produced + Delivered(es) == Delivered(es);
  }
}
