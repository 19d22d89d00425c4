/** The single-writer lock of src/krepis/locks.py: one S3 object, created by a
    conditional PUT, recovered by read / judge / delete / PUT when it looks stale,
    and removed by an unconditional delete on release.

    Every S3 request is one atomic step; any number of writers interleave, each may
    die between two requests, and a clock read by all of them never runs backwards.
    Versions are bookkeeping the code cannot see: they tell two objects stored one
    after the other under the same key apart. */
module WriterLock {
  import opened Prelude

  type Writer = nat

  /** The stored body: what LockHolder.from_json reads, or something it cannot read. */
  datatype Body = Holder(writer: Writer, ttlEpoch: int) | Malformed

  datatype Stored = Stored(version: nat, body: Body)

  /** Where one call of universe_writer_lock stands. */
  datatype Pc =
    | Idle
    | FirstPut                      // holder built, first conditional PUT comes next
    | Inspect                       // refused once, the read comes next
    | Judge(seen: Option<Stored>)   // read answered, the staleness test comes next
    | Recover(seen: Option<Stored>) // judged not held, the delete comes next
    | SecondPut
    | InspectAgain                  // refused twice, one more read and then the error
    | InBody(version: nat)
    | Leaving(version: nat)         // body finished, the release delete comes next
    | Refused(reported: Body)       // LockHeldByAnotherWriterError
    | Released
    | Failed                        // a request raised, or the process died

  datatype Proc = Proc(pc: Pc, ttlEpoch: int)

  datatype State = State(obj: Option<Stored>, nextVersion: nat, now: int, procs: seq<Proc>)

  datatype Event =
    | Start(w: Writer, ttlSeconds: int)
    | Put(w: Writer, reply: PutReply)
    | Get(w: Writer, answered: bool)
    | Decide(w: Writer)
    | Delete(w: Writer, lands: bool)
    | Leave(w: Writer)
    | Release(w: Writer, lands: bool)
    | Die(w: Writer)
    | Tick(seconds: nat)
    | Purge                         // the bucket's lifecycle rule

  /** The staleness test: only a readable body whose ttl_epoch lies ahead is respected. */
  predicate Live(body: Body, now: int) { body.Holder? && body.ttlEpoch > now }

  predicate Final(pc: Pc) { pc.Refused? || pc.Released? || pc.Failed? }

  predicate Enabled(s: State, e: Event) {
    match e
    case Tick(_) => true
    case Purge => true
    case _ =>
      && e.w < |s.procs|
      && var pc := s.procs[e.w].pc;
      match e
      case Start(_, _) => pc.Idle?
      case Put(_, _) => pc.FirstPut? || pc.SecondPut?
      case Get(_, _) => pc.Inspect? || pc.InspectAgain?
      case Decide(_) => pc.Judge?
      case Delete(_, _) => pc.Recover?
      case Leave(_) => pc.InBody?
      case Release(_, _) => pc.Leaving?
      case Die(_) => !Final(pc)
  }

  function At(s: State, w: Writer, pc: Pc): State
    requires w < |s.procs|
  {
    s.(procs := s.procs[w := s.procs[w].(pc := pc)])
  }

  function Created(s: State, w: Writer): Option<Stored>
    requires w < |s.procs|
  {
    Some(Stored(s.nextVersion, Holder(w, s.procs[w].ttlEpoch)))
  }

  function StepPut(s: State, w: Writer, reply: PutReply): State
    requires Enabled(s, Put(w, reply))
  {
    if reply.RaisedBeforeLanding? then At(s, w, Failed)
    else if s.obj.Some? then
      At(s, w, if reply.RaisedAfterLanding? then Failed
               else if s.procs[w].pc.FirstPut? then Inspect else InspectAgain)
    else
      At(s, w, if reply.Answered? then InBody(s.nextVersion) else Failed)
      .(obj := Created(s, w), nextVersion := s.nextVersion + 1)
  }

  /** The second read only names somebody in the error: the object that beat this
      writer if it is readable, else this writer's own holder as a placeholder. */
  function StepGet(s: State, w: Writer, answered: bool): State
    requires Enabled(s, Get(w, answered))
  {
    if !answered then At(s, w, Failed)
    else if s.procs[w].pc.Inspect? then At(s, w, Judge(s.obj))
    else if s.obj.Some? && s.obj.value.body.Holder? then At(s, w, Refused(s.obj.value.body))
    else At(s, w, Refused(Holder(w, s.procs[w].ttlEpoch)))
  }

  function Step(s: State, e: Event): State
    requires Enabled(s, e)
  {
    match e
    case Start(w, ttl) => s.(procs := s.procs[w := Proc(FirstPut, s.now + ttl)])
    case Put(w, reply) => StepPut(s, w, reply)
    case Get(w, answered) => StepGet(s, w, answered)
    case Decide(w) =>
      var seen := s.procs[w].pc.seen;
      At(s, w, if seen.Some? && Live(seen.value.body, s.now) then Refused(seen.value.body)
               else Recover(seen))
    case Delete(w, lands) => At(s, w, SecondPut).(obj := if lands then None else s.obj)
    case Leave(w) => At(s, w, Leaving(s.procs[w].pc.version))
    case Release(w, lands) => At(s, w, Released).(obj := if lands then None else s.obj)
    case Die(w) => At(s, w, Failed)
    case Tick(seconds) => s.(now := s.now + seconds)
    case Purge => s.(obj := None)
  }

  ghost predicate IsRun(s: State, es: seq<Event>)
    decreases |es|
  {
    es == [] || (Enabled(s, es[0]) && IsRun(Step(s, es[0]), es[1..]))
  }

  ghost function After(s: State, es: seq<Event>): State
    requires IsRun(s, es)
    decreases |es|
  {
    if es == [] then s else After(Step(s, es[0]), es[1..])
  }

  /** Nobody has called yet; the key may already hold anything at all. */
  ghost predicate Init(s: State) {
    && (forall w :: 0 <= w < |s.procs| ==> s.procs[w].pc.Idle?)
    && (s.obj.Some? ==> s.obj.value.version < s.nextVersion)
  }

  /** w is inside the with-block, or past it with its release still to land. */
  ghost predicate Holds(s: State, w: int) {
    0 <= w < |s.procs| && (s.procs[w].pc.InBody? || s.procs[w].pc.Leaving?)
  }

  ghost predicate Exclusive(s: State) {
    forall a, b :: Holds(s, a) && Holds(s, b) ==> a == b
  }

  /** First condition: whoever holds the lock is still short of its own ttl_epoch. */
  ghost predicate Timely(s: State) {
    forall w :: Holds(s, w) ==> s.now < s.procs[w].ttlEpoch
  }

  /** Second condition: a recovery delete removes nothing, or the very version its read
      returned; and the lifecycle rule only removes what the staleness test rejects. */
  ghost predicate Clean(s: State, e: Event)
    requires Enabled(s, e)
  {
    match e
    case Delete(w, lands) =>
      lands && s.obj.Some? ==>
        s.procs[w].pc.seen.Some? && s.procs[w].pc.seen.value.version == s.obj.value.version
    case Purge => s.obj.Some? ==> !Live(s.obj.value.body, s.now)
    case _ => true
  }

  ghost predicate Disciplined(s: State, es: seq<Event>)
    requires IsRun(s, es)
    decreases |es|
  {
    Timely(s) && (es != [] ==> Clean(s, es[0]) && Disciplined(Step(s, es[0]), es[1..]))
  }

  /** What a writer remembers of its read is still what that version says. */
  ghost predicate Remembers(s: State, seen: Option<Stored>) {
    seen.Some? ==>
      && seen.value.version < s.nextVersion
      && (s.obj.Some? && s.obj.value.version == seen.value.version ==> s.obj == seen)
  }

  /** Every holder's object is the stored one. */
  ghost predicate Owned(s: State) {
    && (s.obj.Some? ==> s.obj.value.version < s.nextVersion)
    && forall w :: Holds(s, w) ==>
         s.obj == Some(Stored(s.procs[w].pc.version, Holder(w, s.procs[w].ttlEpoch)))
  }

  /** What a recovering writer has read is what it read, and was judged as it must be. */
  ghost predicate Recollects(s: State, pc: Pc) {
    && (pc.Judge? ==> Remembers(s, pc.seen))
    && (pc.Recover? ==> Remembers(s, pc.seen) && (pc.seen.Some? ==> !Live(pc.seen.value.body, s.now)))
  }

  ghost predicate Recollected(s: State) {
    forall w :: 0 <= w < |s.procs| ==> Recollects(s, s.procs[w].pc)
  }

  ghost predicate Inv(s: State) { Owned(s) && Recollected(s) }

  /** A clean recovery delete, or purge, finds nobody holding the lock. */
  lemma CleanRemovalFindsNobody(s: State, e: Event)
    requires Inv(s) && Timely(s) && Enabled(s, e) && Clean(s, e)
    requires e.Purge? || (e.Delete? && e.lands)
    ensures forall h :: !Holds(s, h)
  {
    forall h | Holds(s, h) ensures false {
      assert s.obj == Some(Stored(s.procs[h].pc.version, Holder(h, s.procs[h].ttlEpoch)));
      assert Live(s.obj.value.body, s.now);
    }
  }

  lemma OneHolder(s: State)
    requires Inv(s)
    ensures Exclusive(s)
  {
  }

  lemma OwnedStep(s: State, e: Event)
    requires Owned(s) && Enabled(s, e)
    requires e.Purge? || (e.Delete? && e.lands) ==> forall h :: !Holds(s, h)
    ensures Owned(Step(s, e))
  {
    var s' := Step(s, e);
    forall w | Holds(s', w)
      ensures s'.obj == Some(Stored(s'.procs[w].pc.version, Holder(w, s'.procs[w].ttlEpoch)))
    {
      if Holds(s, w) {
        assert s.obj == Some(Stored(s.procs[w].pc.version, Holder(w, s.procs[w].ttlEpoch)));
      }
    }
  }

  lemma RemembersStep(s: State, e: Event, seen: Option<Stored>)
    requires Owned(s) && Enabled(s, e) && Remembers(s, seen)
    ensures Remembers(Step(s, e), seen)
  {
  }

  lemma RecollectsStep(s: State, e: Event, w: Writer)
    requires Owned(s) && Enabled(s, e) && w < |s.procs| && Recollects(s, s.procs[w].pc)
    ensures Recollects(Step(s, e), Step(s, e).procs[w].pc)
  {
    var pc := s.procs[w].pc;
    if pc.Judge? || pc.Recover? { RemembersStep(s, e, pc.seen); }
  }

  lemma RecollectedStep(s: State, e: Event)
    requires Inv(s) && Enabled(s, e)
    ensures Recollected(Step(s, e))
  {
    var s' := Step(s, e);
    forall w | 0 <= w < |s'.procs|
      ensures Recollects(s', s'.procs[w].pc)
    {
      assert Recollects(s, s.procs[w].pc);
      RecollectsStep(s, e, w);
    }
  }

  lemma StepKeepsInv(s: State, e: Event)
    requires Inv(s) && Timely(s) && Enabled(s, e) && Clean(s, e)
    ensures Inv(Step(s, e))
  {
    if e.Purge? || (e.Delete? && e.lands) {
      CleanRemovalFindsNobody(s, e);
    }
    OwnedStep(s, e);
    RecollectedStep(s, e);
  }

  /** Mutual exclusion over every disciplined run of any number of writers, with crashes,
      lost replies and failed deletes: at most one holder, and the stored object is its. */
  lemma {:induction false} MutualExclusion(s: State, es: seq<Event>)
    requires Inv(s) && IsRun(s, es) && Disciplined(s, es)
    ensures Inv(After(s, es)) && Exclusive(After(s, es))
    ensures forall w :: Holds(After(s, es), w) ==>
      After(s, es).obj == Some(Stored(After(s, es).procs[w].pc.version,
                                      Holder(w, After(s, es).procs[w].ttlEpoch)))
    decreases |es|
  {
    if es != [] {
      StepKeepsInv(s, es[0]);
      MutualExclusion(Step(s, es[0]), es[1..]);
    }
  }

  /** ... in particular from every initial state, whatever the key holds beforehand. */
  lemma MutualExclusionFromInit(s: State, es: seq<Event>)
    requires Init(s) && IsRun(s, es) && Disciplined(s, es)
    ensures Exclusive(After(s, es))
  {
    MutualExclusion(s, es);
  }

  /** Exactly when a recovery delete that lands breaks exclusion: its own second PUT puts
      two writers inside iff somebody holds the lock when the delete lands. */
  lemma RecoveryBreaksExclusionIff(s: State, w: Writer)
    requires Inv(s) && w < |s.procs| && s.procs[w].pc.Recover?
    ensures !Exclusive(Step(Step(s, Delete(w, true)), Put(w, Answered)))
            <==> exists h :: Holds(s, h)
  {
    var s1 := Step(s, Delete(w, true));
    var s2 := Step(s1, Put(w, Answered));
    assert Holds(s2, w);
    forall h | h != w ensures Holds(s2, h) <==> Holds(s, h) {}
    if h :| Holds(s, h) {
      assert Holds(s2, h) && h != w;
    }
  }

  // ── exactly which removals are harmless ──

  /** The steps that remove the object: a recovery delete or a release that lands, the
      lifecycle rule. */
  predicate Removes(s: State, e: Event) {
    s.obj.Some? && (e.Purge? || ((e.Delete? || e.Release?) && e.lands))
  }

  /** Somebody other than the writer that is just releasing holds the lock. */
  ghost predicate OthersHold(s: State, e: Event) {
    exists h :: Holds(s, h) && !(e.Release? && h == e.w)
  }

  ghost predicate Harmless(s: State, e: Event) { Removes(s, e) ==> !OthersHold(s, e) }

  ghost predicate AllHarmless(s: State, es: seq<Event>)
    requires IsRun(s, es)
    decreases |es|
  {
    es != [] ==> Harmless(s, es[0]) && AllHarmless(Step(s, es[0]), es[1..])
  }

  lemma HarmlessStepKeepsOwned(s: State, e: Event)
    requires Owned(s) && Enabled(s, e) && Harmless(s, e)
    ensures Owned(Step(s, e))
  {
    if s.obj.None? {
      forall h
        ensures !Holds(s, h)
      {
      }
    }
    OwnedStep(s, e);
  }

  /** Mutual exclusion over every run whose removals are harmless, with no assumption on
      clocks, ttls or what the readers saw. */
  lemma {:induction false} HarmlessRunExcludes(s: State, es: seq<Event>)
    requires (Init(s) || Owned(s)) && IsRun(s, es) && AllHarmless(s, es)
    ensures Owned(After(s, es)) && Exclusive(After(s, es))
    decreases |es|
  {
    if es != [] {
      HarmlessStepKeepsOwned(s, es[0]);
      HarmlessRunExcludes(Step(s, es[0]), es[1..]);
    }
  }

  /** The two conditions make every removal harmless, so that theorem covers the other. */
  lemma {:induction false} DisciplinedIsHarmless(s: State, es: seq<Event>)
    requires Inv(s) && IsRun(s, es) && Disciplined(s, es)
    ensures AllHarmless(s, es)
    decreases |es|
  {
    if es != [] {
      DisciplinedStepIsHarmless(s, es[0]);
      StepKeepsInv(s, es[0]);
      DisciplinedIsHarmless(Step(s, es[0]), es[1..]);
    }
  }

  lemma DisciplinedStepIsHarmless(s: State, e: Event)
    requires Inv(s) && Timely(s) && Enabled(s, e) && Clean(s, e)
    ensures Harmless(s, e)
  {
    if Removes(s, e) {
      if e.Release? {
        OneHolder(s);
        assert Holds(s, e.w);
      } else {
        CleanRemovalFindsNobody(s, e);
      }
    }
  }

  /** Of all three kinds of removal alike, in any state: it lets the next writer's PUT put
      two writers inside exactly if it is not harmless. */
  lemma RemovalBreaksExclusionIff(s: State, e: Event, p: Writer)
    requires Enabled(s, e) && Removes(s, e) && Enabled(Step(s, e), Put(p, Answered))
    ensures !Exclusive(Step(Step(s, e), Put(p, Answered))) <==> !Harmless(s, e)
  {
    var s1 := Step(s, e);
    var s2 := Step(s1, Put(p, Answered));
    assert Holds(s2, p) && !Holds(s, p);
    forall h | h != p
      ensures Holds(s2, h) <==> Holds(s, h) && !(e.Release? && h == e.w)
    {
    }
    if h :| Holds(s, h) && !(e.Release? && h == e.w) {
      assert Holds(s2, h) && h != p;
    }
  }

  ghost predicate AllTimely(s: State, es: seq<Event>)
    requires IsRun(s, es)
    decreases |es|
  {
    Timely(s) && (es != [] ==> AllTimely(Step(s, es[0]), es[1..]))
  }

  ghost predicate AllClean(s: State, es: seq<Event>)
    requires IsRun(s, es)
    decreases |es|
  {
    es != [] ==> Clean(s, es[0]) && AllClean(Step(s, es[0]), es[1..])
  }

  /** Discipline is the two conditions together, each over the whole run. */
  lemma {:induction false} DisciplinedIsBoth(s: State, es: seq<Event>)
    requires IsRun(s, es)
    ensures Disciplined(s, es) <==> AllTimely(s, es) && AllClean(s, es)
    decreases |es|
  {
    if es != [] {
      DisciplinedIsBoth(Step(s, es[0]), es[1..]);
    }
  }

  lemma Prepend(s: State, e: Event, es: seq<Event>)
    requires Enabled(s, e) && IsRun(Step(s, e), es)
    ensures IsRun(s, [e] + es)
    ensures After(s, [e] + es) == After(Step(s, e), es)
    ensures AllTimely(s, [e] + es) <==> Timely(s) && AllTimely(Step(s, e), es)
    ensures AllClean(s, [e] + es) <==> Clean(s, e) && AllClean(Step(s, e), es)
  {
    assert ([e] + es)[1..] == es;
  }

  /** One step in front of a run that keeps both conditions. */
  lemma Then(s: State, e: Event, s': State, es: seq<Event>) returns (r: seq<Event>)
    requires Enabled(s, e) && Step(s, e) == s' && Timely(s) && Clean(s, e)
    requires IsRun(s', es) && AllTimely(s', es) && AllClean(s', es)
    ensures IsRun(s, r) && After(s, r) == After(s', es) && AllTimely(s, r) && AllClean(s, r)
  {
    r := [e] + es;
    Prepend(s, e, es);
  }

  /** Three writers: writer 1 is refused by writer 0, and reads only after writer 0 has
      released, so it falls through to the delete with nothing seen. */
  function Three(obj: Option<Stored>, next: nat, a: Pc, b: Pc, c: Pc): State {
    State(obj, next, 0, [Proc(a, 100), Proc(b, 100), Proc(c, 100)])
  }

  lemma ReachReadFindsNothing() returns (es: seq<Event>)
    ensures var s := Three(None, 0, Idle, Idle, Idle);
      && Init(s) && IsRun(s, es) && After(s, es) == Three(None, 1, Released, Recover(None), FirstPut)
      && AllTimely(s, es) && AllClean(s, es)
  {
    es := ReleasedThenRead();
    es := RefusedOnce(es);
    es := ThreeStart(es);
  }

  lemma ThreeStart(after: seq<Event>) returns (es: seq<Event>)
    requires var s := Three(None, 0, FirstPut, FirstPut, FirstPut);
      IsRun(s, after) && AllTimely(s, after) && AllClean(s, after)
    ensures var s := Three(None, 0, Idle, Idle, Idle);
      IsRun(s, es) && AllTimely(s, es) && AllClean(s, es)
      && After(s, es) == After(Three(None, 0, FirstPut, FirstPut, FirstPut), after)
  {
    es := after;
    es := Then(Three(None, 0, FirstPut, FirstPut, Idle), Start(2, 100),
               Three(None, 0, FirstPut, FirstPut, FirstPut), es);
    es := Then(Three(None, 0, FirstPut, Idle, Idle), Start(1, 100),
               Three(None, 0, FirstPut, FirstPut, Idle), es);
    es := Then(Three(None, 0, Idle, Idle, Idle), Start(0, 100),
               Three(None, 0, FirstPut, Idle, Idle), es);
  }

  lemma RefusedOnce(es: seq<Event>) returns (r: seq<Event>)
    requires var s := Three(Some(Stored(0, Holder(0, 100))), 1, InBody(0), Inspect, FirstPut);
      IsRun(s, es) && AllTimely(s, es) && AllClean(s, es)
    ensures var s := Three(Some(Stored(0, Holder(0, 100))), 1, InBody(0), Inspect, FirstPut);
      var s' := Three(None, 0, FirstPut, FirstPut, FirstPut);
      IsRun(s', r) && AllTimely(s', r) && AllClean(s', r) && After(s', r) == After(s, es)
  {
    var held := Some(Stored(0, Holder(0, 100)));
    r := Then(Three(held, 1, InBody(0), FirstPut, FirstPut), Put(1, Answered),
              Three(held, 1, InBody(0), Inspect, FirstPut), es);
    r := Then(Three(None, 0, FirstPut, FirstPut, FirstPut), Put(0, Answered),
              Three(held, 1, InBody(0), FirstPut, FirstPut), r);
  }

  lemma ReleasedThenRead() returns (es: seq<Event>)
    ensures var s := Three(Some(Stored(0, Holder(0, 100))), 1, InBody(0), Inspect, FirstPut);
      && IsRun(s, es) && AllTimely(s, es) && AllClean(s, es)
      && After(s, es) == Three(None, 1, Released, Recover(None), FirstPut)
  {
    var held := Some(Stored(0, Holder(0, 100)));
    es := [];
    es := Then(Three(None, 1, Released, Judge(None), FirstPut), Decide(1),
               Three(None, 1, Released, Recover(None), FirstPut), es);
    es := Then(Three(None, 1, Released, Inspect, FirstPut), Get(1, true),
               Three(None, 1, Released, Judge(None), FirstPut), es);
    es := Then(Three(held, 1, Leaving(0), Inspect, FirstPut), Release(0, true),
               Three(None, 1, Released, Inspect, FirstPut), es);
    es := Then(Three(held, 1, InBody(0), Inspect, FirstPut), Leave(0),
               Three(held, 1, Leaving(0), Inspect, FirstPut), es);
  }

  /** The second condition is needed: from the state just reached, with every holder far
      short of its ttl, writer 2 takes the lock, writer 1's delete removes writer 2's fresh
      object (locks.py:283-295), and both end up inside. */
  lemma TwoHoldersWithoutCleanRecovery()
    ensures var s := Three(None, 1, Released, Recover(None), FirstPut);
      var es := [Put(2, Answered), Delete(1, true), Put(1, Answered)];
      && IsRun(s, es) && AllTimely(s, es) && !AllClean(s, es)
      && Holds(After(s, es), 1) && Holds(After(s, es), 2)
  {
    var s := Three(None, 1, Released, Recover(None), FirstPut);
    var s1 := Step(s, Put(2, Answered));
    var s2 := Step(s1, Delete(1, true));
    Prepend(s2, Put(1, Answered), []);
    Prepend(s1, Delete(1, true), [Put(1, Answered)] + []);
    Prepend(s, Put(2, Answered), [Delete(1, true)] + ([Put(1, Answered)] + []));
    assert [Put(2, Answered)] + ([Delete(1, true)] + ([Put(1, Answered)] + []))
        == [Put(2, Answered), Delete(1, true), Put(1, Answered)];
  }

  /** The first condition is needed: a clean run in which writer 0, inside when its ttl
      runs out, is judged stale and loses the object under it. */
  lemma TwoHoldersWithoutTimelyRelease() returns (es: seq<Event>)
    ensures var s := Two(None, 0, 0, Idle, Idle);
      && Init(s) && IsRun(s, es) && AllClean(s, es)
      && Holds(After(s, es), 0) && Holds(After(s, es), 1)
  {
    var held := Some(Stored(0, Holder(0, 5)));
    es := Overstay();
    es := ThenClean(Two(held, 1, 0, InBody(0), FirstPut), Tick(5),
                    Two(held, 1, 5, InBody(0), FirstPut), es);
    es := ThenClean(Two(held, 1, 0, InBody(0), Idle), Start(1, 5),
                    Two(held, 1, 0, InBody(0), FirstPut), es);
    es := ThenClean(Two(None, 0, 0, FirstPut, Idle), Put(0, Answered),
                    Two(held, 1, 0, InBody(0), Idle), es);
    es := ThenClean(Two(None, 0, 0, Idle, Idle), Start(0, 5),
                    Two(None, 0, 0, FirstPut, Idle), es);
  }

  function Two(obj: Option<Stored>, next: nat, now: int, a: Pc, b: Pc): State {
    State(obj, next, now, [Proc(a, 5), Proc(b, 5)])
  }

  lemma Overstay() returns (es: seq<Event>)
    ensures var s := Two(Some(Stored(0, Holder(0, 5))), 1, 5, InBody(0), FirstPut);
      && IsRun(s, es) && AllClean(s, es)
      && Holds(After(s, es), 0) && Holds(After(s, es), 1)
  {
    var held := Some(Stored(0, Holder(0, 5)));
    es := [];
    es := ThenClean(Two(None, 1, 5, InBody(0), SecondPut), Put(1, Answered),
                    Two(Some(Stored(1, Holder(1, 5))), 2, 5, InBody(0), InBody(1)), es);
    es := ThenClean(Two(held, 1, 5, InBody(0), Recover(held)), Delete(1, true),
                    Two(None, 1, 5, InBody(0), SecondPut), es);
    es := ThenClean(Two(held, 1, 5, InBody(0), Judge(held)), Decide(1),
                    Two(held, 1, 5, InBody(0), Recover(held)), es);
    es := ThenClean(Two(held, 1, 5, InBody(0), Inspect), Get(1, true),
                    Two(held, 1, 5, InBody(0), Judge(held)), es);
    es := ThenClean(Two(held, 1, 5, InBody(0), FirstPut), Put(1, Answered),
                    Two(held, 1, 5, InBody(0), Inspect), es);
  }

  lemma ThenClean(s: State, e: Event, s': State, es: seq<Event>) returns (r: seq<Event>)
    requires Enabled(s, e) && Step(s, e) == s' && Clean(s, e) && IsRun(s', es) && AllClean(s', es)
    ensures IsRun(s, r) && After(s, r) == After(s', es) && AllClean(s, r)
  {
    r := [e] + es;
    Prepend(s, e, es);
  }
}
