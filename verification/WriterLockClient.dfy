/** universe_writer_lock as straight-line code over one lock object, and its agreement with
    the step machine of WriterLock when no other writer interferes. */
module WriterLockClient {
  import opened Prelude
  import opened WriterLock

  datatype Acquisition = Acquired(holder: Body) | HeldByAnother(reported: Body)

  /** How the with-block ends, and how the whole context manager ends. */
  datatype BodyEnd = Finished | BodyRaised(error: int)
  datatype LockEnd = Ended(body: BodyEnd) | LockHeld(reported: Body)

  function Readable(stored: Option<Body>): Option<Body> {
    if stored.Some? && stored.value.Holder? then stored else None
  }

  /** What an undisturbed acquisition leaves under the key, and what it answers. */
  function AcquireSpec(stored: Option<Body>, holder: Body, now: int, deleteFails: bool)
    : (r: (Option<Body>, Acquisition))
  {
    if stored.None? || (!Live(stored.value, now) && !deleteFails) then
      (Some(holder), Acquired(holder))
    else if stored.value.Holder? then (stored, HeldByAnother(stored.value))
    else (stored, HeldByAnother(holder))
  }

  class LockKey {
    var stored: Option<Body>

    method TryConditionalPut(holder: Body) returns (created: bool)
      modifies this
      ensures created <==> old(stored) == None
      ensures stored == if created then Some(holder) else old(stored)
    {
      created := stored.None?;
      if created { stored := Some(holder); }
    }

    method ReadExistingHolder() returns (r: Option<Body>)
      ensures r == Readable(stored)
    {
      r := None;
      if stored.Some? && stored.value.Holder? { r := stored; }
    }

    /** Best effort: a delete that fails is logged and otherwise ignored. */
    method DeleteObject(fails: bool)
      modifies this
      ensures stored == if fails then old(stored) else None
    {
      if !fails { stored := None; }
    }

    method Acquire(holder: Body, now: int, deleteFails: bool) returns (r: Acquisition)
      requires holder.Holder?
      modifies this
      ensures (stored, r) == AcquireSpec(old(stored), holder, now, deleteFails)
    {
      var created := TryConditionalPut(holder);
      if !created {
        var existing := ReadExistingHolder();
        if existing.Some? && existing.value.ttlEpoch > now {
          return HeldByAnother(existing.value);
        }
        DeleteObject(deleteFails);
        created := TryConditionalPut(holder);
        if !created {
          existing := ReadExistingHolder();
          return HeldByAnother(if existing.Some? then existing.value else holder);
        }
      }
      r := Acquired(holder);
    }

    /** The context manager around a body: the release never raises and never hides how
        the body ended; and a refused caller leaves the key as it found it. */
    method UniverseWriterLock(holder: Body, now: int, recoveryDeleteFails: bool,
                              releaseFails: bool, body: BodyEnd) returns (end: LockEnd)
      requires holder.Holder?
      modifies this
      ensures end.LockHeld? <==>
        old(stored).Some? && (Live(old(stored).value, now) || recoveryDeleteFails)
      ensures end.Ended? ==> end.body == body && stored == if releaseFails then Some(holder) else None
      ensures end.LockHeld? ==> stored == old(stored)
      ensures end.LockHeld? && old(stored).value.Holder? ==> end.reported == old(stored).value
    {
      var r := Acquire(holder, now, recoveryDeleteFails);
      if r.HeldByAnother? { return LockHeld(r.reported); }
      end := Ended(body);
      DeleteObject(releaseFails);
    }
  }

  function BodyOf(obj: Option<Stored>): Option<Body> {
    if obj.None? then None else Some(obj.value.body)
  }

  ghost predicate Agrees(t: State, w: Writer, spec: (Option<Body>, Acquisition)) {
    && w < |t.procs|
    && BodyOf(t.obj) == spec.0
    && (spec.1.Acquired? ==> Holds(t, w))
    && (spec.1.HeldByAnother? ==> t.procs[w].pc == Refused(spec.1.reported))
  }

  /** The straight-line code is one schedule of the machine: from any state in which w is
      idle there is a run of w's own steps, with the clock advancing by wait before the
      staleness test, that ends with the object and the answer AcquireSpec gives. */
  lemma SoloRunAgrees(s: State, w: Writer, ttl: int, wait: nat, deleteFails: bool)
    returns (es: seq<Event>)
    requires w < |s.procs| && s.procs[w].pc.Idle?
    ensures IsRun(s, es)
    ensures var spec := AcquireSpec(BodyOf(s.obj), Holder(w, s.now + ttl), s.now + wait, deleteFails);
      Agrees(After(s, es), w, spec)
  {
    var s1 := Step(s, Start(w, ttl));
    var s2 := Step(s1, Put(w, Answered));
    if s.obj.None? {
      Prepend(s1, Put(w, Answered), []);
      es := [Put(w, Answered)] + [];
    } else {
      es := SoloRecovery(s2, w, wait, deleteFails);
      Prepend(s1, Put(w, Answered), es);
      es := [Put(w, Answered)] + es;
    }
    Prepend(s, Start(w, ttl), es);
    es := [Start(w, ttl)] + es;
  }

  lemma SoloRecovery(s: State, w: Writer, wait: nat, deleteFails: bool) returns (es: seq<Event>)
    requires w < |s.procs| && s.procs[w].pc.Inspect? && s.obj.Some?
    ensures IsRun(s, es)
    ensures var spec := AcquireSpec(BodyOf(s.obj), Holder(w, s.procs[w].ttlEpoch), s.now + wait, deleteFails);
      Agrees(After(s, es), w, spec)
  {
    var s1 := Step(s, Get(w, true));
    var s2 := Step(s1, Tick(wait));
    var s3 := Step(s2, Decide(w));
    es := [];
    if !Live(s.obj.value.body, s.now + wait) {
      es := SoloOverride(s3, w, deleteFails);
    }
    Prepend(s2, Decide(w), es);
    es := [Decide(w)] + es;
    Prepend(s1, Tick(wait), es);
    es := [Tick(wait)] + es;
    Prepend(s, Get(w, true), es);
    es := [Get(w, true)] + es;
  }

  lemma SoloOverride(s: State, w: Writer, deleteFails: bool) returns (es: seq<Event>)
    requires w < |s.procs| && s.procs[w].pc.Recover? && s.obj.Some? && !Live(s.obj.value.body, s.now)
    ensures IsRun(s, es)
    ensures var spec := AcquireSpec(BodyOf(s.obj), Holder(w, s.procs[w].ttlEpoch), s.now, deleteFails);
      Agrees(After(s, es), w, spec)
  {
    var s1 := Step(s, Delete(w, !deleteFails));
    var s2 := Step(s1, Put(w, Answered));
    es := [];
    if deleteFails {
      Prepend(s2, Get(w, true), []);
      es := [Get(w, true)] + [];
    }
    Prepend(s1, Put(w, Answered), es);
    es := [Put(w, Answered)] + es;
    Prepend(s, Delete(w, !deleteFails), es);
    es := [Delete(w, !deleteFails)] + es;
  }
}
