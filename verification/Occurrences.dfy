/** Lists read from the front, and the known elements of one in order of first occurrence. */
module Occurrences {

  datatype List<T> = Nil | Cons(head: T, tail: List<T>)

  function Append<T>(xs: List<T>, ys: List<T>): List<T> {
    match xs
    case Nil => ys
    case Cons(x, rest) => Cons(x, Append(rest, ys))
  }

  predicate In<T(==)>(x: T, xs: List<T>) { xs.Cons? && (xs.head == x || In(x, xs.tail)) }

  /** x occurs in xs, and y does not occur before it. */
  predicate Before<T(==)>(x: T, y: T, xs: List<T>) {
    xs.Cons? && (xs.head == x || (xs.head != y && Before(x, y, xs.tail)))
  }

  /** What a loop over xs appends to found: each known element not yet there. */
  function Add<T(==)>(found: seq<T>, x: T, known: set<T>): seq<T> {
    if x in known && x !in found then found + [x] else found
  }

  function AddAll<T(==)>(found: seq<T>, xs: List<T>, known: set<T>): seq<T>
    decreases xs
  {
    match xs
    case Nil => found
    case Cons(x, rest) => AddAll(Add(found, x, known), rest, known)
  }

  /** The known ones among xs, each where it first occurs. */
  function FirstKnown<T(==)>(xs: List<T>, known: set<T>): seq<T> { AddAll([], xs, known) }

  ghost predicate NoDuplicates<T>(r: seq<T>) { forall p, q :: 0 <= p < q < |r| ==> r[p] != r[q] }

  lemma {:induction false} AddAllMember<T>(found: seq<T>, xs: List<T>, known: set<T>, x: T)
    ensures x in AddAll(found, xs, known) <==> x in found || (x in known && In(x, xs))
    decreases xs
  {
    if xs.Cons? { AddAllMember(Add(found, xs.head, known), xs.tail, known, x); }
  }

  lemma {:induction false} AddAllMeaning<T>(found: seq<T>, xs: List<T>, known: set<T>)
    requires NoDuplicates(found) && forall x :: x in found ==> x in known
    ensures var r := AddAll(found, xs, known);
      && found <= r && NoDuplicates(r)
      && (forall p, q :: |found| <= p < q < |r| ==> Before(r[p], r[q], xs))
    decreases xs
  {
    if xs.Cons? {
      var more := Add(found, xs.head, known);
      AddAllMeaning(more, xs.tail, known);
      var r := AddAll(found, xs, known);
      forall p, q | |found| <= p < q < |r|
        ensures Before(r[p], r[q], xs)
      {
        AddAllMember(found, xs, known, r[q]);
        NotEarlier(found, more, r, xs.head, q, known);
      }
    }
  }

  /** What was appended later is not what the loop has just seen. */
  lemma NotEarlier<T>(found: seq<T>, more: seq<T>, r: seq<T>, x: T, q: nat, known: set<T>)
    requires more == Add(found, x, known) && more <= r && NoDuplicates(r)
    requires |found| < q < |r| && r[q] in known
    ensures r[q] != x
  {
    if more == found {
      if x in found {
        var k :| 0 <= k < |found| && found[k] == x;
        assert r[k] == x;
      }
    } else {
      assert r[|found|] == x;
    }
  }

  /** Exactly the known elements, without duplicates, in the order of first occurrence. */
  lemma FirstKnownMeaning<T>(xs: List<T>, known: set<T>)
    ensures var r := FirstKnown(xs, known);
      && NoDuplicates(r)
      && (forall x :: x in r <==> x in known && In(x, xs))
      && (forall p, q :: 0 <= p < q < |r| ==> Before(r[p], r[q], xs))
  {
    AddAllMeaning([], xs, known);
    forall x
      ensures x in FirstKnown(xs, known) <==> x in known && In(x, xs)
    {
      AddAllMember([], xs, known, x);
    }
  }

  // ── lists found at the positions of something ──

  /** All that is found at positions i up to n, in order. */
  function Gather<T>(at: nat -> List<T>, i: nat, n: nat): List<T>
    decreases n - i
  {
    if i >= n then Nil else Append(at(i), Gather(at, i + 1, n))
  }

  lemma {:induction false} GatherSkips<T>(at: nat -> List<T>, i: nat, j: nat, n: nat)
    requires i <= j <= n && forall k :: i <= k < j ==> at(k) == Nil
    ensures Gather(at, i, n) == Gather(at, j, n)
    decreases j - i
  {
    if i < j { GatherSkips(at, i + 1, j, n); }
  }

  lemma {:induction false} InAppend<T>(x: T, xs: List<T>, ys: List<T>)
    ensures In(x, Append(xs, ys)) <==> In(x, xs) || In(x, ys)
    decreases xs
  {
    if xs.Cons? { InAppend(x, xs.tail, ys); }
  }

  lemma {:induction false} GatherIn<T>(at: nat -> List<T>, i: nat, n: nat, x: T)
    ensures In(x, Gather(at, i, n)) <==> exists k :: i <= k < n && In(x, at(k))
    decreases n - i
  {
    if i < n {
      InAppend(x, at(i), Gather(at, i + 1, n));
      GatherIn(at, i + 1, n, x);
    }
  }

  lemma {:induction false} AddAllAppend<T>(found: seq<T>, xs: List<T>, ys: List<T>, known: set<T>)
    ensures AddAll(found, Append(xs, ys), known) == AddAll(AddAll(found, xs, known), ys, known)
    decreases xs
  {
    if xs.Cons? { AddAllAppend(Add(found, xs.head, known), xs.tail, ys, known); }
  }

  /** Nothing but at(i) is found from i up to j. */
  lemma GatherStep<T>(at: nat -> List<T>, i: nat, j: nat, n: nat)
    requires i < j <= n && forall k :: i < k < j ==> at(k) == Nil
    ensures Gather(at, i, n) == Append(at(i), Gather(at, j, n))
  {
    GatherSkips(at, i + 1, j, n);
  }
}
