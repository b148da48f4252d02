/** The set of UIDs kept as an interval set (sequence_set.cc). */
module SequenceSet {

  datatype Interval = Interval(first: nat, last: nat)

  /** The numbers of a closed interval; none when the bounds are reversed. */
  function Range(x: Interval): set<nat> { set n: nat | n <= x.last && Within(x, n) }

  predicate Within(x: Interval, n: nat) { x.first <= n <= x.last }

  /** The plain set of numbers that a list of intervals stands for. */
  function Members(v: seq<Interval>): set<nat>
  {
    if v == [] then {} else Range(v[0]) + Members(v[1..])
  }

  /** Sorted, disjoint and non-adjacent intervals, none of them empty. */
  predicate Canonical(v: seq<Interval>)
  {
    v == [] || (
      && v[0].first <= v[0].last
      && (|v| > 1 ==> v[0].last + 1 < v[1].first)
      && Canonical(v[1..]))
  }

  function Min(a: nat, b: nat): nat { if a <= b then a else b }
  function Max(a: nat, b: nat): nat { if a <= b then b else a }

  /** Joining insertion of boost::icl::interval_set: everything that overlaps or touches `x` is merged into it. */
  function Insert(v: seq<Interval>, x: Interval): seq<Interval>
  {
    if v == [] then [x]
    else if x.last + 1 < v[0].first then [x] + v
    else if v[0].last + 1 < x.first then [v[0]] + Insert(v[1..], x)
    else Insert(v[1..], Interval(Min(v[0].first, x.first), Max(v[0].last, x.last)))
  }

  /** Insertion of a possibly reversed, hence empty, interval. */
  function Push(v: seq<Interval>, x: Interval): seq<Interval>
  {
    if x.first <= x.last then Insert(v, x) else v
  }

  lemma {:induction false} InsertSpec(v: seq<Interval>, x: Interval)
    requires Canonical(v) && x.first <= x.last
    ensures Canonical(Insert(v, x))
    ensures Members(Insert(v, x)) == Members(v) + Range(x)
    ensures Insert(v, x) != []
    ensures Insert(v, x)[0].first == if v == [] then x.first else Min(v[0].first, x.first)
  {
    if v == [] {
    } else if x.last + 1 < v[0].first {
      assert ([x] + v)[1..] == v;
    } else if v[0].last + 1 < x.first {
      InsertSpec(v[1..], x);
      assert ([v[0]] + Insert(v[1..], x))[1..] == Insert(v[1..], x);
    } else {
      var hull := Interval(Min(v[0].first, x.first), Max(v[0].last, x.last));
      assert Range(hull) == Range(v[0]) + Range(x);
      InsertSpec(v[1..], hull);
    }
  }

  /** Every push keeps the canonical form and adds exactly the pushed numbers. */
  lemma PushSpec(v: seq<Interval>, x: Interval)
    requires Canonical(v)
    ensures Canonical(Push(v, x))
    ensures Members(Push(v, x)) == Members(v) + Range(x)
  {
    if x.first <= x.last { InsertSpec(v, x); }
  }

  lemma {:induction false} TailAbove(v: seq<Interval>, n: nat)
    requires Canonical(v) && v != [] && n in Members(v[1..])
    ensures n > v[0].last + 1
  {
    if n !in Range(v[1]) { TailAbove(v[1..], n); }
  }

  /** A set of numbers has only one canonical form. */
  lemma {:induction false} CanonicalUnique(a: seq<Interval>, b: seq<Interval>)
    requires Canonical(a) && Canonical(b) && Members(a) == Members(b)
    ensures a == b
  {
    if a == [] || b == [] {
      assert forall v: seq<Interval> | Canonical(v) && v != [] :: v[0].first in Members(v);
    } else {
      HeadFromMembers(a, b);
      HeadFromMembers(b, a);
      assert a[0] == b[0];
      forall n ensures n in Members(a[1..]) <==> n in Members(a) && n !in Range(a[0]) {
        if n in Members(a[1..]) { TailAbove(a, n); }
      }
      forall n ensures n in Members(b[1..]) <==> n in Members(b) && n !in Range(b[0]) {
        if n in Members(b[1..]) { TailAbove(b, n); }
      }
      assert Members(a[1..]) == Members(b[1..]);
      CanonicalUnique(a[1..], b[1..]);
      assert a == [a[0]] + a[1..] && b == [b[0]] + b[1..];
    }
  }

  lemma HeadFromMembers(a: seq<Interval>, b: seq<Interval>)
    requires Canonical(a) && Canonical(b) && Members(a) == Members(b) && a != [] && b != []
    ensures b[0].first <= a[0].first
    ensures a[0].first == b[0].first ==> a[0].last <= b[0].last
  {
    var lo := a[0].first;
    assert lo in Members(a) && lo in Members(b);
    if lo !in Range(b[0]) { TailAbove(b, lo); }
    if a[0].first == b[0].first && a[0].last > b[0].last {
      var gap := b[0].last + 1;
      assert gap in Range(a[0]);
      assert gap in Members(b);
      TailAbove(b, gap);
      assert false;
    }
  }

  lemma {:induction false} EndsAreMembers(v: seq<Interval>, i: nat)
    requires Canonical(v) && i < |v|
    ensures v[i].first <= v[i].last && v[i].first in Members(v) && v[i].last in Members(v)
  {
    if i > 0 { EndsAreMembers(v[1..], i - 1); }
  }

  // ---------------------------------------------------------------- runs of pushes

  /** The interval set after pushing the listed intervals, in order. */
  function PushAll(v: seq<Interval>, xs: seq<Interval>): seq<Interval>
  {
    if xs == [] then v else Push(PushAll(v, xs[..|xs| - 1]), xs[|xs| - 1])
  }

  lemma {:induction false} MembersAppend(a: seq<Interval>, x: Interval)
    ensures Members(a + [x]) == Members(a) + Range(x)
  {
    if a == [] {
      assert a + [x] == [x];
    } else {
      assert (a + [x])[1..] == a[1..] + [x];
      MembersAppend(a[1..], x);
    }
  }

  lemma {:induction false} PushAllSpec(v: seq<Interval>, xs: seq<Interval>)
    requires Canonical(v)
    ensures Canonical(PushAll(v, xs))
    ensures Members(PushAll(v, xs)) == Members(v) + Members(xs)
  {
    if xs != [] {
      var init := xs[..|xs| - 1];
      PushAllSpec(v, init);
      PushSpec(PushAll(v, init), xs[|xs| - 1]);
      MembersAppend(init, xs[|xs| - 1]);
      assert xs == init + [xs[|xs| - 1]];
    }
  }

  function Singles(ids: seq<nat>): seq<Interval> { seq(|ids|, i requires 0 <= i < |ids| => Interval(ids[i], ids[i])) }

  lemma {:induction false} SinglesMembers(ids: seq<nat>)
    ensures Members(Singles(ids)) == set n | n in ids
  {
    if ids != [] {
      assert Singles(ids)[1..] == Singles(ids[1..]);
      SinglesMembers(ids[1..]);
      assert ids == [ids[0]] + ids[1..];
    }
  }

  /** After any pushes of single numbers the copied list is canonical and stands for exactly the pushed numbers. */
  lemma PushedSet(ids: seq<nat>)
    ensures Canonical(PushAll([], Singles(ids)))
    ensures Members(PushAll([], Singles(ids))) == set n | n in ids
  {
    PushAllSpec([], Singles(ids));
    SinglesMembers(ids);
  }

  /** The copied list depends on the set of pushed numbers only, not on order or repetition. */
  lemma PushOrderIrrelevant(ids: seq<nat>, ids': seq<nat>)
    requires (set n | n in ids) == (set n | n in ids')
    ensures PushAll([], Singles(ids)) == PushAll([], Singles(ids'))
  {
    PushedSet(ids);
    PushedSet(ids');
    CanonicalUnique(PushAll([], Singles(ids)), PushAll([], Singles(ids')));
  }

  /** Assigning a copy of a set to a set restores it if and only if the target held nothing else; the assignment
      operator adds to its target and does not clear it. */
  lemma AssignRestores(target: seq<Interval>, copied: seq<Interval>)
    requires Canonical(target) && Canonical(copied)
    ensures PushAll(target, copied) == copied <==> Members(target) <= Members(copied)
  {
    PushAllSpec(target, copied);
    if Members(target) <= Members(copied) {
      assert Members(PushAll(target, copied)) == Members(copied);
      CanonicalUnique(PushAll(target, copied), copied);
    }
  }

  // ---------------------------------------------------------------- the class

  class SequenceSet {
    var intervals: seq<Interval>

    ghost predicate Valid() reads this { Canonical(intervals) }

    ghost function Numbers(): set<nat> reads this { Members(intervals) }

    constructor ()
      ensures Valid() && Numbers() == {}
    {
      intervals := [];
    }

    method PushId(id: nat)
      requires Valid()
      modifies this
      ensures Valid() && Numbers() == old(Numbers()) + {id}
    {
      PushSpec(intervals, Interval(id, id));
      assert Range(Interval(id, id)) == {id};
      intervals := Push(intervals, Interval(id, id));
    }

    method PushRange(first: nat, last: nat)
      requires Valid()
      modifies this
      ensures Valid() && intervals == Push(old(intervals), Interval(first, last))
      ensures Numbers() == old(Numbers()) + Range(Interval(first, last))
    {
      PushSpec(intervals, Interval(first, last));
      intervals := Push(intervals, Interval(first, last));
    }

    /** Fills a vector by walking over the intervals. */
    method Copy() returns (v: seq<Interval>)
      requires Valid()
      ensures v == intervals && Canonical(v) && Members(v) == Numbers()
    {
      v := [];
      for i := 0 to |intervals|
        invariant v == intervals[..i]
      {
        v := v + [Interval(intervals[i].first, intervals[i].last)];
      }
      assert v == intervals;
    }

    /** The number of intervals, not of numbers. */
    method Size() returns (n: nat)
      requires Valid()
      ensures n == |intervals| && (n == 0 <==> Numbers() == {})
    {
      n := |intervals|;
      if n > 0 { assert intervals[0].first in Range(intervals[0]); }
    }

    method Empty() returns (b: bool)
      requires Valid()
      ensures b <==> Numbers() == {}
    {
      var n := Size();
      b := n == 0;
    }

    method Clear()
      modifies this
      ensures Valid() && Numbers() == {}
    {
      intervals := [];
    }

    /** The assignment from a vector: pushes every pair, without clearing first. */
    method Assign(v: seq<Interval>)
      requires Valid()
      modifies this
      ensures Valid() && Numbers() == old(Numbers()) + Members(v)
      ensures old(Numbers()) == {} && Canonical(v) ==> intervals == v
    {
      ghost var before := intervals;
      for i := 0 to |v|
        invariant Canonical(intervals) && intervals == PushAll(before, v[..i])
      {
        PushSpec(intervals, v[i]);
        assert v[..i + 1][..i] == v[..i];
        PushRange(v[i].first, v[i].last);
      }
      assert v[..|v|] == v;
      PushAllSpec(before, v);
      if Members(before) == {} && Canonical(v) { AssignRestores(before, v); }
    }
  }
}
