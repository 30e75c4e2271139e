/**
  The list discipline the email and document history panels share: the
  newest record goes first and the list keeps at most ten records
  (`[newItem, ...history].slice(0, 10)`).
 */
module History {
  import opened Base

  /** How many records a history keeps. */
  const Capacity: nat := 10

  function Min(a: nat, b: nat): nat {
    if a <= b then a else b
  }

  /**
    One `addToHistory`: the new record first, then the older records in
    their order, cut to the capacity.  Nothing is dropped from a list with
    room; from a list of ten only its oldest record is dropped, and a longer
    restored list keeps only its first nine.
   */
  function Prepend<T>(log: seq<T>, x: T): (r: seq<T>)
    ensures |r| == Min(|log| + 1, Capacity)
    ensures r[0] == x
    ensures r[1..] == log[..|r| - 1]
    ensures |log| < Capacity ==> r == [x] + log
    ensures |log| >= Capacity ==> r == [x] + log[..Capacity - 1]
  {
    ([x] + log)[..Min(|log| + 1, Capacity)]
  }

  /** A sequence of `addToHistory` calls, oldest call first. */
  function AddAll<T>(log: seq<T>, xs: seq<T>): seq<T>
    decreases |xs|
  {
    if xs == [] then log else AddAll(Prepend(log, xs[0]), xs[1..])
  }

  function Reverse<T>(s: seq<T>): (r: seq<T>)
    ensures |r| == |s|
  {
    if s == [] then [] else Reverse(s[1..]) + [s[0]]
  }

  lemma {:induction false} ReverseAt<T>(s: seq<T>, i: nat)
    requires i < |s|
    ensures Reverse(s)[i] == s[|s| - 1 - i]
  {
    if i < |s| - 1 {
      ReverseAt(s[1..], i);
    }
  }

  /**
    Whatever the calls, the list after them is the added records, newest
    first, followed by the list before them, cut to the capacity.
   */
  lemma {:induction false} AddAllNewestFirst<T>(log: seq<T>, xs: seq<T>)
    requires |log| <= Capacity
    ensures AddAll(log, xs) == (Reverse(xs) + log)[..Min(|xs| + |log|, Capacity)]
    decreases |xs|
  {
    if xs != [] {
      var p := Prepend(log, xs[0]);
      AddAllNewestFirst(p, xs[1..]);
      var a := Reverse(xs[1..]);
      var k := Min(|xs| + |log|, Capacity);
      assert Min(|xs[1..]| + |p|, Capacity) == k;
      assert Reverse(xs) == a + [xs[0]];
      assert AddAll(log, xs) == (a + p)[..k];
      assert k <= |a + p| && k <= |Reverse(xs) + log|;
      forall i | 0 <= i < k
        ensures (a + p)[..k][i] == (Reverse(xs) + log)[..k][i]
      {
        if i >= |a| {
          assert (a + p)[i] == p[i - |a|];
          assert (Reverse(xs) + log)[i] == ([xs[0]] + log)[i - |a|];
        }
      }
    }
  }

  /** However many records are added, the list never holds more than the capacity. */
  lemma AddAllBounded<T>(log: seq<T>, xs: seq<T>)
    requires |log| <= Capacity
    ensures |AddAll(log, xs)| == Min(|xs| + |log|, Capacity) <= Capacity
  {
    AddAllNewestFirst(log, xs);
  }

  /**
    Starting from an empty list, position `i` holds the record of the
    `i`-th most recent call, for the ten most recent calls.
   */
  lemma FromEmpty<T>(xs: seq<T>, i: nat)
    requires i < Min(|xs|, Capacity)
    ensures |AddAll([], xs)| == Min(|xs|, Capacity)
    ensures AddAll([], xs)[i] == xs[|xs| - 1 - i]
  {
    AddAllNewestFirst([], xs);
    assert Reverse(xs) + [] == Reverse(xs);
    ReverseAt(xs, i);
  }

  /** Adding one more record extends the sequence of calls by that record. */
  lemma {:induction false} AddAllStep<T>(xs: seq<T>, x: T)
    ensures AddAll([], xs + [x]) == Prepend(AddAll([], xs), x)
  {
    AddAllSnoc([], xs, x);
  }

  lemma {:induction false} AddAllSnoc<T>(log: seq<T>, xs: seq<T>, x: T)
    ensures AddAll(log, xs + [x]) == Prepend(AddAll(log, xs), x)
    decreases |xs|
  {
    if xs == [] {
      assert xs + [x] == [x];
      assert [x][1..] == [];
    } else {
      assert (xs + [x])[0] == xs[0];
      assert (xs + [x])[1..] == xs[1..] + [x];
      AddAllSnoc(Prepend(log, xs[0]), xs[1..], x);
    }
  }

  /** The rendered panel: `null` for an empty list, otherwise the list. */
  function Panel<T>(log: seq<T>): (r: Option<seq<T>>)
    ensures r == None <==> |log| == 0
    ensures r.Some? ==> r.value == log
  {
    if |log| == 0 then None else Some(log)
  }
}
