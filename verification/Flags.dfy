/** Counting over the first n outcomes of a sequence of yes/no answers. */
module Flags {

  function CountTrue(f: nat -> bool, n: nat): (c: nat)
    ensures c <= n
  {
    if n == 0 then 0 else CountTrue(f, n - 1) + (if f(n - 1) then 1 else 0)
  }

  /** The answers are all yes up to some point and all no from there on. */
  ghost predicate YesThenNo(f: nat -> bool, n: nat) {
    forall i: nat, j: nat :: i < j < n && f(j) ==> f(i)
  }

  lemma {:induction false} CountAll(f: nat -> bool, n: nat)
    ensures CountTrue(f, n) == n <==> forall i: nat :: i < n ==> f(i)
  {
    if n > 0 {
      CountAll(f, n - 1);
    }
  }

  lemma {:induction false} CountPrefix(f: nat -> bool, n: nat, q: nat)
    requires q <= n
    requires forall i: nat :: i < n ==> (f(i) <==> i < q)
    ensures CountTrue(f, n) == q
  {
    if n > 0 {
      CountPrefix(f, n - 1, if q < n then q else n - 1);
    }
  }

  /** Taking the first CountTrue(f, n) positions selects exactly the yes positions
      if and only if every yes precedes every no. */
  lemma {:induction false} PrefixIff(f: nat -> bool, n: nat)
    ensures (forall i: nat :: i < n ==> (f(i) <==> i < CountTrue(f, n))) <==> YesThenNo(f, n)
  {
    if YesThenNo(f, n) {
      var q := FirstNo(f, n);
      CountPrefix(f, n, q);
    }
  }

  lemma {:induction false} FirstNo(f: nat -> bool, n: nat) returns (q: nat)
    requires YesThenNo(f, n)
    ensures q <= n && forall i: nat :: i < n ==> (f(i) <==> i < q)
  {
    if n == 0 {
      q := 0;
    } else {
      q := FirstNo(f, n - 1);
      if f(n - 1) {
        q := n;
      }
    }
  }

  lemma {:induction false} CountAgrees(f: nat -> bool, g: nat -> bool, n: nat)
    requires forall i: nat :: i < n ==> f(i) == g(i)
    ensures CountTrue(f, n) == CountTrue(g, n)
  {
    if n > 0 {
      CountAgrees(f, g, n - 1);
    }
  }

  /** Outside the yes-then-no case some yes position lies beyond the count and some no position below it. */
  lemma {:induction false} Misplaced(f: nat -> bool, n: nat) returns (yes: nat, no: nat)
    requires !YesThenNo(f, n)
    ensures no < CountTrue(f, n) <= yes < n && f(yes) && !f(no)
  {
    var q := CountTrue(f, n);
    if exists i: nat :: q <= i < n && f(i) {
      yes := var i: nat :| q <= i < n && f(i); i;
      if forall i: nat :: i < q ==> f(i) {
        CountAll(f, q);
        CountMonotone(f, q, yes);
        CountMonotone(f, yes + 1, n);
      }
      no :| no < q && !f(no);
    } else {
      // no yes beyond q, so the q yes answers are all below q: yes-then-no after all
      assert forall i: nat :: q <= i < n ==> !f(i);
      CountNone(f, q, n);
      CountAll(f, q);
      assert false;
    }
  }

  lemma {:induction false} CountMonotone(f: nat -> bool, m: nat, n: nat)
    requires m <= n
    ensures CountTrue(f, m) <= CountTrue(f, n)
  {
    if m < n {
      CountMonotone(f, m, n - 1);
    }
  }

  lemma {:induction false} CountNone(f: nat -> bool, m: nat, n: nat)
    requires m <= n && forall i: nat :: m <= i < n ==> !f(i)
    ensures CountTrue(f, n) == CountTrue(f, m)
  {
    if m < n {
      CountNone(f, m, n - 1);
    }
  }

  /** The elements of xs at the yes positions. */
  function Picks<T>(f: nat -> bool, xs: seq<T>): set<T> {
    set i: nat | i < |xs| && f(i) :: xs[i]
  }

  /** Distinct elements at the yes positions are as many as the yes answers. */
  lemma {:induction false} CountPicks<T>(f: nat -> bool, xs: seq<T>)
    requires forall i, j :: 0 <= i < j < |xs| ==> xs[i] != xs[j]
    ensures |Picks(f, xs)| == CountTrue(f, |xs|)
  {
    if xs != [] {
      var n := |xs| - 1;
      CountPicks(f, xs[..n]);
      assert Picks(f, xs) == if f(n) then Picks(f, xs[..n]) + {xs[n]} else Picks(f, xs[..n]);
    }
  }

  /** Two marked sequences of distinct elements that pick the same elements have as many yes answers. */
  lemma SamePicksSameCount<T>(f: nat -> bool, xs: seq<T>, g: nat -> bool, ys: seq<T>)
    requires forall i, j :: 0 <= i < j < |xs| ==> xs[i] != xs[j]
    requires forall i, j :: 0 <= i < j < |ys| ==> ys[i] != ys[j]
    requires Picks(f, xs) <= Picks(g, ys) && Picks(g, ys) <= Picks(f, xs)
    ensures CountTrue(f, |xs|) == CountTrue(g, |ys|)
  {
    CountPicks(f, xs);
    CountPicks(g, ys);
    assert Picks(f, xs) == Picks(g, ys);
  }
}
