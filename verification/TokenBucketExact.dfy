/** The token bucket decided exactly: which requests are admitted, said on the trace alone. */
module TokenBucketExact {
  import opened TokenBucket

  /** The requests of a client admitted from position j of a trace up to position i. */
  function Spent(trace: seq<Request>, d: seq<bool>, j: nat, i: nat, key: string): nat
    requires j <= i <= |trace| == |d|
  {
    AdmittedOf(trace[j..i], d[j..i], key)
  }

  /** Slices and their tails. */
  lemma SliceOfTail<T>(xs: seq<T>, j: nat, i: nat)
    requires 0 < j <= i <= |xs|
    ensures xs[j..i] == xs[1..][j - 1..i - 1]
  {
    assert forall k :: 0 <= k < i - j ==> xs[j..i][k] == xs[j + k] == xs[1..][j - 1..i - 1][k];
  }

  lemma TailOfSlice<T>(xs: seq<T>, j: nat, i: nat)
    requires j < i <= |xs|
    ensures xs[j..i][0] == xs[j] && xs[j..i][1..] == xs[j + 1..i]
  {
  }

  lemma SpentShift(trace: seq<Request>, d: seq<bool>, j: nat, i: nat, key: string)
    requires 0 < j <= i <= |trace| == |d|
    ensures Spent(trace, d, j, i, key) == Spent(trace[1..], d[1..], j - 1, i - 1, key)
  {
    SliceOfTail(trace, j, i);
    SliceOfTail(d, j, i);
  }

  lemma SpentStep(trace: seq<Request>, d: seq<bool>, j: nat, i: nat, key: string)
    requires j < i <= |trace| == |d|
    ensures Spent(trace, d, j, i, key) == (if trace[j].key == key && d[j] then 1 else 0) + Spent(trace, d, j + 1, i, key)
  {
    TailOfSlice(trace, j, i);
    TailOfSlice(d, j, i);
  }

  lemma SpentHead(trace: seq<Request>, d: seq<bool>, i: nat, key: string)
    requires 0 < i <= |trace| == |d|
    ensures Spent(trace, d, 0, i, key)
         == (if trace[0].key == key && d[0] then 1 else 0) + Spent(trace[1..], d[1..], 0, i - 1, key)
  {
    SpentStep(trace, d, 0, i, key);
    SpentShift(trace, d, 1, i, key);
  }

  /** What a bucket held, with what flowed in since, pays for the requests admitted and one more. */
  predicate Pays(held: Bucket, now: real, spent: nat, rps: real) {
    spent as real + 1.0 <= held.tokens + (now - held.last) * rps
  }

  /** From the start of a trace up to position i. */
  ghost predicate PaidFromStart(s: Buckets, trace: seq<Request>, d: seq<bool>, i: nat, rps: real)
    requires i < |trace| == |d|
  {
    var key := trace[i].key;
    key in s ==> Pays(s[key], trace[i].now, Spent(trace, d, 0, i, key), rps)
  }

  /** From the request at position j, with a full bucket there. */
  ghost predicate PaidFrom(trace: seq<Request>, d: seq<bool>, j: nat, i: nat, rps: real)
    requires j <= i < |trace| == |d|
  {
    Pays(Bucket(rps, trace[j].now), trace[i].now, Spent(trace, d, j, i, trace[i].key), rps)
  }

  /** And at every request of the client from position first on. */
  ghost predicate PaidFromAll(trace: seq<Request>, d: seq<bool>, first: nat, i: nat, rps: real)
    requires i < |trace| == |d|
  {
    forall j: nat :: first <= j <= i && trace[j].key == trace[i].key ==> PaidFrom(trace, d, j, i, rps)
  }

  lemma LaterMoments(trace: seq<Request>, d: seq<bool>, i: nat, rps: real)
    requires 0 < i < |trace| == |d|
    ensures PaidFromAll(trace, d, 0, i, rps)
       <==> PaidFromAll(trace[1..], d[1..], 0, i - 1, rps) && (trace[0].key == trace[i].key ==> PaidFrom(trace, d, 0, i, rps))
  {
    forall j: nat | 0 < j <= i ensures PaidFrom(trace, d, j, i, rps) <==> PaidFrom(trace[1..], d[1..], j - 1, i - 1, rps) {
      SpentShift(trace, d, j, i, trace[i].key);
    }
    if PaidFromAll(trace, d, 0, i, rps) {
      forall j: nat | j <= i - 1 && trace[1..][j].key == trace[1..][i - 1].key ensures PaidFrom(trace[1..], d[1..], j, i - 1, rps) {
        assert PaidFrom(trace, d, j + 1, i, rps);
      }
    }
    if PaidFromAll(trace[1..], d[1..], 0, i - 1, rps) {
      forall j: nat | 0 < j <= i && trace[j].key == trace[i].key ensures PaidFrom(trace, d, j, i, rps) {
        assert PaidFrom(trace[1..], d[1..], j - 1, i - 1, rps);
      }
    }
  }

  /** A request after which no other came: its bucket is refilled and capped. */
  lemma FirstPays(s: Buckets, r: Request, rps: real)
    requires rps > 0.0 && r.created <= r.now
    ensures Admits(Refilled(s, r, rps))
       <==> (r.key in s ==> Pays(s[r.key], r.now, 0, rps)) && Pays(Bucket(rps, r.now), r.now, 0, rps)
  {
    if r.key !in s {
      FreshIsFull(r.created, r.now, rps);
    }
    assert (r.now - r.now) * rps == 0.0;
  }

  lemma FirstIff(s: Buckets, trace: seq<Request>, rps: real)
    requires rps > 0.0 && Timed(s, trace) && trace != []
    ensures var d := Decisions(s, trace, rps); d[0] <==> PaidFromStart(s, trace, d, 0, rps) && PaidFrom(trace, d, 0, 0, rps)
  {
    var d := Decisions(s, trace, rps);
    assert Spent(trace, d, 0, 0, trace[0].key) == 0;
    FirstPays(s, trace[0], rps);
  }

  /** How a first request of the same client passes the condition on. */
  lemma SameClient(s: Buckets, r: Request, spent: nat, now: real, rps: real)
    requires rps > 0.0 && r.created <= r.now && (r.key in s ==> s[r.key].last <= r.now)
    ensures r.key in After(s, r, rps)
    ensures var all := (if Admits(Refilled(s, r, rps)) then 1 else 0) + spent;
            Pays(After(s, r, rps)[r.key], now, spent, rps)
            <==> (r.key in s ==> Pays(s[r.key], now, all, rps)) && Pays(Bucket(rps, r.now), now, all, rps)
  {
    if r.key in s {
      assert (now - r.now) * rps + (r.now - s[r.key].last) * rps == (now - s[r.key].last) * rps;
    } else {
      FreshIsFull(r.created, r.now, rps);
    }
  }

  lemma DecisionsTail(s: Buckets, trace: seq<Request>, rps: real)
    requires trace != []
    ensures Decisions(s, trace, rps)[0] == Admits(Refilled(s, trace[0], rps))
    ensures Decisions(s, trace, rps)[1..] == Decisions(After(s, trace[0], rps), trace[1..], rps)
  {
  }

  lemma StartOther(s: Buckets, trace: seq<Request>, i: nat, rps: real)
    requires 0 < i < |trace| && trace[0].key != trace[i].key
    ensures var d := Decisions(s, trace, rps);
            PaidFromStart(After(s, trace[0], rps), trace[1..], d[1..], i - 1, rps) <==> PaidFromStart(s, trace, d, i, rps)
  {
    SpentHead(trace, Decisions(s, trace, rps), i, trace[i].key);
  }

  lemma StartSame(s: Buckets, trace: seq<Request>, i: nat, rps: real)
    requires rps > 0.0 && Timed(s, trace) && 0 < i < |trace| && trace[0].key == trace[i].key
    ensures var d := Decisions(s, trace, rps);
            PaidFromStart(After(s, trace[0], rps), trace[1..], d[1..], i - 1, rps)
            <==> PaidFromStart(s, trace, d, i, rps) && PaidFrom(trace, d, 0, i, rps)
  {
    var d := Decisions(s, trace, rps);
    SpentHead(trace, d, i, trace[i].key);
    DecisionsTail(s, trace, rps);
    SameClient(s, trace[0], Spent(trace[1..], d[1..], 0, i - 1, trace[i].key), trace[i].now, rps);
  }

  /** A request is admitted if and only if its bucket can pay for it and for the requests of its client
      admitted since any earlier moment: the start of the trace, with what the bucket held then, and each
      earlier request of the client, with a full bucket. A denied request thus means that the admitted ones
      since one of these moments, plus one, exceed what was there and what flowed in. */
  lemma {:induction false} AdmittedIff(s: Buckets, trace: seq<Request>, i: nat, rps: real)
    requires rps > 0.0 && Timed(s, trace) && i < |trace|
    ensures var d := Decisions(s, trace, rps); d[i] <==> PaidFromStart(s, trace, d, i, rps) && PaidFromAll(trace, d, 0, i, rps)
    decreases trace
  {
    if i == 0 {
      FirstIff(s, trace, rps);
      assert PaidFromAll(trace, Decisions(s, trace, rps), 0, 0, rps) <==> PaidFrom(trace, Decisions(s, trace, rps), 0, 0, rps);
    } else {
      DecisionsTail(s, trace, rps);
      TimedTail(s, trace, rps);
      AdmittedIff(After(s, trace[0], rps), trace[1..], i - 1, rps);
      LaterMoments(trace, Decisions(s, trace, rps), i, rps);
      if trace[0].key == trace[i].key {
        StartSame(s, trace, i, rps);
      } else {
        StartOther(s, trace, i, rps);
      }
    }
  }

  // ----- bursts -----------------------------------------------------------------------------

  /** The requests of a client. */
  function Requests(trace: seq<Request>, key: string): nat {
    if trace == [] then 0 else (if trace[0].key == key then 1 else 0) + Requests(trace[1..], key)
  }

  lemma {:induction false} SpentAtMost(trace: seq<Request>, d: seq<bool>, j: nat, i: nat, key: string)
    requires j <= i <= |trace| == |d|
    ensures Spent(trace, d, j, i, key) <= Requests(trace[j..i], key)
    decreases i - j
  {
    if j < i {
      SpentAtMost(trace, d, j + 1, i, key);
      SpentStep(trace, d, j, i, key);
      TailOfSlice(trace, j, i);
    }
  }

  lemma {:induction false} FewerLater(trace: seq<Request>, j: nat, i: nat, key: string)
    requires j <= i <= |trace|
    ensures Requests(trace[j..i], key) <= Requests(trace[..i], key)
    decreases j
  {
    if j > 0 {
      FewerLater(trace, j - 1, i, key);
      if j - 1 < i {
        TailOfSlice(trace, j - 1, i);
      }
    } else {
      assert trace[0..i] == trace[..i];
    }
  }

  /** The bucket of a client holds `rps` tokens, or will be made for its first request. */
  predicate Full(s: Buckets, key: string, rps: real) {
    key in s ==> s[key].tokens == rps
  }

  lemma FullPays(held: Bucket, now: real, spent: nat, rps: real)
    requires rps > 0.0 && held.tokens == rps && held.last <= now && spent < rps.Floor
    ensures Pays(held, now, spent, rps)
  {
    Growth(now - held.last, rps);
    assert (spent + 1) as real <= rps.Floor as real <= rps;
  }

  /** A client whose bucket is full has its next floor(rps) requests admitted, however close together. */
  lemma BurstAdmitted(s: Buckets, trace: seq<Request>, i: nat, rps: real)
    requires rps > 0.0 && Timed(s, trace) && i < |trace| && Full(s, trace[i].key, rps)
    requires Requests(trace[..i], trace[i].key) < rps.Floor
    ensures Decisions(s, trace, rps)[i]
  {
    var d, key := Decisions(s, trace, rps), trace[i].key;
    AdmittedIff(s, trace, i, rps);
    forall j: nat | j <= i && trace[j].key == key ensures PaidFrom(trace, d, j, i, rps) {
      SpentAtMost(trace, d, j, i, key);
      FewerLater(trace, j, i, key);
      FullPays(Bucket(rps, trace[j].now), trace[i].now, Spent(trace, d, j, i, key), rps);
    }
    SpentAtMost(trace, d, 0, i, key);
    FewerLater(trace, 0, i, key);
    if key in s {
      FullPays(s[key], trace[i].now, Spent(trace, d, 0, i, key), rps);
    }
  }

  /** Up to position i all requests of the client come at one moment, at which its bucket is full. */
  ghost predicate AtOnce(s: Buckets, trace: seq<Request>, i: nat, now: real)
    requires i < |trace|
  {
    && (trace[i].key in s ==> s[trace[i].key].last == now)
    && forall j: nat :: j <= i && trace[j].key == trace[i].key ==> trace[j].now == now
  }

  /** With no time passing the first floor(rps) of them are admitted and no other. */
  lemma BurstIff(s: Buckets, trace: seq<Request>, i: nat, now: real, rps: real)
    requires rps > 0.0 && Timed(s, trace) && i < |trace| && Full(s, trace[i].key, rps) && AtOnce(s, trace, i, now)
    ensures Decisions(s, trace, rps)[i] <==> Requests(trace[..i], trace[i].key) < rps.Floor
  {
    var d, key := Decisions(s, trace, rps), trace[i].key;
    if Requests(trace[..i], key) < rps.Floor {
      BurstAdmitted(s, trace, i, rps);
    } else {
      AdmittedIff(s, trace, i, rps);
      BurstSpent(s, trace, i, key, rps);
      Exhausted(s, trace, i, now, rps);
    }
  }

  /** The first floor(rps) requests of the client before position i are all admitted. */
  lemma {:induction false} BurstSpent(s: Buckets, trace: seq<Request>, i: nat, key: string, rps: real)
    requires rps > 0.0 && Timed(s, trace) && i <= |trace| && Full(s, key, rps)
    ensures var d := Decisions(s, trace, rps);
            Spent(trace, d, 0, i, key) >= if Requests(trace[..i], key) < rps.Floor then Requests(trace[..i], key) else rps.Floor
  {
    var d := Decisions(s, trace, rps);
    if i > 0 {
      BurstSpent(s, trace, i - 1, key, rps);
      SpentLast(trace, d, 0, i, key);
      if trace[i - 1].key == key && Requests(trace[..i - 1], key) < rps.Floor {
        BurstAdmitted(s, trace, i - 1, rps);
      }
    } else {
      assert trace[..0] == [];
      var floor := rps.Floor;
      assert floor >= 0;
    }
  }

  lemma {:induction false} SpentLast(trace: seq<Request>, d: seq<bool>, j: nat, i: nat, key: string)
    requires j < i <= |trace| == |d|
    ensures Spent(trace, d, j, i, key) == Spent(trace, d, j, i - 1, key) + (if trace[i - 1].key == key && d[i - 1] then 1 else 0)
    ensures Requests(trace[j..i], key) == Requests(trace[j..i - 1], key) + (if trace[i - 1].key == key then 1 else 0)
    ensures j == 0 ==> trace[j..i] == trace[..i] && trace[j..i - 1] == trace[..i - 1]
    decreases i - j
  {
    TailOfSlice(trace, j, i);
    SpentStep(trace, d, j, i, key);
    if j < i - 1 {
      SpentLast(trace, d, j + 1, i, key);
      TailOfSlice(trace, j, i - 1);
      SpentStep(trace, d, j, i - 1, key);
    } else {
      assert trace[i..i] == [] && trace[j..i - 1] == [];
    }
  }

  /** A bucket that has paid floor(rps) times and got nothing since it was full cannot pay again. */
  lemma Exhausted(s: Buckets, trace: seq<Request>, i: nat, now: real, rps: real)
    requires rps > 0.0 && i < |trace| && Full(s, trace[i].key, rps) && AtOnce(s, trace, i, now)
    requires Spent(trace, Decisions(s, trace, rps), 0, i, trace[i].key) >= rps.Floor
    ensures var d := Decisions(s, trace, rps);
            !PaidFromStart(s, trace, d, i, rps) || !PaidFromAll(trace, d, 0, i, rps)
  {
    var d, key := Decisions(s, trace, rps), trace[i].key;
    if key in s {
      EmptyPaysNot(s[key], now, Spent(trace, d, 0, i, key), rps);
    } else {
      var j := FirstOf(trace, i, key);
      SpentFromFirst(trace, d, j, i, key);
      EmptyPaysNot(Bucket(rps, now), now, Spent(trace, d, j, i, key), rps);
      assert !PaidFrom(trace, d, j, i, rps);
    }
  }

  lemma EmptyPaysNot(held: Bucket, now: real, spent: nat, rps: real)
    requires held.tokens == rps && held.last == now && spent >= rps.Floor
    ensures !Pays(held, now, spent, rps)
  {
    assert (now - held.last) * rps == 0.0;
    assert (rps.Floor + 1) as real > rps && (spent + 1) as real >= (rps.Floor + 1) as real;
  }

  /** The first request of the client of position i. */
  lemma {:induction false} FirstOf(trace: seq<Request>, i: nat, key: string) returns (j: nat)
    requires i < |trace| && trace[i].key == key
    ensures j <= i && trace[j].key == key && forall k: nat :: k < j ==> trace[k].key != key
  {
    j := 0;
    while trace[j].key != key
      invariant j <= i && forall k: nat :: k < j ==> trace[k].key != key
      decreases i - j
    {
      j := j + 1;
    }
  }

  lemma {:induction false} SpentFromFirst(trace: seq<Request>, d: seq<bool>, j: nat, i: nat, key: string)
    requires j <= i <= |trace| == |d| && forall k: nat :: k < j ==> trace[k].key != key
    ensures Spent(trace, d, 0, i, key) == Spent(trace, d, j, i, key)
    decreases j
  {
    if j > 0 {
      SpentFromFirst(trace, d, j - 1, i, key);
      SpentStep(trace, d, j - 1, i, key);
    }
  }
}
