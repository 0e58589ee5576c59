/** The in-memory rate limiter: one lazily refilled token bucket per client. Time is in seconds. */
module TokenBucket {
  import Domain

  datatype Bucket = Bucket(tokens: real, last: real)

  /** A request of a client: its clock reading under the bucket's lock, and the earlier reading that
      a bucket created for it would be stamped with. */
  datatype Request = Request(key: string, created: real, now: real)

  type Buckets = map<string, Bucket>

  // ----- one bucket -------------------------------------------------------------------------

  /** The bucket when a clock reading reaches it: refilled for the elapsed time, capped at rps. */
  function Refill(b: Bucket, now: real, rps: real): Bucket {
    var tokens := b.tokens + (now - b.last) * rps;
    Bucket(if tokens > rps then rps else tokens, now)
  }

  predicate Admits(b: Bucket) {
    b.tokens >= 1.0
  }

  /** The bucket after a decision. */
  function Spend(b: Bucket): Bucket {
    if Admits(b) then b.(tokens := b.tokens - 1.0) else b
  }

  /** Refilling in two goes is refilling in one: the cap can be applied at any time in between. */
  lemma RefillComposes(b: Bucket, mid: real, now: real, rps: real)
    requires rps > 0.0 && b.last <= mid <= now
    ensures Refill(Refill(b, mid, rps), now, rps) == Refill(b, now, rps)
  {
    assert (mid - b.last) * rps + (now - mid) * rps == (now - b.last) * rps;
    Growth(now - mid, rps);
  }

  lemma Growth(elapsed: real, rps: real)
    requires rps > 0.0 && elapsed >= 0.0
    ensures elapsed * rps >= 0.0
  {
  }

  // ----- many buckets -----------------------------------------------------------------------

  function Lookup(s: Buckets, r: Request, rps: real): Bucket {
    if r.key in s then s[r.key] else Bucket(rps, r.created)
  }

  /** The bucket that decides a request. */
  function Refilled(s: Buckets, r: Request, rps: real): Bucket {
    Refill(Lookup(s, r, rps), r.now, rps)
  }

  function After(s: Buckets, r: Request, rps: real): Buckets {
    s[r.key := Spend(Refilled(s, r, rps))]
  }

  function Decisions(s: Buckets, trace: seq<Request>, rps: real): (d: seq<bool>)
    ensures |d| == |trace|
    decreases trace
  {
    if trace == [] then []
    else [Admits(Refilled(s, trace[0], rps))] + Decisions(After(s, trace[0], rps), trace[1..], rps)
  }

  /** Clock readings of one key never go back, neither within the trace nor behind its bucket. */
  ghost predicate Timed(s: Buckets, trace: seq<Request>) {
    && (forall i :: 0 <= i < |trace| ==> trace[i].created <= trace[i].now)
    && (forall i :: 0 <= i < |trace| && trace[i].key in s ==> s[trace[i].key].last <= trace[i].now)
    && (forall i, j :: 0 <= i < j < |trace| && trace[i].key == trace[j].key ==> trace[i].now <= trace[j].now)
  }

  lemma TimedTail(s: Buckets, trace: seq<Request>, rps: real)
    requires trace != [] && Timed(s, trace)
    ensures Timed(After(s, trace[0], rps), trace[1..]) && Timed(s, trace[1..])
  {
    assert forall i :: 0 <= i < |trace| - 1 ==> trace[1..][i] == trace[i + 1];
  }

  /** Keep the elements of xs whose mark is set. */
  function Marked<T>(xs: seq<T>, marks: seq<bool>): seq<T>
    requires |xs| == |marks|
  {
    if xs == [] then []
    else if marks[0] then [xs[0]] + Marked(xs[1..], marks[1..])
    else Marked(xs[1..], marks[1..])
  }

  /** Two sets of buckets that no request still to come can tell apart. */
  ghost predicate Indistinguishable(s: Buckets, t: Buckets, trace: seq<Request>, rps: real) {
    forall i :: 0 <= i < |trace| ==> Refilled(s, trace[i], rps) == Refilled(t, trace[i], rps)
  }

  /** A request that is denied leaves its bucket as it would be without it. */
  lemma DeniedIsInvisible(s: Buckets, r: Request, later: Request, rps: real)
    requires rps > 0.0 && !Admits(Refilled(s, r, rps))
    requires r.created <= r.now && (r.key in s ==> s[r.key].last <= r.now)
    requires later.key == r.key ==> r.now <= later.now && later.created <= later.now
    ensures Refilled(After(s, r, rps), later, rps) == Refilled(s, later, rps)
  {
    if later.key == r.key {
      RefillComposes(Lookup(s, r, rps), r.now, later.now, rps);
      if r.key !in s {
        FreshIsFull(r.created, later.now, rps);
        FreshIsFull(later.created, later.now, rps);
      }
    }
  }

  /** A new bucket is full whenever it was created. */
  lemma FreshIsFull(created: real, now: real, rps: real)
    requires rps > 0.0 && created <= now
    ensures Refill(Bucket(rps, created), now, rps) == Bucket(rps, now)
  {
    Growth(now - created, rps);
  }

  lemma SpendAlike(s: Buckets, t: Buckets, r: Request, later: Request, rps: real)
    requires Refilled(s, r, rps) == Refilled(t, r, rps)
    requires later.key != r.key ==> Refilled(s, later, rps) == Refilled(t, later, rps)
    ensures Refilled(After(s, r, rps), later, rps) == Refilled(After(t, r, rps), later, rps)
  {
  }

  /** Denied requests are free: remove any of them from a trace of many clients and every remaining
      request is decided as before. */
  lemma {:induction false} DeniedAreFree(s: Buckets, t: Buckets, trace: seq<Request>, marks: seq<bool>, rps: real)
    requires rps > 0.0 && |marks| == |trace| && Timed(s, trace)
    requires Indistinguishable(s, t, trace, rps)
    requires forall i :: 0 <= i < |trace| && Decisions(s, trace, rps)[i] ==> marks[i]
    ensures Decisions(t, Marked(trace, marks), rps) == Marked(Decisions(s, trace, rps), marks)
    decreases trace
  {
    if trace != [] {
      var r, rest := trace[0], trace[1..];
      var s', d := After(s, r, rps), Decisions(s, trace, rps);
      TimedTail(s, trace, rps);
      assert d[0] == Admits(Refilled(s, r, rps)) && d[1..] == Decisions(s', rest, rps);
      if marks[0] {
        var t' := After(t, r, rps);
        forall i | 0 <= i < |rest| ensures Refilled(s', rest[i], rps) == Refilled(t', rest[i], rps) {
          assert rest[i] == trace[i + 1];
          SpendAlike(s, t, r, rest[i], rps);
        }
        DeniedAreFree(s', t', rest, marks[1..], rps);
        assert Marked(trace, marks)[1..] == Marked(rest, marks[1..]);
      } else {
        forall i | 0 <= i < |rest| ensures Refilled(s', rest[i], rps) == Refilled(t, rest[i], rps) {
          assert rest[i] == trace[i + 1];
          DeniedIsInvisible(s, r, rest[i], rps);
        }
        DeniedAreFree(s', t, rest, marks[1..], rps);
      }
    }
  }

  // ----- clients do not interfere -----------------------------------------------------------

  function KeyMarks(trace: seq<Request>, key: string): (m: seq<bool>)
    ensures |m| == |trace|
  {
    if trace == [] then [] else [trace[0].key == key] + KeyMarks(trace[1..], key)
  }

  /** The buckets of one client alone. */
  function Lone(s: Buckets, key: string): Buckets {
    map k | k in s && k == key :: s[k]
  }

  /** The decisions for a client are those of a limiter that sees its requests only. */
  lemma {:induction false} KeysDoNotInterfere(s: Buckets, trace: seq<Request>, key: string, rps: real)
    ensures Marked(Decisions(s, trace, rps), KeyMarks(trace, key))
         == Decisions(Lone(s, key), Marked(trace, KeyMarks(trace, key)), rps)
    decreases trace
  {
    if trace != [] {
      var r, rest := trace[0], trace[1..];
      var marks, d := KeyMarks(trace, key), Decisions(s, trace, rps);
      KeysDoNotInterfere(After(s, r, rps), rest, key, rps);
      assert marks[1..] == KeyMarks(rest, key) && d[1..] == Decisions(After(s, r, rps), rest, rps);
      if r.key == key {
        assert Lone(After(s, r, rps), key) == After(Lone(s, key), r, rps);
        assert Marked(trace, marks)[1..] == Marked(rest, marks[1..]);
      } else {
        assert Lone(After(s, r, rps), key) == Lone(s, key);
      }
    }
  }

  // ----- bounds -----------------------------------------------------------------------------

  ghost predicate InRange(s: Buckets, rps: real) {
    forall k :: k in s ==> 0.0 <= s[k].tokens <= rps
  }

  lemma RefillInRange(b: Bucket, now: real, rps: real)
    requires rps > 0.0 && 0.0 <= b.tokens <= rps && b.last <= now
    ensures 0.0 <= Refill(b, now, rps).tokens <= rps
  {
    var elapsed := now - b.last;
    Growth(elapsed, rps);
    assert Refill(b, now, rps).tokens == if b.tokens + elapsed * rps > rps then rps else b.tokens + elapsed * rps;
  }

  /** Tokens stay between zero and the rate. */
  lemma TokensInRange(s: Buckets, r: Request, rps: real)
    requires rps > 0.0 && InRange(s, rps) && r.created <= r.now
    requires r.key in s ==> s[r.key].last <= r.now
    ensures InRange(After(s, r, rps), rps)
    ensures 0.0 <= Refilled(s, r, rps).tokens <= rps
  {
    RefillInRange(Lookup(s, r, rps), r.now, rps);
  }

  /** The admitted requests of a client. */
  function AdmittedOf(trace: seq<Request>, decisions: seq<bool>, key: string): nat
    requires |trace| == |decisions|
  {
    if trace == [] then 0
    else (if trace[0].key == key && decisions[0] then 1 else 0) + AdmittedOf(trace[1..], decisions[1..], key)
  }

  /** What a bucket can pay out until `end`: the tokens it holds plus what flows in. */
  function Budget(b: Bucket, end: real, rps: real): real {
    b.tokens + (end - b.last) * rps
  }

  lemma BudgetIsPositive(b: Bucket, end: real, rps: real)
    requires rps > 0.0 && b.tokens >= 0.0 && b.last <= end
    ensures Budget(b, end, rps) >= 0.0
  {
    var elapsed := end - b.last;
    Growth(elapsed, rps);
    assert Budget(b, end, rps) == b.tokens + elapsed * rps;
  }

  /** A request pays out of the budget of its own bucket. */
  lemma BudgetStep(s: Buckets, r: Request, key: string, end: real, rps: real)
    requires key in s
    ensures var t := After(s, r, rps);
            && key in t && t[key].last == (if r.key == key then r.now else s[key].last)
            && (if r.key == key && Admits(Refilled(s, r, rps)) then 1.0 else 0.0) + Budget(t[key], end, rps) <= Budget(s[key], end, rps)
  {
    if r.key == key {
      assert (end - r.now) * rps + (r.now - s[key].last) * rps == (end - s[key].last) * rps;
    }
  }

  /** What may be admitted within an interval: the flow during it and one full bucket. */
  function Allowance(elapsed: real, rps: real): real {
    elapsed * rps + rps
  }

  /** The first request of a window finds its bucket at best full. */
  lemma FirstStep(s: Buckets, r: Request, end: real, rps: real)
    ensures var t := After(s, r, rps);
            && r.key in t && t[r.key].last == r.now
            && (if Admits(Refilled(s, r, rps)) then 1.0 else 0.0) + Budget(t[r.key], end, rps) <= Allowance(end - r.now, rps)
  {
  }

  lemma AdmittedStep(s: Buckets, trace: seq<Request>, key: string, rps: real)
    requires trace != []
    ensures AdmittedOf(trace, Decisions(s, trace, rps), key)
         == (if trace[0].key == key && Admits(Refilled(s, trace[0], rps)) then 1 else 0)
            + AdmittedOf(trace[1..], Decisions(After(s, trace[0], rps), trace[1..], rps), key)
  {
    assert Decisions(s, trace, rps)[1..] == Decisions(After(s, trace[0], rps), trace[1..], rps);
  }

  /** The requests of a client admitted until `end` stay within the budget of its bucket. */
  lemma {:induction false} AdmittedBound(s: Buckets, trace: seq<Request>, key: string, end: real, rps: real)
    requires rps > 0.0 && Timed(s, trace) && InRange(s, rps)
    requires key in s && s[key].last <= end
    requires forall i :: 0 <= i < |trace| && trace[i].key == key ==> trace[i].now <= end
    ensures AdmittedOf(trace, Decisions(s, trace, rps), key) as real <= Budget(s[key], end, rps)
    decreases trace
  {
    if trace == [] {
      BudgetIsPositive(s[key], end, rps);
    } else {
      var r, rest := trace[0], trace[1..];
      var s' := After(s, r, rps);
      TokensInRange(s, r, rps);
      TimedTail(s, trace, rps);
      AdmittedStep(s, trace, key, rps);
      BudgetStep(s, r, key, end, rps);
      AdmittedBound(s', rest, key, end, rps);
    }
  }

  /** The same from a request of the client on, for a bucket that is at best full then. */
  lemma WindowBound(s: Buckets, window: seq<Request>, key: string, end: real, rps: real)
    requires rps > 0.0 && InRange(s, rps) && Timed(s, window)
    requires window != [] && window[0].key == key
    requires forall i :: 0 <= i < |window| && window[i].key == key ==> window[i].now <= end
    ensures AdmittedOf(window, Decisions(s, window, rps), key) as real <= Allowance(end - window[0].now, rps)
  {
    var s' := After(s, window[0], rps);
    TokensInRange(s, window[0], rps);
    TimedTail(s, window, rps);
    AdmittedStep(s, window, key, rps);
    FirstStep(s, window[0], end, rps);
    var first := if Admits(Refilled(s, window[0], rps)) then 1.0 else 0.0;
    assert first + Budget(s'[key], end, rps) <= Allowance(end - window[0].now, rps);
    forall i | 0 <= i < |window| - 1 && window[1..][i].key == key ensures window[1..][i].now <= end {
      assert window[1..][i] == window[i + 1];
    }
    AdmittedBound(s', window[1..], key, end, rps);
  }

  lemma DecisionsDrop(s: Buckets, trace: seq<Request>, k: nat, rps: real)
    requires 0 < k <= |trace|
    ensures Decisions(s, trace, rps)[k..] == Decisions(After(s, trace[0], rps), trace[1..], rps)[k - 1..]
  {
  }

  lemma TailOfJoined(before: seq<Request>, window: seq<Request>)
    requires before != []
    ensures (before + window)[0] == before[0] && (before + window)[1..] == before[1..] + window
  {
  }

  /** Among the requests from one of a client at `start` up to `end`, at most
      rps * (end - start) + rps of the client's are admitted, whatever came before and whatever
      the other clients do meanwhile. */
  lemma {:induction false} RateBound(s: Buckets, before: seq<Request>, window: seq<Request>, key: string, end: real, rps: real)
    requires rps > 0.0 && InRange(s, rps) && Timed(s, before + window)
    requires window != [] && window[0].key == key
    requires forall i :: 0 <= i < |window| && window[i].key == key ==> window[i].now <= end
    ensures AdmittedOf(window, Decisions(s, before + window, rps)[|before|..], key) as real
         <= Allowance(end - window[0].now, rps)
    decreases before
  {
    var trace := before + window;
    var d := Decisions(s, trace, rps);
    if before == [] {
      assert trace == window && d[|before|..] == d;
      WindowBound(s, window, key, end, rps);
    } else {
      TailOfJoined(before, window);
      TimedTail(s, trace, rps);
      TokensInRange(s, trace[0], rps);
      RateBound(After(s, trace[0], rps), before[1..], window, key, end, rps);
      DecisionsDrop(s, trace, |before|, rps);
    }
  }

  /** With a rate of at least one, a request that comes 1/rps or more after the previous one of its
      client is admitted; with a lower rate no request ever is. */
  lemma Patience(s: Buckets, r: Request, rps: real)
    requires rps > 0.0 && InRange(s, rps) && r.created <= r.now
    requires r.key in s ==> s[r.key].last <= r.now
    ensures rps < 1.0 ==> !Admits(Refilled(s, r, rps))
    ensures rps >= 1.0 && (r.key in s ==> r.now - s[r.key].last >= 1.0 / rps) ==> Admits(Refilled(s, r, rps))
  {
    TokensInRange(s, r, rps);
    if rps >= 1.0 && r.key in s && r.now - s[r.key].last >= 1.0 / rps {
      Growth(r.now - s[r.key].last - 1.0 / rps, rps);
      assert 1.0 / rps * rps == 1.0;
      assert (r.now - s[r.key].last) * rps >= 1.0;
    } else if r.key !in s {
      FreshIsFull(r.created, r.now, rps);
    }
  }

  // ----- the limiter ------------------------------------------------------------------------

  class Limiter {
    var tokens: real
    var last: real

    constructor (rps: real, now: real)
      ensures tokens == rps && last == now
    {
      tokens, last := rps, now;
    }

    /** The critical section of a request. */
    method Take(now: real, rps: real) returns (ok: bool)
      modifies this
      ensures var b := Refill(Bucket(old(tokens), old(last)), now, rps);
              ok == Admits(b) && Bucket(tokens, last) == Spend(b)
    {
      var elapsed := now - last;
      tokens := tokens + elapsed * rps;
      if tokens > rps {
        tokens := rps;
      }
      last := now;
      if tokens < 1.0 {
        return false;
      }
      tokens := tokens - 1.0;
      return true;
    }
  }

  class RateLimiter {
    const rps: real
    var buckets: map<string, Limiter>

    constructor (rate: Domain.Option<real>)
      ensures Valid() && View() == map[]
      ensures rps == if rate.Some? && rate.value > 0.0 then rate.value else 10.0
    {
      rps := if rate.Some? && rate.value > 0.0 then rate.value else 10.0;
      buckets := map[];
    }

    /** Different keys have different buckets. */
    ghost predicate Valid()
      reads this
    {
      && rps > 0.0
      && forall k, l :: k in buckets && l in buckets && k != l ==> buckets[k] != buckets[l]
    }

    ghost function View(): Buckets
      reads this, buckets.Values
    {
      map k | k in buckets :: Bucket(buckets[k].tokens, buckets[k].last)
    }

    /** The bucket of a key, created full when there is none. */
    method GetLimiter(key: string, now: real) returns (b: Limiter)
      requires Valid()
      modifies this`buckets
      ensures Valid() && key in buckets && buckets[key] == b
      ensures key in old(buckets) ==> buckets == old(buckets)
      ensures key !in old(buckets) ==> buckets == old(buckets)[key := b] && fresh(b) && b.tokens == rps && b.last == now
    {
      if key in buckets {
        b := buckets[key];
      } else {
        b := new Limiter(rps, now);
        buckets := buckets[key := b];
      }
    }

    /** One request: decided as its bucket says, no other bucket changes. */
    method Allow(r: Request) returns (ok: bool)
      requires Valid()
      modifies this, buckets.Values
      ensures Valid() && ok == Admits(Refilled(old(View()), r, rps)) && View() == After(old(View()), r, rps)
    {
      ghost var before := View();
      var b := GetLimiter(r.key, r.created);
      assert Bucket(b.tokens, b.last) == Lookup(before, r, rps);
      ok := b.Take(r.now, rps);
      assert View() == After(before, r, rps);
    }
  }
}
