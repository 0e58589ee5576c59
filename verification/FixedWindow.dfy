/** The shared rate limiter: a counter per client in Redis that lives for one window. */
module FixedWindow {
  import opened Domain

  /** A key that was never set or has expired is absent; without a deadline it never expires. */
  datatype Counter = Absent | Live(count: nat, deadline: Option<real>)

  /** An INCR at `now`; if it creates the key, EXPIRE is executed `lag` later, or never (None). */
  datatype Hit = Hit(now: real, lag: Option<real>)

  const WINDOW := 1.0

  predicate Gone(c: Counter, now: real) {
    c.Absent? || (c.deadline.Some? && c.deadline.value <= now)
  }

  /** The counter after a hit. Until EXPIRE runs the key has no deadline and outlives `now + lag`,
      so a key whose deadline is set late behaves as one whose deadline was set at once. */
  function After(c: Counter, h: Hit): Counter {
    if Gone(c, h.now) then Live(1, if h.lag.Some? then Some(h.now + h.lag.value + WINDOW) else None)
    else Live(c.count + 1, c.deadline)
  }

  predicate Admits(c: Counter, h: Hit, limit: nat) {
    After(c, h).count <= limit
  }

  function Decisions(c: Counter, hits: seq<Hit>, limit: nat): (d: seq<bool>)
    ensures |d| == |hits|
    decreases hits
  {
    if hits == [] then [] else [Admits(c, hits[0], limit)] + Decisions(After(c, hits[0]), hits[1..], limit)
  }

  ghost predicate Timed(hits: seq<Hit>) {
    forall i, j :: 0 <= i < j < |hits| ==> hits[i].now <= hits[j].now
  }

  /** Every EXPIRE works. */
  ghost predicate Expiring(c: Counter, hits: seq<Hit>) {
    && (c.Live? ==> c.count >= 1 && c.deadline.Some?)
    && forall i :: 0 <= i < |hits| ==> hits[i].lag.Some? && hits[i].lag.value >= 0.0
  }

  /** Hits on a live key that does not expire among them are admitted while the count allows. */
  lemma {:induction false} LiveDecisions(c: Counter, hits: seq<Hit>, limit: nat)
    requires c.Live? && forall i :: 0 <= i < |hits| ==> !Gone(c, hits[i].now)
    ensures forall k :: 0 <= k < |hits| ==> (Decisions(c, hits, limit)[k] <==> c.count + k < limit)
    decreases hits
  {
    if hits != [] {
      var rest, next := hits[1..], After(c, hits[0]);
      forall i | 0 <= i < |rest| ensures !Gone(next, rest[i].now) {
        assert rest[i] == hits[i + 1];
      }
      LiveDecisions(next, rest, limit);
      forall k | 0 < k < |hits| ensures Decisions(c, hits, limit)[k] <==> c.count + k < limit {
        assert Decisions(c, hits, limit)[k] == Decisions(next, rest, limit)[k - 1];
      }
    }
  }

  /** Each lifetime of a key admits exactly its first `limit` hits. */
  lemma LifetimeAdmitsFirst(c: Counter, hits: seq<Hit>, limit: nat)
    requires hits != [] && Gone(c, hits[0].now)
    requires forall i :: 0 < i < |hits| ==> !Gone(After(c, hits[0]), hits[i].now)
    ensures forall k :: 0 <= k < |hits| ==> (Decisions(c, hits, limit)[k] <==> k < limit)
  {
    var rest := hits[1..];
    forall i | 0 <= i < |rest| ensures !Gone(After(c, hits[0]), rest[i].now) {
      assert rest[i] == hits[i + 1];
    }
    LiveDecisions(After(c, hits[0]), rest, limit);
    forall k | 0 < k < |hits| ensures Decisions(c, hits, limit)[k] <==> k < limit {
      assert Decisions(c, hits, limit)[k] == Decisions(After(c, hits[0]), rest, limit)[k - 1];
    }
  }

  /** A key lives for one second from its EXPIRE: for a limit of 1, the next hit is admitted if and only
      if it comes then or later. */
  lemma LivesOneSecond(first: Hit, next: Hit)
    requires first.lag.Some?
    ensures Decisions(Absent, [first, next], 1)[0]
    ensures Decisions(Absent, [first, next], 1)[1] <==> next.now >= first.now + first.lag.value + 1.0
  {
    var hits := [first, next];
    assert hits[1..] == [next];
    assert Decisions(Absent, hits, 1)[1] == Decisions(After(Absent, first), [next], 1)[0];
  }

  /** The admitted hits at times within [lo, hi). */
  function AdmittedIn(c: Counter, hits: seq<Hit>, limit: nat, lo: real, hi: real): nat
    decreases hits
  {
    if hits == [] then 0
    else
      var later := AdmittedIn(After(c, hits[0]), hits[1..], limit, lo, hi);
      if Admits(c, hits[0], limit) && lo <= hits[0].now < hi then later + 1 else later
  }

  function Room(c: Counter, limit: nat): nat {
    if c.Absent? then limit else if c.count < limit then limit - c.count else 0
  }

  lemma TimedTail(c: Counter, hits: seq<Hit>)
    requires hits != [] && Timed(hits) && Expiring(c, hits)
    ensures Timed(hits[1..]) && Expiring(After(c, hits[0]), hits[1..])
    ensures forall i :: 0 <= i < |hits| - 1 ==> hits[0].now <= hits[1..][i].now
  {
    assert forall i :: 0 <= i < |hits| - 1 ==> hits[1..][i] == hits[i + 1];
  }

  /** A key that outlives the interval admits what its count leaves. */
  lemma {:induction false} OneLifetime(c: Counter, hits: seq<Hit>, limit: nat, lo: real, hi: real)
    requires c.Live? && c.deadline.Some? && c.deadline.value >= hi
    requires Timed(hits) && Expiring(c, hits)
    ensures AdmittedIn(c, hits, limit, lo, hi) <= Room(c, limit)
    decreases hits
  {
    if hits != [] {
      TimedTail(c, hits);
      if Gone(c, hits[0].now) {
        NoneLater(After(c, hits[0]), hits[1..], limit, lo, hi, hits[0].now);
      } else {
        OneLifetime(After(c, hits[0]), hits[1..], limit, lo, hi);
      }
    }
  }

  lemma {:induction false} NoneLater(c: Counter, hits: seq<Hit>, limit: nat, lo: real, hi: real, now: real)
    requires now >= hi && forall i :: 0 <= i < |hits| ==> now <= hits[i].now
    ensures AdmittedIn(c, hits, limit, lo, hi) == 0
    decreases hits
  {
    if hits != [] {
      assert forall i :: 0 <= i < |hits| - 1 ==> hits[1..][i] == hits[i + 1];
      NoneLater(After(c, hits[0]), hits[1..], limit, lo, hi, now);
    }
  }

  /** From a moment in the interval on, the current lifetime and one more can admit. */
  lemma {:induction false} TwoLifetimes(c: Counter, hits: seq<Hit>, limit: nat, lo: real)
    requires Timed(hits) && Expiring(c, hits) && forall i :: 0 <= i < |hits| ==> lo <= hits[i].now
    ensures AdmittedIn(c, hits, limit, lo, lo + WINDOW) <= Room(c, limit) + (if c.Absent? then 0 else limit)
    decreases hits
  {
    if hits != [] {
      TimedTail(c, hits);
      var next := After(c, hits[0]);
      if Gone(c, hits[0].now) {
        OneLifetime(next, hits[1..], limit, lo, lo + WINDOW);
      } else {
        assert forall i :: 0 <= i < |hits| - 1 ==> hits[1..][i] == hits[i + 1];
        TwoLifetimes(next, hits[1..], limit, lo);
      }
    }
  }

  /** Any interval one window long, wherever it starts, contains fewer than twice the limit: when it
      sees two lifetimes of the key, the first of them began before it. */
  lemma {:induction false} WindowBound(c: Counter, hits: seq<Hit>, limit: nat, lo: real)
    requires Timed(hits) && Expiring(c, hits)
    ensures AdmittedIn(c, hits, limit, lo, lo + WINDOW) <= if limit == 0 then 0 else 2 * limit - 1
    decreases hits
  {
    if hits != [] {
      if lo <= hits[0].now {
        assert forall i :: 0 <= i < |hits| ==> lo <= hits[i].now;
        TwoLifetimes(c, hits, limit, lo);
      } else {
        TimedTail(c, hits);
        WindowBound(After(c, hits[0]), hits[1..], limit, lo);
      }
    }
  }

  function Repeat(h: Hit, n: nat): seq<Hit> {
    seq(n, _ => h)
  }

  /** Hits at one moment of a live key are all admitted while the limit allows. */
  lemma {:induction false} RepeatAdmitted(c: Counter, h: Hit, n: nat, rest: seq<Hit>, limit: nat, lo: real, hi: real)
    requires c.Live? && !Gone(c, h.now) && c.count + n <= limit && lo <= h.now < hi
    ensures AdmittedIn(c, Repeat(h, n) + rest, limit, lo, hi)
         == n + AdmittedIn(Live(c.count + n, c.deadline), rest, limit, lo, hi)
    decreases n
  {
    if n == 0 {
      assert Repeat(h, 0) + rest == rest;
    } else {
      assert (Repeat(h, n) + rest)[1..] == Repeat(h, n - 1) + rest;
      RepeatAdmitted(After(c, h), h, n - 1, rest, limit, lo, hi);
    }
  }

  /** A trace that uses a window to the full: a first hit opens a lifetime before the window, all but
      one of its admissions fall into the window, and so does the whole of the next lifetime. */
  function FullTrace(limit: nat): seq<Hit>
    requires limit >= 1
  {
    [Hit(0.0, Some(0.0))] + (Repeat(Hit(0.5, Some(0.0)), limit - 1) + ([Hit(1.0, Some(0.0))] + Repeat(Hit(1.0, Some(0.0)), limit - 1)))
  }

  lemma FullTraceFits(limit: nat)
    requires limit >= 1
    ensures Timed(FullTrace(limit)) && Expiring(Absent, FullTrace(limit))
  {
    var hits := FullTrace(limit);
    forall i | 0 <= i < |hits| ensures hits[i] == Hit(if i == 0 then 0.0 else if i < limit then 0.5 else 1.0, Some(0.0)) {
    }
  }

  /** The hits at the end of the lifetime, all in the window. */
  lemma SecondLifetime(limit: nat)
    requires limit >= 1
    ensures var h := Hit(1.0, Some(0.0));
            AdmittedIn(Live(limit, Some(1.0)), [h] + Repeat(h, limit - 1), limit, 0.5, 1.5) == limit
  {
    var h := Hit(1.0, Some(0.0));
    var rest := Repeat(h, limit - 1);
    assert rest + [] == rest && ([h] + rest)[1..] == rest;
    RepeatAdmitted(Live(1, Some(2.0)), h, limit - 1, [], limit, 0.5, 1.5);
    assert After(Live(limit, Some(1.0)), h) == Live(1, Some(2.0));
  }

  /** The bound is met for every limit. */
  lemma WindowBoundIsTight(limit: nat)
    requires limit >= 1
    ensures Timed(FullTrace(limit)) && Expiring(Absent, FullTrace(limit))
    ensures AdmittedIn(Absent, FullTrace(limit), limit, 0.5, 0.5 + WINDOW) == 2 * limit - 1
  {
    FullTraceFits(limit);
    SecondLifetime(limit);
    var h := Hit(1.0, Some(0.0));
    RepeatAdmitted(Live(1, Some(1.0)), Hit(0.5, Some(0.0)), limit - 1, [h] + Repeat(h, limit - 1), limit, 0.5, 1.5);
    var later := Repeat(Hit(0.5, Some(0.0)), limit - 1) + ([h] + Repeat(h, limit - 1));
    assert FullTrace(limit)[1..] == later && After(Absent, Hit(0.0, Some(0.0))) == Live(1, Some(1.0));
  }

  /** A lost EXPIRE is for ever: the key never restarts and the client gets its first `limit`
      requests and no other. */
  lemma LostExpireBlocks(c: Counter, hits: seq<Hit>, limit: nat)
    requires hits != [] && Gone(c, hits[0].now) && hits[0].lag == None
    ensures forall k :: 0 <= k < |hits| ==> (Decisions(c, hits, limit)[k] <==> k < limit)
  {
    LifetimeAdmitsFirst(c, hits, limit);
  }
}
