/** Retrying with exponential backoff: the consumer of bulk.result and the producer. */
module Retry {
  import ResultHandler
  import Sequences

  // ----- backoff ----------------------------------------------------------------------------

  function Pow2(k: nat): nat {
    if k == 0 then 1 else 2 * Pow2(k - 1)
  }

  const TWO_63 := 0x8000_0000_0000_0000
  const TWO_64 := 0x1_0000_0000_0000_0000

  /** The value of an integer in 64-bit two's complement. */
  function Wrap64(x: int): int {
    (x + TWO_63) % TWO_64 - TWO_63
  }

  /** The pause of 100 * 2^k milliseconds, in nanoseconds, as the 64-bit duration holds it. */
  function Pause(k: nat): int {
    Wrap64(100_000_000 * Pow2(k))
  }

  lemma {:induction false} Pow2Grows(j: nat, k: nat)
    requires j <= k
    ensures Pow2(j) <= Pow2(k)
  {
    if j < k {
      Pow2Grows(j, k - 1);
    }
  }

  lemma Pow2At36()
    ensures Pow2(36) == 68_719_476_736 && Pow2(37) == 137_438_953_472
  {
    assert Pow2(10) == 1024;
    assert Pow2(20) == 1_048_576;
    assert Pow2(30) == 1_073_741_824;
  }

  /** A pause is what it should be if and only if its exponent is at most 36. */
  lemma PauseFitsIff(k: nat)
    ensures Pause(k) == 100_000_000 * Pow2(k) <==> k <= 36
  {
    Pow2At36();
    if k <= 36 {
      Pow2Grows(k, 36);
      Pow2Grows(0, k);
      assert 0 < 100_000_000 * Pow2(k) < TWO_63;
    } else {
      Pow2Grows(37, k);
      assert 100_000_000 * Pow2(k) >= TWO_63;
    }
  }

  function Sum(pauses: seq<int>): int {
    if pauses == [] then 0 else Sum(pauses[..|pauses| - 1]) + pauses[|pauses| - 1]
  }

  /** The pauses with exponents 0 to n - 1. */
  function Pauses(n: nat): (p: seq<int>)
    ensures |p| == n
  {
    if n == 0 then [] else Pauses(n - 1) + [Pause(n - 1)]
  }

  /** They add up to 100 * (2^n - 1) milliseconds while every one of them fits. */
  lemma {:induction false} TotalPause(n: nat)
    requires n <= 37
    ensures Sum(Pauses(n)) == 100_000_000 * (Pow2(n) - 1)
  {
    if n > 0 {
      TotalPause(n - 1);
      PauseFitsIff(n - 1);
      assert Pauses(n)[..n - 1] == Pauses(n - 1);
    }
  }

  // ----- attempts ---------------------------------------------------------------------------

  /** How many attempts are made from number k on, the last being number `retries`. */
  function Attempts(ok: nat -> bool, k: nat, retries: int): nat
    decreases retries - k
  {
    if k > retries then 0 else if ok(k) then 1 else 1 + Attempts(ok, k + 1, retries)
  }

  /** Every permitted attempt fails. Without a permitted attempt nothing fails. */
  ghost predicate AllFail(ok: nat -> bool, retries: int) {
    retries >= 0 && forall k: nat :: k <= retries ==> !ok(k)
  }

  /** With at least one attempt permitted: one to retries + 1 are made, the last of them is the first
      success if there is one. */
  lemma {:induction false} AttemptsStopAtSuccess(ok: nat -> bool, k: nat, retries: int)
    requires k <= retries
    ensures var n := Attempts(ok, k, retries);
            && 1 <= n <= retries + 1 - k
            && (forall i: nat :: k <= i < k + n - 1 ==> !ok(i))
            && (ok(k + n - 1) || (n == retries + 1 - k && forall i: nat :: k <= i <= retries ==> !ok(i)))
    decreases retries - k
  {
    if !ok(k) && k < retries {
      AttemptsStopAtSuccess(ok, k + 1, retries);
    }
  }

  // ----- consumer ---------------------------------------------------------------------------

  datatype Message = Garbled | Decoded(event: ResultHandler.ResultEvent)

  /** One call of the handler: which message, which attempt. */
  datatype Call = Call(message: nat, attempt: nat)

  /** Whether the handler succeeds on the n-th message at the k-th attempt. */
  type Outcomes = (nat, nat) -> bool

  function Of(handler: Outcomes, n: nat): nat -> bool {
    (k: nat) => handler(n, k)
  }

  function CallsOf(n: nat, count: nat): (c: seq<Call>)
    ensures |c| == count
  {
    if count == 0 then [] else CallsOf(n, count - 1) + [Call(n, count - 1)]
  }

  /** The calls for a message are numbered from 0 in order. */
  lemma {:induction false} CallAt(n: nat, count: nat, k: nat)
    requires k < count
    ensures CallsOf(n, count)[k] == Call(n, k)
  {
    if k < count - 1 {
      CallAt(n, count - 1, k);
    }
  }

  /** The attempts that failed, and so the pauses made, among the calls for a message. */
  function FailuresOf(ok: nat -> bool, retries: int): nat {
    var n := Attempts(ok, 0, retries);
    if n > 0 && ok(n - 1) then n - 1 else n
  }

  function AllCalls(stream: seq<Message>, n: nat, handler: Outcomes, retries: int): seq<Call>
    requires n <= |stream|
  {
    if n == 0 then []
    else if stream[n - 1].Garbled? then AllCalls(stream, n - 1, handler, retries)
    else AllCalls(stream, n - 1, handler, retries) + CallsOf(n - 1, Attempts(Of(handler, n - 1), 0, retries))
  }

  function AllPauses(stream: seq<Message>, n: nat, handler: Outcomes, retries: int): seq<int>
    requires n <= |stream|
  {
    if n == 0 then []
    else if stream[n - 1].Garbled? then AllPauses(stream, n - 1, handler, retries)
    else AllPauses(stream, n - 1, handler, retries) + Pauses(FailuresOf(Of(handler, n - 1), retries))
  }

  ghost predicate Undeliverable(stream: seq<Message>, handler: Outcomes, retries: int, n: nat) {
    n < |stream| && stream[n].Decoded? && AllFail(Of(handler, n), retries)
  }

  /** A message on the dead letter topic: which one of the stream, and its content. */
  datatype Letter = Letter(message: nat, event: ResultHandler.ResultEvent)

  /** Whether the n-th message is undeliverable and its publication on the dead letter topic succeeds. */
  ghost predicate Parked(stream: seq<Message>, handler: Outcomes, retries: int, arrives: nat -> bool, n: nat) {
    Undeliverable(stream, handler, retries, n) && arrives(n)
  }

  ghost function DeadLetters(stream: seq<Message>, n: nat, handler: Outcomes, retries: int, arrives: nat -> bool): seq<Letter>
    requires n <= |stream|
  {
    if n == 0 then []
    else
      var before := DeadLetters(stream, n - 1, handler, retries, arrives);
      if Parked(stream, handler, retries, arrives, n - 1) then before + [Letter(n - 1, stream[n - 1].event)] else before
  }

  /** The messages counted as processed. */
  ghost function Succeeded(stream: seq<Message>, n: nat, handler: Outcomes, retries: int): seq<nat>
    requires n <= |stream|
  {
    if n == 0 then []
    else
      var before := Succeeded(stream, n - 1, handler, retries);
      if stream[n - 1].Decoded? && !AllFail(Of(handler, n - 1), retries) then before + [n - 1] else before
  }

  /** Counts the dead-lettered messages before a position. */
  ghost function ParkedBefore(stream: seq<Message>, handler: Outcomes, retries: int, arrives: nat -> bool, n: nat): nat {
    if n == 0 then 0
    else ParkedBefore(stream, handler, retries, arrives, n - 1) + (if Parked(stream, handler, retries, arrives, n - 1) then 1 else 0)
  }

  /** The dead letters are the messages whose every attempt failed and whose publication there went
      through, once each and in order. */
  lemma {:induction false} DeadLetterAt(stream: seq<Message>, n: nat, handler: Outcomes, retries: int, arrives: nat -> bool, m: nat)
    requires n <= |stream|
    ensures |DeadLetters(stream, n, handler, retries, arrives)| == ParkedBefore(stream, handler, retries, arrives, n)
    ensures m < n && Parked(stream, handler, retries, arrives, m) ==>
              var at := ParkedBefore(stream, handler, retries, arrives, m);
              && at < ParkedBefore(stream, handler, retries, arrives, n)
              && DeadLetters(stream, n, handler, retries, arrives)[at] == Letter(m, stream[m].event)
  {
    if n > 0 {
      DeadLetterAt(stream, n - 1, handler, retries, arrives, m);
    }
  }

  ghost predicate HasLetter(letters: seq<Letter>, m: nat) {
    exists i :: 0 <= i < |letters| && letters[i].message == m
  }

  lemma {:induction false} LetterIff(stream: seq<Message>, n: nat, handler: Outcomes, retries: int, arrives: nat -> bool, m: nat)
    requires n <= |stream|
    ensures HasLetter(DeadLetters(stream, n, handler, retries, arrives), m) <==> m < n && Parked(stream, handler, retries, arrives, m)
  {
    if n > 0 {
      LetterIff(stream, n - 1, handler, retries, arrives, m);
      var before, after := DeadLetters(stream, n - 1, handler, retries, arrives), DeadLetters(stream, n, handler, retries, arrives);
      assert forall i :: 0 <= i < |before| ==> after[i] == before[i];
      if HasLetter(before, m) {
        var i :| 0 <= i < |before| && before[i].message == m;
        assert after[i].message == m;
      }
      if after != before && m == n - 1 {
        assert after[|before|].message == m;
      }
    }
  }

  lemma {:induction false} SucceededIff(stream: seq<Message>, n: nat, handler: Outcomes, retries: int, m: nat)
    requires n <= |stream|
    ensures m in Succeeded(stream, n, handler, retries) <==> m < n && stream[m].Decoded? && !AllFail(Of(handler, m), retries)
  {
    if n > 0 {
      SucceededIff(stream, n - 1, handler, retries, m);
    }
  }

  /** The letters that a consumer with or without a dead letter topic publishes. */
  ghost function Letters(stream: seq<Message>, n: nat, handler: Outcomes, retries: int, arrives: nat -> bool, topic: bool): seq<Letter>
    requires n <= |stream|
  {
    if topic then DeadLetters(stream, n, handler, retries, arrives) else []
  }

  /** A decodable message is lost, neither processed nor dead-lettered, if and only if its every attempt
      failed and there is no dead letter topic or the publication there failed too. It is never both. */
  lemma LostIff(stream: seq<Message>, handler: Outcomes, retries: int, arrives: nat -> bool, topic: bool, m: nat)
    requires m < |stream| && stream[m].Decoded?
    ensures var handled := m in Succeeded(stream, |stream|, handler, retries);
            var lettered := HasLetter(Letters(stream, |stream|, handler, retries, arrives, topic), m);
            && !(handled && lettered)
            && (!handled && !lettered <==> AllFail(Of(handler, m), retries) && !(topic && arrives(m)))
  {
    SucceededIff(stream, |stream|, handler, retries, m);
    LetterIff(stream, |stream|, handler, retries, arrives, m);
  }

  /** Dead-lettering a message takes 100 * (2^(retries + 1) - 1) milliseconds of pauses. */
  lemma FailedMessagePause(ok: nat -> bool, retries: nat)
    requires AllFail(ok, retries) && retries <= 36
    ensures FailuresOf(ok, retries) == retries + 1
    ensures Sum(Pauses(FailuresOf(ok, retries))) == 100_000_000 * (Pow2(retries + 1) - 1)
  {
    AttemptsStopAtSuccess(ok, 0, retries);
    TotalPause(retries + 1);
  }

  /** A handler that never reports failure, as the one for results, is called once per decodable
      message; nothing is dead-lettered and no time is spent waiting. */
  lemma {:induction false} SilentHandler(stream: seq<Message>, n: nat, handler: Outcomes, retries: nat, arrives: nat -> bool)
    requires n <= |stream| && forall m: nat, k: nat :: handler(m, k)
    ensures DeadLetters(stream, n, handler, retries, arrives) == [] && AllPauses(stream, n, handler, retries) == []
    ensures |AllCalls(stream, n, handler, retries)| == |Succeeded(stream, n, handler, retries)| == DecodableBefore(stream, n)
  {
    if n > 0 {
      SilentHandler(stream, n - 1, handler, retries, arrives);
      assert Of(handler, n - 1)(0);
    }
  }

  function DecodableBefore(stream: seq<Message>, n: nat): nat
    requires n <= |stream|
  {
    if n == 0 then 0 else DecodableBefore(stream, n - 1) + (if stream[n - 1].Decoded? then 1 else 0)
  }

  /** What a consumer has done: its calls of the handler, its pauses, what it sent to the dead letter
      topic, and the messages it counted as processed. */
  datatype Log = Log(calls: seq<Call>, pauses: seq<int>, deadLetters: seq<Letter>, processed: seq<nat>)

  /** The log after the first n messages. */
  ghost function LogAfter(log: Log, stream: seq<Message>, n: nat, handler: Outcomes, retries: int, arrives: nat -> bool, topic: bool): Log
    requires n <= |stream|
  {
    Log(log.calls + AllCalls(stream, n, handler, retries),
        log.pauses + AllPauses(stream, n, handler, retries),
        log.deadLetters + Letters(stream, n, handler, retries, arrives, topic),
        log.processed + Succeeded(stream, n, handler, retries))
  }

  /** The log after one more decodable message. */
  ghost function LogTurn(log: Log, n: nat, event: ResultHandler.ResultEvent, ok: nat -> bool, retries: int, arrives: nat -> bool, topic: bool): Log {
    Log(log.calls + CallsOf(n, Attempts(ok, 0, retries)),
        log.pauses + Pauses(FailuresOf(ok, retries)),
        log.deadLetters + (if AllFail(ok, retries) && topic && arrives(n) then [Letter(n, event)] else []),
        log.processed + (if AllFail(ok, retries) then [] else [n]))
  }

  lemma LogGrows(log: Log, stream: seq<Message>, n: nat, handler: Outcomes, retries: int, arrives: nat -> bool, topic: bool)
    requires n < |stream|
    ensures LogAfter(log, stream, n + 1, handler, retries, arrives, topic)
         == var before := LogAfter(log, stream, n, handler, retries, arrives, topic);
            if stream[n].Decoded? then LogTurn(before, n, stream[n].event, Of(handler, n), retries, arrives, topic) else before
  {
    if stream[n].Decoded? {
      var ok := Of(handler, n);
      Sequences.Joined(log.calls, AllCalls(stream, n, handler, retries), CallsOf(n, Attempts(ok, 0, retries)));
      Sequences.Joined(log.pauses, AllPauses(stream, n, handler, retries), Pauses(FailuresOf(ok, retries)));
      if AllFail(ok, retries) {
        Sequences.Joined(log.processed, Succeeded(stream, n, handler, retries), []);
        Sequences.Joined(log.deadLetters, Letters(stream, n, handler, retries, arrives, topic),
               if topic && arrives(n) then [Letter(n, stream[n].event)] else []);
      } else {
        Sequences.Joined(log.processed, Succeeded(stream, n, handler, retries), [n]);
        Sequences.Joined(log.deadLetters, Letters(stream, n, handler, retries, arrives, topic), []);
      }
    }
  }

  class ResultConsumer {
    const retries: int
    const deadLetterTopic: bool
    var calls: seq<Call>
    var pauses: seq<int>
    var deadLetters: seq<Letter>
    var processed: seq<nat>

    constructor (retries: int, deadLetterTopic: bool)
      ensures this.retries == retries && this.deadLetterTopic == deadLetterTopic
      ensures calls == [] && pauses == [] && deadLetters == [] && processed == []
    {
      this.retries, this.deadLetterTopic := retries, deadLetterTopic;
      calls, pauses, deadLetters, processed := [], [], [], [];
    }

    ghost function View(): Log
      reads this
    {
      Log(calls, pauses, deadLetters, processed)
    }

    /** The endless loop, until the reader fails after `stream`; `arrives` tells for which messages a
        publication on the dead letter topic succeeds. A negative retry count never calls the handler and
        takes every decodable message as processed. */
    method Start(stream: seq<Message>, handler: Outcomes, arrives: nat -> bool)
      modifies this
      ensures View() == LogAfter(old(View()), stream, |stream|, handler, retries, arrives, deadLetterTopic)
    {
      ghost var log := View();
      for n := 0 to |stream|
        invariant View() == LogAfter(log, stream, n, handler, retries, arrives, deadLetterTopic)
      {
        LogGrows(log, stream, n, handler, retries, arrives, deadLetterTopic);
        if stream[n].Decoded? {
          Process(n, stream[n].event, Of(handler, n), arrives);
        }
      }
    }

    /** One decodable message: counted as processed, or sent to the dead letter topic if there is one. */
    method Process(n: nat, event: ResultHandler.ResultEvent, ok: nat -> bool, arrives: nat -> bool)
      modifies this
      ensures View() == LogTurn(old(View()), n, event, ok, retries, arrives, deadLetterTopic)
    {
      var failed := HandleMessage(n, ok);
      if failed {
        if deadLetterTopic {
          if arrives(n) {
            deadLetters := deadLetters + [Letter(n, event)];
          }
        }
      } else {
        processed := processed + [n];
      }
    }

    /** The attempts at one message, with a pause after each one that fails. */
    method HandleMessage(n: nat, ok: nat -> bool) returns (failed: bool)
      modifies this`calls, this`pauses
      ensures calls == old(calls) + CallsOf(n, Attempts(ok, 0, retries))
      ensures pauses == old(pauses) + Pauses(FailuresOf(ok, retries))
      ensures failed == AllFail(ok, retries)
    {
      failed := false;
      var attempt: nat := 0;
      ghost var before, waited := calls, pauses;
      while attempt <= retries
        invariant attempt <= retries + 1 || (retries < 0 && attempt == 0)
        invariant forall k: nat :: k < attempt ==> !ok(k)
        invariant failed <==> attempt > 0
        invariant calls == before + CallsOf(n, attempt)
        invariant pauses == waited + Pauses(attempt)
        invariant Attempts(ok, 0, retries) == attempt + Attempts(ok, attempt, retries)
      {
        Sequences.Joined(before, CallsOf(n, attempt), [Call(n, attempt)]);
        Sequences.Joined(waited, Pauses(attempt), [Pause(attempt)]);
        calls := calls + [Call(n, attempt)];
        if ok(attempt) {
          failed := false;
          return;
        }
        failed := true;
        pauses := pauses + [Pause(attempt)];
        attempt := attempt + 1;
      }
    }
  }

  // ----- producer ---------------------------------------------------------------------------

  const PRODUCER_RETRIES: nat := 3

  function Copies(message: string, n: nat): (c: seq<string>)
    ensures |c| == n
  {
    if n == 0 then [] else Copies(message, n - 1) + [message]
  }

  /** Every attempt at a publication carries its message. */
  lemma {:induction false} CopyAt(message: string, n: nat, k: nat)
    requires k < n
    ensures Copies(message, n)[k] == message
  {
    if k < n - 1 {
      CopyAt(message, n - 1, k);
    }
  }

  class Writer {
    const topic: string
    var attempts: seq<string>

    constructor (topic: string)
      ensures this.topic == topic && attempts == []
    {
      this.topic := topic;
      attempts := [];
    }
  }

  class Producer {
    const retries: nat
    var writers: map<string, Writer>
    var pauses: seq<int>

    constructor ()
      ensures Valid() && retries == PRODUCER_RETRIES && writers == map[] && pauses == []
    {
      retries := PRODUCER_RETRIES;
      writers, pauses := map[], [];
    }

    /** Every topic has its own writer. */
    ghost predicate Valid()
      reads this
    {
      forall t :: t in writers ==> writers[t].topic == t
    }

    method WriterFor(topic: string) returns (w: Writer)
      requires Valid()
      modifies this`writers
      ensures Valid() && topic in writers && writers[topic] == w
      ensures topic in old(writers) ==> writers == old(writers)
      ensures topic !in old(writers) ==> writers == old(writers)[topic := w] && fresh(w) && w.attempts == []
    {
      if topic in writers {
        return writers[topic];
      }
      w := new Writer(topic);
      writers := writers[topic := w];
    }

    /** Publishes once, retrying with a growing pause before each retry; reports failure just when
        every attempt failed. No writer but the topic's is used. */
    method Publish(topic: string, message: string, ok: nat -> bool) returns (failed: bool)
      requires Valid()
      modifies this, writers.Values
      ensures Valid() && failed == AllFail(ok, retries)
      ensures topic in writers && (topic in old(writers) ==> writers == old(writers))
      ensures writers[topic].attempts
           == (if topic in old(writers) then old(writers[topic].attempts) else []) + Copies(message, Attempts(ok, 0, retries))
      ensures forall t :: t in old(writers) && t != topic ==> t in writers && writers[t] == old(writers)[t] && unchanged(writers[t])
      ensures pauses == old(pauses) + Pauses(Attempts(ok, 0, retries) - 1)
    {
      var w := WriterFor(topic);
      failed := Write(w, message, ok);
    }

    /** The retry loop of Publish. */
    method Write(w: Writer, message: string, ok: nat -> bool) returns (failed: bool)
      modifies w, this`pauses
      ensures failed == AllFail(ok, retries)
      ensures w.attempts == old(w.attempts) + Copies(message, Attempts(ok, 0, retries))
      ensures pauses == old(pauses) + Pauses(Attempts(ok, 0, retries) - 1)
    {
      failed := false;
      var attempt: nat := 0;
      ghost var before, waited := w.attempts, pauses;
      while attempt <= retries
        invariant attempt <= retries + 1
        invariant forall k: nat :: k < attempt ==> !ok(k)
        invariant failed <==> attempt > 0
        invariant w.attempts == before + Copies(message, attempt)
        invariant pauses == waited + Pauses(if attempt == 0 then 0 else attempt - 1)
        invariant Attempts(ok, 0, retries) == attempt + Attempts(ok, attempt, retries)
      {
        Sequences.Joined(before, Copies(message, attempt), [message]);
        if attempt > 0 {
          Sequences.Joined(waited, Pauses(attempt - 1), [Pause(attempt - 1)]);
          pauses := pauses + [Pause(attempt - 1)];
        }
        w.attempts := w.attempts + [message];
        if ok(attempt) {
          failed := false;
          break;
        }
        failed := true;
        attempt := attempt + 1;
      }
    }
  }

  /** A publication that fails for good has waited 100 * (2^retries - 1) milliseconds: with the
      three retries of the producer, 700. */
  lemma FailedPublishPause(ok: nat -> bool, retries: nat)
    requires AllFail(ok, retries) && retries <= 37
    ensures Sum(Pauses(Attempts(ok, 0, retries) - 1)) == 100_000_000 * (Pow2(retries) - 1)
    ensures retries == PRODUCER_RETRIES ==> Sum(Pauses(Attempts(ok, 0, retries) - 1)) == 700_000_000
  {
    AttemptsStopAtSuccess(ok, 0, retries);
    TotalPause(retries);
    assert Pow2(3) == 8;
  }
}
