/** A request body with a byte budget. */
module BodyLimit {
  import opened Domain

  type Byte = bv8

  datatype SourceError = EndOfBody | Broken(text: string)

  datatype Error = TooLarge | Source(error: SourceError)

  /** What the underlying reader would answer: how many bytes it is ready to give, and its error.
      It never gives more than fit the buffer. */
  datatype Answer = Answer(ready: nat, error: Option<SourceError>)

  /** One call of Read: the length of the caller's buffer, and the answer underneath. */
  datatype Call = Call(length: nat, answer: Answer)

  /** The remaining budget and the part of the body not read yet. */
  datatype State = State(budget: int, rest: seq<Byte>)

  function Least(x: int, y: int): int {
    if x < y then x else y
  }

  // ----- one read ---------------------------------------------------------------------------

  /** How many bytes a call gets. */
  function Size(s: State, c: Call): (k: nat)
    ensures k <= |s.rest| && k <= c.length && (s.budget >= 0 ==> k <= s.budget)
    ensures s.budget > 0 ==>
              k <= c.answer.ready && (k == c.answer.ready || k == c.length || k == s.budget || k == |s.rest|)
  {
    if s.budget <= 0 then 0 else Least(c.answer.ready, Least(Least(c.length, s.budget), |s.rest|))
  }

  function After(s: State, c: Call): State {
    State(s.budget - Size(s, c), s.rest[Size(s, c)..])
  }

  function ErrorOf(s: State, c: Call): Option<Error> {
    if s.budget <= 0 then Some(TooLarge)
    else if c.answer.error.Some? then Some(Source(c.answer.error.value))
    else None
  }

  class Reader {
    var rest: seq<Byte>

    constructor (body: seq<Byte>)
      ensures rest == body
    {
      rest := body;
    }

    /** Any reader that obeys its contract: it fills at most the first `length` places. */
    method Read(p: array<Byte>, length: nat, answer: Answer) returns (nr: nat, error: Option<SourceError>)
      requires length <= p.Length
      modifies this, p
      ensures nr == Least(answer.ready, Least(length, |old(rest)|)) && error == answer.error
      ensures p[..nr] == old(rest)[..nr] && p[nr..] == old(p[nr..])
      ensures rest == old(rest)[nr..]
    {
      nr, error := Least(answer.ready, Least(length, |rest|)), answer.error;
      forall i | 0 <= i < nr {
        p[i] := rest[i];
      }
      rest := rest[nr..];
    }
  }

  class MaxBytesReader {
    const source: Reader
    var n: int

    constructor (source: Reader, n: int)
      ensures this.source == source && this.n == n
    {
      this.source, this.n := source, n;
    }

    ghost function View(): State
      reads this, source
    {
      State(n, source.rest)
    }

    method Read(p: array<Byte>, answer: Answer) returns (nr: nat, error: Option<Error>)
      modifies this, source, p
      ensures var c := Call(p.Length, answer);
              && nr == Size(old(View()), c) && error == ErrorOf(old(View()), c) && View() == After(old(View()), c)
      ensures p[..nr] == old(source.rest)[..nr] && p[nr..] == old(p[nr..])
    {
      if n <= 0 {
        return 0, Some(TooLarge);
      }
      var length := p.Length;
      if length > n {
        length := n;
      }
      var e;
      nr, e := source.Read(p, length, answer);
      n := n - nr;
      error := if e.Some? then Some(Source(e.value)) else None;
    }
  }

  // ----- any sequence of reads --------------------------------------------------------------

  function Run(s: State, calls: seq<Call>): State {
    if calls == [] then s else After(Run(s, calls[..|calls| - 1]), calls[|calls| - 1])
  }

  /** The bytes delivered, in order. */
  function Delivered(s: State, calls: seq<Call>): seq<Byte> {
    if calls == [] then []
    else
      var front, last := calls[..|calls| - 1], calls[|calls| - 1];
      Delivered(s, front) + Run(s, front).rest[..Size(Run(s, front), last)]
  }

  lemma Cut(body: seq<Byte>, d: nat, k: nat)
    requires d + k <= |body|
    ensures body[..d] + body[d..][..k] == body[..d + k] && body[d..][k..] == body[d + k..]
  {
  }

  /** Whatever is asked and answered, the delivered bytes are the beginning of the body, no more of
      it than the budget, and the budget is reduced by exactly their number. */
  lemma {:induction false} DeliveredIsPrefix(s: State, calls: seq<Call>)
    ensures |Delivered(s, calls)| <= |s.rest| && Delivered(s, calls) == s.rest[..|Delivered(s, calls)|]
    ensures Run(s, calls).rest == s.rest[|Delivered(s, calls)|..]
    ensures Run(s, calls).budget == s.budget - |Delivered(s, calls)|
    ensures |Delivered(s, calls)| <= if s.budget <= 0 then 0 else s.budget
  {
    if calls != [] {
      var front := calls[..|calls| - 1];
      DeliveredIsPrefix(s, front);
      var d, k := |Delivered(s, front)|, Size(Run(s, front), calls[|calls| - 1]);
      Cut(s.rest, d, k);
    }
  }

  /** A read ends in the too-large error exactly when the reads before it have used up the budget. */
  lemma TooLargeIff(s: State, calls: seq<Call>, k: nat)
    requires k < |calls|
    ensures ErrorOf(Run(s, calls[..k]), calls[k]) == Some(TooLarge) <==> s.budget <= 0 || |Delivered(s, calls[..k])| == s.budget
  {
    DeliveredIsPrefix(s, calls[..k]);
  }

  /** So once it has been raised every later read raises it too, and delivers nothing. */
  lemma {:induction false} TooLargeForGood(s: State, calls: seq<Call>, j: nat, k: nat)
    requires j <= k < |calls| && ErrorOf(Run(s, calls[..j]), calls[j]) == Some(TooLarge)
    ensures ErrorOf(Run(s, calls[..k]), calls[k]) == Some(TooLarge) && Delivered(s, calls[..k]) == Delivered(s, calls[..j])
    decreases k
  {
    if j < k {
      TooLargeForGood(s, calls, j, k - 1);
      assert calls[..k][..k - 1] == calls[..k - 1];
    }
  }

  // ----- reading to the end -----------------------------------------------------------------

  /** The first error that a sequence of reads meets. */
  function Outcome(s: State, calls: seq<Call>): Option<Error>
    decreases calls
  {
    if calls == [] then None
    else if ErrorOf(s, calls[0]).Some? then ErrorOf(s, calls[0])
    else Outcome(After(s, calls[0]), calls[1..])
  }

  /** The reader underneath reports the end of the body on a read of its own, after the last byte. */
  ghost predicate EndsApart(s: State, calls: seq<Call>)
    decreases calls
  {
    calls != [] ==>
      && (calls[0].answer.error.Some? ==> calls[0].answer.error == Some(EndOfBody) && s.rest == [])
      && EndsApart(After(s, calls[0]), calls[1..])
  }

  /** It reports the end together with the last byte. */
  ghost predicate EndsTogether(s: State, calls: seq<Call>)
    decreases calls
  {
    calls != [] ==>
      && (s.budget > 0 ==> calls[0].answer.error == if After(s, calls[0]).rest == [] then Some(EndOfBody) else None)
      && EndsTogether(After(s, calls[0]), calls[1..])
  }

  /** A body is refused although it fits: when its end is reported apart, reading it ends in the
      too-large error if and only if it is at least as long as the budget. */
  lemma {:induction false} RefusedApartIff(s: State, calls: seq<Call>)
    requires s.budget >= 0 && EndsApart(s, calls) && Outcome(s, calls).Some?
    ensures Outcome(s, calls) == Some(TooLarge) <==> |s.rest| >= s.budget
    decreases calls
  {
    if ErrorOf(s, calls[0]).None? {
      RefusedApartIff(After(s, calls[0]), calls[1..]);
    }
  }

  /** When the end comes with the last byte, if and only if it is longer than the budget. */
  lemma {:induction false} RefusedTogetherIff(s: State, calls: seq<Call>)
    requires s.budget > 0 || (s.budget == 0 && s.rest != [])
    requires EndsTogether(s, calls) && Outcome(s, calls).Some?
    ensures Outcome(s, calls) == Some(TooLarge) <==> |s.rest| > s.budget
    decreases calls
  {
    if ErrorOf(s, calls[0]).None? {
      RefusedTogetherIff(After(s, calls[0]), calls[1..]);
    }
  }
}
