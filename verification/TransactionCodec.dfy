/** The JSON value in column transaction_ids: the reserved transactions of a batch together with its
    optional settings, or, in old rows, a plain array of transactions. */
module TransactionCodec {
  import opened Domain

  /** A JSON value as it is read back: numbers are 64-bit floating-point values. */
  datatype Json =
    | Null
    | Bool(b: bool)
    | Num(x: real)
    | Str(text: string)
    | Arr(items: seq<Json>)
    | Obj(members: map<string, Json>)

  datatype Settings = Settings(ids: seq<string>, priority: string, timeout: int)

  const NO_SETTINGS := Settings([], "", 0)

  // ----- whole numbers as floating-point values ---------------------------------------------

  const TWO_53 := 0x20_0000_0000_0000
  const TWO_63 := 0x8000_0000_0000_0000

  /** The distance between neighbouring 53-bit values around n. */
  function Spacing(n: nat): (u: nat)
    ensures u >= 1
  {
    if n < TWO_53 then 1 else 2 * Spacing(n / 2)
  }

  /** Nearest 53-bit value, ties to the even one. */
  function RoundNat(n: nat): int {
    var u := Spacing(n);
    var q, r := n / u, n % u;
    if 2 * r < u || (2 * r == u && q % 2 == 0) then q * u else (q + 1) * u
  }

  function Round53(n: int): int {
    if n < 0 then -RoundNat(-n) else RoundNat(n)
  }

  function Magnitude(n: int): nat {
    if n < 0 then -n else n
  }

  lemma RoundNatIsNear(n: nat)
    ensures var u, r := Spacing(n), RoundNat(n);
            && 2 * (r - n) <= u && 2 * (n - r) <= u
            && (r == n <==> n % u == 0)
  {
    var u := Spacing(n);
    var q, r := n / u, n % u;
    assert n == q * u + r;
    assert (q + 1) * u == q * u + u;
  }

  /** A whole number survives exactly when it is a multiple of the spacing around it, which is every
      number of magnitude below 2^53, and is otherwise off by half a spacing at most. */
  lemma Round53Exact(n: int)
    ensures Round53(n) == n <==> Magnitude(n) % Spacing(Magnitude(n)) == 0
    ensures Magnitude(n) < TWO_53 ==> Round53(n) == n
    ensures 2 * Magnitude(Round53(n) - n) <= Spacing(Magnitude(n))
  {
    RoundNatIsNear(Magnitude(n));
  }

  function Truncate(x: real): int {
    if x >= 0.0 then x.Floor else -((-x).Floor)
  }

  lemma TruncateWhole(n: int)
    ensures Truncate(n as real) == n
  {
    if n < 0 {
      assert -(n as real) == (-n) as real;
    }
  }

  /** Conversion of a number to a machine integer: towards zero within 64 bits, unspecified beyond. */
  ghost predicate IsConversion(toInt: real -> int) {
    forall x: real :: -(TWO_63 as real) <= x < TWO_63 as real ==> toInt(x) == Truncate(x)
  }

  // ----- writing ----------------------------------------------------------------------------

  function Texts(ids: seq<string>): seq<Json> {
    seq(|ids|, i requires 0 <= i < |ids| => Str(ids[i]))
  }

  /** The written value, as it is read back. A record that never had transactions writes null. */
  function Wrapper(ids: Option<seq<string>>, priority: string, timeout: int): Json {
    var transactions := if ids.None? then Null else Arr(Texts(ids.value));
    if priority != "" || timeout > 0 then
      Obj(map["transactions" := transactions,
              "config" := Obj(map["priority" := Str(priority), "timeout" := Num(Round53(timeout) as real)])])
    else Obj(map["transactions" := transactions])
  }

  // ----- reading ----------------------------------------------------------------------------

  function StringMembers(items: seq<Json>): seq<string> {
    if items == [] then []
    else
      var before, last := StringMembers(items[..|items| - 1]), items[|items| - 1];
      if last.Str? then before + [last.text] else before
  }

  function Priority(config: map<string, Json>): string {
    if "priority" in config && config["priority"].Str? then config["priority"].text else ""
  }

  function Timeout(config: map<string, Json>, toInt: real -> int): int {
    if "timeout" in config && config["timeout"].Num? then toInt(config["timeout"].x) else 0
  }

  function Transactions(members: map<string, Json>): seq<string> {
    if "transactions" in members && members["transactions"].Arr? then StringMembers(members["transactions"].items) else []
  }

  /** What any stored value means; None is text that is not JSON. */
  function Decoded(raw: Option<Json>, toInt: real -> int): Settings {
    if raw.None? then NO_SETTINGS
    else
      match raw.value
      case Arr(items) => Settings(StringMembers(items), "", 0)
      case Obj(members) =>
        if "config" in members && members["config"].Obj? then
          var config := members["config"].members;
          Settings(Transactions(members), Priority(config), Timeout(config, toInt))
        else Settings(Transactions(members), "", 0)
      case _ => NO_SETTINGS
  }

  method CollectStrings(items: seq<Json>) returns (ids: seq<string>)
    ensures ids == StringMembers(items)
  {
    ids := [];
    for i := 0 to |items|
      invariant ids == StringMembers(items[..i])
    {
      assert items[..i + 1][..i] == items[..i];
      match items[i] {
        case Str(text) => ids := ids + [text];
        case _ =>
      }
    }
    assert items[..|items|] == items;
  }

  method ParseTransactionIds(raw: Option<Json>, toInt: real -> int)
    returns (ids: seq<string>, priority: string, timeout: int)
    ensures Settings(ids, priority, timeout) == Decoded(raw, toInt)
  {
    ids, priority, timeout := [], "", 0;
    if raw.None? {
      return;
    }
    match raw.value {
      case Arr(items) =>
        ids := CollectStrings(items);
      case Obj(members) =>
        if "transactions" in members && members["transactions"].Arr? {
          ids := CollectStrings(members["transactions"].items);
        }
        if "config" in members && members["config"].Obj? {
          var config := members["config"].members;
          if "priority" in config && config["priority"].Str? {
            priority := config["priority"].text;
          }
          if "timeout" in config && config["timeout"].Num? {
            timeout := toInt(config["timeout"].x);
          }
        }
      case _ =>
    }
  }

  /** The layout of the written value: the transactions, and the settings if a priority or a positive
      timeout is given. */
  lemma WrapperLayout(ids: Option<seq<string>>, priority: string, timeout: int)
    ensures var w := Wrapper(ids, priority, timeout);
            && w.Obj? && "transactions" in w.members
            && w.members["transactions"] == (if ids.None? then Null else Arr(seq(|ids.value|, i requires 0 <= i < |ids.value| => Str(ids.value[i]))))
            && ("config" in w.members <==> priority != "" || timeout > 0)
            && ("config" in w.members ==>
                  w.members["config"] == Obj(map["priority" := Str(priority), "timeout" := Num(Round53(timeout) as real)]))
  {
    if ids.Some? {
      assert Texts(ids.value) == seq(|ids.value|, i requires 0 <= i < |ids.value| => Str(ids.value[i]));
    }
  }

  // ----- what comes back --------------------------------------------------------------------

  lemma {:induction false} StringMembersOfTexts(ids: seq<string>)
    ensures StringMembers(Texts(ids)) == ids
  {
    if ids != [] {
      var front := ids[..|ids| - 1];
      StringMembersOfTexts(front);
      assert Texts(ids)[..|ids| - 1] == Texts(front);
      assert front + [ids[|ids| - 1]] == ids;
    }
  }

  /** The strings of an array are read in order and completely, whatever stands between them:
      `at` lists the positions of all of them. */
  lemma {:induction false} LegacyArray(items: seq<Json>, toInt: real -> int) returns (at: seq<nat>)
    ensures var ids := Decoded(Some(Arr(items)), toInt).ids;
            && |at| == |ids|
            && (forall k :: 0 <= k < |at| ==> at[k] < |items| && items[at[k]] == Str(ids[k]))
            && (forall j, k :: 0 <= j < k < |at| ==> at[j] < at[k])
            && (forall i :: 0 <= i < |items| && items[i].Str? ==> i in at)
  {
    if items == [] {
      at := [];
    } else {
      var front := items[..|items| - 1];
      at := LegacyArray(front, toInt);
      if items[|items| - 1].Str? {
        at := at + [|front|];
      }
      forall i | 0 <= i < |items| && items[i].Str? ensures i in at {
        assert i < |front| ==> front[i].Str?;
      }
    }
  }

  /** Transactions and priority always come back. The timeout does, if its rounded value is a 64-bit
      integer, exactly when the settings are written at all or it is 0, and it has 53 significant bits. */
  lemma RoundTripIff(ids: Option<seq<string>>, priority: string, timeout: int, toInt: real -> int)
    requires IsConversion(toInt) && -TWO_63 <= Round53(timeout) < TWO_63
    ensures var back := Decoded(Some(Wrapper(ids, priority, timeout)), toInt);
            && back.ids == (if ids.Some? then ids.value else [])
            && back.priority == priority
            && (back.timeout == timeout <==> (timeout >= 0 || priority != "") && Round53(timeout) == timeout)
  {
    if ids.Some? {
      StringMembersOfTexts(ids.value);
    }
    TruncateWhole(Round53(timeout));
    assert -(TWO_63 as real) <= Round53(timeout) as real < TWO_63 as real;
  }

  /** Values below 2^53 in magnitude are therefore safe, unless negative without a priority. */
  lemma RoundTripSmall(ids: seq<string>, priority: string, timeout: int, toInt: real -> int)
    requires IsConversion(toInt) && Magnitude(timeout) < TWO_53 && (timeout >= 0 || priority != "")
    ensures Decoded(Some(Wrapper(Some(ids), priority, timeout)), toInt) == Settings(ids, priority, timeout)
  {
    Round53Exact(timeout);
    RoundTripIff(Some(ids), priority, timeout, toInt);
  }

  /** The first timeout that does not come back, with or without a priority. */
  lemma FirstLostTimeout(ids: Option<seq<string>>, priority: string, toInt: real -> int)
    requires IsConversion(toInt)
    ensures Decoded(Some(Wrapper(ids, priority, TWO_53 + 1)), toInt).timeout == TWO_53
  {
    assert Spacing(TWO_53 + 1) == 2;
    assert Round53(TWO_53 + 1) == TWO_53;
    TruncateWhole(TWO_53);
    assert -(TWO_63 as real) <= TWO_53 as real < TWO_63 as real;
  }
}
