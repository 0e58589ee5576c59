/** Which field a column of an uploaded sheet holds, decided by its header. */
module Columns {

  /** The text functions of the platform. */
  datatype TextFunctions = TextFunctions(trim: string -> string, lower: string -> string, upper: string -> string)

  /** Field code to the headers that stand for it. */
  type Aliases = map<string, seq<string>>

  // ----- the alias table of a revision ------------------------------------------------------

  const DEFAULT_ALIASES: Aliases := map[
    "DAC" := ["first_name", "firstname", "first name", "имя", "dac"],
    "DCS" := ["last_name", "lastname", "last name", "фамилия", "dcs"],
    "DBB" := ["dob", "date_of_birth", "birthdate", "дата рождения", "dbb"],
    "DAG" := ["address", "street", "street_address", "адрес", "dag"],
    "DAI" := ["city", "город", "dai"],
    "DAJ" := ["state", "штат", "daj"],
    "DAK" := ["zip", "zipcode", "zip_code", "индекс", "dak"],
    "DBA" := ["expiration", "exp_date", "expiry", "срок действия", "dba"],
    "DBD" := ["issue_date", "issued", "дата выдачи", "dbd"]]

  const REVISION_EXTENSIONS: map<string, Aliases> := map["US_CA_08292017" := map[]]

  function ListOf(table: Aliases, code: string): seq<string> {
    if code in table then table[code] else []
  }

  /** The table extended by more aliases for old or new codes. */
  function Extended(table: Aliases, more: Aliases): Aliases {
    map code | code in table.Keys + more.Keys :: ListOf(table, code) + ListOf(more, code)
  }

  function AliasTable(revision: string): Aliases {
    if revision in REVISION_EXTENSIONS then Extended(DEFAULT_ALIASES, REVISION_EXTENSIONS[revision]) else DEFAULT_ALIASES
  }

  method BuildAliasMap(revision: string) returns (result: Aliases)
    ensures result == AliasTable(revision)
  {
    result := map[];
    var left := DEFAULT_ALIASES.Keys;
    while left != {}
      invariant left <= DEFAULT_ALIASES.Keys
      invariant result == map code | code in DEFAULT_ALIASES.Keys - left :: DEFAULT_ALIASES[code]
      decreases left
    {
      var code :| code in left;
      result := result[code := DEFAULT_ALIASES[code]];
      left := left - {code};
    }
    assert result == DEFAULT_ALIASES;
    if revision in REVISION_EXTENSIONS {
      result := Extend(result, REVISION_EXTENSIONS[revision]);
    }
  }

  /** The second loop of BuildAliasMap. */
  method Extend(table: Aliases, more: Aliases) returns (result: Aliases)
    ensures result == Extended(table, more)
  {
    result := table;
    var left := more.Keys;
    while left != {}
      invariant left <= more.Keys
      invariant result.Keys == table.Keys + (more.Keys - left)
      invariant forall code :: code in result ==>
        result[code] == ListOf(table, code) + (if code in left then [] else ListOf(more, code))
      decreases left
    {
      var code :| code in left;
      result := result[code := (if code in result then result[code] else []) + more[code]];
      left := left - {code};
    }
  }

  // ----- detection --------------------------------------------------------------------------

  predicate Stands(aliases: seq<string>, norm: string, text: TextFunctions) {
    exists i :: 0 <= i < |aliases| && norm == text.lower(aliases[i])
  }

  function Normal(header: string, text: TextFunctions): string {
    text.lower(text.trim(header))
  }

  /** The codes whose list has the header. */
  function Matching(table: Aliases, header: string, text: TextFunctions): set<string> {
    set code | code in table && code != "" && Stands(table[code], Normal(header, text), text)
  }

  /** The code of a header that no list has: the header itself if it is a code, else none. */
  function Fallback(table: Aliases, header: string, text: TextFunctions): string {
    var up := text.upper(Normal(header, text));
    if up in table then up else ""
  }

  /** What detection may answer for a header; the map of aliases is visited in any order. */
  predicate MayDetect(table: Aliases, header: string, code: string, text: TextFunctions) {
    var matching := Matching(table, header, text);
    if matching != {} then code in matching else code == Fallback(table, header, text)
  }

  method HasAlias(aliases: seq<string>, norm: string, text: TextFunctions) returns (found: bool)
    ensures found == Stands(aliases, norm, text)
  {
    found := false;
    for i := 0 to |aliases|
      invariant !Stands(aliases[..i], norm, text)
    {
      if norm == text.lower(aliases[i]) {
        return true;
      }
    }
    assert aliases[..|aliases|] == aliases;
  }

  method DetectColumn(table: Aliases, header: string, text: TextFunctions) returns (found: string)
    ensures MayDetect(table, header, found, text)
  {
    var norm := text.lower(text.trim(header));
    found := "";
    var left := table.Keys;
    while left != {} && found == ""
      invariant left <= table.Keys
      invariant found == "" ==> Matching(table, header, text) <= left
      invariant found != "" ==> found in Matching(table, header, text)
      decreases left
    {
      var code :| code in left;
      var stands := HasAlias(table[code], norm, text);
      if stands {
        found := code;
      }
      left := left - {code};
    }
    if found == "" {
      var up := text.upper(norm);
      if up in table {
        found := up;
      }
    }
  }

  method DetectColumns(headers: seq<string>, revision: string, text: TextFunctions) returns (columns: map<string, string>)
    ensures forall h :: h in columns <==> h in headers
    ensures forall h :: h in columns ==> MayDetect(AliasTable(revision), h, columns[h], text)
  {
    var table := BuildAliasMap(revision);
    columns := map[];
    for i := 0 to |headers|
      invariant forall h :: h in columns <==> h in headers[..i]
      invariant forall h :: h in columns ==> MayDetect(table, h, columns[h], text)
    {
      var code := DetectColumn(table, headers[i], text);
      columns := columns[headers[i] := code];
      assert headers[..i + 1] == headers[..i] + [headers[i]];
    }
    assert headers[..|headers|] == headers;
  }

  // ----- when the order does not matter -----------------------------------------------------

  /** No alias, lower-cased, stands in the lists of two codes. */
  ghost predicate Disjoint(table: Aliases, text: TextFunctions) {
    forall c, d, a, b :: c in table && d in table && c != d && a in table[c] && b in table[d] ==> text.lower(a) != text.lower(b)
  }

  ghost predicate OrderIndependent(table: Aliases, text: TextFunctions) {
    forall h, c, d :: MayDetect(table, h, c, text) && MayDetect(table, h, d, text) ==> c == d
  }

  lemma MatchingAlias(table: Aliases, header: string, code: string, text: TextFunctions) returns (alias: string)
    requires code in Matching(table, header, text)
    ensures alias in table[code] && text.lower(alias) == Normal(header, text)
  {
    var i :| 0 <= i < |table[code]| && Normal(header, text) == text.lower(table[code][i]);
    alias := table[code][i];
  }

  lemma DisjointIsIndependent(table: Aliases, text: TextFunctions)
    requires Disjoint(table, text)
    ensures OrderIndependent(table, text)
  {
    forall h, c, d | MayDetect(table, h, c, text) && MayDetect(table, h, d, text) ensures c == d {
      if Matching(table, h, text) != {} {
        var a := MatchingAlias(table, h, c, text);
        var b := MatchingAlias(table, h, d, text);
      }
    }
  }

  lemma AliasIsDetected(table: Aliases, code: string, alias: string, header: string, text: TextFunctions)
    requires code in table && code != "" && alias in table[code] && Normal(header, text) == text.lower(alias)
    ensures MayDetect(table, header, code, text)
  {
    var i :| 0 <= i < |table[code]| && table[code][i] == alias;
    assert code in Matching(table, header, text);
  }

  /** For a table without an empty code whose aliases carry no surrounding blanks: every header is
      detected the same in every order of visiting the table if and only if the lists are disjoint. */
  lemma OrderIndependentIff(table: Aliases, text: TextFunctions)
    requires "" !in table && forall c, a :: c in table && a in table[c] ==> text.trim(a) == a
    ensures OrderIndependent(table, text) <==> Disjoint(table, text)
  {
    if Disjoint(table, text) {
      DisjointIsIndependent(table, text);
    }
    if !Disjoint(table, text) {
      var c, d, a, b :| c in table && d in table && c != d && a in table[c] && b in table[d] && text.lower(a) == text.lower(b);
      AliasIsDetected(table, c, a, a, text);
      AliasIsDetected(table, d, b, a, text);
    }
  }

  /** The code of a shipped alias, read off its length and first letters. */
  function Owner(alias: string): string {
    if |alias| < 3 then ""
    else if |alias| == 3 && alias[0] == 'd' && alias[1] == 'a' then
      match alias[2]
      case 'c' => "DAC"
      case 'g' => "DAG"
      case 'i' => "DAI"
      case 'j' => "DAJ"
      case 'k' => "DAK"
      case _ => ""
    else if |alias| == 3 && alias[0] == 'd' && alias[1] == 'b' then
      match alias[2]
      case 'a' => "DBA"
      case 'b' => "DBB"
      case 'd' => "DBD"
      case _ => ""
    else
      match alias[0]
      case 'f' => "DAC"
      case 'и' => if |alias| == 3 then "DAC" else "DAK"
      case 'l' => "DCS"
      case 'ф' => "DCS"
      case 'd' => if alias[1] == 'c' then "DCS" else "DBB"
      case 'b' => "DBB"
      case 'д' => if |alias| == 13 then "DBB" else "DBD"
      case 'a' => "DAG"
      case 'а' => "DAG"
      case 's' => if alias[2] == 'r' then "DAG" else "DAJ"
      case 'c' => "DAI"
      case 'г' => "DAI"
      case 'ш' => "DAJ"
      case 'z' => "DAK"
      case 'e' => "DBA"
      case 'с' => "DBA"
      case 'i' => "DBD"
      case _ => ""
  }

  lemma OwnersOf(code: string)
    requires code in DEFAULT_ALIASES
    ensures forall i :: 0 <= i < |DEFAULT_ALIASES[code]| ==> Owner(DEFAULT_ALIASES[code][i]) == code
  {
  }

  /** A table whose aliases are in lower case and tell their code is disjoint. */
  lemma OwnedIsDisjoint(table: Aliases, text: TextFunctions)
    requires forall c, a :: c in table && a in table[c] ==> text.lower(a) == a
    requires forall c :: c in table ==> forall i :: 0 <= i < |table[c]| ==> Owner(table[c][i]) == c
    ensures Disjoint(table, text)
  {
  }

  lemma ExtendedByNothing(table: Aliases)
    ensures Extended(table, map[]) == table
  {
    forall code | code in table ensures ListOf(table, code) + ListOf(map[], code) == table[code] {
    }
  }

  /** The shipped table, which every revision uses and whose aliases are in lower case, is disjoint,
      so the order in which it is visited never shows. */
  lemma ShippedTableDisjoint(revision: string, text: TextFunctions)
    requires forall c, a :: c in DEFAULT_ALIASES && a in DEFAULT_ALIASES[c] ==> text.lower(a) == a
    ensures AliasTable(revision) == DEFAULT_ALIASES
    ensures Disjoint(AliasTable(revision), text) && OrderIndependent(AliasTable(revision), text)
  {
    ExtendedByNothing(DEFAULT_ALIASES);
    forall c | c in DEFAULT_ALIASES ensures forall i :: 0 <= i < |DEFAULT_ALIASES[c]| ==> Owner(DEFAULT_ALIASES[c][i]) == c {
      OwnersOf(c);
    }
    OwnedIsDisjoint(DEFAULT_ALIASES, text);
    DisjointIsIndependent(DEFAULT_ALIASES, text);
  }

  /** With a disjoint table a header is detected by its trimmed, lower-cased text: as the code in whose
      list that text stands, in lower case; else as itself, if it is a code when upper-cased; else not. */
  lemma DetectedByText(table: Aliases, header: string, code: string, text: TextFunctions)
    requires "" !in table && Disjoint(table, text) && MayDetect(table, header, code, text)
    ensures forall c, a :: c in table && a in table[c] && text.lower(text.trim(header)) == text.lower(a) ==> code == c
    ensures (forall c, a :: c in table && a in table[c] ==> text.lower(text.trim(header)) != text.lower(a)) ==>
              code == if text.upper(text.lower(text.trim(header))) in table then text.upper(text.lower(text.trim(header))) else ""
  {
    forall c, a | c in table && a in table[c] && text.lower(text.trim(header)) == text.lower(a) ensures code == c {
      AliasIsDetected(table, c, a, header, text);
      DisjointIsIndependent(table, text);
    }
    if forall c, a :: c in table && a in table[c] ==> text.lower(text.trim(header)) != text.lower(a) {
      if c :| c in Matching(table, header, text) {
        var a := MatchingAlias(table, header, c, text);
        assert false;
      }
    }
  }
}
