/** The local validation of a row by the field rules of a revision. */
module Validation {
  import opened Domain

  datatype Code = MissingMandatory | InvalidFormat | TooShort | TooLong | OtherCode(text: string)

  /** `message` names the field. */
  datatype ValidationError = ValidationError(code: Code, message: string)

  /** `pattern` tells whether a value has the required format; a length bound of 0 or less is none. */
  datatype FieldRule = FieldRule(pattern: Option<string -> bool>, minLength: int, maxLength: int, mandatory: bool)

  type Rules = map<string, FieldRule>

  /** The length of a text is its number of bytes in UTF-8. */
  function Utf8Size(c: char): nat {
    var v := c as int;
    if v < 0x80 then 1 else if v < 0x800 then 2 else if v < 0x1_0000 then 3 else 4
  }

  function ByteLength(s: string): nat {
    if s == "" then 0 else ByteLength(s[..|s| - 1]) + Utf8Size(s[|s| - 1])
  }

  /** Bytes are characters only for plain ASCII; any other text is taken as longer than it reads. */
  lemma {:induction false} ByteLengthIsLengthIff(s: string)
    ensures ByteLength(s) >= |s|
    ensures ByteLength(s) == |s| <==> forall i :: 0 <= i < |s| ==> s[i] as int < 0x80
  {
    if s != "" {
      var front := s[..|s| - 1];
      ByteLengthIsLengthIff(front);
      assert forall i :: 0 <= i < |front| ==> front[i] == s[i];
    }
  }

  // ----- one field --------------------------------------------------------------------------

  predicate Missing(rule: FieldRule, value: string) {
    rule.mandatory && value == ""
  }

  predicate Malformed(rule: FieldRule, value: string) {
    value != "" && rule.pattern.Some? && !rule.pattern.value(value)
  }

  predicate Short(rule: FieldRule, value: string) {
    rule.minLength > 0 && ByteLength(value) < rule.minLength
  }

  predicate Long(rule: FieldRule, value: string) {
    rule.maxLength > 0 && ByteLength(value) > rule.maxLength
  }

  /** A field without a rule passes; a failing one reports the first of its faults. */
  function Validate(rules: Rules, field: string, value: string): (error: Option<ValidationError>)
    ensures error.None? <==> field in rules ==>
      !Missing(rules[field], value) && !Malformed(rules[field], value) && !Short(rules[field], value) && !Long(rules[field], value)
  {
    if field !in rules then None
    else if Missing(rules[field], value) then Some(ValidationError(MissingMandatory, "Field " + field + " is required"))
    else if Malformed(rules[field], value) then Some(ValidationError(InvalidFormat, "Field " + field + " has invalid format"))
    else if Short(rules[field], value) then Some(ValidationError(TooShort, "Field " + field + " is too short"))
    else if Long(rules[field], value) then Some(ValidationError(TooLong, "Field " + field + " is too long"))
    else None
  }

  /** When a field passes: a mandatory one is not empty, a value has the required format, and its number
      of bytes lies within the positive bounds, both included. */
  lemma FieldPassesIff(rules: Rules, field: string, value: string)
    ensures Validate(rules, field, value) == None
       <==> (field in rules ==>
               && (rules[field].mandatory ==> value != "")
               && (rules[field].pattern.Some? && value != "" ==> rules[field].pattern.value(value))
               && (rules[field].minLength > 0 ==> rules[field].minLength <= ByteLength(value))
               && (rules[field].maxLength > 0 ==> ByteLength(value) <= rules[field].maxLength))
  {
  }

  /** The code of each fault: emptiness comes before the format, the format before the lengths. */
  lemma FaultCodes(rules: Rules, field: string, value: string)
    requires field in rules && Validate(rules, field, value).Some?
    ensures var code, rule := Validate(rules, field, value).value.code, rules[field];
            && (code == MissingMandatory <==> rule.mandatory && value == "")
            && (code == InvalidFormat <==> value != "" && rule.pattern.Some? && !rule.pattern.value(value))
            && (code == TooShort ==> rule.minLength > 0 && ByteLength(value) < rule.minLength)
            && (code == TooLong ==> rule.maxLength > 0 && ByteLength(value) > rule.maxLength)
            && (code == MissingMandatory || code == InvalidFormat || code == TooShort || code == TooLong)
  {
  }

  // ----- a row ------------------------------------------------------------------------------

  /** The fields of a row that fail. */
  function Failing(rules: Rules, row: map<string, string>): set<string> {
    set field | field in row && Validate(rules, field, row[field]).Some?
  }

  predicate Passes(rules: Rules, row: map<string, string>) {
    Failing(rules, row) == {}
  }

  /** One error for each failing field, in the order in which the row was visited. */
  ghost predicate IsReport(rules: Rules, row: map<string, string>, errors: seq<ValidationError>, order: seq<string>) {
    && |errors| == |order|
    && (forall field :: field in order <==> field in Failing(rules, row))
    && (forall i, j :: 0 <= i < j < |order| ==> order[i] != order[j])
    && (forall i :: 0 <= i < |order| ==> order[i] in row && Validate(rules, order[i], row[order[i]]) == Some(errors[i]))
  }

  method ValidateRow(rules: Rules, row: map<string, string>) returns (valid: bool, errors: seq<ValidationError>, ghost order: seq<string>)
    ensures valid == Passes(rules, row)
    ensures IsReport(rules, row, errors, order)
  {
    valid, errors, order := true, [], [];
    var left := row.Keys;
    while left != {}
      invariant left <= row.Keys
      invariant valid <==> order == []
      invariant |errors| == |order|
      invariant forall field :: field in order <==> field in Failing(rules, row) && field !in left
      invariant forall i, j :: 0 <= i < j < |order| ==> order[i] != order[j]
      invariant forall i :: 0 <= i < |order| ==> order[i] in row && Validate(rules, order[i], row[order[i]]) == Some(errors[i])
      decreases left
    {
      var field :| field in left;
      var error := Validate(rules, field, row[field]);
      if error.Some? {
        valid := false;
        errors, order := errors + [error.value], order + [field];
      }
      left := left - {field};
    }
    assert order == [] ==> Failing(rules, row) == {};
    assert order != [] ==> order[0] in Failing(rules, row);
  }

  lemma {:induction false} SetSize(order: seq<string>, fields: set<string>)
    requires forall field :: field in order <==> field in fields
    requires forall i, j :: 0 <= i < j < |order| ==> order[i] != order[j]
    ensures |order| == |fields|
  {
    if order != [] {
      var front, last := order[..|order| - 1], order[|order| - 1];
      forall field ensures field in front <==> field in fields - {last} {
        if field in fields - {last} {
          var i :| 0 <= i < |order| && order[i] == field;
          assert front[i] == field;
        }
      }
      SetSize(front, fields - {last});
    } else {
      assert fields == {};
    }
  }

  /** A rejected row reports as many errors as it has failing fields. */
  lemma ReportSize(rules: Rules, row: map<string, string>, errors: seq<ValidationError>, order: seq<string>)
    requires IsReport(rules, row, errors, order)
    ensures |errors| == |Failing(rules, row)|
  {
    SetSize(order, Failing(rules, row));
  }

  predicate MandatoryFilled(rules: Rules, row: map<string, string>) {
    forall field :: field in rules && rules[field].mandatory ==> field in row && row[field] != ""
  }

  /** Only the fields that a row has are checked: a row that passes has all mandatory fields filled
      if and only if it has them at all. */
  lemma MandatoryFilledIff(rules: Rules, row: map<string, string>)
    requires Passes(rules, row)
    ensures MandatoryFilled(rules, row) <==> forall field :: field in rules && rules[field].mandatory ==> field in row
  {
    forall field | field in row && field in rules && rules[field].mandatory ensures row[field] != "" {
      assert field !in Failing(rules, row);
    }
  }

  /** A sheet without any of the mandatory columns therefore passes row by row. */
  lemma AbsentFieldsPass(rules: Rules, row: map<string, string>)
    requires forall field :: field in row ==> field !in rules
    ensures Passes(rules, row)
  {
  }
}
