/** Input validation: phone and Aadhar formats, password strength, role names,
    required fields, sanitising, and the schema check. Regular-expression
    character classes are read over ASCII. */
module Validators {
  import opened Wrappers
  import opened Text
  import opened Json
  import UserModel
  import Tables

  /** `validate_phone_number(phone)`: `re.match(r'^[6-9]\d{9}$', phone)`.
      `$` also matches before one final newline. */
  predicate ValidatePhoneNumber(phone: string)
  {
    var body := if |phone| == 11 && phone[10] == '\n' then phone[..10] else phone;
    |body| == 10 && '6' <= body[0] <= '9' && AllDigits(body[1..])
  }

  /** A digits-only phone (which is what normalisation produces) passes exactly
      when it has ten digits and starts with 6, 7, 8 or 9. */
  lemma PhoneOfDigits(phone: string)
    requires AllDigits(phone)
    ensures ValidatePhoneNumber(phone) <==> |phone| == 10 && '6' <= phone[0] <= '9'
  {
    if |phone| == 11 { assert IsDigit(phone[10]); }
  }

  /** The one other string shape the pattern admits: ten good digits and a newline. */
  lemma PhoneTrailingNewline(phone: string)
    requires |phone| == 10 && '6' <= phone[0] <= '9' && AllDigits(phone)
    ensures ValidatePhoneNumber(phone) && ValidatePhoneNumber(phone + "\n")
  {
    assert (phone + "\n")[..10] == phone;
  }

  // ---------------------------------------------------------------- passwords

  const SpecialChars: string := "!@#$%^&*(),.?\":{}|<>"

  /** The five rules, in the order they are checked. */
  datatype PasswordRule = MinLength | Uppercase | Lowercase | Digit | Special

  predicate HasUpper(p: string) { exists i :: 0 <= i < |p| && IsUpper(p[i]) }
  predicate HasLower(p: string) { exists i :: 0 <= i < |p| && IsLower(p[i]) }
  predicate HasDigit(p: string) { exists i :: 0 <= i < |p| && IsDigit(p[i]) }
  predicate HasSpecial(p: string) { exists i :: 0 <= i < |p| && p[i] in SpecialChars }

  predicate Holds(rule: PasswordRule, p: string)
  {
    match rule
    case MinLength => |p| >= 8
    case Uppercase => HasUpper(p)
    case Lowercase => HasLower(p)
    case Digit => HasDigit(p)
    case Special => HasSpecial(p)
  }

  function RuleMessage(rule: PasswordRule): string
  {
    match rule
    case MinLength => "Password must be at least 8 characters long"
    case Uppercase => "Password must contain at least one uppercase letter"
    case Lowercase => "Password must contain at least one lowercase letter"
    case Digit => "Password must contain at least one digit"
    case Special => "Password must contain at least one special character"
  }

  /** A strong password: every rule holds. */
  predicate Strong(p: string)
  {
    |p| >= 8 && HasUpper(p) && HasLower(p) && HasDigit(p) && HasSpecial(p)
  }

  /** `rule` as a list of the rules `p` breaks: empty when it holds. */
  function Broken(rule: PasswordRule, p: string): seq<PasswordRule>
  {
    if Holds(rule, p) then [] else [rule]
  }

  /** The rules `p` breaks, in checking order. */
  function BrokenRules(p: string): seq<PasswordRule>
  {
    Broken(MinLength, p) + Broken(Uppercase, p) + Broken(Lowercase, p) + Broken(Digit, p) + Broken(Special, p)
  }

  /** The messages of the rules `p` breaks, in checking order. */
  function PasswordErrors(p: string): seq<string>
  {
    Labelled(BrokenRules(p), RuleMessage)
  }

  /** `validate_password_strength(password)`: one message per broken rule, in
      rule order; ok exactly when the password is strong. */
  method ValidatePasswordStrength(password: string) returns (ok: bool, errors: seq<string>)
    ensures errors == PasswordErrors(password)
    ensures ok <==> errors == []
    ensures ok <==> Strong(password)
  {
    errors := [];
    ghost var broken: seq<PasswordRule> := [];
    errors, broken := CheckRule(errors, broken, MinLength, password);
    errors, broken := CheckRule(errors, broken, Uppercase, password);
    errors, broken := CheckRule(errors, broken, Lowercase, password);
    errors, broken := CheckRule(errors, broken, Digit, password);
    errors, broken := CheckRule(errors, broken, Special, password);
    assert broken == BrokenRules(password);
    StrongBreaksNothing(password);
    ok := |errors| == 0;
  }

  /** One `if not ...: errors.append(message)` step, with the rules reported so far alongside. */
  method CheckRule(errors: seq<string>, ghost broken: seq<PasswordRule>, rule: PasswordRule, p: string)
    returns (errors': seq<string>, ghost broken': seq<PasswordRule>)
    requires errors == Labelled(broken, RuleMessage)
    ensures broken' == broken + Broken(rule, p)
    ensures errors' == Labelled(broken', RuleMessage)
  {
    if Holds(rule, p) {
      return errors, broken;
    }
    errors', broken' := errors + [RuleMessage(rule)], broken + [rule];
    assert forall i :: 0 <= i < |broken'| ==> errors'[i] == RuleMessage(broken'[i]);
  }

  /** A password is strong exactly when it breaks no rule. */
  lemma StrongBreaksNothing(p: string)
    ensures Strong(p) <==> BrokenRules(p) == []
  {
  }

  /** Each rule's message is reported exactly when the rule is broken. */
  lemma PasswordErrorsMeaning(p: string, rule: PasswordRule)
    ensures RuleMessage(rule) in PasswordErrors(p) <==> !Holds(rule, p)
    ensures |PasswordErrors(p)| <= 5
  {
    MessagesInjective();
    MessagesMeaning(BrokenRules(p), rule, RuleMessage);
    BrokenRulesMeaning(p, rule);
  }

  /** A rule is listed as broken exactly when it does not hold; at most five are. */
  lemma BrokenRulesMeaning(p: string, rule: PasswordRule)
    ensures rule in BrokenRules(p) <==> !Holds(rule, p)
    ensures |BrokenRules(p)| <= 5
  {
    assert rule in BrokenRules(p) <==> rule in Broken(rule, p);
  }

  /** Each rule of `rules` under its name from `name`. */
  function Labelled(rules: seq<PasswordRule>, name: PasswordRule -> string): (ms: seq<string>)
    ensures |ms| == |rules|
  {
    seq(|rules|, i requires 0 <= i < |rules| => name(rules[i]))
  }

  /** Under labels that tell the rules apart, a rule's label is among the
      labels exactly when the rule is among the rules. */
  lemma MessagesMeaning(rules: seq<PasswordRule>, rule: PasswordRule, name: PasswordRule -> string)
    requires forall r1, r2 :: r1 != r2 ==> name(r1) != name(r2)
    ensures name(rule) in Labelled(rules, name) <==> rule in rules
  {
    var ms := Labelled(rules, name);
    if rule in rules {
      var i :| 0 <= i < |rules| && rules[i] == rule;
      assert ms[i] == name(rule);
    }
  }

  lemma MessagesInjective()
    ensures forall r1, r2 :: r1 != r2 ==> RuleMessage(r1) != RuleMessage(r2)
  {
    forall r1, r2 | r1 != r2
      ensures RuleMessage(r1) != RuleMessage(r2)
    {
      MessagesDistinct(r1, r2);
    }
  }

  lemma MessagesDistinct(r1: PasswordRule, r2: PasswordRule)
    requires r1 != r2
    ensures RuleMessage(r1) != RuleMessage(r2)
  {
    MessageMark(r1);
    MessageMark(r2);
  }

  /** The character that tells the messages apart. */
  function Mark(m: string): char
  {
    if |m| <= 35 then ' ' else if m[14] == 'b' then 'b' else m[35]
  }

  function RuleMark(rule: PasswordRule): char
  {
    match rule
    case MinLength => 'b'
    case Uppercase => 'u'
    case Lowercase => 'l'
    case Digit => 'd'
    case Special => 's'
  }

  lemma MessageMark(rule: PasswordRule)
    ensures Mark(RuleMessage(rule)) == RuleMark(rule)
  {
  }

  /** The text `"; ".join(errors)` the registration services put after
      "Password requirements not met: ". */
  function PasswordErrorText(p: string): string
  {
    Join(PasswordErrors(p), "; ")
  }

  // ---------------------------------------------------------------- Aadhar

  /** `validate_aadhar_number(aadhar)`: empty is accepted (the field is
      optional); otherwise twelve digits must remain once whitespace is removed. */
  predicate ValidateAadharNumber(aadhar: string)
  {
    aadhar == "" ||
    var clean := RemoveWhere(aadhar, IsSpace);
    |clean| == 12 && AllDigits(clean)
  }

  /** Without whitespace in it, an Aadhar number passes exactly when it is
      empty or twelve digits. */
  lemma AadharWithoutSpaces(aadhar: string)
    requires forall i :: 0 <= i < |aadhar| ==> !IsSpace(aadhar[i])
    ensures ValidateAadharNumber(aadhar) <==> aadhar == "" || (|aadhar| == 12 && AllDigits(aadhar))
  {
    RemoveNothing(aadhar, IsSpace);
  }

  lemma {:induction false} RemoveNothing(s: string, drop: char -> bool)
    requires forall i :: 0 <= i < |s| ==> !drop(s[i])
    ensures RemoveWhere(s, drop) == s
  {
    if s != [] { RemoveNothing(s[1..], drop); }
  }

  // ---------------------------------------------------------------- roles

  /** `validate_user_role(role)` for a value that arrived as JSON: true
      exactly for the strings "farmer", "veterinarian" and "admin". */
  predicate ValidateUserRole(role: Value)
  {
    role.Str? && UserModel.ParseRole(role.s).Some?
  }

  lemma ValidateUserRoleExactly(role: Value)
    ensures ValidateUserRole(role) <==> role in {Str("farmer"), Str("veterinarian"), Str("admin")}
  {
    if role.Str? { UserModel.RoleValuesRoundTrip(UserModel.Farmer, role.s); }
  }

  // ---------------------------------------------------------------- required fields

  /** A required field is missing when it is absent, falsy, or a string of
      whitespace only (`str(value).strip() == ''` can hold of no other truthy value). */
  predicate Missing(data: Dict, field: string)
  {
    var v := Get(data, field);
    !HasKey(data, field) || Falsy(v) || (v.Str? && Strip(v.s) == "")
  }

  /** The missing fields among `required`, in their order. */
  function MissingFields(data: Dict, required: seq<string>): seq<string>
  {
    Tables.Filter(required, f => Missing(data, f))
  }

  /** `validate_required_fields(data, required_fields)`. */
  method ValidateRequiredFields(data: Dict, required: seq<string>) returns (ok: bool, missing: seq<string>)
    ensures missing == MissingFields(data, required)
    ensures forall i :: 0 <= i < |missing| ==> missing[i] in required && Missing(data, missing[i])
    ensures forall i :: 0 <= i < |required| && Missing(data, required[i]) ==> required[i] in missing
    ensures ok <==> missing == []
  {
    missing := [];
    var k := 0;
    while k < |required|
      invariant 0 <= k <= |required|
      invariant missing + MissingFields(data, required[k..]) == MissingFields(data, required)
    {
      assert required[k..] == [required[k]] + required[k + 1..];
      if Missing(data, required[k]) {
        missing := missing + [required[k]];
      }
      k := k + 1;
    }
    ok := |missing| == 0;
  }

  /** `"Missing required fields: " + ", ".join(missing)`. */
  function MissingFieldsMessage(missing: seq<string>): string
  {
    "Missing required fields: " + Join(missing, ", ")
  }

  // ---------------------------------------------------------------- sanitising

  predicate Unsafe(c: char) { c in "<>\"'&" }

  /** Python's `s[:n]`: a negative `n` counts from the end. */
  function SliceTo(s: string, n: int): (r: string)
    ensures |r| <= |s| && r == s[..|r|]
    ensures n >= 0 ==> |r| == if n < |s| then n else |s|
  {
    if n >= 0 then (if n < |s| then s[..n] else s)
    else if |s| + n > 0 then s[..|s| + n] else []
  }

  /** `sanitize_string(value, max_length)` for a string value: strip, drop
      `< > " ' &`, then cut to `max_length` when it is given, non-zero and exceeded. */
  function SanitizeString(value: string, maxLength: Option<int>): (r: string)
    ensures forall i :: 0 <= i < |r| ==> !Unsafe(r[i])
    ensures maxLength.Some? && maxLength.value > 0 ==> |r| <= maxLength.value
    ensures |r| <= |value|
  {
    var cleaned := RemoveWhere(Strip(value), Unsafe);
    if maxLength.Some? && maxLength.value != 0 && |cleaned| > maxLength.value
    then SliceTo(cleaned, maxLength.value)
    else cleaned
  }

  // ---------------------------------------------------------------- schema

  /** The Python types a schema may name. */
  datatype PyType = StrType | IntType | FloatType | BoolType | ListType | DictType

  function TypeName(t: PyType): string
  {
    match t
    case StrType => "str"
    case IntType => "int"
    case FloatType => "float"
    case BoolType => "bool"
    case ListType => "list"
    case DictType => "dict"
  }

  /** `isinstance(v, t)`; a boolean is also an `int`. */
  predicate IsInstance(v: Value, t: PyType)
  {
    match t
    case StrType => v.Str?
    case IntType => v.Int? || v.Bool?
    case FloatType => v.Float?
    case BoolType => v.Bool?
    case ListType => v.List?
    case DictType => v.Obj?
  }

  /** One entry of a schema; a length of 0 counts as not given, as in the source. */
  datatype Rules = Rules(
    required: bool,
    expectedType: Option<PyType>,
    minLength: Option<int>,
    maxLength: Option<int>,
    validator: Option<Value -> bool>,
    message: Option<string>)

  /** The errors one field contributes in `validate_json_data`. */
  function FieldErrors(field: string, rules: Rules, value: Value): (r: seq<string>)
  {
    if rules.required && Falsy(value) then [field + " is required"]
    else if Falsy(value) then []
    else if rules.expectedType.Some? && !IsInstance(value, rules.expectedType.value) then
      [field + " must be of type " + TypeName(rules.expectedType.value)]
    else
      var lengthErrors :=
        if value.Str? then
          (if rules.minLength.Some? && rules.minLength.value != 0 && |value.s| < rules.minLength.value
           then [field + " must be at least " + IntToString(rules.minLength.value) + " characters"] else [])
          + (if rules.maxLength.Some? && rules.maxLength.value != 0 && |value.s| > rules.maxLength.value
             then [field + " must be at most " + IntToString(rules.maxLength.value) + " characters"] else [])
        else [];
      var validatorErrors :=
        if rules.validator.Some? && !rules.validator.value(value) then
          [if rules.message.Some? then rules.message.value else field + " is invalid"]
        else [];
      lengthErrors + validatorErrors
  }

  /** The errors of a whole schema, field by field in schema order. */
  function SchemaErrors(data: Dict, schema: seq<(string, Rules)>): seq<string>
  {
    if schema == [] then []
    else SchemaErrors(data, schema[..|schema| - 1])
         + FieldErrors(schema[|schema| - 1].0, schema[|schema| - 1].1, Get(data, schema[|schema| - 1].0))
  }

  /** The body of `validate_json_data`'s loop for one field. */
  method CheckField(field: string, rules: Rules, value: Value) returns (errors: seq<string>)
    ensures errors == FieldErrors(field, rules, value)
  {
    errors := [];
    if rules.required && Falsy(value) {
      return [field + " is required"];
    }
    if Falsy(value) {
      return [];
    }
    if rules.expectedType.Some? && !IsInstance(value, rules.expectedType.value) {
      return [field + " must be of type " + TypeName(rules.expectedType.value)];
    }
    if value.Str? {
      if rules.minLength.Some? && rules.minLength.value != 0 && |value.s| < rules.minLength.value {
        errors := errors + [field + " must be at least " + IntToString(rules.minLength.value) + " characters"];
      }
      if rules.maxLength.Some? && rules.maxLength.value != 0 && |value.s| > rules.maxLength.value {
        errors := errors + [field + " must be at most " + IntToString(rules.maxLength.value) + " characters"];
      }
    }
    if rules.validator.Some? && !rules.validator.value(value) {
      var message := if rules.message.Some? then rules.message.value else field + " is invalid";
      errors := errors + [message];
    }
  }

  /** `validate_json_data(data, schema)`. */
  method ValidateJsonData(data: Dict, schema: seq<(string, Rules)>) returns (ok: bool, errors: seq<string>)
    ensures errors == SchemaErrors(data, schema)
    ensures ok <==> errors == []
  {
    errors := [];
    var k := 0;
    while k < |schema|
      invariant 0 <= k <= |schema|
      invariant errors == SchemaErrors(data, schema[..k])
    {
      var (field, rules) := schema[k];
      var fieldErrors := CheckField(field, rules, Get(data, field));
      assert schema[..k + 1][..k] == schema[..k];
      errors := errors + fieldErrors;
      k := k + 1;
    }
    assert schema[..|schema|] == schema;
    ok := |errors| == 0;
  }

  /** A required field with a falsy value reports exactly "<field> is required"
      and nothing else; an optional falsy field reports nothing. */
  lemma FalsyFieldErrors(field: string, rules: Rules, value: Value)
    requires Falsy(value)
    ensures rules.required ==> FieldErrors(field, rules, value) == [field + " is required"]
    ensures !rules.required ==> FieldErrors(field, rules, value) == []
  {
  }

  /** The schema passes exactly when every field passes on its own. */
  lemma {:induction false} SchemaErrorsEmpty(data: Dict, schema: seq<(string, Rules)>)
    ensures SchemaErrors(data, schema) == [] <==>
            forall i :: 0 <= i < |schema| ==> FieldErrors(schema[i].0, schema[i].1, Get(data, schema[i].0)) == []
  {
    if schema != [] {
      var init := schema[..|schema| - 1];
      SchemaErrorsEmpty(data, init);
      assert forall i :: 0 <= i < |init| ==> init[i] == schema[i];
    }
  }
}
