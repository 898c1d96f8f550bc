/**
 * The validation rules that the pages attach to their fields when they
 * register them with the form library (`required`, `min`, `minLength`,
 * `pattern`, `validate`), with the library's semantics: the rules are tried
 * in that fixed order and the first one that fails gives the field's only
 * message; `min`, `minLength` and `pattern` are not tried on an empty value;
 * `validate` is tried on every value. A form is submitted only when no
 * registered field has a message.
 */
module FormRules {
  import opened Platform
  import EmailAddress

  /** A field's value: the text of a text input, or the number of a `valueAsNumber` input (none when it is empty). */
  datatype Input = TextInput(text: string) | NumberInput(number: Option<real>)

  datatype Bound = Bound(least: real, message: string)
  datatype Length = Length(least: nat, message: string)

  /** The only pattern any page registers is the email address pattern. */
  datatype PatternRule = EmailPattern(message: string)

  /** The one `validate` function in use: the value must equal another field's current value. */
  datatype Check = MustEqual(other: string, message: string)

  /** The options object given to `register(name, options)`. */
  datatype Rules = Rules(
    required: Option<string>,
    min: Option<Bound>,
    minLength: Option<Length>,
    pattern: Option<PatternRule>,
    validate: Option<Check>)

  const NoRules := Rules(None, None, None, None, None)

  predicate IsEmpty(input: Input) {
    match input
    case TextInput(t) => t == ""
    case NumberInput(n) => n.None?
  }

  /** Every rule holds of the value, stated rule by rule with no order among them. */
  predicate Satisfies(rules: Rules, input: Input) {
    && (rules.required.Some? ==> !IsEmpty(input))
    && (rules.min.Some? && input.NumberInput? && input.number.Some? ==>
          input.number.value >= rules.min.value.least)
    && (rules.minLength.Some? && input.TextInput? && input.text != "" ==>
          |input.text| >= rules.minLength.value.least)
    && (rules.pattern.Some? && input.TextInput? && input.text != "" ==>
          EmailAddress.IsValid(input.text))
    && (rules.validate.Some? && input.TextInput? ==>
          input.text == rules.validate.value.other)
  }

  /** The messages a field with these rules can show. */
  function Messages(rules: Rules): set<string> {
    (if rules.required.Some? then {rules.required.value} else {})
    + (if rules.min.Some? then {rules.min.value.message} else {})
    + (if rules.minLength.Some? then {rules.minLength.value.message} else {})
    + (if rules.pattern.Some? then {rules.pattern.value.message} else {})
    + (if rules.validate.Some? then {rules.validate.value.message} else {})
  }

  /** The message the library shows under a field: that of the first failing rule. */
  function FieldError(rules: Rules, input: Input): (r: Option<string>)
    ensures r.None? <==> Satisfies(rules, input)
    ensures r.Some? ==> r.value in Messages(rules)
    ensures IsEmpty(input) && rules.required.Some? ==> r == rules.required
  {
    if IsEmpty(input) && rules.required.Some? then rules.required
    else if !IsEmpty(input) && rules.min.Some? && input.NumberInput?
         && input.number.value < rules.min.value.least then Some(rules.min.value.message)
    else if !IsEmpty(input) && rules.minLength.Some? && input.TextInput?
         && |input.text| < rules.minLength.value.least then Some(rules.minLength.value.message)
    else if !IsEmpty(input) && rules.pattern.Some? && input.TextInput?
         && !EmailAddress.IsValid(input.text) then Some(rules.pattern.value.message)
    else if rules.validate.Some? && input.TextInput?
         && input.text != rules.validate.value.other then Some(rules.validate.value.message)
    else None
  }

  /** A field name paired with the message shown under it. */
  datatype FieldMessage = FieldMessage(field: string, message: string)

  /** A registered field: its name, its rules and its current value. */
  datatype Field = Field(name: string, rules: Rules, input: Input)

  /** The messages of a whole form, field by field in the given order. */
  function FormErrors(fields: seq<Field>): (errors: seq<FieldMessage>)
    ensures errors == [] <==> forall i :: 0 <= i < |fields| ==> Satisfies(fields[i].rules, fields[i].input)
    ensures |errors| <= |fields|
  {
    if fields == [] then []
    else
      var rest := FormErrors(fields[1..]);
      match FieldError(fields[0].rules, fields[0].input)
      case None => rest
      case Some(m) => [FieldMessage(fields[0].name, m)] + rest
  }

  /** The form lists the message of every field that has one, under that field's name. */
  lemma {:induction false} FieldMessagesListed(fields: seq<Field>)
    ensures forall i :: 0 <= i < |fields| && FieldError(fields[i].rules, fields[i].input).Some? ==>
              FieldMessage(fields[i].name, FieldError(fields[i].rules, fields[i].input).value) in FormErrors(fields)
    decreases |fields|
  {
    if fields != [] {
      var rest := fields[1..];
      FieldMessagesListed(rest);
      var errors := FormErrors(fields);
      assert forall x :: x in FormErrors(rest) ==> x in errors;
      forall i | 1 <= i < |fields| && FieldError(fields[i].rules, fields[i].input).Some?
        ensures FieldMessage(fields[i].name, FieldError(fields[i].rules, fields[i].input).value) in errors
      {
        assert fields[i] == rest[i - 1];
      }
    }
  }

  /** Every message the form lists is the message of one of its fields, under that field's name. */
  lemma {:induction false} ListedAreFieldMessages(fields: seq<Field>)
    ensures forall k :: 0 <= k < |FormErrors(fields)| ==> IsFieldMessage(fields, FormErrors(fields)[k])
    decreases |fields|
  {
    if fields != [] {
      var rest := fields[1..];
      ListedAreFieldMessages(rest);
      var tail := FormErrors(rest);
      forall k | 0 <= k < |tail| ensures IsFieldMessage(fields, tail[k]) {
        assert IsFieldMessage(rest, tail[k]);
        var i :| 0 <= i < |rest| && rest[i].name == tail[k].field
                 && FieldError(rest[i].rules, rest[i].input) == Some(tail[k].message);
        assert fields[i + 1] == rest[i];
      }
      var e := FieldError(fields[0].rules, fields[0].input);
      if e.Some? {
        assert FormErrors(fields) == [FieldMessage(fields[0].name, e.value)] + tail;
        assert IsFieldMessage(fields, FieldMessage(fields[0].name, e.value));
      } else {
        assert FormErrors(fields) == tail;
      }
    }
  }

  /** `e` is the message of one of the fields, under that field's name. */
  predicate IsFieldMessage(fields: seq<Field>, e: FieldMessage) {
    exists i :: 0 <= i < |fields| && fields[i].name == e.field
      && FieldError(fields[i].rules, fields[i].input) == Some(e.message)
  }

  /** The form's messages come field by field: those of the first fields, then those of the rest. */
  lemma {:induction false} FormErrorsInFieldOrder(first: seq<Field>, rest: seq<Field>)
    ensures FormErrors(first + rest) == FormErrors(first) + FormErrors(rest)
    decreases |first|
  {
    if first != [] {
      assert (first + rest)[1..] == first[1..] + rest;
      FormErrorsInFieldOrder(first[1..], rest);
    } else {
      assert first + rest == rest;
    }
  }

  /** A single field contributes its own message, if it has one, and nothing else. */
  lemma FormErrorsOfField(field: Field)
    ensures FormErrors([field]) ==
              match FieldError(field.rules, field.input)
              case None => []
              case Some(m) => [FieldMessage(field.name, m)]
  {
    assert [field][1..] == [];
  }
}
