/**
 * The input validator `validate`: a value that is a string or a number and
 * optional constraints, each checked only when it is set and the value has the
 * type it is about. Every bound is strict.
 */
module Validation {
  import opened Wrappers
  import opened Text

  /** `string | number`, with numbers restricted to integers. */
  datatype Value = Str(s: string) | Num(n: int)

  /** The `Validatable` record; an unset optional property is `None` (absent `required` is `false`). */
  datatype Validatable = Validatable(
    value: Value,
    required: bool,
    minLength: Option<int>,
    maxLength: Option<int>,
    min: Option<int>,
    max: Option<int>)

  /** `value.toString()`. */
  function ValueText(v: Value): (text: string)
    ensures v.Str? ==> text == v.s
    ensures v.Num? ==> !AllWhitespace(text)
  {
    match v
    case Str(s) => s
    case Num(n) => IntToStringNotBlank(n); IntToString(n)
  }

  predicate RequiredOk(input: Validatable) {
    input.required ==> Utf16Length(Trim(ValueText(input.value))) != 0
  }

  predicate MinLengthOk(input: Validatable) {
    input.minLength.Some? && input.value.Str? ==> Utf16Length(input.value.s) > input.minLength.value
  }

  predicate MaxLengthOk(input: Validatable) {
    input.maxLength.Some? && input.value.Str? ==> Utf16Length(input.value.s) < input.maxLength.value
  }

  predicate MinOk(input: Validatable) {
    input.min.Some? && input.value.Num? ==> input.value.n > input.min.value
  }

  predicate MaxOk(input: Validatable) {
    input.max.Some? && input.value.Num? ==> input.value.n < input.max.value
  }

  /** What `validate` decides: every applicable check holds. */
  predicate IsValid(input: Validatable): (r: bool)
    ensures r && input.required && input.value.Str? ==> !AllWhitespace(input.value.s)
    ensures !input.required && input.minLength.None? && input.maxLength.None? && input.min.None? && input.max.None? ==> r
  {
    TrimEmptyIff(ValueText(input.value));
    RequiredOk(input) && MinLengthOk(input) && MaxLengthOk(input) && MinOk(input) && MaxOk(input)
  }

  /** `validate`, one `if` per constraint, each folding its check into `isValid`. */
  method Validate(input: Validatable) returns (isValid: bool)
    ensures isValid <==> IsValid(input)
  {
    isValid := true;
    if input.required {
      isValid := isValid && Utf16Length(Trim(ValueText(input.value))) != 0;
    }
    if input.minLength.Some? && input.value.Str? {
      isValid := isValid && Utf16Length(input.value.s) > input.minLength.value;
    }
    if input.maxLength.Some? && input.value.Str? {
      isValid := isValid && Utf16Length(input.value.s) < input.maxLength.value;
    }
    if input.min.Some? && input.value.Num? {
      isValid := isValid && input.value.n > input.min.value;
    }
    if input.max.Some? && input.value.Num? {
      isValid := isValid && input.value.n < input.max.value;
    }
  }

  /** With no constraint set every value passes. */
  lemma UnconstrainedIsValid(value: Value)
    ensures IsValid(Validatable(value, false, None, None, None, None))
  {
  }

  /**
   * `required` rejects exactly the strings made only of whitespace; a number
   * always has a non-blank rendering and so always passes it.
   */
  lemma RequiredIff(input: Validatable)
    ensures RequiredOk(input) <==> (!input.required || input.value.Num? || !AllWhitespace(input.value.s))
  {
    TrimEmptyIff(ValueText(input.value));
    if input.value.Num? {
      IntToStringNotBlank(input.value.n);
    }
  }

  /** A required string whose trimmed form is empty fails validation. */
  lemma RequiredBlankFails(input: Validatable)
    requires input.required && input.value.Str? && AllWhitespace(input.value.s)
    ensures !IsValid(input)
  {
    RequiredIff(input);
  }

  /** The length bounds are strict, and they hold whenever a string passes. */
  lemma LengthBoundsStrict(input: Validatable)
    requires input.value.Str? && IsValid(input)
    ensures input.minLength.Some? ==> Utf16Length(input.value.s) > input.minLength.value
    ensures input.maxLength.Some? ==> Utf16Length(input.value.s) < input.maxLength.value
  {
  }

  /** A string exactly at a length bound fails. */
  lemma LengthAtBoundFails(input: Validatable)
    requires input.value.Str?
    requires input.minLength == Some(Utf16Length(input.value.s)) || input.maxLength == Some(Utf16Length(input.value.s))
    ensures !IsValid(input)
  {
  }

  /** The numeric bounds are strict, and they hold whenever a number passes. */
  lemma NumberBoundsStrict(input: Validatable)
    requires input.value.Num? && IsValid(input)
    ensures input.min.Some? ==> input.value.n > input.min.value
    ensures input.max.Some? ==> input.value.n < input.max.value
  {
  }

  /** Length constraints are ignored for numbers. */
  lemma LengthIgnoredForNumbers(input: Validatable)
    requires input.value.Num?
    ensures IsValid(input) == IsValid(input.(minLength := None, maxLength := None))
  {
  }

  /** Numeric bounds are ignored for strings. */
  lemma NumberBoundsIgnoredForStrings(input: Validatable)
    requires input.value.Str?
    ensures IsValid(input) == IsValid(input.(min := None, max := None))
  {
  }

  /** `stricter` checks the same value against every constraint of `input`, and possibly more. */
  predicate Stricter(stricter: Validatable, input: Validatable) {
    stricter.value == input.value &&
    (input.required ==> stricter.required) &&
    (input.minLength.Some? ==> stricter.minLength == input.minLength) &&
    (input.maxLength.Some? ==> stricter.maxLength == input.maxLength) &&
    (input.min.Some? ==> stricter.min == input.min) &&
    (input.max.Some? ==> stricter.max == input.max)
  }

  /** Once a check fails nothing restores validity: adding constraints never turns a rejection into acceptance. */
  lemma AddingConstraintsNeverValidates(stricter: Validatable, input: Validatable)
    requires Stricter(stricter, input)
    ensures IsValid(stricter) ==> IsValid(input)
  {
  }
}
