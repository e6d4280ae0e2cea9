/**
 * The positive-number validation rule (validation/rules/PositiveNumberValidationRule.php):
 * null and non-negative numbers pass, a negative number yields a validation error
 * carrying the rule's two messages.
 */
module Validation {
  import opened Wrappers
  import opened Entities

  /** The values the rule compares: null, or a number (an integer or a float). */
  datatype Input = Null | Number(x: real)

  /** A rule holds the message and the extended message it reports. */
  datatype PositiveNumberRule = PositiveNumberRule(message: string, extendedMessage: string)

  /** new PositiveNumberValidationRule($message, $extendedMessage = '') */
  function NewRule(message: string, extendedMessage: string := ""): (r: PositiveNumberRule)
    ensures r.message == message && r.extendedMessage == extendedMessage
  {
    PositiveNumberRule(message, extendedMessage)
  }

  /** test($value): None stands for false, the "no error" answer. */
  function Test(rule: PositiveNumberRule, value: Input): (r: Option<ValidationError>)
    ensures r.Some? <==> value.Number? && value.x < 0.0
    ensures r.Some? ==> r.value.message == rule.message && r.value.extendedMessage == rule.extendedMessage
  {
    match value
    case Null => None
    case Number(x) => if x < 0.0 then Some(ValidationError(rule.message, rule.extendedMessage)) else None
  }

  /** A rule built with one message reports that message and an empty extended message. */
  lemma DefaultExtendedMessage(message: string, x: real)
    requires x < 0.0
    ensures Test(NewRule(message), Number(x)) == Some(ValidationError(message, ""))
  {
  }

  /** Whatever passes, every larger number passes too; whatever fails, every smaller one fails. */
  lemma TestMonotone(rule: PositiveNumberRule, x: real, y: real)
    requires x <= y
    ensures Test(rule, Number(x)).None? ==> Test(rule, Number(y)).None?
    ensures Test(rule, Number(y)).Some? ==> Test(rule, Number(x)) == Test(rule, Number(y))
  {
  }

  /** The verdict depends only on the value, never on the messages. */
  lemma TestIgnoresMessages(a: PositiveNumberRule, b: PositiveNumberRule, value: Input)
    ensures Test(a, value).None? <==> Test(b, value).None?
  {
  }
}
