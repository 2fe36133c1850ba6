/**
 * What a numeric text input stores on each keystroke. The product, contact
 * and order forms all filter their numeric fields the same way: an empty
 * input stores a fixed blank value, text that `parseFloat` reads stores the
 * number read, and anything else is ignored. Numbers are held as the text
 * `toString()` prints for them.
 */
module FormInput {
  import opened Wrappers
  import opened JsText

  /** The stored value after the input shows `value`; `blank` is what an empty input stores. */
  function NumberInput(current: string, value: string, blank: string): string
  {
    if value == "" then blank
    else if ParseFloat(value).Some? then ParseFloat(value).value
    else current
  }

  /** Text that is not a number leaves the stored value as it was. */
  lemma NonNumberIgnored(current: string, value: string, blank: string)
    requires value != "" && ParseFloat(value).None?
    ensures NumberInput(current, value, blank) == current
  {
  }

  /** A word typed into a numeric input is ignored. */
  lemma WordIgnored(current: string, value: string, blank: string)
    requires |value| > 0 && IsAsciiLetter(value[0]) && value[0] != 'I'
    ensures NumberInput(current, value, blank) == current
  {
    LetterFirstIsNaN(value);
  }

  /**
   * A stored value that is the blank value or a printed number stays one,
   * whatever is typed.
   */
  lemma NumberInputKeepsPrinted(current: string, value: string, blank: string)
    requires IsPrinted(current) || current == blank
    ensures var stored := NumberInput(current, value, blank);
      IsPrinted(stored) || stored == blank
  {
    if value != "" && ParseFloat(value).Some? {
      ParseFloatIsPrinted(value);
    }
  }

  /**
   * Typing text that the decimal pattern with k fraction digits accepts
   * stores a value the same pattern accepts.
   */
  lemma AcceptedInputStaysAccepted(current: string, value: string, blank: string, k: nat)
    requires MatchesDecimal(value, k)
    ensures MatchesDecimal(NumberInput(current, value, blank), k)
  {
    AcceptedDecimalStaysAccepted(value, k);
  }
}
