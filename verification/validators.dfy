/**
 * The checks made on the arguments before any request is built: the id
 * check of `getProductById` and `deleteProduct`, the price check of
 * `createProduct`, and the presence check of the POST branch.
 */
module Validators {
  import JsNumbers

  /** An id passes when the global `isNaN` is false for it. */
  predicate ValidId(id: string)
  {
    !JsNumbers.IsNaN(id)
  }

  /** `parseFloat(price)` is a number and is greater than 0. */
  predicate ValidPrice(price: string)
  {
    match JsNumbers.ParseFloat(price)
    case NaN => false
    case Finite(v) => v > 0.0
    case Infinity(negative) => !negative
  }

  /** Title, price and category are given and none of them is empty. */
  predicate ParamsPresent(params: seq<string>)
  {
    |params| >= 3 && params[0] != "" && params[1] != "" && params[2] != ""
  }

  /** Every non-empty run of decimal digits is a valid id. */
  lemma DigitIdsValid(id: string)
    requires |id| > 0 && JsNumbers.AllDigits(id)
    ensures ValidId(id)
  {
    JsNumbers.ToNumberOfDigits(id);
  }

  /**
   * An id whose first non-blank character cannot open a number (a letter
   * other than the `I` of `Infinity`, say) is refused.
   */
  lemma WordIdsInvalid(id: string)
    requires JsNumbers.TrimStart(id) != []
    requires !JsNumbers.OpensLiteral(JsNumbers.TrimStart(id)[0])
    ensures !ValidId(id)
  {
    JsNumbers.NoLiteralStart(id);
  }

  /** A price written as a whole number passes exactly when that number is not 0. */
  lemma WholePriceValid(n: nat)
    ensures ValidPrice(JsNumbers.NatToString(n)) <==> n > 0
  {
    JsNumbers.NatRoundTrip(n);
  }

  /**
   * Only the leading number of the price is read: digits followed by text
   * that cannot continue them pass exactly when the digits are not all 0.
   */
  lemma LeadingDigitsPrice(d: string, rest: string)
    requires |d| > 0 && JsNumbers.AllDigits(d) && JsNumbers.EndsLiteral(rest)
    ensures ValidPrice(d + rest) <==> JsNumbers.DigitsValue(d) > 0
  {
    JsNumbers.ParseFloatDigitsThen(d, rest);
  }

  /** A minus sign in front of a valid price makes it invalid. */
  lemma NegatedPriceInvalid(price: string)
    requires ValidPrice(price)
    ensures !ValidPrice("-" + price)
  {
    MinusNeverValid(price);
  }

  /** The same, split on what follows the minus sign. */
  lemma MinusNeverValid(price: string)
    ensures ValidPrice(price) ==> !ValidPrice("-" + price)
  {
    if price != [] && !JsNumbers.IsWhiteSpace(price[0]) && price[0] != '+' && price[0] != '-' {
      if ValidPrice(price) {
        MinusThenLiteral(price);
      }
    } else {
      MinusThenNothing(price);
    }
  }

  /** A minus sign in front of a valid price read from its first character negates it. */
  lemma MinusThenLiteral(price: string)
    requires ValidPrice(price)
    requires !JsNumbers.IsWhiteSpace(price[0]) && price[0] != '+' && price[0] != '-'
    ensures !ValidPrice("-" + price)
  {
    JsNumbers.ParseFloatSign(price);
  }

  /** `-`, `- 5`, `--5` and `-+5`: no unsigned literal follows the minus sign. */
  lemma MinusThenNothing(price: string)
    requires !(price != [] && !JsNumbers.IsWhiteSpace(price[0]) && price[0] != '+' && price[0] != '-')
    ensures !ValidPrice("-" + price)
  {
    if price == [] {
      JsNumbers.SignedScan('-', price);
    } else {
      JsNumbers.SignThenNothing('-', price);
    }
  }

  /** A minus sign in front of digits gives a price that is never valid, `-0` included. */
  lemma NegativeDigitsPriceInvalid(d: string)
    requires |d| > 0 && JsNumbers.AllDigits(d)
    ensures !ValidPrice("-" + d)
  {
    assert JsNumbers.IsDigit(d[0]);
    JsNumbers.ParseFloatSign(d);
    JsNumbers.ParseFloatDigitsThen(d, []);
    assert d + [] == d;
  }

  /** A price whose first non-blank character cannot open a number is refused. */
  lemma WordPriceInvalid(price: string)
    requires JsNumbers.TrimStart(price) == [] || !JsNumbers.OpensLiteral(JsNumbers.TrimStart(price)[0])
    ensures !ValidPrice(price)
  {
    JsNumbers.NoLiteralStart(price);
  }
}
