/**
 * The add-card dialog: the brand guessed from the card number's first digit
 * and the stored card record built on submit, which keeps only the last four
 * digits of the number and never the CVV.
 */
module AddCard {

  datatype CardForm = CardForm(
    cardNumber: string, cardholderName: string, expiryMonth: string, expiryYear: string,
    cvv: string, makeDefault: bool)

  datatype CardData = CardData(
    id: string, kind: string, last4: string, expMonth: int, expYear: int, name: string, isDefault: bool)

  /**
   * `getCardType`: a chain of `startsWith` tests on single digits. An empty
   * number, or one that starts with anything but 3, 4, 5 or 6, is "generic".
   */
  function CardType(number: string): (r: string)
    ensures r in {"visa", "mastercard", "amex", "discover", "generic"}
    ensures r == "generic" <==> |number| == 0 || number[0] !in {'3', '4', '5', '6'}
    ensures |number| > 0 && number[0] == '4' ==> r == "visa"
    ensures |number| > 0 && number[0] == '5' ==> r == "mastercard"
    ensures |number| > 0 && number[0] == '3' ==> r == "amex"
    ensures |number| > 0 && number[0] == '6' ==> r == "discover"
  {
    if |number| > 0 && number[0] == '4' then "visa"
    else if |number| > 0 && number[0] == '5' then "mastercard"
    else if |number| > 0 && number[0] == '3' then "amex"
    else if |number| > 0 && number[0] == '6' then "discover"
    else "generic"
  }

  /** Only the first character decides the brand. */
  lemma CardTypeFirstCharOnly(a: string, b: string)
    requires |a| > 0 && |b| > 0 && a[0] == b[0]
    ensures CardType(a) == CardType(b)
  {
  }

  /** `number.slice(-4)`: the last min(4, |number|) characters. */
  function Last4(number: string): (r: string)
    ensures |r| == if |number| < 4 then |number| else 4
    ensures number == number[..|number| - |r|] + r
  {
    if |number| < 4 then number else number[|number| - 4..]
  }

  /**
   * The record `handleSubmit` passes on. The id (from the clock) and the two
   * `parseInt` results are given, since the model does not parse numbers.
   */
  function BuildCardData(form: CardForm, id: string, expMonth: int, expYear: int): (c: CardData)
    ensures c.name == form.cardholderName && c.isDefault == form.makeDefault
    ensures c.last4 == Last4(form.cardNumber) && c.kind == CardType(form.cardNumber)
    ensures c.id == id && c.expMonth == expMonth && c.expYear == expYear
  {
    CardData(id, CardType(form.cardNumber), Last4(form.cardNumber), expMonth, expYear, form.cardholderName, form.makeDefault)
  }

  /**
   * The record depends on the number only through its first character and its
   * last four, and not on the CVV at all: two forms that agree on those give
   * the same record, so neither the full number nor the CVV is kept.
   */
  lemma CardDataForgetsSecrets(f: CardForm, g: CardForm, id: string, expMonth: int, expYear: int)
    requires |f.cardNumber| >= 4 && |g.cardNumber| >= 4
    requires f.cardNumber[0] == g.cardNumber[0] && Last4(f.cardNumber) == Last4(g.cardNumber)
    requires f.cardholderName == g.cardholderName && f.makeDefault == g.makeDefault
    ensures BuildCardData(f, id, expMonth, expYear) == BuildCardData(g, id, expMonth, expYear)
  {
    CardTypeFirstCharOnly(f.cardNumber, g.cardNumber);
  }
}
