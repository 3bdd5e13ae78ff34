/** The add-card form (src/pages/ProfilePage/components/AddCardModal.tsx): the
    brand and the last four digits are read off the entered card number. */
module AddCardModal {
  import opened Types
  import opened Text
  import ProfilePage

  /** `getCardBrand`: from the first character; anything else, the empty
      string included, is Visa. */
  function CardBrand(num: string): (b: Brand)
    ensures b == Mastercard <==> |num| > 0 && num[0] == '5'
    ensures b == Amex <==> |num| > 0 && num[0] == '3'
    ensures b == Visa <==> |num| == 0 || (num[0] != '5' && num[0] != '3')
  {
    if |num| > 0 && num[0] == '4' then Visa
    else if |num| > 0 && num[0] == '5' then Mastercard
    else if |num| > 0 && num[0] == '3' then Amex
    else Visa
  }

  /** `num.slice(-4)`: the last four characters, or the whole string when it is shorter. */
  function Last4(num: string): (r: string)
    ensures |r| == Min(4, |num|)
    ensures num == num[..|num| - |r|] + r
  {
    if |num| <= 4 then num else num[|num| - 4..]
  }

  /** Submitting the form: while the modal is closed nothing is rendered and
      nothing can be submitted, and the browser refuses to submit while any of
      the four `required` inputs (name, number, expiry, CVC) is empty; otherwise
      the card handed over is derived from the entered number alone. */
  function SubmitCard(isOpen: bool, cardName: string, cardNumber: string, expiry: string, cvc: string): (r: Option<CardDetails>)
    ensures r.Some? <==> isOpen && cardName != "" && cardNumber != "" && expiry != "" && cvc != ""
    ensures r.Some? ==> r.value.brand == CardBrand(cardNumber) && r.value.last4 == Last4(cardNumber)
  {
    if !isOpen || cardName == "" || cardNumber == "" || expiry == "" || cvc == "" then None
    else Some(CardDetails(Last4(cardNumber), CardBrand(cardNumber)))
  }

  /** A submitted number of at least four characters ends in the card's last4,
      and the page stores it as a bound credit card of the number's brand. */
  lemma SubmittedCardMatchesNumber(cardName: string, cardNumber: string, expiry: string, cvc: string)
    requires cardName != "" && expiry != "" && cvc != "" && |cardNumber| >= 4
    ensures var card := SubmitCard(true, cardName, cardNumber, expiry, cvc).value;
            && |card.last4| == 4
            && cardNumber[|cardNumber| - 4..] == card.last4
            && ProfilePage.CardMethod(card) == CreditCard(card.last4, CardBrand(cardNumber))
  {
    var card := SubmitCard(true, cardName, cardNumber, expiry, cvc).value;
    assert cardNumber == cardNumber[..|cardNumber| - 4] + card.last4;
  }
}
