/** The icon choice of `PaymentMethodIcon` in src/components/payment-method-icons.tsx. */
module PaymentIcons {
  import opened Text

  datatype Icon = OnlinePayment | ApplePay | GooglePay | StripeLink | Klarna | Ideal | Sepa | Cash | GenericCard | MobilePay

  /** The switch on the lower-cased method id; anything unknown shows the generic card. */
  function IconFor(methodId: string): (r: Icon)
    ensures var id := Lower(methodId);
      && (r == OnlinePayment <==> id == "online" || id == "globe")
      && (r == StripeLink <==> id == "stripe_link" || id == "link")
      && (r == Sepa <==> id == "sepa_debit" || id == "sepa")
      && (r == ApplePay <==> id == "apple_pay")
      && (r == GooglePay <==> id == "google_pay")
      && (r == Klarna <==> id == "klarna")
      && (r == Ideal <==> id == "ideal")
      && (r == Cash <==> id == "cash")
      && (r == MobilePay <==> id == "mobile")
  {
    var id := Lower(methodId);
    if id == "online" || id == "globe" then OnlinePayment
    else if id == "apple_pay" then ApplePay
    else if id == "google_pay" then GooglePay
    else if id == "stripe_link" || id == "link" then StripeLink
    else if id == "klarna" then Klarna
    else if id == "ideal" then Ideal
    else if id == "sepa_debit" || id == "sepa" then Sepa
    else if id == "cash" then Cash
    else if id == "card" then GenericCard
    else if id == "mobile" then MobilePay
    else GenericCard
  }

  /** The choice ignores case: an id and its lower-cased form show the same icon. */
  lemma CaseInsensitive(methodId: string)
    ensures IconFor(methodId) == IconFor(Lower(methodId))
  {
    LowerIdempotent(methodId);
  }

  /** Unknown ids show the same icon as `card`. */
  lemma UnknownIsCard(methodId: string)
    requires Lower(methodId) !in ["online", "globe", "apple_pay", "google_pay", "stripe_link", "link",
                                  "klarna", "ideal", "sepa_debit", "sepa", "cash", "mobile"]
    ensures IconFor(methodId) == IconFor("card") == GenericCard
  {
  }
}
