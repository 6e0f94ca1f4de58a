/** Payment validation: three shared checks in a fixed order, then the
    strategy chosen by the payment type. Nothing is charged and no state
    changes. */
module Payment {
  import opened Wrappers
  import opened Money

  /** The `payment_info` dictionary. An absent key reads as its default:
      `valid` false, `amount` 0.0, `type` None, `card_number` and `email` "". */
  datatype PaymentInfo = PaymentInfo(valid: bool, amount: real, payment_type: Option<string>,
                                     card_number: string, email: string)

  datatype PaymentStrategy = CreditCardStrategy | PayPalStrategy | UnknownPaymentStrategy

  /** Each strategy's `validate`: a card number needs at least 16 characters,
      a PayPal payment a non-empty email, and an unknown type always fails. */
  function Validate(strategy: PaymentStrategy, info: PaymentInfo): (r: (bool, string))
    ensures r.0 <==> r.1 == ""
    ensures strategy == UnknownPaymentStrategy ==> r == (false, "Unknown payment type")
    ensures strategy == CreditCardStrategy ==> r == if |info.card_number| < 16 then (false, "Invalid card number") else (true, "")
    ensures strategy == PayPalStrategy ==> r == if info.email == "" then (false, "PayPal email required") else (true, "")
  {
    match strategy
    case CreditCardStrategy =>
      if |info.card_number| < 16 then (false, "Invalid card number") else (true, "")
    case PayPalStrategy =>
      if info.email == "" then (false, "PayPal email required") else (true, "")
    case UnknownPaymentStrategy =>
      (false, "Unknown payment type")
  }

  /** The strategy table; a missing or unrecognised type gets the Unknown
      strategy. */
  function StrategyFor(payment_type: Option<string>): (s: PaymentStrategy)
    ensures s == CreditCardStrategy <==> payment_type == Some("credit_card")
    ensures s == PayPalStrategy <==> payment_type == Some("paypal")
  {
    if payment_type == Some("credit_card") then CreditCardStrategy
    else if payment_type == Some("paypal") then PayPalStrategy
    else UnknownPaymentStrategy
  }

  /** `validate_payment`. The checks run in order — the valid flag, then the
      amount against the total rounded to cents, then the strategy — and the
      first that fails decides the message. */
  function ValidatePayment(info: PaymentInfo, total_amount: real): (r: (bool, string))
    ensures r.0 <==> info.valid && info.amount >= Round2(total_amount)
                     && (  (info.payment_type == Some("credit_card") && |info.card_number| >= 16)
                        || (info.payment_type == Some("paypal") && info.email != ""))
    ensures r.0 ==> r.1 == "Payment successful"
    ensures !info.valid ==> r == (false, "Payment failed - invalid payment info")
    ensures info.valid && info.amount < Round2(total_amount) ==> r == (false, "Insufficient payment amount")
    ensures info.valid && info.amount >= Round2(total_amount) ==>
              r == (if Validate(StrategyFor(info.payment_type), info).0 then (true, "Payment successful")
                    else Validate(StrategyFor(info.payment_type), info))
  {
    if !info.valid then (false, "Payment failed - invalid payment info")
    else if info.amount < Round2(total_amount) then (false, "Insufficient payment amount")
    else
      var (is_valid, error_message) := Validate(StrategyFor(info.payment_type), info);
      if !is_valid then (false, error_message) else (true, "Payment successful")
  }

  /** Every outcome carries one of the six messages, so a caller can always
      tell which check failed. */
  lemma PaymentMessages(info: PaymentInfo, total_amount: real)
    ensures ValidatePayment(info, total_amount).1 in
              {"Payment successful", "Payment failed - invalid payment info", "Insufficient payment amount",
               "Invalid card number", "PayPal email required", "Unknown payment type"}
  {
  }

  /** Rounding to cents happens before the comparison: paying 100.00 against
      a total of 100.001 passes the amount check. */
  lemma RoundedTotalAccepted()
    ensures ValidatePayment(PaymentInfo(true, 100.0, Some("credit_card"), "1234567812345678", ""), 100.001)
            == (true, "Payment successful")
  {
    var y := 100.001 * 100.0;
    assert y == 10000.1;
    assert y.Floor == 10000;
  }
}
