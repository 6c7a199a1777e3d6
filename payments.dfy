/** `PaymentsService`: records a payment and hands back the stored row. */
module PaymentsService {
  import opened Wrappers
  import opened Entities
  import opened Store

  /**
   * `createPayment`: the payment is appended under the next key, unless its
   * amount has more digits than the `decimal(18,2)` column holds, which the
   * database refuses with nothing written.
   */
  method CreatePayment(payments: PaymentTable, amount: int, date: Day, status: PaymentStatus) returns (r: Result<Payment, Error>)
    requires payments.Valid()
    modifies payments
    ensures payments.Valid()
    ensures !FitsDecimal18_2(amount) ==> r == Failure(InternalServerError(ValueTooLong)) && payments.rows == old(payments.rows)
    ensures FitsDecimal18_2(amount) ==>
      && r == Success(Payment(|old(payments.rows)|, amount, date, status))
      && payments.rows == old(payments.rows) + [r.value]
  {
    if !FitsDecimal18_2(amount) {
      return Failure(InternalServerError(ValueTooLong));
    }
    var p := Payment(|payments.rows|, amount, date, status);
    payments.rows := payments.rows + [p];
    r := Success(p);
  }
}
