/** Payment rows with their refunds, and the two places that create refunds. */
module Payments {
  import opened Common

  datatype PaymentKind = CashOnDelivery | Online

  datatype PaymentStatus = Created | PendingCod | Captured | CaptureFailed | RefundPending | Refunded

  datatype RefundStatus = RefundRequested | RefundProcessed | RefundFailed

  datatype Refund = Refund(amount: int, status: RefundStatus)

  datatype Payment = Payment(kind: PaymentKind, status: PaymentStatus, amount: int, refunds: seq<Refund>)

  /** What the refunds that have not failed add up to. */
  function LiveRefunds(refunds: seq<Refund>): int {
    if refunds == [] then 0
    else
      var last := refunds[|refunds| - 1];
      LiveRefunds(refunds[..|refunds| - 1]) + if last.status.RefundFailed? then 0 else last.amount
  }

  predicate HasFullRefund(payment: Payment) {
    exists i :: 0 <= i < |payment.refunds| && payment.refunds[i].amount == payment.amount
  }

  predicate HasLiveFullRefund(payment: Payment) {
    exists i :: 0 <= i < |payment.refunds|
      && !payment.refunds[i].status.RefundFailed? && payment.refunds[i].amount == payment.amount
  }

  function AddRefund(payment: Payment, amount: int): Payment {
    payment.(status := RefundPending, refunds := payment.refunds + [Refund(amount, RefundRequested)])
  }

  /** The refund a cancelled order asks for. */
  function CreateRefund(payment: Payment, amount: int): Result<Payment> {
    if payment.status != Captured && payment.status != RefundPending then Err(BadRequest)
    else if amount < 1 then Err(BadRequest)
    else if LiveRefunds(payment.refunds) + amount > payment.amount then Err(BadRequest)
    else if amount == payment.amount && HasLiveFullRefund(payment) then Err(BadRequest)
    else Ok(AddRefund(payment, amount))
  }

  /** The refund that cancelling a failed delivery makes: a captured online payment, in full, once. */
  function RefundFailedDelivery(payment: Payment): Payment {
    if payment.kind.Online? && payment.status.Captured? then
      if HasFullRefund(payment) then payment.(status := RefundPending) else AddRefund(payment, payment.amount)
    else payment
  }

  lemma AddRefundSum(payment: Payment, amount: int)
    ensures LiveRefunds(AddRefund(payment, amount).refunds) == LiveRefunds(payment.refunds) + amount
  {
    var all := AddRefund(payment, amount).refunds;
    assert all[..|all| - 1] == payment.refunds;
  }
}
