/** The Google Pay routes of the backend: recording a processed payment and
    refunding it. The database is a ledger of payments keyed by their unique
    transaction id and refunds keyed by their unique refund id. The clock's
    `strftime` stamp and the outcome of the commit are parameters. */
module GooglePayRoutes {
  import opened Wrappers

  /** An error response raised as `HTTPException(status_code, detail)`. */
  datatype HttpError = HttpError(status: nat, detail: string)

  /** The body of `POST /google-pay/payment` (the wallet token is not modelled). */
  datatype PaymentRequest = PaymentRequest(amount: real, currency: string, orderId: string,
                                           userId: nat, description: Option<string>)

  /** A row of the payments table. */
  datatype PaymentRecord = PaymentRecord(userId: nat, transactionId: string, amount: real, currency: string,
                                         orderId: string, paymentMethod: string, status: string,
                                         description: Option<string>)

  /** A row of the refunds table; `paymentTxn` names the refunded payment. */
  datatype RefundRecord = RefundRecord(paymentTxn: string, refundId: string, amount: real,
                                       reason: Option<string>, status: string)

  datatype PaymentResponse = PaymentResponse(success: bool, transactionId: string, status: string,
                                             message: string, amount: real, currency: string)

  datatype RefundResponse = RefundResponse(success: bool, refundId: string, amountRefunded: real,
                                           status: string, message: string)

  const UserNotFound := HttpError(404, "User not found")
  const PaymentNotFound := HttpError(404, "Payment not found")
  const NotRefundable := HttpError(400, "Only completed payments can be refunded")
  const RefundTooLarge := HttpError(400, "Refund amount cannot exceed original payment amount")

  /** `f"txn_{order_id}_{stamp}"`. */
  function TransactionId(orderId: string, stamp: string): (t: string)
    ensures |t| == |orderId| + |stamp| + 5 && t[..4] == "txn_"
  {
    "txn_" + orderId + "_" + stamp
  }

  /** `f"rfnd_{transaction_id}_{stamp}"`. */
  function RefundId(transactionId: string, stamp: string): (t: string)
    ensures |t| == |transactionId| + |stamp| + 6 && t[..5] == "rfnd_"
  {
    "rfnd_" + transactionId + "_" + stamp
  }

  /** The row a processed payment stores: the request's data under a completed
      Google Pay status. */
  function NewPayment(req: PaymentRequest, transactionId: string): (p: PaymentRecord)
    ensures p.status == "completed" && p.paymentMethod == "google_pay" && p.transactionId == transactionId
    ensures p.userId == req.userId && p.amount == req.amount && p.currency == req.currency
    ensures p.orderId == req.orderId && p.description == req.description
  {
    PaymentRecord(req.userId, transactionId, req.amount, req.currency, req.orderId,
                  "google_pay", "completed", req.description)
  }

  /** `amount or payment.amount`: an absent amount and a zero amount both mean the
      full payment. */
  function RefundAmount(requested: Option<real>, paid: real): (a: real)
    ensures requested.None? || requested.value == 0.0 ==> a == paid
    ensures requested.Some? && requested.value != 0.0 ==> a == requested.value
  {
    if requested.Some? && requested.value != 0.0 then requested.value else paid
  }

  /** The checks of `refund_payment` up to the commit: on success, the amount
      refunded and the payment's new status. */
  function RefundDecision(payment: Option<PaymentRecord>, requested: Option<real>): (r: Result<(real, string), HttpError>)
    ensures payment.None? <==> r == Err(PaymentNotFound)
    ensures payment.Some? && payment.value.status != "completed" <==> r == Err(NotRefundable)
    ensures r == Err(RefundTooLarge) <==>
      payment.Some? && payment.value.status == "completed" && RefundAmount(requested, payment.value.amount) > payment.value.amount
    ensures r.Ok? ==>
      && payment.Some? && payment.value.status == "completed"
      && r.value.0 == RefundAmount(requested, payment.value.amount) && r.value.0 <= payment.value.amount
      && (r.value.1 == "refunded" <==> r.value.0 == payment.value.amount)
      && (r.value.1 == "refunded" || r.value.1 == "partially_refunded")
  {
    if payment.None? then Err(PaymentNotFound)
    else if payment.value.status != "completed" then Err(NotRefundable)
    else
      var amount := RefundAmount(requested, payment.value.amount);
      if amount > payment.value.amount then Err(RefundTooLarge)
      else Ok((amount, if amount == payment.value.amount then "refunded" else "partially_refunded"))
  }

  /** A payment that has been refunded once, fully or partly, can never be refunded
      again: only completed payments are refundable. */
  lemma SecondRefundRejected(p: PaymentRecord, first: Option<real>, second: Option<real>)
    requires RefundDecision(Some(p), first).Ok?
    ensures RefundDecision(Some(p.(status := RefundDecision(Some(p), first).value.1)), second) == Err(NotRefundable)
  {
  }

  /** A full refund is asked for by omitting the amount, by zero, or by the exact
      amount paid; any other accepted amount leaves the payment partly refunded. */
  lemma FullRefundIff(p: PaymentRecord, requested: Option<real>)
    requires RefundDecision(Some(p), requested).Ok?
    ensures RefundDecision(Some(p), requested).value.1 == "refunded" <==>
      requested.None? || requested.value == 0.0 || requested.value == p.amount
  {
  }

  /** The amount is only bounded from above: a negative amount is accepted and
      recorded as a partial refund. */
  lemma NegativeRefundAccepted(p: PaymentRecord, x: real)
    requires p.status == "completed" && x < 0.0 && p.amount >= 0.0
    ensures RefundDecision(Some(p), Some(x)) == Ok((x, "partially_refunded"))
  {
  }

  /** The payments and refunds tables, and the ids of the existing users. */
  class PaymentLedger {
    var users: set<nat>
    var payments: map<string, PaymentRecord>
    var refunds: map<string, RefundRecord>

    /** Rows are stored under their own ids, every refund refers to a payment that
        is no longer completed and does not exceed it, and no payment has two
        refunds. */
    ghost predicate Valid()
      reads this
    {
      && (forall t :: t in payments ==> payments[t].transactionId == t)
      && (forall k :: k in refunds ==> refunds[k].refundId == k)
      && (forall k :: k in refunds ==>
            && refunds[k].paymentTxn in payments
            && payments[refunds[k].paymentTxn].status != "completed"
            && refunds[k].amount <= payments[refunds[k].paymentTxn].amount)
      && (forall k, l :: k in refunds && l in refunds && refunds[k].paymentTxn == refunds[l].paymentTxn ==> k == l)
    }

    constructor (existingUsers: set<nat>)
      ensures Valid()
      ensures users == existingUsers && payments == map[] && refunds == map[]
    {
      users := existingUsers;
      payments := map[];
      refunds := map[];
    }

    /** `process_google_pay_payment`. A missing user gives 404. The commit fails
        when the database reports an error or the transaction id is already taken
        (the column is unique); the handler then answers 500 and nothing is stored.
        Otherwise the completed payment is stored under its new id. */
    method ProcessPayment(req: PaymentRequest, stamp: string, commitFails: bool, dbMessage: string)
      returns (r: Result<PaymentResponse, HttpError>)
      requires Valid()
      modifies this`payments
      ensures Valid()
      ensures req.userId !in users ==> r == Err(UserNotFound) && payments == old(payments)
      ensures req.userId in users && (commitFails || TransactionId(req.orderId, stamp) in old(payments)) ==>
        r == Err(HttpError(500, "Payment processing failed: " + dbMessage)) && payments == old(payments)
      ensures r.Ok? <==>
        req.userId in users && !commitFails && TransactionId(req.orderId, stamp) !in old(payments)
      ensures r.Ok? ==>
        var t := TransactionId(req.orderId, stamp);
        && payments == old(payments)[t := NewPayment(req, t)]
        && r.value == PaymentResponse(true, t, "completed", "Payment processed successfully", req.amount, req.currency)
    {
      if req.userId !in users {
        return Err(UserNotFound);
      }
      var t := TransactionId(req.orderId, stamp);
      if commitFails || t in payments {
        return Err(HttpError(500, "Payment processing failed: " + dbMessage));
      }
      payments := payments[t := NewPayment(req, t)];
      r := Ok(PaymentResponse(true, t, "completed", "Payment processed successfully", req.amount, req.currency));
    }

    /** `GET /payment/{transaction_id}`: the stored row, or 404. */
    function PaymentStatus(transactionId: string): (r: Result<PaymentRecord, HttpError>)
      requires Valid()
      reads this
      ensures r.Ok? <==> transactionId in payments
      ensures r.Ok? ==> r.value.transactionId == transactionId && r.value == payments[transactionId]
      ensures r.Err? ==> r.error == PaymentNotFound
    {
      if transactionId in payments then Ok(payments[transactionId]) else Err(PaymentNotFound)
    }

    /** `refund_payment`. The checks of `RefundDecision` come first; then a refund
        row is added and the payment's status rewritten in one commit, which fails
        (500, nothing stored) when the database reports an error or the refund id is
        already taken. */
    method RefundPayment(transactionId: string, requested: Option<real>, reason: Option<string>,
                         stamp: string, commitFails: bool, dbMessage: string)
      returns (r: Result<RefundResponse, HttpError>)
      requires Valid()
      modifies this`payments, this`refunds
      ensures Valid()
      ensures var d := RefundDecision(if transactionId in old(payments) then Some(old(payments)[transactionId]) else None, requested);
        && (d.Err? ==> r == Err(d.error) && payments == old(payments) && refunds == old(refunds))
        && (d.Ok? && (commitFails || RefundId(transactionId, stamp) in old(refunds)) ==>
              r == Err(HttpError(500, "Refund processing failed: " + dbMessage))
              && payments == old(payments) && refunds == old(refunds))
        && (r.Ok? <==> d.Ok? && !commitFails && RefundId(transactionId, stamp) !in old(refunds))
        && (r.Ok? ==>
              var id := RefundId(transactionId, stamp);
              && refunds == old(refunds)[id := RefundRecord(transactionId, id, d.value.0, reason, "completed")]
              && payments == old(payments)[transactionId := old(payments)[transactionId].(status := d.value.1)]
              && r.value == RefundResponse(true, id, d.value.0, "completed", "Refund processed successfully"))
    {
      var payment := if transactionId in payments then Some(payments[transactionId]) else None;
      var d := RefundDecision(payment, requested);
      if d.Err? {
        return Err(d.error);
      }
      var id := RefundId(transactionId, stamp);
      if commitFails || id in refunds {
        return Err(HttpError(500, "Refund processing failed: " + dbMessage));
      }
      var (amount, status) := d.value;
      NoRefundOfCompleted(transactionId);
      refunds := refunds[id := RefundRecord(transactionId, id, amount, reason, "completed")];
      payments := payments[transactionId := payments[transactionId].(status := status)];
      r := Ok(RefundResponse(true, id, amount, "completed", "Refund processed successfully"));
    }

    /** A payment that is still completed has no refund yet. */
    lemma NoRefundOfCompleted(transactionId: string)
      requires Valid() && transactionId in payments && payments[transactionId].status == "completed"
      ensures forall k :: k in refunds ==> refunds[k].paymentTxn != transactionId
    {
    }
  }
}
