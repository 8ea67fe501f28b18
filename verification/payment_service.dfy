/**
 * The mock payment rule: "card" always completes, "paypal" fails above 1000
 * and completes otherwise, any other method stays pending. The random part of
 * the transaction id is a parameter.
 */
module PaymentService {
  import opened Wrappers
  import opened Text

  datatype PaymentStatus = Completed | Failed | Pending

  datatype PaymentResult = PaymentResult(status: PaymentStatus, transactionId: string)

  /** The paypal amount above which a payment fails. */
  const PaypalLimit: real := 1000.0

  /** The characters of `Math.random().toString(36)`: digits and lower-case letters. */
  predicate Base36(s: string)
  {
    forall k :: 0 <= k < |s| ==> ('0' <= s[k] <= '9') || ('a' <= s[k] <= 'z')
  }

  /** `processPayment(orderId, amount, method)`, with `suffix` the random part of the id. */
  function ProcessPayment(orderId: string, amount: real, paymentMethod: string, suffix: string): (r: PaymentResult)
    ensures r.status == Completed <==> paymentMethod == "card" || (paymentMethod == "paypal" && amount <= PaypalLimit)
    ensures r.status == Failed <==> paymentMethod == "paypal" && amount > PaypalLimit
    ensures r.status == Pending <==> paymentMethod != "card" && paymentMethod != "paypal"
    ensures paymentMethod == "card" ==> r.transactionId == "txn_" + suffix
    ensures paymentMethod == "paypal" && amount > PaypalLimit ==> r.transactionId == "txn_fail_" + suffix
    ensures paymentMethod == "paypal" && amount <= PaypalLimit ==> r.transactionId == "txn_pp_" + suffix
    ensures paymentMethod != "card" && paymentMethod != "paypal" ==> r.transactionId == "txn_pending_" + suffix
  {
    if paymentMethod == "card" then
      PaymentResult(Completed, "txn_" + suffix)
    else if paymentMethod == "paypal" then
      if amount > PaypalLimit then PaymentResult(Failed, "txn_fail_" + suffix)
      else PaymentResult(Completed, "txn_pp_" + suffix)
    else
      PaymentResult(Pending, "txn_pending_" + suffix)
  }

  /** Reads the outcome back from a transaction id, longest prefix first. */
  function StatusOfTransactionId(t: string): Option<PaymentStatus>
  {
    if StartsWith(t, "txn_fail_") then Some(Failed)
    else if StartsWith(t, "txn_pp_") then Some(Completed)
    else if StartsWith(t, "txn_pending_") then Some(Pending)
    else if StartsWith(t, "txn_") then Some(Completed)
    else None
  }

  /** A prefix followed by a base-36 suffix cannot show an underscore at index `i` past the prefix. */
  lemma NoUnderscoreInSuffix(prefix: string, suffix: string, i: nat)
    requires Base36(suffix) && |prefix| <= i < |prefix| + |suffix|
    ensures (prefix + suffix)[i] != '_'
  {
    assert (prefix + suffix)[i] == suffix[i - |prefix|];
  }

  /** The transaction id's prefix records the status, whatever the random suffix. */
  lemma TransactionIdRevealsStatus(orderId: string, amount: real, paymentMethod: string, suffix: string)
    requires Base36(suffix)
    ensures var r := ProcessPayment(orderId, amount, paymentMethod, suffix);
      StatusOfTransactionId(r.transactionId) == Some(r.status)
  {
    var r := ProcessPayment(orderId, amount, paymentMethod, suffix);
    var t := r.transactionId;
    if paymentMethod == "card" {
      if |t| >= 9 { NoUnderscoreInSuffix("txn_", suffix, 8); assert t[..9][8] == t[8]; }
      if |t| >= 7 { NoUnderscoreInSuffix("txn_", suffix, 6); assert t[..7][6] == t[6]; }
      if |t| >= 12 { NoUnderscoreInSuffix("txn_", suffix, 11); assert t[..12][11] == t[11]; }
      assert t[..4] == "txn_";
    } else if paymentMethod == "paypal" {
      assert t[4] == if amount > PaypalLimit then 'f' else 'p';
      if amount <= PaypalLimit {
        assert t[..7] == "txn_pp_";
        if |t| >= 9 { assert t[..9][4] == t[4]; }
      } else {
        assert t[..9] == "txn_fail_";
      }
    } else {
      assert t[..12] == "txn_pending_";
      assert t[..9][4] == 'p' && t[..7][5] == 'e';
    }
  }

  /** The order id never affects the outcome. */
  lemma OutcomeIgnoresOrderId(a: string, b: string, amount: real, paymentMethod: string, suffix: string)
    ensures ProcessPayment(a, amount, paymentMethod, suffix) == ProcessPayment(b, amount, paymentMethod, suffix)
  {
  }

  /** Exactly the limit still completes for paypal. */
  lemma PaypalAtLimitCompletes(orderId: string, suffix: string)
    ensures ProcessPayment(orderId, PaypalLimit, "paypal", suffix).status == Completed
  {
  }
}
