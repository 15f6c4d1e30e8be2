/**
 The plain data of the payment core: accounts, payment requests, the
 closed set of failure reasons and the result of one payment attempt.
 Money amounts (C# `decimal`) are exact `real`s.
 */
module Types {

  /** A value that may be absent: the model of a C# reference that may be null. */
  datatype Option<+T> = None | Some(value: T)

  /** The three payment rails a request can name. */
  datatype PaymentScheme = Bacs | FasterPayments | Chaps

  datatype AccountStatus = Live | Disabled | InboundPaymentsOnly

  /** The failure-reason enumeration. `NoReason` is the enumeration's
      zero member (`None` in the source); no payment path ever reports it. */
  datatype PaymentFailureReason =
    | NoReason
    | AccountNotFound
    | SchemeNotAllowed
    | InsufficientBalance
    | AccountNotLive
  {
    /** One of the four reasons a failed payment can carry. */
    predicate IsCanonical() {
      !NoReason?
    }
  }

  /** An account as the datastore holds it. The allowed-schemes flag set is
      the set of schemes whose flag is on; a single-flag `HasFlag` test is
      membership in it. */
  datatype Account = Account(
    accountNumber: string,
    balance: real,
    status: AccountStatus,
    allowedPaymentSchemes: set<PaymentScheme>)
  {
    predicate Allows(scheme: PaymentScheme) {
      scheme in allowedPaymentSchemes
    }
  }

  /** A payment request: which account pays, to whom, how much, over which rail.
      The creditor is carried but never inspected. */
  datatype MakePaymentRequest = MakePaymentRequest(
    creditorAccountNumber: string,
    debtorAccountNumber: string,
    amount: real,
    paymentScheme: PaymentScheme)

  /** The outcome reported to the caller. */
  datatype MakePaymentResult = MakePaymentResult(
    success: bool,
    failureReason: Option<PaymentFailureReason>)
  {
    /** Success carries no reason, and a failure carries exactly one of the
        four canonical reasons. */
    predicate WellFormed() {
      && (success <==> failureReason.None?)
      && (failureReason.Some? ==> failureReason.value.IsCanonical())
    }
  }

  function Succeeded(): (r: MakePaymentResult)
    ensures r.WellFormed() && r.success
  {
    MakePaymentResult(true, None)
  }

  function Failed(reason: PaymentFailureReason): (r: MakePaymentResult)
    requires reason.IsCanonical()
    ensures r.WellFormed() && !r.success
    ensures r.failureReason == Some(reason)
  {
    MakePaymentResult(false, Some(reason))
  }
}
