/**
 The rule-based validators and the service's inlined decision agree: for
 every scheme, the validator reports nothing exactly when the payment
 succeeds, and its first reason is the reason the service reports.
 */
module Agreement {
  import opened Types
  import opened AccountStore
  import opened Rules
  import opened Validators
  import opened PaymentService

  /** The context the service would hand a validator for this request. */
  function ContextFor(store: Store, request: MakePaymentRequest): PaymentValidationContext {
    PaymentValidationContext(GetAccount(store, request.debtorAccountNumber), request)
  }

  /** The result a validator's reason list stands for: no reasons is success,
      otherwise the first reason is the one reported. */
  function ResultOf(reasons: seq<PaymentFailureReason>): (result: MakePaymentResult)
    requires forall i :: 0 <= i < |reasons| ==> reasons[i].IsCanonical()
    ensures result.WellFormed()
    ensures result.success <==> reasons == []
    ensures reasons != [] ==> result.failureReason == Some(reasons[0])
  {
    if reasons == [] then Succeeded() else Failed(reasons[0])
  }

  lemma BacsValidatorAgrees(store: Store, request: MakePaymentRequest)
    requires request.paymentScheme == Bacs
    ensures var reasons := ValidateBacs(ContextFor(store, request));
            var result := MakePayment(store, request).result;
            && (reasons == [] <==> result.success)
            && (reasons != [] ==> result.failureReason == Some(reasons[0]))
  {
  }

  lemma FasterPaymentsValidatorAgrees(store: Store, request: MakePaymentRequest)
    requires request.paymentScheme == FasterPayments
    ensures var reasons := ValidateFasterPayments(ContextFor(store, request));
            var result := MakePayment(store, request).result;
            && (reasons == [] <==> result.success)
            && (reasons != [] ==> result.failureReason == Some(reasons[0]))
  {
  }

  lemma ChapsValidatorAgrees(store: Store, request: MakePaymentRequest)
    requires request.paymentScheme == Chaps
    ensures var reasons := ValidateChaps(ContextFor(store, request));
            var result := MakePayment(store, request).result;
            && (reasons == [] <==> result.success)
            && (reasons != [] ==> result.failureReason == Some(reasons[0]))
  {
  }

  /** The service written the way the validators suggest: build the context,
      run the scheme's validator, and debit and write back only when it
      reports nothing. It behaves exactly like the inlined decision. */
  function MakePaymentWithValidator(store: Store, request: MakePaymentRequest): (outcome: PaymentOutcome)
    ensures outcome == MakePayment(store, request)
  {
    var ctx := ContextFor(store, request);
    var reasons := Validate(request.paymentScheme, ctx);
    ValidatorsAgree(store, request);
    if reasons == [] then
      PaymentOutcome(Succeeded(), UpdateAccount(store, Debit(ctx.account.value, request.amount)))
    else
      PaymentOutcome(Failed(reasons[0]), store)
  }

  /** Every reason a validator reports is canonical, and its result reading
      is the service's result, for every scheme. */
  lemma ValidatorsAgree(store: Store, request: MakePaymentRequest)
    ensures var reasons := Validate(request.paymentScheme, ContextFor(store, request));
            && (forall i :: 0 <= i < |reasons| ==> reasons[i].IsCanonical())
            && ResultOf(reasons) == MakePayment(store, request).result
  {
    match request.paymentScheme
    case Bacs => BacsValidatorAgrees(store, request);
    case FasterPayments => FasterPaymentsValidatorAgrees(store, request);
    case Chaps => ChapsValidatorAgrees(store, request);
  }
}
