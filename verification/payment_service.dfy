/**
 The payment service: fetch the debtor account, decide eligibility by an
 if/else-if chain per scheme, and only on success debit the amount and write
 the account back once.
 */
module PaymentService {
  import opened Types
  import opened AccountStore

  /** What one call returns, together with the datastore as it is afterwards. */
  datatype PaymentOutcome = PaymentOutcome(result: MakePaymentResult, store: Store)

  /** The scheme-specific condition beyond "account present and scheme
      allowed": Faster Payments needs the balance to cover the amount, Chaps
      needs a live account, Bacs needs nothing more. */
  predicate SchemeCondition(scheme: PaymentScheme, account: Account, amount: real) {
    match scheme
    case Bacs => true
    case FasterPayments => account.balance >= amount
    case Chaps => account.status == Live
  }

  /** The per-scheme decision; the first failing check sets the one reason. */
  function Eligibility(request: MakePaymentRequest, account: Option<Account>): (result: MakePaymentResult)
    ensures result.WellFormed()
    ensures account.None? ==> result == Failed(AccountNotFound)
    ensures account.Some? && !account.value.Allows(request.paymentScheme) ==> result == Failed(SchemeNotAllowed)
    ensures (&& request.paymentScheme == FasterPayments && account.Some?
             && account.value.Allows(FasterPayments) && account.value.balance < request.amount)
            ==> result == Failed(InsufficientBalance)
    ensures (&& request.paymentScheme == Chaps && account.Some?
             && account.value.Allows(Chaps) && account.value.status != Live)
            ==> result == Failed(AccountNotLive)
    ensures result.success <==>
              account.Some? && account.value.Allows(request.paymentScheme)
              && SchemeCondition(request.paymentScheme, account.value, request.amount)
  {
    match request.paymentScheme
    case Bacs =>
      if account.None? then Failed(AccountNotFound)
      else if !account.value.Allows(Bacs) then Failed(SchemeNotAllowed)
      else Succeeded()
    case FasterPayments =>
      if account.None? then Failed(AccountNotFound)
      else if !account.value.Allows(FasterPayments) then Failed(SchemeNotAllowed)
      else if account.value.balance < request.amount then Failed(InsufficientBalance)
      else Succeeded()
    case Chaps =>
      if account.None? then Failed(AccountNotFound)
      else if !account.value.Allows(Chaps) then Failed(SchemeNotAllowed)
      else if account.value.status != Live then Failed(AccountNotLive)
      else Succeeded()
  }

  /** The account after paying out `amount`: only the balance moves. */
  function Debit(account: Account, amount: real): (debited: Account)
    ensures debited.balance == account.balance - amount
    ensures debited.accountNumber == account.accountNumber
    ensures debited.status == account.status
    ensures debited.allowedPaymentSchemes == account.allowedPaymentSchemes
  {
    account.(balance := account.balance - amount)
  }

  function MakePayment(store: Store, request: MakePaymentRequest): (outcome: PaymentOutcome)
    ensures outcome.result.WellFormed()
    ensures outcome.result.success ==> request.debtorAccountNumber in store.accounts
    ensures !outcome.result.success ==> outcome.store == store
    ensures outcome.result.success ==>
              var before := store.accounts[request.debtorAccountNumber];
              var after := before.(balance := before.balance - request.amount);
              && outcome.store.updates == store.updates + [after]
              && GetAccount(outcome.store, before.accountNumber) == Some(after)
              && forall number :: number != before.accountNumber ==>
                   GetAccount(outcome.store, number) == GetAccount(store, number)
  {
    var account := GetAccount(store, request.debtorAccountNumber);
    var result := Eligibility(request, account);
    if result.success then
      PaymentOutcome(result, UpdateAccount(store, Debit(account.value, request.amount)))
    else
      PaymentOutcome(result, store)
  }

  /** An unknown debtor fails with AccountNotFound whatever the scheme,
      amount or anything else, and the store is left alone. */
  lemma AbsentAccountFails(store: Store, request: MakePaymentRequest)
    requires request.debtorAccountNumber !in store.accounts
    ensures MakePayment(store, request).result == Failed(AccountNotFound)
    ensures MakePayment(store, request).store == store
  {
  }

  /** A present account that does not allow the requested scheme fails with
      SchemeNotAllowed, before any balance or status check. */
  lemma SchemeNotAllowedFails(store: Store, request: MakePaymentRequest)
    requires request.debtorAccountNumber in store.accounts
    requires !store.accounts[request.debtorAccountNumber].Allows(request.paymentScheme)
    ensures MakePayment(store, request).result == Failed(SchemeNotAllowed)
    ensures MakePayment(store, request).store == store
  {
  }

  /** Faster Payments with the flag set fails exactly when the balance is
      below the amount, and then with InsufficientBalance; equality pays. */
  lemma FasterPaymentsBalanceRule(store: Store, request: MakePaymentRequest)
    requires request.paymentScheme == FasterPayments
    requires request.debtorAccountNumber in store.accounts
    requires store.accounts[request.debtorAccountNumber].Allows(FasterPayments)
    ensures var result := MakePayment(store, request).result;
            && (result.success <==> store.accounts[request.debtorAccountNumber].balance >= request.amount)
            && (!result.success ==> result.failureReason == Some(InsufficientBalance))
  {
  }

  /** Chaps with the flag set fails exactly when the account is not Live,
      and then with AccountNotLive. */
  lemma ChapsStatusRule(store: Store, request: MakePaymentRequest)
    requires request.paymentScheme == Chaps
    requires request.debtorAccountNumber in store.accounts
    requires store.accounts[request.debtorAccountNumber].Allows(Chaps)
    ensures var result := MakePayment(store, request).result;
            && (result.success <==> store.accounts[request.debtorAccountNumber].status == Live)
            && (!result.success ==> result.failureReason == Some(AccountNotLive))
  {
  }

  /** Bacs pays whenever the account exists and allows Bacs, whatever the
      balance, amount or status, so the balance can go below zero. */
  lemma BacsAllowedSucceeds(store: Store, request: MakePaymentRequest)
    requires request.paymentScheme == Bacs
    requires request.debtorAccountNumber in store.accounts
    requires store.accounts[request.debtorAccountNumber].Allows(Bacs)
    ensures MakePayment(store, request).result == Succeeded()
    ensures var before := store.accounts[request.debtorAccountNumber];
            request.amount > before.balance ==>
              MakePayment(store, request).store.accounts[before.accountNumber].balance < 0.0
  {
  }

  /** Over a store that keeps each account under its own number, a payment
      keeps that so, and a successful one changes exactly the debtor's
      balance, by exactly the amount, with one write. */
  lemma PaymentPreservesStore(store: Store, request: MakePaymentRequest)
    requires store.Valid()
    ensures var outcome := MakePayment(store, request);
            && outcome.store.Valid()
            && outcome.store.accounts.Keys == store.accounts.Keys
            && (outcome.result.success ==>
                  && |outcome.store.updates| == |store.updates| + 1
                  && outcome.store.accounts[request.debtorAccountNumber].balance
                       == store.accounts[request.debtorAccountNumber].balance - request.amount)
            && (!outcome.result.success ==> |outcome.store.updates| == |store.updates|)
  {
  }

  /** No result ever carries the enumeration's zero member. */
  lemma NeverReportsNoReason(store: Store, request: MakePaymentRequest)
    ensures MakePayment(store, request).result.failureReason != Some(NoReason)
  {
  }
}
