/**
 The repository's unit-test cases as lemmas about the model. Values the
 tests leave to a fixture generator (the debtor number the request carries,
 the account's own number, the creditor, some amounts) are parameters. As in
 the tests' mock, the account is returned for the debtor number whatever its
 own number is, so each lemma covers every value the fixture could draw.
 */
module Scenarios {
  import opened Types
  import opened AccountStore
  import opened PaymentService

  /** A store that returns `account` for the number `debtor` and nothing for
      any other number, with no writes yet. The account's own number need not
      be `debtor`. */
  function MockStore(debtor: string, account: Account): (store: Store)
    ensures GetAccount(store, debtor) == Some(account)
    ensures forall number :: number != debtor ==> GetAccount(store, number).None?
    ensures store.updates == []
  {
    Store(map[debtor := account], [])
  }

  /** The tests' account: the given flags, balance 1000 and status Live;
      tests that need another balance or status override the field. */
  function DefaultAccount(number: string, schemes: set<PaymentScheme>): (account: Account)
    ensures account.accountNumber == number
    ensures account.allowedPaymentSchemes == schemes
    ensures account.balance == 1000.0 && account.status == Live
  {
    Account(number, 1000.0, Live, schemes)
  }

  lemma AccountIsNullReturnsAccountNotFound(scheme: PaymentScheme, debtor: string, creditor: string, amount: real)
    ensures var outcome := MakePayment(Store(map[], []), MakePaymentRequest(creditor, debtor, amount, scheme));
            outcome.result == MakePaymentResult(false, Some(AccountNotFound)) && outcome.store.updates == []
  {
  }

  lemma SchemeNotAllowedReturnsSchemeNotAllowed(debtor: string, number: string, creditor: string, amount: real)
    ensures MakePayment(MockStore(debtor, DefaultAccount(number, {FasterPayments})),
                        MakePaymentRequest(creditor, debtor, amount, Bacs)).result
            == MakePaymentResult(false, Some(SchemeNotAllowed))
    ensures MakePayment(MockStore(debtor, DefaultAccount(number, {Bacs})),
                        MakePaymentRequest(creditor, debtor, amount, FasterPayments)).result
            == MakePaymentResult(false, Some(SchemeNotAllowed))
    ensures MakePayment(MockStore(debtor, DefaultAccount(number, {Bacs})),
                        MakePaymentRequest(creditor, debtor, amount, Chaps)).result
            == MakePaymentResult(false, Some(SchemeNotAllowed))
  {
  }

  /** The generated amount is taken to be within the default balance, as the
      Faster Payments case needs. */
  lemma SchemeAllowedReturnsSuccess(scheme: PaymentScheme, debtor: string, number: string, creditor: string, amount: real)
    requires amount <= 1000.0
    ensures MakePayment(MockStore(debtor, DefaultAccount(number, {scheme})),
                        MakePaymentRequest(creditor, debtor, amount, scheme)).result
            == MakePaymentResult(true, None)
  {
  }

  lemma FasterPaymentsInsufficientBalance(debtor: string, number: string, creditor: string)
    ensures MakePayment(MockStore(debtor, DefaultAccount(number, {FasterPayments}).(balance := 50.0)),
                        MakePaymentRequest(creditor, debtor, 100.0, FasterPayments)).result
            == MakePaymentResult(false, Some(InsufficientBalance))
  {
  }

  /** Paying 100 from 200 or from exactly 100 succeeds; the account written
      back in the latter case has balance 0. */
  lemma FasterPaymentsSufficientBalance(debtor: string, number: string, creditor: string)
    ensures MakePayment(MockStore(debtor, DefaultAccount(number, {FasterPayments}).(balance := 200.0)),
                        MakePaymentRequest(creditor, debtor, 100.0, FasterPayments)).result
            == MakePaymentResult(true, None)
    ensures var outcome := MakePayment(MockStore(debtor, DefaultAccount(number, {FasterPayments}).(balance := 100.0)),
                                       MakePaymentRequest(creditor, debtor, 100.0, FasterPayments));
            && outcome.result == MakePaymentResult(true, None)
            && outcome.store.updates == [Account(number, 0.0, Live, {FasterPayments})]
  {
  }

  lemma ChapsAccountNotLive(status: AccountStatus, debtor: string, number: string, creditor: string, amount: real)
    requires status != Live
    ensures MakePayment(MockStore(debtor, DefaultAccount(number, {Chaps}).(status := status)),
                        MakePaymentRequest(creditor, debtor, amount, Chaps)).result
            == MakePaymentResult(false, Some(AccountNotLive))
  {
  }

  /** Paying 50 by Bacs from 200: exactly one update is made, and the account
      it passes has balance 150. */
  lemma SuccessDeductsBalanceAndUpdatesOnce(debtor: string, number: string, creditor: string)
    ensures MakePayment(MockStore(debtor, DefaultAccount(number, {Bacs}).(balance := 200.0)),
                        MakePaymentRequest(creditor, debtor, 50.0, Bacs)).store.updates
            == [Account(number, 150.0, Live, {Bacs})]
  {
  }

  /** A successful Bacs payment from the default account passes that
      account, debited by the amount, to exactly one update. */
  lemma SuccessCallsUpdateAccount(debtor: string, number: string, creditor: string, amount: real)
    ensures MakePayment(MockStore(debtor, DefaultAccount(number, {Bacs})),
                        MakePaymentRequest(creditor, debtor, amount, Bacs)).store.updates
            == [DefaultAccount(number, {Bacs}).(balance := 1000.0 - amount)]
  {
  }

  /** A failed payment makes no update. */
  lemma FailureDoesNotUpdateAccount(debtor: string, creditor: string, amount: real)
    ensures MakePayment(Store(map[], []), MakePaymentRequest(creditor, debtor, amount, Bacs)).store.updates == []
  {
  }
}
