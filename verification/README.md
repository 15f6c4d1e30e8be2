# Payment eligibility and debit — a Dafny model

This project models the core of the ClearBank developer test: the
`PaymentService.MakePayment` decision and the debit it guards, and the three
rule-based validators (`BacsPaymentValidator`, `FasterPaymentsValidator`,
`ChapsPaymentValidator`) that encode the same per-scheme rules.

- `types.dfy` (`Types`): `PaymentScheme`, `AccountStatus`, `PaymentFailureReason`
  (with its zero member, here `NoReason`), `Account`, `MakePaymentRequest`,
  `MakePaymentResult` (the reason is an `Option`, absent on success) and
  `Option` for a reference that may be null. The allowed-schemes flag set is a
  `set<PaymentScheme>`; `HasFlag` on a single flag is membership. Money
  (`decimal`) is an exact `real`.
- `account_store.dfy` (`AccountStore`): the datastore as a value — accounts
  keyed by account number plus the log of `UpdateAccount` calls.
- `rules.dfy` (`Rules`): the meaning of a rule-based validator. A rule is a
  check, a reason and an optional `When(account != null)` guard, applied to a
  `PaymentValidationContext` pairing the possibly absent account with the
  request. `Evaluate`
  runs every rule whose guard holds, without stopping at the first failure,
  and returns the reasons of the failing rules in declaration order.
- `validators.dfy` (`Validators`): the three validators as rule lists, with
  each one's output in closed form.
- `payment_service.dfy` (`PaymentService`): the per-scheme if/else-if chain
  (`Eligibility`) and `MakePayment`, a pure function from (store, request) to
  (result, store afterwards).
- `agreement.dfy` (`Agreement`): for every scheme, the validator reports no
  reasons exactly when `MakePayment` succeeds, and its first reason is the
  service's reason. A service that runs the validator instead of the inlined
  chain behaves identically.
- `scenarios.dfy` (`Scenarios`): the repository's unit tests as lemmas. As in
  the tests' mock, the account is returned for the request's debtor number
  whatever its own account number is.

A reading in which each validator stops at its first failing check and
reports a single reason is not what the validators do: they declare
independent rules with no stop, so a present account can collect two reasons
(for example `SchemeNotAllowed` and then `InsufficientBalance` for Faster
Payments). The model follows the code, and proves that the first reason
always equals the service's single reason, so the two readings agree on
every result.

The service in the code inlines the rules and does not call the validators.
There is also no validator registry in the code; `Validators.Validate` is a
plain dispatch on the scheme, used to state the agreement.

## Model

| member | source | states |
|---|---|---|
| `AccountStore.GetAccount` | ClearBank.DeveloperTest/Services/PaymentService.cs:17 | An account is returned exactly when one is stored under the debtor number, and it is the stored one; otherwise the result is absent (null). |
| `AccountStore.UpdateAccount` | ClearBank.DeveloperTest/Services/PaymentService.cs:76 | The write is logged once, the account becomes readable under its own number, every other number reads as before, and a store that keeps accounts under their own numbers stays so. |
| `Rules.Evaluate` | ClearBank.DeveloperTest/Validators/FasterPaymentsValidator.cs:8-23 | A validator reports at most one reason per rule; it reports none exactly when no applicable rule fails; a reason is reported exactly when some failing rule carries it; the first reason is that of the earliest failing rule. |
| `Rules.EvaluateAppend` | ClearBank.DeveloperTest/Validators/ChapsPaymentValidator.cs:10-22 | Reasons come out in declaration order: the reasons of two rule lists run one after the other are the first list's reasons followed by the second's. |
| `Validators.ValidateBacs` | ClearBank.DeveloperTest/Validators/BacsPaymentValidator.cs:8-18 | An absent account yields only AccountNotFound; a present account yields SchemeNotAllowed when it lacks the Bacs flag and nothing otherwise. |
| `Validators.ValidateFasterPayments` | ClearBank.DeveloperTest/Validators/FasterPaymentsValidator.cs:8-23 | An absent account yields only AccountNotFound; a present account yields SchemeNotAllowed if the flag is missing, followed by InsufficientBalance if the balance is below the amount (equality passes). |
| `Validators.ValidateChaps` | ClearBank.DeveloperTest/Validators/ChapsPaymentValidator.cs:8-23 | An absent account yields only AccountNotFound; a present account yields SchemeNotAllowed if the flag is missing, followed by AccountNotLive if the status is not Live. |
| `Validators.BacsIgnoresBalanceAndStatus` | ClearBank.DeveloperTest/Validators/BacsPaymentValidator.cs:8-18 | The Bacs validator never reports InsufficientBalance or AccountNotLive, and changing balance, status or amount never changes what it reports. |
| `Validators.ChapsIgnoresBalanceAndAmount` | ClearBank.DeveloperTest/Validators/ChapsPaymentValidator.cs:8-23 | The Chaps validator never reports InsufficientBalance, and changing balance or amount never changes what it reports. |
| `Validators.FasterPaymentsIgnoresStatus` | ClearBank.DeveloperTest/Validators/FasterPaymentsValidator.cs:8-23 | The Faster Payments validator never reports AccountNotLive, and changing the status never changes what it reports. |
| `Validators.FasterPaymentsReportsEveryFailure` | ClearBank.DeveloperTest/Validators/FasterPaymentsValidator.cs:14-22 | With a present account that lacks the flag and cannot cover the amount, both reasons are reported, SchemeNotAllowed first. |
| `Validators.ChapsReportsEveryFailure` | ClearBank.DeveloperTest/Validators/ChapsPaymentValidator.cs:14-22 | With a present account that lacks the flag and is not Live, both reasons are reported, SchemeNotAllowed first. |
| `PaymentService.Eligibility` | ClearBank.DeveloperTest/Services/PaymentService.cs:19-71 | The result is well formed; an absent account fails with AccountNotFound; a present account without the scheme's flag fails with SchemeNotAllowed; with the flag set, Faster Payments below the amount fails with InsufficientBalance and Chaps on a non-Live account fails with AccountNotLive; success holds exactly when the account is present, allows the scheme and meets the scheme's own condition (none for Bacs, balance covers amount for Faster Payments, Live for Chaps). |
| `PaymentService.Debit` | ClearBank.DeveloperTest/Services/PaymentService.cs:75 | Only the balance changes, and it drops by exactly the amount. |
| `PaymentService.MakePayment` | ClearBank.DeveloperTest/Services/PaymentService.cs:15-80 | The result is well formed; success implies the debtor account exists; a failure leaves the store, writes included, untouched; a success writes the debited account exactly once, under its number, and every other account reads as before. |
| `PaymentService.AbsentAccountFails` | ClearBank.DeveloperTest/Services/PaymentService.cs:21-59 | For every scheme and amount, an unknown debtor fails with AccountNotFound and nothing is written. |
| `PaymentService.SchemeNotAllowedFails` | ClearBank.DeveloperTest/Services/PaymentService.cs:21-71 | For every scheme, a present account lacking the scheme's flag fails with SchemeNotAllowed whatever its balance and status, and nothing is written. |
| `PaymentService.FasterPaymentsBalanceRule` | ClearBank.DeveloperTest/Services/PaymentService.cs:47-51 | With the flag set, Faster Payments succeeds exactly when balance is at least the amount, and otherwise fails with InsufficientBalance. |
| `PaymentService.ChapsStatusRule` | ClearBank.DeveloperTest/Services/PaymentService.cs:65-69 | With the flag set, Chaps succeeds exactly when the status is Live, and otherwise fails with AccountNotLive. |
| `PaymentService.BacsAllowedSucceeds` | ClearBank.DeveloperTest/Services/PaymentService.cs:23-34 | A present account with the Bacs flag always pays, whatever balance, amount or status; an amount above the balance leaves it negative. |
| `PaymentService.PaymentPreservesStore` | ClearBank.DeveloperTest/Services/PaymentService.cs:73-77 | Over a store keeping accounts under their own numbers, a payment keeps that so and keeps the set of accounts; success makes exactly one write and lowers the debtor's balance by exactly the amount; failure makes none. |
| `PaymentService.NeverReportsNoReason` | ClearBank.DeveloperTest/Types/PaymentFailureReason.cs:3-10 | The enumeration's zero member is never reported. |
| `Agreement.BacsValidatorAgrees` | ClearBank.DeveloperTest/Validators/BacsPaymentValidator.cs:10-17 | The Bacs validator reports nothing exactly when a Bacs payment succeeds, and its first reason is the service's reason. |
| `Agreement.FasterPaymentsValidatorAgrees` | ClearBank.DeveloperTest/Validators/FasterPaymentsValidator.cs:10-22 | The Faster Payments validator reports nothing exactly when a Faster Payments payment succeeds, and its first reason is the service's reason. |
| `Agreement.ChapsValidatorAgrees` | ClearBank.DeveloperTest/Validators/ChapsPaymentValidator.cs:10-22 | The Chaps validator reports nothing exactly when a Chaps payment succeeds, and its first reason is the service's reason. |
| `Agreement.ValidatorsAgree` | ClearBank.DeveloperTest/Services/PaymentService.cs:21-71 | For every scheme, every reason the validator reports is canonical, and reading its list as a result (empty is success, else the first reason) gives exactly the service's result. |
| `Agreement.MakePaymentWithValidator` | ClearBank.DeveloperTest/Services/PaymentService.cs:15-80 | Running the scheme's validator and debiting only when it reports nothing gives the same result and the same store as the inlined decision. |
| `Scenarios.MockStore` | ClearBank.DeveloperTest.Tests/PaymentServiceTests.cs:170-174 | The mocked store returns the given account for the debtor number whatever the account's own number, nothing for any other number, and has no writes yet. |
| `Scenarios.DefaultAccount` | ClearBank.DeveloperTest.Tests/PaymentServiceTests.cs:161-168 | The tests' account has the given number and flags, balance 1000 and status Live. |
| `Scenarios.AccountIsNullReturnsAccountNotFound` | ClearBank.DeveloperTest.Tests/PaymentServiceTests.cs:28-41 | Each scheme with no account fails with AccountNotFound and writes nothing. |
| `Scenarios.SchemeNotAllowedReturnsSchemeNotAllowed` | ClearBank.DeveloperTest.Tests/PaymentServiceTests.cs:43-57 | The three mismatched scheme/flag pairs fail with SchemeNotAllowed, for any debtor number, account number and amount. |
| `Scenarios.SchemeAllowedReturnsSuccess` | ClearBank.DeveloperTest.Tests/PaymentServiceTests.cs:59-73 | Each scheme on a Live account with balance 1000 and that scheme's flag succeeds with no reason, for any amount up to the balance. |
| `Scenarios.FasterPaymentsInsufficientBalance` | ClearBank.DeveloperTest.Tests/PaymentServiceTests.cs:75-86 | Paying 100 from 50 by Faster Payments fails with InsufficientBalance. |
| `Scenarios.FasterPaymentsSufficientBalance` | ClearBank.DeveloperTest.Tests/PaymentServiceTests.cs:88-101 | Paying 100 from 200 or from 100 succeeds; in the latter the account written back has balance 0. |
| `Scenarios.ChapsAccountNotLive` | ClearBank.DeveloperTest.Tests/PaymentServiceTests.cs:103-116 | Chaps on a Disabled or InboundPaymentsOnly account fails with AccountNotLive. |
| `Scenarios.SuccessDeductsBalanceAndUpdatesOnce` | ClearBank.DeveloperTest.Tests/PaymentServiceTests.cs:118-128 | Paying 50 by Bacs from 200 makes exactly one update, and the account it passes has balance 150, whatever the account's own number and the debtor number it was fetched under. |
| `Scenarios.SuccessCallsUpdateAccount` | ClearBank.DeveloperTest.Tests/PaymentServiceTests.cs:130-140 | A Bacs payment of any amount from the default account makes exactly one update, passing the account with balance 1000 minus the amount. |
| `Scenarios.FailureDoesNotUpdateAccount` | ClearBank.DeveloperTest.Tests/PaymentServiceTests.cs:142-151 | A Bacs payment with no account makes no update. |

## Left out

- Datastore selection (`AccountDataStoreFactory`, reading `DataStoreType` from configuration) and the concrete stores: the store is a map of accounts plus a log of updates.
- The FluentValidation library: message strings, `WithMessage` formatting and the validation-result objects. Only the rule semantics are modelled: guarded checks whose reasons are collected in declaration order.
- The fall-through of the scheme `switch` for an unknown scheme value: `PaymentScheme` has exactly three constructors here.
- Decimal precision and overflow: balances and amounts are exact `real`s, so the debit never rounds or throws.
- Object identity: the source decrements the fetched account object in place. The model computes the debited account as a new value and writes it back; aliasing between the caller's object and the stored one is not modelled.
- Zero and negative amounts are accepted, as in the code; no check for them exists there either.
- `PaymentDate` and any other request field the core never reads.
- Concurrency: the read/write race between `GetAccount` and `UpdateAccount` is not modelled; every call is one sequential step.
- The test harness (fixture generation, the mocking library, assertions). The test cases appear as the `Scenarios` lemmas. The mocked store and the tests' `CreateAccount` appear as the helpers `Scenarios.MockStore` and `Scenarios.DefaultAccount`. Fixture-drawn values are lemma parameters.
- A cascade mode set outside the validators: running every rule with no stop is the validation library's default, and no validator changes it. A global setting such as a class-level cascade mode of Stop, made elsewhere in an application, would make each validator report only its first reason; the agreement lemmas would still hold, since they relate only the first reason to the service.
- The service constructor (`PaymentService.cs`, lines 10-13), which only asks the factory for a store: the store is passed to `MakePayment` directly.
