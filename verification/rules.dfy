/**
 The semantics of a rule-based validator over a payment validation context.

 A validator is a list of rules in declaration order. Each rule names one
 check on the context, the failure reason it reports, and an optional guard
 (`When(account != null)`). Validation runs every rule whose guard holds,
 with no stop after the first failure, and reports the reasons of the
 failing rules in declaration order. This is the validation library's
 default cascade behaviour, which the validators do not override.
 */
module Rules {
  import opened Types

  /** The (account, request) pair one validation examines; the account is
      absent when the datastore had no account under the debtor number. */
  datatype PaymentValidationContext = PaymentValidationContext(
    account: Option<Account>,
    request: MakePaymentRequest)

  datatype Guard = Always | WhenAccountPresent

  datatype Check =
    | AccountNotNull
    | SchemeFlagSet(flag: PaymentScheme)
    | BalanceCoversAmount
    | StatusIs(status: AccountStatus)
  {
    /** Whether evaluating the check reads through the account reference. */
    predicate ReadsAccount() {
      !AccountNotNull?
    }
  }

  datatype Rule = Rule(check: Check, reason: PaymentFailureReason, guard: Guard)
  {
    /** A rule that reads through the account must be guarded so that it is
        skipped when the account is absent; otherwise the check would
        dereference null. */
    predicate WellGuarded() {
      check.ReadsAccount() ==> guard == WhenAccountPresent
    }
  }

  predicate AllWellGuarded(rules: seq<Rule>) {
    forall i :: 0 <= i < |rules| ==> rules[i].WellGuarded()
  }

  predicate GuardHolds(guard: Guard, ctx: PaymentValidationContext) {
    match guard
    case Always => true
    case WhenAccountPresent => ctx.account.Some?
  }

  predicate Passes(check: Check, ctx: PaymentValidationContext)
    requires check.ReadsAccount() ==> ctx.account.Some?
  {
    match check
    case AccountNotNull => ctx.account.Some?
    case SchemeFlagSet(flag) => ctx.account.value.Allows(flag)
    case BalanceCoversAmount => ctx.account.value.balance >= ctx.request.amount
    case StatusIs(status) => ctx.account.value.status == status
  }

  /** The rule is applied (its guard holds) and its check does not pass. */
  predicate Fails(rule: Rule, ctx: PaymentValidationContext)
    requires rule.WellGuarded()
  {
    GuardHolds(rule.guard, ctx) && !Passes(rule.check, ctx)
  }

  /** The reasons of all failing rules, in declaration order. */
  function Evaluate(rules: seq<Rule>, ctx: PaymentValidationContext): (reasons: seq<PaymentFailureReason>)
    requires AllWellGuarded(rules)
    ensures |reasons| <= |rules|
    ensures reasons == [] <==> forall i :: 0 <= i < |rules| ==> !Fails(rules[i], ctx)
    ensures forall reason :: reason in reasons <==>
              exists i :: 0 <= i < |rules| && Fails(rules[i], ctx) && rules[i].reason == reason
    ensures reasons != [] ==>
              exists i :: 0 <= i < |rules| && Fails(rules[i], ctx) && reasons[0] == rules[i].reason
                          && forall j :: 0 <= j < i ==> !Fails(rules[j], ctx)
    decreases |rules|
  {
    if rules == [] then []
    else
      var rest := Evaluate(rules[1..], ctx);
      assert forall i :: 1 <= i < |rules| ==> rules[i] == rules[1..][i - 1];
      if Fails(rules[0], ctx) then [rules[0].reason] + rest else rest
  }

  /** A single rule reports its reason exactly when it fails. */
  lemma EvaluateSingle(rule: Rule, ctx: PaymentValidationContext)
    requires rule.WellGuarded()
    ensures Evaluate([rule], ctx) == if Fails(rule, ctx) then [rule.reason] else []
  {
    assert [rule][1..] == [];
  }

  /** Declaration order: the reasons of a concatenated rule list are the
      reasons of the first part followed by those of the second. */
  lemma {:induction false} EvaluateAppend(first: seq<Rule>, second: seq<Rule>, ctx: PaymentValidationContext)
    requires AllWellGuarded(first) && AllWellGuarded(second)
    ensures AllWellGuarded(first + second)
    ensures Evaluate(first + second, ctx) == Evaluate(first, ctx) + Evaluate(second, ctx)
    decreases |first|
  {
    if first == [] {
      assert first + second == second;
    } else {
      assert (first + second)[1..] == first[1..] + second;
      EvaluateAppend(first[1..], second, ctx);
    }
  }
}
