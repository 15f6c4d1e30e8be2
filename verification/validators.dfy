/**
 The three per-scheme validators, each the list of rules its constructor
 declares, and what each reports in closed form.
 */
module Validators {
  import opened Types
  import opened Rules

  const AccountMustExist := Rule(AccountNotNull, AccountNotFound, Always)

  function SchemeMustBeAllowed(scheme: PaymentScheme): Rule {
    Rule(SchemeFlagSet(scheme), SchemeNotAllowed, WhenAccountPresent)
  }

  const BalanceMustCoverAmount := Rule(BalanceCoversAmount, InsufficientBalance, WhenAccountPresent)

  const StatusMustBeLive := Rule(StatusIs(Live), AccountNotLive, WhenAccountPresent)

  const BacsRules: seq<Rule> := [AccountMustExist, SchemeMustBeAllowed(Bacs)]

  const FasterPaymentsRules: seq<Rule> := [
    AccountMustExist,
    SchemeMustBeAllowed(FasterPayments),
    BalanceMustCoverAmount
  ]

  const ChapsRules: seq<Rule> := [
    AccountMustExist,
    SchemeMustBeAllowed(Chaps),
    StatusMustBeLive
  ]

  /** Every validator opens with the account rule and the scheme-flag rule:
      the account rule alone speaks for an absent account, and with a present
      account the flag rule's reason comes first. */
  lemma SplitRules(first: Rule, second: Rule, rest: seq<Rule>, ctx: PaymentValidationContext)
    requires first == AccountMustExist
    requires second.WellGuarded() && AllWellGuarded(rest)
    ensures AllWellGuarded([first, second] + rest)
    ensures Evaluate([first, second] + rest, ctx)
              == (if ctx.account.None? then [AccountNotFound] else [])
                 + (if Fails(second, ctx) then [second.reason] else [])
                 + Evaluate(rest, ctx)
  {
    EvaluateSingle(first, ctx);
    EvaluateSingle(second, ctx);
    EvaluateAppend([first], [second], ctx);
    EvaluateAppend([first] + [second], rest, ctx);
    assert [first] + [second] == [first, second];
  }

  /** Bacs: an absent account is the only reason reported for it; a present
      account fails only for a missing Bacs flag. Balance, amount and status
      play no part. */
  function ValidateBacs(ctx: PaymentValidationContext): (reasons: seq<PaymentFailureReason>)
    ensures ctx.account.None? ==> reasons == [AccountNotFound]
    ensures ctx.account.Some? ==>
              reasons == (if ctx.account.value.Allows(Bacs) then [] else [SchemeNotAllowed])
  {
    SplitRules(AccountMustExist, SchemeMustBeAllowed(Bacs), [], ctx);
    Evaluate(BacsRules, ctx)
  }

  /** Faster Payments: with a present account both the flag rule and the
      balance rule run, so both reasons can be reported, flag first. The
      balance rule passes when the balance equals the amount. */
  function ValidateFasterPayments(ctx: PaymentValidationContext): (reasons: seq<PaymentFailureReason>)
    ensures ctx.account.None? ==> reasons == [AccountNotFound]
    ensures ctx.account.Some? ==>
              reasons == (if ctx.account.value.Allows(FasterPayments) then [] else [SchemeNotAllowed])
                         + (if ctx.account.value.balance < ctx.request.amount then [InsufficientBalance] else [])
  {
    SplitRules(AccountMustExist, SchemeMustBeAllowed(FasterPayments), [BalanceMustCoverAmount], ctx);
    EvaluateSingle(BalanceMustCoverAmount, ctx);
    assert FasterPaymentsRules == [AccountMustExist, SchemeMustBeAllowed(FasterPayments)] + [BalanceMustCoverAmount];
    Evaluate(FasterPaymentsRules, ctx)
  }

  /** Chaps: with a present account both the flag rule and the status rule
      run, flag first; balance and amount play no part. */
  function ValidateChaps(ctx: PaymentValidationContext): (reasons: seq<PaymentFailureReason>)
    ensures ctx.account.None? ==> reasons == [AccountNotFound]
    ensures ctx.account.Some? ==>
              reasons == (if ctx.account.value.Allows(Chaps) then [] else [SchemeNotAllowed])
                         + (if ctx.account.value.status != Live then [AccountNotLive] else [])
  {
    SplitRules(AccountMustExist, SchemeMustBeAllowed(Chaps), [StatusMustBeLive], ctx);
    EvaluateSingle(StatusMustBeLive, ctx);
    assert ChapsRules == [AccountMustExist, SchemeMustBeAllowed(Chaps)] + [StatusMustBeLive];
    Evaluate(ChapsRules, ctx)
  }

  /** The validator responsible for a scheme. */
  function Validate(scheme: PaymentScheme, ctx: PaymentValidationContext): seq<PaymentFailureReason> {
    match scheme
    case Bacs => ValidateBacs(ctx)
    case FasterPayments => ValidateFasterPayments(ctx)
    case Chaps => ValidateChaps(ctx)
  }

  /** The context with the account's balance and the request's amount
      replaced; presence, flags and status are kept. */
  function WithMoney(ctx: PaymentValidationContext, balance: real, amount: real): (c: PaymentValidationContext)
    ensures c.account.Some? <==> ctx.account.Some?
    ensures c.account.Some? ==> c.account.value == ctx.account.value.(balance := balance)
    ensures c.request == ctx.request.(amount := amount)
  {
    var account := match ctx.account
      case None => None
      case Some(a) => Some(a.(balance := balance));
    PaymentValidationContext(account, ctx.request.(amount := amount))
  }

  /** The context with the account's status replaced, if there is an account. */
  function WithStatus(ctx: PaymentValidationContext, status: AccountStatus): (c: PaymentValidationContext)
    ensures c.account.Some? <==> ctx.account.Some?
    ensures c.account.Some? ==> c.account.value == ctx.account.value.(status := status)
    ensures c.request == ctx.request
  {
    var account := match ctx.account
      case None => None
      case Some(a) => Some(a.(status := status));
    PaymentValidationContext(account, ctx.request)
  }

  /** Bacs looks only at presence and the Bacs flag: it never reports a
      balance or status reason, and balance, amount and status do not change
      what it reports. */
  lemma BacsIgnoresBalanceAndStatus(ctx: PaymentValidationContext, balance: real, amount: real, status: AccountStatus)
    ensures InsufficientBalance !in ValidateBacs(ctx) && AccountNotLive !in ValidateBacs(ctx)
    ensures ValidateBacs(WithStatus(WithMoney(ctx, balance, amount), status)) == ValidateBacs(ctx)
  {
  }

  /** Chaps never reports InsufficientBalance, and balance and amount do not
      change what it reports. */
  lemma ChapsIgnoresBalanceAndAmount(ctx: PaymentValidationContext, balance: real, amount: real)
    ensures InsufficientBalance !in ValidateChaps(ctx)
    ensures ValidateChaps(WithMoney(ctx, balance, amount)) == ValidateChaps(ctx)
  {
  }

  /** Faster Payments never reports AccountNotLive, and the status does not
      change what it reports. */
  lemma FasterPaymentsIgnoresStatus(ctx: PaymentValidationContext, status: AccountStatus)
    ensures AccountNotLive !in ValidateFasterPayments(ctx)
    ensures ValidateFasterPayments(WithStatus(ctx, status)) == ValidateFasterPayments(ctx)
  {
  }

  /** The rules are not chained with a stop: a present account that lacks the
      Faster Payments flag and cannot cover the amount gets both reasons, in
      declaration order. */
  lemma FasterPaymentsReportsEveryFailure(ctx: PaymentValidationContext)
    requires ctx.account.Some?
    requires !ctx.account.value.Allows(FasterPayments)
    requires ctx.account.value.balance < ctx.request.amount
    ensures ValidateFasterPayments(ctx) == [SchemeNotAllowed, InsufficientBalance]
  {
  }

  /** Likewise for Chaps: flag missing and account not live gives both reasons. */
  lemma ChapsReportsEveryFailure(ctx: PaymentValidationContext)
    requires ctx.account.Some?
    requires !ctx.account.value.Allows(Chaps)
    requires ctx.account.value.status != Live
    ensures ValidateChaps(ctx) == [SchemeNotAllowed, AccountNotLive]
  {
  }
}
