/**
 The account datastore the payment service talks to, as a value: the stored
 accounts keyed by account number, and the log of every `UpdateAccount` call
 in the order they were made.
 */
module AccountStore {
  import opened Types

  datatype Store = Store(accounts: map<string, Account>, updates: seq<Account>)
  {
    /** Every stored account sits under its own account number. */
    predicate Valid() {
      forall number :: number in accounts ==> accounts[number].accountNumber == number
    }
  }

  /** Fetch by account number; an unknown number yields no account. */
  function GetAccount(store: Store, accountNumber: string): (a: Option<Account>)
    ensures a.Some? <==> accountNumber in store.accounts
    ensures a.Some? ==> a.value == store.accounts[accountNumber]
  {
    if accountNumber in store.accounts then Some(store.accounts[accountNumber]) else None
  }

  /** Overwrite the stored state for the account's own number and record the call. */
  function UpdateAccount(store: Store, account: Account): (s: Store)
    ensures s.updates == store.updates + [account]
    ensures GetAccount(s, account.accountNumber) == Some(account)
    ensures forall number :: number != account.accountNumber ==>
              GetAccount(s, number) == GetAccount(store, number)
    ensures store.Valid() ==> s.Valid()
  {
    Store(store.accounts[account.accountNumber := account], store.updates + [account])
  }
}
