/** The simulated accounts the login page keeps in the store. */
module Accounts {
  import opened Wrappers
  import opened Lists

  datatype Account = Account(email: string, password: string, name: string)

  predicate Matches(a: Account, email: string, password: string) {
    a.email == email && a.password == password
  }

  /**
   * `accounts.find(a => a.email === email && a.password === password)`:
   * the first account with this email and password.
   */
  function FindAccount(accounts: seq<Account>, email: string, password: string): (r: Option<Account>)
    ensures r.Some? ==> exists i :: 0 <= i < |accounts| && accounts[i] == r.value && Matches(r.value, email, password)
                                   && forall j :: 0 <= j < i ==> !Matches(accounts[j], email, password)
    ensures r.None? <==> forall a :: a in accounts ==> !Matches(a, email, password)
  {
    match FindFirst(accounts, (a: Account) => Matches(a, email, password))
    case None => None
    case Some(i) => Some(accounts[i])
  }

  /** An account appended to any list can be found again by its own email and password. */
  lemma FindAppended(accounts: seq<Account>, acc: Account)
    ensures FindAccount(accounts + [acc], acc.email, acc.password).Some?
  {
    assert acc in accounts + [acc];
  }
}
