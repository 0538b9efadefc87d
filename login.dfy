/**
 * The login page: sign-in with the built-in credentials or with a stored
 * simulated account, simulated social sign-in, and account creation.
 */
module Login {
  import opened Wrappers
  import opened Storage
  import opened Accounts
  import opened App

  const DefaultEmail: string := "admin@example.com"
  const DefaultPassword: string := "Password123"
  const AccountsKey: string := "app:accounts"
  const InvalidCredentials: string :=
    "Identifiants invalides — utilisez les identifiants par défaut ou connectez-vous via GitHub/Google."

  datatype Provider = GitHub | Google

  function ProviderName(p: Provider): string {
    match p
    case GitHub => "github"
    case Google => "google"
  }

  /** The address a social sign-in records: `${provider}_user@example.com`. */
  function SocialEmail(p: Provider): string {
    ProviderName(p) + "_user@example.com"
  }

  predicate IsDefault(email: string, password: string) {
    email == DefaultEmail && password == DefaultPassword
  }

  /**
   * `readAccounts()`: the stored account list; empty when the key is absent
   * or empty (read as "[]"), when its text does not parse, or when reading
   * the store throws.
   */
  function ReadAccounts(view: Option<Items>): (accounts: seq<Account>)
    ensures accounts != [] ==>
      view.Some? && AccountsKey in view.value && view.value[AccountsKey] == Json(AccountList(accounts))
    ensures view.None? || AccountsKey !in view.value || view.value[AccountsKey].Text? ==> accounts == []
    ensures (view.Some? && AccountsKey in view.value && view.value[AccountsKey].Json?
             && view.value[AccountsKey].value.AccountList?) ==> accounts == view.value[AccountsKey].value.accounts
  {
    match view
    case None => []
    case Some(items) =>
      if AccountsKey in items && items[AccountsKey].Json? && items[AccountsKey].value.AccountList?
      then items[AccountsKey].value.accounts
      else []
  }

  class LoginPage {
    const store: Store
    var email: string
    var password: string
    var error: Option<string>
    var creating: bool

    constructor (store: Store)
      ensures this.store == store
      ensures email == "" && password == "" && error == None && !creating
    {
      this.store := store;
      email, password, error, creating := "", "", None, false;
    }

    /** Typing into the two fields of the form. */
    method EnterCredentials(e: string, p: string)
      modifies this
      ensures email == e && password == p
      ensures error == old(error) && creating == old(creating)
    {
      email, password := e, p;
    }

    /** The demo button that fills in the built-in credentials. */
    method Prefill()
      modifies this
      ensures IsDefault(email, password)
      ensures error == old(error) && creating == old(creating)
    {
      email, password := DefaultEmail, DefaultPassword;
    }

    /** The button that opens and closes the account-creation form. */
    method ToggleCreating()
      modifies this
      ensures creating == !old(creating)
      ensures email == old(email) && password == old(password) && error == old(error)
    {
      creating := !creating;
    }

    /** The account-creation form's Cancel button. */
    method CancelCreate()
      modifies this
      ensures !creating
      ensures email == old(email) && password == old(password) && error == old(error)
    {
      creating := false;
    }

    /** Writes `app:auth = "true"` and the user record; false when the store throws or is full. */
    method SignIn(user: Value) returns (ok: bool)
      modifies store
      ensures ok == store.Writable()
      ensures store.items == if store.Writable() then old(store.items)[AuthKey := Text("true")][AuthUserKey := Json(user)]
                             else old(store.items)
      ensures ok ==> IsAuthenticated(store.View())
    {
      ok := store.SetItem(AuthKey, Text("true"));
      if ok {
        ok := store.SetItem(AuthUserKey, Json(user));
      }
    }

    /** `saveAccount`: the accounts read back, with `acc` appended, are written over the key. */
    method SaveAccount(acc: Account) returns (ok: bool)
      modifies store
      ensures ok == store.Writable()
      ensures store.items == if store.Writable()
        then old(store.items)[AccountsKey := Json(AccountList(ReadAccounts(old(store.View())) + [acc]))]
        else old(store.items)
      ensures ok ==> ReadAccounts(store.View()) == ReadAccounts(old(store.View())) + [acc]
    {
      var accounts := ReadAccounts(store.View());
      accounts := accounts + [acc];
      ok := store.SetItem(AccountsKey, Json(AccountList(accounts)));
    }

    /**
     * `handleLogin`: the error is cleared; the built-in credentials sign in;
     * otherwise the first stored account with this email and password signs
     * in; otherwise the error is shown and the store is untouched. A write
     * that throws, on a disabled or full store, aborts the handler.
     */
    method HandleLogin() returns (navigated: bool)
      modifies this, store
      ensures navigated == (store.Writable() &&
        (IsDefault(old(email), old(password)) || FindAccount(ReadAccounts(old(store.View())), old(email), old(password)).Some?))
      ensures navigated ==> store.items == old(store.items)[AuthKey := Text("true")][AuthUserKey := Json(AuthUser(email, None, None))]
      ensures !navigated ==> store.items == old(store.items)
      ensures navigated ==> IsAuthenticated(store.View())
      ensures error == if IsDefault(email, password) || FindAccount(ReadAccounts(old(store.View())), email, password).Some?
                       then None else Some(InvalidCredentials)
      ensures email == old(email) && password == old(password) && creating == old(creating)
    {
      error := None;
      if IsDefault(email, password) {
        navigated := SignIn(AuthUser(email, None, None));
        return;
      }
      var accounts := ReadAccounts(store.View());
      var found := FindAccount(accounts, email, password);
      if found.Some? {
        navigated := SignIn(AuthUser(found.value.email, None, None));
        return;
      }
      error := Some(InvalidCredentials);
      navigated := false;
    }

    /** `simulateSocialLogin`: signs in as `${provider}_user@example.com`. */
    method SimulateSocialLogin(provider: Provider) returns (navigated: bool)
      modifies store
      ensures navigated == store.Writable()
      ensures store.items == if store.Writable() then
          old(store.items)[AuthKey := Text("true")]
                          [AuthUserKey := Json(AuthUser(SocialEmail(provider), None, Some(ProviderName(provider))))]
        else old(store.items)
      ensures navigated ==> IsAuthenticated(store.View())
    {
      navigated := SignIn(AuthUser(SocialEmail(provider), None, Some(ProviderName(provider))));
    }

    /**
     * The account-creation form's submit: `handleCreateAccount`, then the
     * form closes unless the handler threw. An empty email or password only
     * raises the alert; otherwise the account is saved and signs in.
     */
    method HandleCreateAccount(name: string, em: string, pw: string) returns (navigated: bool, alerted: bool)
      modifies this, store
      ensures alerted <==> em == "" || pw == ""
      ensures navigated <==> !alerted && store.Writable()
      ensures navigated ==> (store.items ==
        old(store.items)[AccountsKey := Json(AccountList(ReadAccounts(old(store.View())) + [Account(em, pw, name)]))]
                        [AuthKey := Text("true")][AuthUserKey := Json(AuthUser(em, Some(name), None))])
      ensures !navigated ==> store.items == old(store.items)
      ensures navigated ==> IsAuthenticated(store.View())
      ensures navigated ==> FindAccount(ReadAccounts(store.View()), em, pw).Some?
      ensures creating == if alerted || navigated then false else old(creating)
      ensures email == old(email) && password == old(password) && error == old(error)
    {
      alerted := em == "" || pw == "";
      navigated := false;
      if !alerted {
        var acc := Account(em, pw, name);
        var ok := SaveAccount(acc);
        if ok {
          ghost var saved := store.items;
          FindAppended(ReadAccounts(old(store.View())), acc);
          navigated := SignIn(AuthUser(em, Some(name), None));
          assert ReadAccounts(store.View()) == ReadAccounts(Some(saved));
        }
      }
      if alerted || navigated {
        creating := false;
      }
    }
  }
}
