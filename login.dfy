/**
 * The login form: an operator signs in by email against a fixed credential list, or
 * by phone against the user list fetched from the server. A successful login stores
 * the session key under "userStatus".
 */
module Login {
  import opened Wrappers
  import opened Text
  import opened Collections

  /** An entry of the built-in admin list (the list itself is a parameter). */
  datatype Credential = Credential(email: string, password: string)

  /** A row of `/user-list` as the phone login reads it. */
  datatype Account = Account(phone: string, password: string)

  /** `loginMethod`: 'email', or anything else, which is the mobile form. */
  datatype Method = ByEmail | ByMobile

  datatype Form = Form(email: string, password: string, phone: string)

  /** What a submit ends in: the toast, or the key that was stored. */
  datatype Outcome =
    | FillDetails          // 'Fill login details.'
    | LoggedIn(key: string)
    | InvalidCredentials   // 'Invalid email or password.'
    | PasswordIncorrect    // 'Password Incorrect.'
    | NotRegistered        // 'Phone Number Not Registered!'
    | SomethingWrong       // 'Something went wrong! Try Again.'

  /** The email entry matches: the address ignoring case, the password exactly. */
  predicate EmailMatches(c: Credential, email: string, password: string) {
    Lower(c.email) == Lower(email) && c.password == password
  }

  function EmailMatcher(email: string, password: string): Credential -> bool {
    c => EmailMatches(c, email, password)
  }

  /** The email path of `handleSubmit`. */
  function EmailLogin(admins: seq<Credential>, email: string, password: string): (r: Outcome)
    ensures r.FillDetails? <==> email == "" || password == ""
    ensures r.LoggedIn? <==>
      email != "" && password != "" && exists i :: 0 <= i < |admins| && EmailMatches(admins[i], email, password)
    ensures r.LoggedIn? ==> exists i :: 0 <= i < |admins| && EmailMatches(admins[i], email, password) && r.key == admins[i].email
    ensures r.FillDetails? || r.LoggedIn? || r.InvalidCredentials?
  {
    if email == "" || password == "" then FillDetails
    else
      var found := Find(admins, EmailMatcher(email, password));
      if found.Some? then LoggedIn(found.value.email) else InvalidCredentials
  }

  function HasPhone(phone: string): Account -> bool {
    (a: Account) => a.phone == phone
  }

  /**
   * The phone path of `handleSubmit`; `users` is the fetched list, None when the request
   * throws. Only the first user with that phone has its password compared.
   */
  function PhoneLogin(users: Option<seq<Account>>, phone: string, password: string): (r: Outcome)
    ensures r.FillDetails? <==> phone == "" || password == ""
    ensures r.SomethingWrong? <==> phone != "" && password != "" && users.None?
    ensures r.NotRegistered? <==>
      phone != "" && password != "" && users.Some? && forall i :: 0 <= i < |users.value| ==> users.value[i].phone != phone
    ensures r.LoggedIn? ==> r.key == phone && exists i :: 0 <= i < |users.value| && users.value[i] == Account(phone, password)
    ensures r.PasswordIncorrect? ==> exists i :: 0 <= i < |users.value| && users.value[i].phone == phone
    ensures !r.InvalidCredentials?
  {
    if phone == "" || password == "" then FillDetails
    else if users.None? then SomethingWrong
    else
      var existing := Find(users.value, HasPhone(phone));
      if existing.None? then NotRegistered
      else if existing.value.password == password then LoggedIn(phone)
      else PasswordIncorrect
  }

  /** With a unique phone, the phone login succeeds exactly when that user's password is given. */
  lemma PhoneLoginUnique(users: seq<Account>, k: nat, password: string)
    requires k < |users| && users[k].phone != "" && password != ""
    requires forall i :: 0 <= i < |users| && i != k ==> users[i].phone != users[k].phone
    ensures PhoneLogin(Some(users), users[k].phone, password) ==
      (if users[k].password == password then LoggedIn(users[k].phone) else PasswordIncorrect)
  {
    var found := Find(users, HasPhone(users[k].phone));
    assert found.Some?;
    assert found.value in users;
    var j :| 0 <= j < |users| && users[j] == found.value;
    assert j == k;
  }

  class LoginPage {
    var formData: Form
    var loginMethod: Method
    /** What the page has written to the "userStatus" key, if anything. */
    var stored: Option<string>

    /** The field `phone` is absent at first; the email form never reads it. */
    constructor()
      ensures formData == Form("", "", "") && loginMethod == ByEmail && stored.None?
    {
      formData := Form("", "", "");
      loginMethod := ByEmail;
      stored := None;
    }

    /** `handleChange`. */
    method Edit(f: Form)
      modifies this`formData
      ensures formData == f
    {
      formData := f;
    }

    /**
     * `handleSubmit`: the outcome of the chosen path; a login stores its key, anything
     * else stores nothing. `fetched` says whether the user list was requested.
     */
    method Submit(admins: seq<Credential>, users: Option<seq<Account>>) returns (outcome: Outcome, fetched: bool)
      modifies this`stored
      ensures loginMethod == ByEmail ==> outcome == EmailLogin(admins, formData.email, formData.password) && !fetched
      ensures loginMethod == ByMobile ==>
        outcome == PhoneLogin(users, formData.phone, formData.password)
        && fetched == (formData.phone != "" && formData.password != "")
      ensures outcome.LoggedIn? ==> stored == Some(outcome.key)
      ensures !outcome.LoggedIn? ==> stored == old(stored)
    {
      fetched := false;
      if loginMethod == ByEmail {
        outcome := EmailLogin(admins, formData.email, formData.password);
      } else {
        if formData.phone == "" || formData.password == "" {
          return FillDetails, false;
        }
        fetched := true;
        outcome := PhoneLogin(users, formData.phone, formData.password);
      }
      if outcome.LoggedIn? {
        stored := Some(outcome.key);
      }
    }

    /** `handleSwapBtn(m)`: the given form, with every field cleared. */
    method Swap(m: Method)
      modifies this`loginMethod, this`formData
      ensures loginMethod == m && formData == Form("", "", "")
    {
      loginMethod := m;
      formData := formData.(email := "", password := "", phone := "");
    }

    /**
     * "Login with Email", the page's only swap button: it swaps to the email form. No control
     * asks for the mobile form, so the method stays the constructor's `ByEmail` and `Submit`
     * never takes its phone branch from the page as written.
     */
    method EmailButton()
      modifies this`loginMethod, this`formData
      ensures loginMethod == ByEmail && formData == Form("", "", "")
    {
      Swap(ByEmail);
    }
  }

  /** The email login stores an address from the list, never the typed one as such. */
  lemma StoredEmailIsListed(admins: seq<Credential>, email: string, password: string)
    requires EmailLogin(admins, email, password).LoggedIn?
    ensures Credential(EmailLogin(admins, email, password).key, password) in admins
  {
    var i :| 0 <= i < |admins| && EmailMatches(admins[i], email, password) && EmailLogin(admins, email, password).key == admins[i].email;
    assert admins[i] == Credential(admins[i].email, password);
  }

  /** A different letter case in the typed address still logs in. */
  lemma EmailCaseIgnored(admins: seq<Credential>, email: string, password: string)
    requires email != "" && password != ""
    ensures EmailLogin(admins, Lower(email), password).LoggedIn? <==> EmailLogin(admins, email, password).LoggedIn?
  {
    LowerIdempotent(email);
    assert Lower(email) != "";
    forall i | 0 <= i < |admins|
      ensures EmailMatches(admins[i], Lower(email), password) <==> EmailMatches(admins[i], email, password)
    {
    }
  }
}
