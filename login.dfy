/**
 * The seller login form and the record it stores for the other pages
 * (the browser's "zafago_seller" entry).
 */
module Login {
  import opened Wrappers
  import opened Text

  /** The stored session record. */
  datatype SellerRecord = SellerRecord(id: string, email: string, name: string, isLoggedIn: bool)

  const InvalidCredentials := "Invalid email or password"

  /** The mock check of `handleSubmit`: an "@" somewhere in the email and a password of at least six characters. */
  predicate Accepts(email: string, password: string)
  {
    Includes(email, "@") && |password| >= 6
  }

  /** The record stored on success; `randomPart` stands for the random base-36 digits of the id. */
  function NewSession(email: string, randomPart: string): (r: SellerRecord)
    ensures r.email == email && r.isLoggedIn
    ensures StartsWith(r.id, "s-") && r.id[2..] == randomPart
  {
    SellerRecord("s-" + randomPart, email, BeforeFirst(email, '@'), true)
  }

  // ------------------------------------------------------------ lemmas

  /** The "@" test is a character test. */
  lemma IncludesAtIff(email: string)
    ensures Includes(email, "@") <==> '@' in email
  {
    IncludesIff(email, "@");
    if '@' in email {
      var i :| 0 <= i < |email| && email[i] == '@';
      assert email[i..i + 1] == "@";
      assert OccursAt(email, "@", i);
    }
    forall i | OccursAt(email, "@", i) ensures '@' in email {
      assert email[i] == email[i..i + 1][0];
    }
  }

  /** Login succeeds exactly when the email has an "@" and the password six or more characters. */
  lemma AcceptsIff(email: string, password: string)
    ensures Accepts(email, password) <==> '@' in email && |password| >= 6
  {
    IncludesAtIff(email);
  }

  /** On an accepted login the stored name is the part of the email before its first "@". */
  lemma SessionNameIsLocalPart(email: string, randomPart: string)
    requires '@' in email
    ensures var name := NewSession(email, randomPart).name;
      '@' !in name && StartsWith(email, name + "@")
  {
    var name := NewSession(email, randomPart).name;
    if |name| == |email| {
      assert false;
    }
    assert email[..|name| + 1] == name + "@";
  }

  // ------------------------------------------------------------ the page

  class LoginPage {
    var email: string
    var password: string
    var rememberMe: bool
    var isLoading: bool
    var loginError: string
    /** The "zafago_seller" entry of the browser's storage. */
    var stored: Option<SellerRecord>

    constructor (storedBefore: Option<SellerRecord>)
      ensures email == "" && password == "" && !rememberMe && !isLoading && loginError == ""
      ensures stored == storedBefore
    {
      email := "";
      password := "";
      rememberMe := false;
      isLoading := false;
      loginError := "";
      stored := storedBefore;
    }

    method SetEmail(value: string)
      modifies this
      ensures email == value && password == old(password) && stored == old(stored)
      ensures isLoading == old(isLoading) && loginError == old(loginError) && rememberMe == old(rememberMe)
    {
      email := value;
    }

    method SetPassword(value: string)
      modifies this
      ensures password == value && email == old(email) && stored == old(stored)
      ensures isLoading == old(isLoading) && loginError == old(loginError) && rememberMe == old(rememberMe)
    {
      password := value;
    }

    /**
     * `handleSubmit` once its one-second wait is over: an accepted login
     * stores the session record; a refused one shows the error and stores
     * nothing. Either way loading ends.
     */
    method HandleSubmit(randomPart: string) returns (loggedIn: bool)
      modifies this
      ensures loggedIn <==> Accepts(email, password)
      ensures loggedIn ==> stored == Some(NewSession(email, randomPart)) && loginError == ""
      ensures !loggedIn ==> stored == old(stored) && loginError == InvalidCredentials
      ensures !isLoading && email == old(email) && password == old(password) && rememberMe == old(rememberMe)
    {
      isLoading := true;
      loginError := "";
      if !Includes(email, "@") || |password| < 6 {
        loginError := InvalidCredentials;
        isLoading := false;
        return false;
      }
      stored := Some(NewSession(email, randomPart));
      loggedIn := true;
      isLoading := false;
    }
  }
}
