/** The sign-in screen: one check that both fields are filled in, then one `signIn` call whose
    outcome decides between moving on to the tabs and a failure message. */
module Login {
  import opened Common
  import opened Auth

  const EnterBoth := "Please enter both email and password"
  const LoginFailed := "Invalid email or password"

  /** `handleLogin`'s only check: non-emptiness; no format or length rule. */
  function LoginError(email: string, password: string): (r: Option<string>)
    ensures r == None <==> email != "" && password != ""
    ensures r != None ==> r == Some(EnterBoth)
  {
    if email == "" || password == "" then Some(EnterBoth) else None
  }

  /** Any non-empty pair passes, however short or malformed. */
  lemma AnyFilledPairPasses(email: string, password: string)
    requires |email| >= 1 && |password| >= 1
    ensures LoginError(email, password) == None
  {
  }

  class LoginScreen {
    var email: string
    var password: string
    var loading: bool
    var error: string
    var navigatedToTabs: bool
    var signInCalls: seq<(string, string)>

    constructor ()
      ensures email == "" && password == "" && !loading && error == "" && !navigatedToTabs && signInCalls == []
    {
      email, password := "", "";
      loading, error, navigatedToTabs := false, "", false;
      signInCalls := [];
    }

    method Enter(email': string, password': string)
      modifies this
      ensures email == email' && password == password'
      ensures loading == old(loading) && error == old(error) && navigatedToTabs == old(navigatedToTabs)
      ensures signInCalls == old(signInCalls)
    {
      email, password := email', password';
    }

    /** `handleLogin()`, where `outcome` is how the awaited `signIn` settles. */
    method HandleLogin(outcome: Outcome)
      modifies this
      ensures LoginError(email, password).Some? ==>
        && error == EnterBoth && signInCalls == old(signInCalls)
        && loading == old(loading) && navigatedToTabs == old(navigatedToTabs)
      ensures LoginError(email, password).None? ==>
        && signInCalls == old(signInCalls) + [(email, password)] && !loading
        && (outcome == Resolved ==> error == "" && navigatedToTabs)
        && (outcome == Rejected ==> error == LoginFailed && navigatedToTabs == old(navigatedToTabs))
      ensures email == old(email) && password == old(password)
    {
      if LoginError(email, password).Some? {
        error := EnterBoth;
        return;
      }
      loading := true;
      error := "";
      signInCalls := signInCalls + [(email, password)];
      if outcome == Resolved {
        navigatedToTabs := true;
      } else {
        error := LoginFailed;
      }
      loading := false;
    }
  }
}
