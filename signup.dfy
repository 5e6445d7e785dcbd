/** The sign-up screen: an ordered chain of checks on the four fields, each failing one showing its
    own message and stopping there; when all pass, one `signUp` call whose outcome decides between
    moving on to the tabs and a failure message. */
module Signup {
  import opened Common
  import opened Auth

  const FillAllFields := "Please fill in all fields"
  const PasswordsDiffer := "Passwords do not match"
  const PasswordTooShort := "Password must be at least 6 characters"
  const SignupFailed := "Error creating account. Email may already be in use."

  /** JavaScript's `length` of a string: characters beyond the Basic Multilingual Plane count twice. */
  function Utf16Length(s: string): (n: nat)
    ensures |s| <= n <= 2 * |s|
    ensures (forall i :: 0 <= i < |s| ==> s[i] as int < 0x1_0000) ==> n == |s|
  {
    if s == [] then 0 else (if s[0] as int < 0x1_0000 then 1 else 2) + Utf16Length(s[1..])
  }

  /** `handleSignup`'s checks: the message of the first failing one, or none. */
  function SignupError(name: string, email: string, password: string, confirm: string): (r: Option<string>)
    ensures r == None <==>
      name != "" && email != "" && password != "" && confirm != "" && password == confirm && Utf16Length(password) >= 6
    ensures (name == "" || email == "" || password == "" || confirm == "") ==> r == Some(FillAllFields)
    ensures name != "" && email != "" && password != "" && confirm != "" && password != confirm ==> r == Some(PasswordsDiffer)
    ensures name != "" && email != "" && password != "" && password == confirm && Utf16Length(password) < 6 ==> r == Some(PasswordTooShort)
  {
    if name == "" || email == "" || password == "" || confirm == "" then Some(FillAllFields)
    else if password != confirm then Some(PasswordsDiffer)
    else if Utf16Length(password) < 6 then Some(PasswordTooShort)
    else None
  }

  /** The mismatch check comes before the length check: a short password typed differently twice
      is reported as a mismatch. */
  lemma MismatchReportedBeforeLength()
    ensures SignupError("Ann", "a@b.c", "abc", "abd") == Some(PasswordsDiffer)
    ensures SignupError("Ann", "a@b.c", "abc", "abc") == Some(PasswordTooShort)
  {
  }

  /** Three emoji pass the six-character check: JavaScript counts each of them as two. */
  lemma AstralCharactersCountTwice()
    ensures Utf16Length("\U{1F600}\U{1F600}\U{1F600}") == 6
    ensures SignupError("Ann", "a@b.c", "\U{1F600}\U{1F600}\U{1F600}", "\U{1F600}\U{1F600}\U{1F600}") == None
  {
    assert "\U{1F600}\U{1F600}\U{1F600}"[1..] == "\U{1F600}\U{1F600}";
    assert "\U{1F600}\U{1F600}"[1..] == "\U{1F600}";
    assert "\U{1F600}"[1..] == "";
  }

  /** The screen's state, plus a record of every `signUp(name, email, password)` it made. */
  class SignupScreen {
    var name: string
    var email: string
    var password: string
    var confirmPassword: string
    var loading: bool
    var error: string
    var navigatedToTabs: bool
    var signUpCalls: seq<(string, string, string)>

    constructor ()
      ensures name == "" && email == "" && password == "" && confirmPassword == ""
      ensures !loading && error == "" && !navigatedToTabs && signUpCalls == []
    {
      name, email, password, confirmPassword := "", "", "", "";
      loading, error, navigatedToTabs := false, "", false;
      signUpCalls := [];
    }

    /** The four text inputs' `onChangeText`. */
    method Enter(name': string, email': string, password': string, confirm': string)
      modifies this
      ensures name == name' && email == email' && password == password' && confirmPassword == confirm'
      ensures loading == old(loading) && error == old(error) && navigatedToTabs == old(navigatedToTabs)
      ensures signUpCalls == old(signUpCalls)
    {
      name, email, password, confirmPassword := name', email', password', confirm';
    }

    /** `handleSignup()`, where `outcome` is how the awaited `signUp` settles. */
    method HandleSignup(outcome: Outcome)
      modifies this
      ensures name == old(name) && email == old(email) && password == old(password) && confirmPassword == old(confirmPassword)
      ensures SignupError(name, email, password, confirmPassword).Some? ==>
        && error == SignupError(name, email, password, confirmPassword).value
        && signUpCalls == old(signUpCalls) && loading == old(loading) && navigatedToTabs == old(navigatedToTabs)
      ensures SignupError(name, email, password, confirmPassword).None? ==>
        && signUpCalls == old(signUpCalls) + [(name, email, password)] && !loading
        && (outcome == Resolved ==> error == "" && navigatedToTabs)
        && (outcome == Rejected ==> error == SignupFailed && navigatedToTabs == old(navigatedToTabs))
    {
      var check := SignupError(name, email, password, confirmPassword);
      if check.Some? {
        error := check.value;
        return;
      }
      loading := true;
      error := "";
      signUpCalls := signUpCalls + [(name, email, password)];
      if outcome == Resolved {
        navigatedToTabs := true;
      } else {
        error := SignupFailed;
      }
      loading := false;
    }
  }
}
