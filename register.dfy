/** The sign-up checks of `src/pages/Register.tsx`: the password length
    and confirmation are checked, in that order, before the sign-up call;
    the call's answer decides between the success message and an error.
    The answer of the sign-up call is a parameter. */
module Register {
  import opened Common

  const TooShort := "Password must be at least 6 characters long"
  const Mismatch := "Passwords do not match"
  const NoUserData := "No user data received"
  const Success := "Registration successful! Please check your email to confirm your account."

  /** JavaScript's `length`: UTF-16 code units, so a character outside the
      Basic Multilingual Plane counts twice. */
  function Utf16Length(s: string): (n: nat)
    ensures |s| <= n <= 2 * |s|
    ensures (forall i :: 0 <= i < |s| ==> s[i] as int <= 0xFFFF) ==> n == |s|
    decreases |s|
  {
    if s == [] then 0
    else
      assert forall i :: 1 <= i < |s| ==> s[1..][i - 1] == s[i];
      (if s[0] as int > 0xFFFF then 2 else 1) + Utf16Length(s[1..])
  }

  /** Three paddle emoji are six code units: long enough. */
  lemma Utf16Example()
    ensures Utf16Length("\U{1F3D3}\U{1F3D3}\U{1F3D3}") == 6
    ensures Utf16Length("abcde") == 5
  {
    assert "\U{1F3D3}\U{1F3D3}\U{1F3D3}"[1..] == "\U{1F3D3}\U{1F3D3}";
    assert "\U{1F3D3}\U{1F3D3}"[1..] == "\U{1F3D3}";
  }

  /** What the store's `signUp` answered. */
  datatype SignUpResponse = SignUpError(message: string) | SignedUp(hasUser: bool)

  /** The page after `handleRegister`: the error or success message shown,
      and the `(email, password)` sent to sign-up, if any. */
  datatype RegisterResult = RegisterResult(error: Option<string>, successMessage: Option<string>, signUpCall: Option<(string, string)>)

  /** `handleRegister`. */
  function HandleRegister(email: string, password: string, confirmPassword: string, response: SignUpResponse): (r: RegisterResult)
    ensures r.signUpCall.Some? <==> Utf16Length(password) >= 6 && password == confirmPassword
    ensures r.signUpCall.Some? ==> r.signUpCall.value == (email, password)
    ensures Utf16Length(password) < 6 ==> r.error == Some(TooShort)
    ensures Utf16Length(password) >= 6 && password != confirmPassword ==> r.error == Some(Mismatch)
    ensures r.successMessage.Some? <==> r.signUpCall.Some? && response == SignedUp(true)
    ensures r.successMessage.Some? ==> r.successMessage.value == Success && r.error.None?
    ensures r.signUpCall.Some? && response.SignUpError? ==> r.error == Some(response.message)
    ensures r.signUpCall.Some? && response == SignedUp(false) ==> r.error == Some(NoUserData)
  {
    if Utf16Length(password) < 6 then RegisterResult(Some(TooShort), None, None)
    else if password != confirmPassword then RegisterResult(Some(Mismatch), None, None)
    else
      var call := Some((email, password));
      match response
      case SignUpError(message) => RegisterResult(Some(message), None, call)
      case SignedUp(hasUser) =>
        if hasUser then RegisterResult(None, Some(Success), call)
        else RegisterResult(Some(NoUserData), None, call)
  }

  /** The length check comes first: a short password that also differs
      from its confirmation reports the length. */
  lemma LengthCheckedFirst(email: string, password: string, confirmPassword: string, response: SignUpResponse)
    requires Utf16Length(password) < 6 && password != confirmPassword
    ensures HandleRegister(email, password, confirmPassword, response).error == Some(TooShort)
  {
  }

  /** Exactly one message is shown after every submit. */
  lemma OneMessage(email: string, password: string, confirmPassword: string, response: SignUpResponse)
    ensures var r := HandleRegister(email, password, confirmPassword, response);
      r.error.Some? != r.successMessage.Some?
  {
  }

  /** A five-letter password is refused even when confirmed; six code units
      are enough, however few characters they make. */
  lemma ExamplePasswords(email: string, response: SignUpResponse)
    ensures HandleRegister(email, "abcde", "abcde", response).signUpCall.None?
    ensures HandleRegister(email, "\U{1F3D3}\U{1F3D3}\U{1F3D3}", "\U{1F3D3}\U{1F3D3}\U{1F3D3}", response).signUpCall.Some?
  {
    Utf16Example();
  }
}
