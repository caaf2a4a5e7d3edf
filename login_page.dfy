/**
 * The login page: one form for signing in and signing up, checked field by
 * field before any call to the authentication service.
 *
 * The service is not modelled; each call it would receive is appended to
 * `requests`, and the error it answers with, if any, is a parameter.
 */
module LoginPage {
  import opened Wrappers
  import opened Text
  import opened Types

  const EmailError := "有効なメールアドレスを入力してください"
  const PasswordError := "パスワードは6文字以上で入力してください"
  const NameError := "名前を入力してください"
  /** The service's answer to a wrong e-mail or password, and what the page shows instead. */
  const InvalidCredentials := "Invalid login credentials"
  const InvalidCredentialsMessage := "メールアドレスまたはパスワードが正しくありません"

  /** The shortest password accepted, in UTF-16 code units. */
  const MinPasswordLength := 6

  /** A call to the authentication service. */
  datatype AuthRequest =
    | SignUp(email: string, password: string, name: string, role: Role)
    | SignIn(email: string, password: string)

  predicate EmailLooksValid(email: string) {
    email != [] && '@' in email
  }

  predicate PasswordLongEnough(password: string) {
    Utf16Length(password) >= MinPasswordLength
  }

  /** The first failing check, in the order the form makes them: e-mail, password, then the sign-up name. */
  function ValidationError(isSignUp: bool, email: string, password: string, name: string): (r: Option<string>)
    ensures r == Some(EmailError) <==> !EmailLooksValid(email)
    ensures r == Some(PasswordError) <==> EmailLooksValid(email) && !PasswordLongEnough(password)
    ensures r == Some(NameError) <==> EmailLooksValid(email) && PasswordLongEnough(password) && isSignUp && IsBlank(name)
    ensures r.None? <==> EmailLooksValid(email) && PasswordLongEnough(password) && !(isSignUp && IsBlank(name))
  {
    if email == [] || '@' !in email then Some(EmailError)
    else if Utf16Length(password) < MinPasswordLength then Some(PasswordError)
    else if isSignUp && Trim(name) == [] then Some(NameError)
    else None
  }

  /** The message shown for a sign-in error: the service's credential error translated, any other passed through. */
  function SignInErrorMessage(message: string): (r: string)
    ensures message == InvalidCredentials ==> r == InvalidCredentialsMessage
    ensures message != InvalidCredentials ==> r == message
  {
    if message == InvalidCredentials then InvalidCredentialsMessage else message
  }

  /** A call the page may make: the checks passed, and a sign-up name is sent trimmed and non-empty. */
  predicate Admissible(req: AuthRequest) {
    EmailLooksValid(req.email) && PasswordLongEnough(req.password)
    && (req.SignUp? ==> req.name != [] && Trim(req.name) == req.name)
  }

  /** Appending an admissible call to admissible calls keeps them all admissible. */
  lemma AppendAdmissible(rs: seq<AuthRequest>, req: AuthRequest)
    requires forall i :: 0 <= i < |rs| ==> Admissible(rs[i])
    requires Admissible(req)
    ensures forall i :: 0 <= i < |rs + [req]| ==> Admissible((rs + [req])[i])
  {
  }

  /** The page's state. */
  class LoginForm {
    var isSignUp: bool
    var email: string
    var password: string
    var name: string
    var role: Role
    var error: string
    var loading: bool
    var signUpSuccess: bool
    /** `router.push("/")` was called. */
    var redirected: bool
    /** The calls made to the authentication service, oldest first. */
    var requests: seq<AuthRequest>

    /** Every call the page has made passed the checks. */
    predicate Valid()
      reads this
    {
      forall i :: 0 <= i < |requests| ==> Admissible(requests[i])
    }

    constructor ()
      ensures Valid() && requests == []
      ensures !isSignUp && email == "" && password == "" && name == "" && role == Husband
      ensures error == "" && !loading && !signUpSuccess && !redirected
    {
      isSignUp, email, password, name, role := false, "", "", "", Husband;
      error, loading, signUpSuccess, redirected := "", false, false, false;
      requests := [];
    }

    /** Typing into the form. */
    method Edit(email: string, password: string, name: string, role: Role)
      modifies this
      ensures this.email == email && this.password == password && this.name == name && this.role == role
      ensures isSignUp == old(isSignUp) && error == old(error) && loading == old(loading)
      ensures signUpSuccess == old(signUpSuccess) && redirected == old(redirected) && requests == old(requests)
    {
      this.email, this.password, this.name, this.role := email, password, name, role;
    }

    /** The link under the button: switch between sign-in and sign-up, clearing the error. */
    method ToggleMode()
      modifies this
      ensures isSignUp == !old(isSignUp) && error == ""
      ensures email == old(email) && password == old(password) && name == old(name) && role == old(role)
      ensures loading == old(loading) && signUpSuccess == old(signUpSuccess) && redirected == old(redirected)
      ensures requests == old(requests)
    {
      isSignUp := !isSignUp;
      error := "";
    }

    /**
     * `handleSubmit`: a failed check sets its message and calls nothing; otherwise
     * one call is made and its error, if any, is shown. `loading` is cleared on
     * every path.
     */
    method HandleSubmit(authError: Option<string>)
      requires Valid()
      modifies this
      ensures Valid() && !loading
      ensures isSignUp == old(isSignUp) && email == old(email) && password == old(password)
      ensures name == old(name) && role == old(role)
      ensures ValidationError(isSignUp, email, password, name).Some? ==>
        error == ValidationError(isSignUp, email, password, name).value && requests == old(requests)
        && signUpSuccess == old(signUpSuccess) && redirected == old(redirected)
      ensures ValidationError(isSignUp, email, password, name).None? && isSignUp ==>
        requests == old(requests) + [SignUp(email, password, Trim(name), role)]
        && error == authError.GetOr("")
        && signUpSuccess == (old(signUpSuccess) || authError.None?) && redirected == old(redirected)
      ensures ValidationError(isSignUp, email, password, name).None? && !isSignUp ==>
        requests == old(requests) + [SignIn(email, password)]
        && error == (if authError.Some? then SignInErrorMessage(authError.value) else "")
        && redirected == (old(redirected) || authError.None?) && signUpSuccess == old(signUpSuccess)
    {
      error := "";
      loading := true;
      var invalid := ValidationError(isSignUp, email, password, name);
      if invalid.Some? {
        error := invalid.value;
      } else if isSignUp {
        var req := SignUp(email, password, Trim(name), role);
        assert Admissible(req) by {
          TrimIdempotent(name);
        }
        AppendAdmissible(requests, req);
        requests := requests + [req];
        if authError.Some? {
          error := authError.value;
        } else {
          signUpSuccess := true;
        }
      } else {
        var req := SignIn(email, password);
        AppendAdmissible(requests, req);
        requests := requests + [req];
        if authError.Some? {
          error := SignInErrorMessage(authError.value);
        } else {
          redirected := true;
        }
      }
      loading := false;
    }
  }
}
