/** The login page: the message for the `error` query parameter the OAuth
    callback redirects with, and the redirect of a visitor who is already
    signed in. */
module LoginPage {
  import opened Common
  import AuthController

  const UnauthorizedDomainText := "Your email domain is not authorized to access this system."
  const AuthFailedText := "Authentication failed. Please try again."
  const NoCodeText := "No authorization code received. Please try again."
  const DefaultText := "An error occurred during login. Please try again."

  /** `getErrorMessage`: three known codes, and the default text for every other. */
  function ErrorMessage(error: string): (m: string)
    ensures m == UnauthorizedDomainText <==> error == "unauthorized_domain"
    ensures m == AuthFailedText <==> error == "auth_failed"
    ensures m == NoCodeText <==> error == "no_code"
    ensures m == DefaultText <==> error !in {"unauthorized_domain", "auth_failed", "no_code"}
  {
    if error == "unauthorized_domain" then UnauthorizedDomainText
    else if error == "auth_failed" then AuthFailedText
    else if error == "no_code" then NoCodeText
    else DefaultText
  }

  /** The error box: shown when the parameter is non-empty, with its message. */
  function ErrorBox(param: Option<string>): (box: Option<string>)
    ensures box.Some? <==> Truthy(param)
    ensures box.Some? ==> box.value == ErrorMessage(param.value)
  {
    if Truthy(param) then Some(ErrorMessage(param.value)) else None
  }

  /** The redirect effect: a signed-in visitor is sent to `/`. */
  function Navigate(isAuthenticated: bool): (to: Option<string>)
    ensures to.Some? <==> isAuthenticated
    ensures to.Some? ==> to.value == "/"
  {
    if isAuthenticated then Some("/") else None
  }

  /** Of the codes the callback stops with, three have their own text;
      `access_denied`, sent to a user the access service refuses, falls to
      the generic text. */
  lemma CallbackCodesShown(code: Option<string>, google: Common.Result<AuthController.GoogleUser, string>,
                           cet: string -> Common.Result<bool, string>)
    ensures var g := AuthController.CallbackGate(code, google, cet);
            g.Stop? ==>
              var box := ErrorBox(Some(g.error));
              box.Some?
              && (g.error == "access_denied" <==> box == Some(DefaultText))
  {
    var g := AuthController.CallbackGate(code, google, cet);
    if g.Stop? {
      assert g.error in {"no_code", "auth_failed", "unauthorized_domain", "access_denied"};
    }
  }

}
