/**
 * The admin dashboard's login page: the form check, the call into the
 * authentication context, the choice of error message and the redirect.
 */
module LoginPage {
  import opened Wrappers
  import Js
  import opened AdminAuth

  const FillFieldsMessage: string := "Por favor, preencha todos os campos."
  const InvalidCredentialsMessage: string := "Email ou senha inválidos."
  const NoPermissionMessage: string := "Você não tem permissão para acessar o painel admin."
  const GenericMessage: string := "Ocorreu um erro ao fazer login. Tente novamente."
  const DashboardPath: string := "/dashboard"

  /** The message shown for an error thrown by `login`: a 401 response first, then any message mentioning "Unauthorized". */
  function ClassifyLoginError(e: LoginError): (m: string)
    ensures e.status == Some(401) ==> m == InvalidCredentialsMessage
    ensures e.status != Some(401) && Js.Includes(e.message, UnauthorizedWord) ==> m == NoPermissionMessage
    ensures e.status != Some(401) && !Js.Includes(e.message, UnauthorizedWord) ==> m == GenericMessage
  {
    if e.status == Some(401) then InvalidCredentialsMessage
    else if Js.Includes(e.message, UnauthorizedWord) then NoPermissionMessage
    else GenericMessage
  }

  /** A non-admin account is told it lacks permission, not that its password is wrong. */
  lemma NonAdminClassified()
    ensures ClassifyLoginError(NotAdminError) == NoPermissionMessage
  {
    assert NotAdminMessage[..|UnauthorizedWord|] == UnauthorizedWord;
  }

  /** `state?.from?.pathname || '/dashboard'`. */
  function RedirectTarget(from: Option<string>): (r: string)
    ensures r != ""
    ensures from.Some? && from.value != "" ==> r == from.value
  {
    if from.Some? && from.value != "" then from.value else DashboardPath
  }

  /** Rendering the page while authenticated navigates to the dashboard instead. */
  function RenderRedirect(isAuthenticated: bool): (r: Option<string>)
    ensures r.Some? <==> isAuthenticated
    ensures r.Some? ==> r.value == DashboardPath
  {
    if isAuthenticated then Some(DashboardPath) else None
  }

  class LoginForm {
    var email: string
    var password: string
    var error: string
    var isLoading: bool
    /** Where the page navigated, if it did. */
    var navigated: Option<string>

    constructor()
      ensures email == "" && password == "" && error == "" && !isLoading && navigated == None
    {
      email := "";
      password := "";
      error := "";
      isLoading := false;
      navigated := None;
    }

    /**
     * `handleSubmit`: an empty field sets the fill-in message and never calls
     * `login`; otherwise `login` runs, and its success redirects while its
     * failure is classified.  `from` is the path the router remembered.
     */
    method HandleSubmit(auth: AuthState, response: LoginResponse, from: Option<string>)
      modifies this, auth
      ensures email == old(email) && password == old(password)
      ensures (old(email) == "" || old(password) == "") ==>
        && error == FillFieldsMessage && navigated == old(navigated) && isLoading == old(isLoading)
        && auth.user == old(auth.user) && auth.token == old(auth.token)
        && auth.saved == old(auth.saved) && auth.isAuthenticated == old(auth.isAuthenticated)
      ensures old(email) != "" && old(password) != "" ==> !isLoading
      ensures old(email) != "" && old(password) != "" ==>
        if response.Answered? && response.data.user.role == AdminRole then
          error == "" && navigated == Some(RedirectTarget(from)) && auth.isAuthenticated
          && auth.token == Some(response.data.accessToken) && auth.saved == Some(response.data.accessToken)
          && auth.user == Some(response.data.user)
        else
          navigated == old(navigated)
          && auth.user == old(auth.user) && auth.token == old(auth.token)
          && auth.saved == old(auth.saved) && auth.isAuthenticated == old(auth.isAuthenticated)
          && error == ClassifyLoginError(if response.Refused? then response.error else NotAdminError)
    {
      error := "";
      if email == "" || password == "" {
        error := FillFieldsMessage;
        return;
      }
      isLoading := true;
      var thrown := auth.Login(response);
      match thrown {
        case None => navigated := Some(RedirectTarget(from));
        case Some(e) => error := ClassifyLoginError(e);
      }
      isLoading := false;
    }
  }
}
