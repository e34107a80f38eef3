/** The login and logout server actions. */
module LoginActions {
  import opened Wrappers
  import opened Strings
  import Session

  const UsernameRequired := "Usuário é obrigatório."
  const PasswordRequired := "Senha é obrigatória."
  /** The schema library's message for a field that is not there at all. */
  const FieldMissing := "Required"
  const ConfigError := "Erro de configuração do servidor."
  const InvalidCredentials := "Usuário ou senha inválidos."
  const SessionError := "Não foi possível iniciar a sessão. Tente novamente."

  /** The submitted form fields; `None` for a field that was not sent. */
  datatype LoginForm = LoginForm(username: Option<string>, password: Option<string>)

  /** `ADMIN_USERNAME` and `ADMIN_PASSWORD`; "" stands for unset. */
  datatype AdminEnv = AdminEnv(adminUsername: string, adminPassword: string)

  /** The issue a `z.string().min(1, message)` field reports, if any. */
  function FieldIssue(field: Option<string>, message: string): seq<string> {
    match field
    case None => [FieldMissing]
    case Some(v) => if v == "" then [message] else []
  }

  /** The schema's issues, username first. */
  function SchemaIssues(form: LoginForm): (r: seq<string>)
    ensures r == [] <==> form.username.Some? && form.username.value != "" && form.password.Some? && form.password.value != ""
    ensures |r| <= 2
  {
    FieldIssue(form.username, UsernameRequired) + FieldIssue(form.password, PasswordRequired)
  }

  datatype Decision =
    | SchemaError(message: string)
    | MissingConfig
    | BadCredentials
    | Authenticate(username: string)

  /** `loginAction` before any side effect: schema, then configuration, then
      an exact match on both credentials. */
  function Decide(form: LoginForm, env: AdminEnv): (d: Decision)
    ensures d.SchemaError? <==> SchemaIssues(form) != []
    ensures d.SchemaError? ==> d.message == Join(SchemaIssues(form), ", ")
    ensures d == MissingConfig <==> SchemaIssues(form) == [] && (env.adminUsername == "" || env.adminPassword == "")
    ensures d.Authenticate? <==> (&& form.username == Some(env.adminUsername) && form.password == Some(env.adminPassword)
                                  && env.adminUsername != "" && env.adminPassword != "")
    ensures d.Authenticate? ==> d.username == env.adminUsername
  {
    var issues := SchemaIssues(form);
    if issues != [] then SchemaError(Join(issues, ", "))
    else if env.adminUsername == "" || env.adminPassword == "" then MissingConfig
    else if form.username.value == env.adminUsername && form.password.value == env.adminPassword then Authenticate(form.username.value)
    else BadCredentials
  }

  /** An empty form reports both messages, username first. */
  lemma EmptyFormMessage(env: AdminEnv)
    ensures Decide(LoginForm(Some(""), Some("")), env) == SchemaError(UsernameRequired + ", " + PasswordRequired)
  {
  }

  /** A malformed form is rejected before the configuration is looked at. */
  lemma SchemaBeforeConfig(form: LoginForm, env1: AdminEnv, env2: AdminEnv)
    requires SchemaIssues(form) != []
    ensures Decide(form, env1) == Decide(form, env2)
  {
  }

  datatype LoginOutcome = FormError(message: string) | RedirectTo(path: string)

  /** `loginAction`: an error state and no session, or a new session for the
      administrator and a redirect to `/dashboard`. */
  method LoginAction(jar: Session.CookieJar, form: LoginForm, env: AdminEnv, now: int) returns (o: LoginOutcome)
    modifies jar
    ensures match Decide(form, env)
      case SchemaError(m) => o == FormError(m) && jar.session == old(jar.session)
      case MissingConfig => o == FormError(ConfigError) && jar.session == old(jar.session)
      case BadCredentials => o == FormError(InvalidCredentials) && jar.session == old(jar.session)
      case Authenticate(u) =>
        if jar.secret == "" then o == FormError(SessionError) && jar.session == old(jar.session)
        else o == RedirectTo("/dashboard")
             && jar.session == Some(Session.SessionCookie(u, jar.secret, jar.production, now).value)
    ensures o.RedirectTo? ==> Session.CurrentSession(jar.session, jar.secret, now).Some?
  {
    match Decide(form, env) {
      case SchemaError(m) => return FormError(m);
      case MissingConfig => return FormError(ConfigError);
      case BadCredentials => return FormError(InvalidCredentials);
      case Authenticate(u) =>
        var created := jar.CreateSession(u, now);
        if created.Fail? {
          return FormError(SessionError);
        }
        Session.SessionLastsADay(u, jar.secret, jar.production, now, now);
        return RedirectTo("/dashboard");
    }
  }

  /** `logoutAction`: delete the session, then redirect to `/login`. */
  method LogoutAction(jar: Session.CookieJar) returns (path: string)
    modifies jar
    ensures jar.session == None && path == "/login"
  {
    jar.DeleteSession();
    return "/login";
  }
}
