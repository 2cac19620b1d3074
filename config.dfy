/**
 * What the command line settles before any request is made: the
 * environment and its domain, the debug flag and the optional HTTP Basic
 * Auth credentials, checked against the rule that `prod` takes no
 * credentials and `stage` needs both.
 */
module Config {
  import opened Wrappers

  /** The positional `env` argument; argument parsing admits only these two. */
  datatype Env = Prod | Stage

  /**
   * `DOMAINS[env]`: a bare host name, so `https://` followed by it is the
   * site's origin and an endpoint path can follow directly.
   */
  function Domain(env: Env): (d: string)
    ensures d != [] && '/' !in d
  {
    match env
    case Prod => "creativecommons.org"
    case Stage => "stage.creativecommons.org"
  }

  /** `f"https://{domain}"`: the prefix every absolute site URL starts with. */
  function SiteUrl(domain: string): string
  {
    "https://" + domain
  }

  /** Python truthiness of an optional string: present and not empty. */
  predicate Truthy(s: Option<string>)
  {
    s.Some? && s.value != ""
  }

  /** The parsed arguments the scripts go on with. */
  datatype Args = Args(env: Env, debug: bool, domain: string, username: Option<string>, password: Option<string>)

  datatype Parsed = Accepted(args: Args) | UsageError(message: string)

  const PROD_TAKES_NO_AUTH: string :=
    "the 'prod' environment does not use HTTP Basic Auth: do not use the --username and --password options"
  const STAGE_NEEDS_AUTH: string :=
    "the 'stage' environment requires both the --username and --password options for HTTP Basic Auth"

  /**
   * The checks `setup` makes once the arguments are parsed. The domain is
   * always `DOMAINS[env]`, whatever the hidden `--domain` option said.
   */
  function Setup(env: Env, debug: bool, domainOption: string, username: Option<string>, password: Option<string>): (r: Parsed)
    ensures r.Accepted? <==>
              || (env == Prod && !Truthy(username) && !Truthy(password))
              || (env == Stage && Truthy(username) && Truthy(password))
    ensures r.Accepted? ==> r.args == Args(env, debug, Domain(env), username, password)
    ensures r.UsageError? ==> r.message == if env == Prod then PROD_TAKES_NO_AUTH else STAGE_NEEDS_AUTH
  {
    var domain := Domain(env);
    if env == Prod && (Truthy(username) || Truthy(password)) then
      UsageError(PROD_TAKES_NO_AUTH)
    else if env == Stage && (!Truthy(username) || !Truthy(password)) then
      UsageError(STAGE_NEEDS_AUTH)
    else
      Accepted(Args(env, debug, domain, username, password))
  }

  /** HTTP Basic Auth credentials handed to the HTTP client. */
  datatype BasicAuth = BasicAuth(username: string, password: string)

  /**
   * The `auth` argument of every request: credentials exactly when both
   * the username and the password are truthy, otherwise an anonymous request.
   */
  function RequestAuth(args: Args): (auth: Option<BasicAuth>)
    ensures auth.Some? <==> Truthy(args.username) && Truthy(args.password)
    ensures auth.Some? ==> auth.value == BasicAuth(args.username.value, args.password.value)
  {
    if Truthy(args.username) && Truthy(args.password) then
      Some(BasicAuth(args.username.value, args.password.value))
    else
      None
  }

  /**
   * Once `setup` has accepted the arguments, requests to `prod` are
   * anonymous and requests to `stage` carry the credentials.
   */
  lemma AuthFollowsEnv(env: Env, debug: bool, domainOption: string, username: Option<string>, password: Option<string>)
    requires Setup(env, debug, domainOption, username, password).Accepted?
    ensures var args := Setup(env, debug, domainOption, username, password).args;
            && args.domain == Domain(env)
            && (RequestAuth(args).Some? <==> env == Stage)
  {
  }
}
