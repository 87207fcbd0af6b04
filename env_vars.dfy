/**
 * The environment-variable models (catalog_backend/handlers/models/env_vars.py):
 * `Observability` and `GovernanceEnvVars`, which extends it. Parsing reads the
 * process environment as a string map; variables the model does not name are
 * ignored.
 */
module EnvVars {
  import opened Wrappers

  type Environment = map<string, string>

  datatype LogLevel = Debug | Info | Error | Critical | Warning | Exception

  /** The `Literal` on `LOG_LEVEL`: exactly these six spellings. */
  function ParseLogLevel(s: string): (r: Option<LogLevel>)
    ensures r.Some? <==> s in {"DEBUG", "INFO", "ERROR", "CRITICAL", "WARNING", "EXCEPTION"}
  {
    match s
    case "DEBUG" => Some(Debug)
    case "INFO" => Some(Info)
    case "ERROR" => Some(Error)
    case "CRITICAL" => Some(Critical)
    case "WARNING" => Some(Warning)
    case "EXCEPTION" => Some(Exception)
    case _ => None
  }

  datatype Observability = Observability(serviceName: string, logLevel: LogLevel)

  datatype GovernanceEnvVars = GovernanceEnvVars(
    serviceName: string, logLevel: LogLevel, tableName: string, portfolioId: string)

  /** A ValidationError naming every environment variable that is missing or invalid. */
  datatype EnvError = EnvError(invalid: set<string>)

  /** A variable that must be present and non-empty (`min_length=1`). */
  predicate NonEmpty(env: Environment, name: string)
  {
    name in env && |env[name]| >= 1
  }

  predicate LogLevelOk(env: Environment)
  {
    "LOG_LEVEL" in env && ParseLogLevel(env["LOG_LEVEL"]).Some?
  }

  function ObservabilityErrors(env: Environment): set<string>
  {
    (if NonEmpty(env, "POWERTOOLS_SERVICE_NAME") then {} else {"POWERTOOLS_SERVICE_NAME"})
    + (if LogLevelOk(env) then {} else {"LOG_LEVEL"})
  }

  function ParseObservability(env: Environment): (r: Result<Observability, EnvError>)
    ensures r.Success? <==> NonEmpty(env, "POWERTOOLS_SERVICE_NAME") && LogLevelOk(env)
    ensures r.Success? ==>
      && r.value.serviceName == env["POWERTOOLS_SERVICE_NAME"]
      && Some(r.value.logLevel) == ParseLogLevel(env["LOG_LEVEL"])
    ensures r.Failure? ==>
      && r.error.invalid != {}
      && r.error.invalid <= {"POWERTOOLS_SERVICE_NAME", "LOG_LEVEL"}
      && ("POWERTOOLS_SERVICE_NAME" in r.error.invalid <==> !NonEmpty(env, "POWERTOOLS_SERVICE_NAME"))
      && ("LOG_LEVEL" in r.error.invalid <==> !LogLevelOk(env))
  {
    var errors := ObservabilityErrors(env);
    if errors == {} then
      Success(Observability(env["POWERTOOLS_SERVICE_NAME"], ParseLogLevel(env["LOG_LEVEL"]).value))
    else Failure(EnvError(errors))
  }

  /** `GovernanceEnvVars`: the inherited constraints plus non-empty `TABLE_NAME` and `PORTFOLIO_ID`. */
  function ParseGovernance(env: Environment): (r: Result<GovernanceEnvVars, EnvError>)
    ensures r.Success? <==>
      && NonEmpty(env, "POWERTOOLS_SERVICE_NAME") && LogLevelOk(env)
      && NonEmpty(env, "TABLE_NAME") && NonEmpty(env, "PORTFOLIO_ID")
    ensures r.Success? ==>
      && r.value.tableName == env["TABLE_NAME"] && |r.value.tableName| >= 1
      && r.value.portfolioId == env["PORTFOLIO_ID"] && |r.value.portfolioId| >= 1
    ensures r.Failure? ==>
      && r.error.invalid != {}
      && r.error.invalid <= {"POWERTOOLS_SERVICE_NAME", "LOG_LEVEL", "TABLE_NAME", "PORTFOLIO_ID"}
      && ("POWERTOOLS_SERVICE_NAME" in r.error.invalid <==> !NonEmpty(env, "POWERTOOLS_SERVICE_NAME"))
      && ("TABLE_NAME" in r.error.invalid <==> !NonEmpty(env, "TABLE_NAME"))
      && ("PORTFOLIO_ID" in r.error.invalid <==> !NonEmpty(env, "PORTFOLIO_ID"))
      && ("LOG_LEVEL" in r.error.invalid <==> !LogLevelOk(env))
  {
    var errors := ObservabilityErrors(env)
      + (if NonEmpty(env, "TABLE_NAME") then {} else {"TABLE_NAME"})
      + (if NonEmpty(env, "PORTFOLIO_ID") then {} else {"PORTFOLIO_ID"});
    if errors == {} then
      Success(GovernanceEnvVars(env["POWERTOOLS_SERVICE_NAME"], ParseLogLevel(env["LOG_LEVEL"]).value,
                                env["TABLE_NAME"], env["PORTFOLIO_ID"]))
    else Failure(EnvError(errors))
  }

  /** Inheritance: whatever satisfies `GovernanceEnvVars` satisfies `Observability`, with the same values. */
  lemma GovernanceExtendsObservability(env: Environment)
    ensures ParseGovernance(env).Success? ==>
      && ParseObservability(env).Success?
      && ParseObservability(env).value.serviceName == ParseGovernance(env).value.serviceName
      && ParseObservability(env).value.logLevel == ParseGovernance(env).value.logLevel
    ensures ParseObservability(env).Failure? ==> ParseGovernance(env).Failure?
  {
  }

  /** Variables outside the model (such as `POWERTOOLS_METRICS_NAMESPACE`) do not affect parsing. */
  lemma UnknownVariablesIgnored(env: Environment, name: string, value: string)
    requires name !in {"POWERTOOLS_SERVICE_NAME", "LOG_LEVEL", "TABLE_NAME", "PORTFOLIO_ID"}
    ensures ParseGovernance(env[name := value]) == ParseGovernance(env)
    ensures ParseObservability(env[name := value]) == ParseObservability(env)
  {
  }
}
