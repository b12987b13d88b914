/**
 * The command-line options of the kubeconfig generator and the ordered chain
 * of presence checks made on them before anything is written.
 */
module Validation {

  /** The flag values, exactly as gathered from the command line. */
  datatype Options = Options(
    logLevel: string,
    kubeconfig: string,
    token: string,
    tokenFile: string,
    server: string,
    cluster: string,
    serviceAccount: string,
    namespace: string)

  /** One constructor per check, declared in the order the checks are made. */
  datatype OptionError =
    | InvalidLogLevel
    | MissingToken
    | MissingServiceAccount
    | MissingNamespace
    | MissingCluster
    | MissingServer
    | MissingKubeconfig

  /** Go's `error` result: `nil` is Pass. */
  datatype Outcome = Pass | Fail(error: OptionError)

  /** The level names the logging library accepts (compared in lower case). */
  const LevelNames: set<string> :=
    {"panic", "fatal", "error", "warn", "warning", "info", "debug", "trace"}

  /** The flag defaults: `--log-level=info` and `--namespace=ci`, every other flag empty. */
  const Defaults: Options := Options("info", "", "", "", "", "", "", "ci")

  function LowerChar(c: char): char
  {
    if 'A' <= c <= 'Z' then (c as int + 32) as char else c
  }

  function Lower(s: string): string
  {
    seq(|s|, i requires 0 <= i < |s| => LowerChar(s[i]))
  }

  /** The level parser succeeds on a name of a level, in any letter case. */
  predicate ValidLevel(s: string)
  {
    Lower(s) in LevelNames
  }

  /** Whether the constraint behind `e` is broken by `o`, independently of the others. */
  predicate Violated(o: Options, e: OptionError)
  {
    match e
    case InvalidLogLevel => !ValidLevel(o.logLevel)
    case MissingToken => o.token == "" && o.tokenFile == ""
    case MissingServiceAccount => o.serviceAccount == ""
    case MissingNamespace => o.namespace == ""
    case MissingCluster => o.cluster == ""
    case MissingServer => o.server == ""
    case MissingKubeconfig => o.kubeconfig == ""
  }

  /** The position of a check in the chain. */
  function Rank(e: OptionError): nat
  {
    match e
    case InvalidLogLevel => 0
    case MissingToken => 1
    case MissingServiceAccount => 2
    case MissingNamespace => 3
    case MissingCluster => 4
    case MissingServer => 5
    case MissingKubeconfig => 6
  }

  /** The fixed part of the message each failing check reports. */
  function Message(e: OptionError): string
  {
    match e
    case InvalidLogLevel => "invalid --log-level"
    case MissingToken => "either --token or --token-file must be specified"
    case MissingServiceAccount => "--service-account must be specified"
    case MissingNamespace => "--namespace must be specified"
    case MissingCluster => "--cluster must be specified"
    case MissingServer => "--server must be specified"
    case MissingKubeconfig => "--kubeconfig must be specified"
  }

  /**
   * validateOptions: the checks run in a fixed order and the first one that
   * fails is reported. Only presence is checked; `server` in particular may
   * be any non-empty string.
   */
  function Validate(o: Options): (r: Outcome)
    ensures r.Pass? <==>
      && ValidLevel(o.logLevel)
      && (o.token != "" || o.tokenFile != "")
      && o.serviceAccount != ""
      && o.namespace != ""
      && o.cluster != ""
      && o.server != ""
      && o.kubeconfig != ""
    ensures r.Fail? ==> Violated(o, r.error)
  {
    if !ValidLevel(o.logLevel) then Fail(InvalidLogLevel)
    else if o.token == "" && o.tokenFile == "" then Fail(MissingToken)
    else if o.serviceAccount == "" then Fail(MissingServiceAccount)
    else if o.namespace == "" then Fail(MissingNamespace)
    else if o.cluster == "" then Fail(MissingCluster)
    else if o.server == "" then Fail(MissingServer)
    else if o.kubeconfig == "" then Fail(MissingKubeconfig)
    else Pass
  }

  /** Validation passes exactly when no constraint is violated. */
  lemma PassIffNoViolation(o: Options)
    ensures Validate(o).Pass? <==> forall e :: !Violated(o, e)
  {
  }

  /** The reported error is the first violated constraint in check order. */
  lemma FirstViolationReported(o: Options, e: OptionError)
    ensures Validate(o) == Fail(e) <==>
      Violated(o, e) && forall e' :: Rank(e') < Rank(e) ==> !Violated(o, e')
  {
  }

  /** The token error is reported exactly when the level is valid and both credentials are empty. */
  lemma MissingTokenIff(o: Options)
    ensures Validate(o) == Fail(MissingToken) <==>
      ValidLevel(o.logLevel) && o.token == "" && o.tokenFile == ""
  {
  }

  /** No check looks inside `server`: one non-empty value is as good as another. */
  lemma ServerNotInspected(o: Options, server: string)
    requires o.server != "" && server != ""
    ensures Validate(o.(server := server)) == Validate(o)
  {
  }

  /** Either credential flag alone satisfies the token check. */
  lemma EitherCredentialSuffices(o: Options)
    requires ValidLevel(o.logLevel)
    requires o.token != "" || o.tokenFile != ""
    ensures Validate(o) != Fail(MissingToken)
  {
  }

  /** The default level is accepted, and the level check ignores letter case. */
  lemma DefaultLevelAccepted()
    ensures ValidLevel(Defaults.logLevel)
    ensures ValidLevel("INFO") && ValidLevel("Warning")
    ensures !ValidLevel("verbose")
  {
    assert Lower("info") == "info";
    assert Lower("INFO") == "info";
    assert Lower("Warning") == "warning";
    assert Lower("verbose") == "verbose";
  }

  /** With nothing but the defaults, the token check is the first to fail. */
  lemma DefaultsLackCredential()
    ensures Validate(Defaults) == Fail(MissingToken)
  {
    DefaultLevelAccepted();
  }
}
