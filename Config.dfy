/**
 * The client's configuration (`PumpMonitorConfig`): its defaults, the output file
 * name derived at construction, and the checks of `validate` / `is_valid`.
 */
module Config {
  import opened Wrappers
  import opened PyStr

  const DEFAULT_SERVER_HOST: string := "muhammetakkurtt--pump-fun-real-time-monitor.apify.actor"
  const DEFAULT_SERVER_URL: string := "https://" + DEFAULT_SERVER_HOST
  const DEFAULT_API_TOKEN: string := "YOUR_API_TOKEN"
  const DEFAULT_ENDPOINT: string := "all"
  const DEFAULT_CONNECTION_TIMEOUT: int := 15
  const DEFAULT_STREAM_TIMEOUT: int := 180
  const DEFAULT_RECONNECT_DELAY: int := 3
  const DEFAULT_MAX_RETRIES: int := 10
  const DEFAULT_HEALTH_CHECK_INTERVAL: int := 240
  const DEFAULT_SHOW_STATS_INTERVAL: int := 60

  /** The lowest connection timeout `validate` accepts without a warning. */
  const MIN_CONNECTION_TIMEOUT: int := 5

  /** The endpoints `validate` accepts, in the order its message lists them. */
  const VALID_ENDPOINTS: seq<string> :=
    ["all", "tokens/new", "tokens/new/detailed", "tokens/graduated", "trades/pump", "trades/pumpswap"]

  /** The endpoint table printed by `--list-endpoints`. */
  const ENDPOINT_DESCRIPTIONS: map<string, string> := map[
    "all" := "Retrieve all event types",
    "tokens/new" := "New token events only",
    "tokens/new/detailed" := "Detailed new token information",
    "tokens/graduated" := "Graduated token events",
    "trades/pump" := "Pump trading events",
    "trades/pumpswap" := "PumpSwap trading events"
  ]

  /** The endpoints listed to the user and the endpoints validation accepts are the same six. */
  lemma EndpointTablesAgree()
    ensures ENDPOINT_DESCRIPTIONS.Keys == set e | e in VALID_ENDPOINTS
    ensures |VALID_ENDPOINTS| == 6
  {
  }

  /** One finding of `validate`, in the order the checks run. */
  datatype Issue =
    | ApiTokenEmpty
    | ServerUrlEmpty
    | ServerUrlScheme
    | InvalidEndpoint
    | ConnectionTimeoutLow
  {
    /** Position of the check that reports this issue. */
    function Rank(): nat {
      match this
      case ApiTokenEmpty => 0
      case ServerUrlEmpty => 1
      case ServerUrlScheme => 2
      case InvalidEndpoint => 3
      case ConnectionTimeoutLow => 4
    }

    predicate IsError() {
      !ServerUrlScheme? && !ConnectionTimeoutLow?
    }

    /** The text `validate` appends for this issue. */
    function Message(): string {
      (if IsError() then "ERROR: " else "WARNING: ") + Detail()
    }

    function Detail(): string {
      match this
      case ApiTokenEmpty => "API_TOKEN is empty. Please configure your Apify API token."
      case ServerUrlEmpty => "SERVER_URL is empty. Please configure the Standby server URL."
      case ServerUrlScheme => "SERVER_URL should start with http:// or https://"
      case InvalidEndpoint =>
        "Invalid endpoint. Valid values: ['all', 'tokens/new', 'tokens/new/detailed', "
        + "'tokens/graduated', 'trades/pump', 'trades/pumpswap']"
      case ConnectionTimeoutLow => "CONNECTION_TIMEOUT is too low. Minimum recommended: 5 seconds"
    }
  }

  /** Issues appear in the order their checks run, each at most once. */
  predicate InCheckOrder(issues: seq<Issue>) {
    forall i, j :: 0 <= i < j < |issues| ==> issues[i].Rank() < issues[j].Rank()
  }

  /** Every issue so far comes from one of the first `k` checks, in order. */
  predicate Below(issues: seq<Issue>, k: nat) {
    InCheckOrder(issues) && |issues| <= k && forall x :: x in issues ==> x.Rank() < k
  }

  /** One check of `validate`: its issue is appended exactly when the check fails. */
  function Report(issues: seq<Issue>, issue: Issue, failed: bool): (r: seq<Issue>)
    requires Below(issues, issue.Rank())
    ensures Below(r, issue.Rank() + 1)
    ensures issue in r <==> failed
    ensures forall other :: other != issue ==> (other in r <==> other in issues)
  {
    if failed then issues + [issue] else issues
  }

  /** `server_url.startswith(('http://', 'https://'))`. */
  predicate HasHttpScheme(url: string) {
    StartsWith(url, "http://") || StartsWith(url, "https://")
  }

  /** A blank server URL fails both URL checks: it has no scheme either. */
  lemma BlankUrlHasNoScheme(url: string)
    requires Strip(url) == []
    ensures !HasHttpScheme(url)
  {
    StripBlank(url);
    if url != [] {
      assert IsSpace(url[0]);
    }
  }

  /** The settings under which `validate` reports nothing. */
  predicate Acceptable(apiToken: string, serverUrl: string, endpoint: string, connectionTimeout: int) {
    && Strip(apiToken) != []
    && HasHttpScheme(serverUrl)
    && endpoint in VALID_ENDPOINTS
    && connectionTimeout >= MIN_CONNECTION_TIMEOUT
  }

  /** The issues `validate` reports are none at all exactly when the settings are
      acceptable; a blank URL is caught by the scheme check as well. */
  lemma NoIssuesIffAcceptable(issues: seq<Issue>, apiToken: string, serverUrl: string, endpoint: string, connectionTimeout: int)
    requires ApiTokenEmpty in issues <==> Strip(apiToken) == []
    requires ServerUrlEmpty in issues <==> Strip(serverUrl) == []
    requires ServerUrlScheme in issues <==> !HasHttpScheme(serverUrl)
    requires InvalidEndpoint in issues <==> endpoint !in VALID_ENDPOINTS
    requires ConnectionTimeoutLow in issues <==> connectionTimeout < MIN_CONNECTION_TIMEOUT
    ensures issues == [] <==> Acceptable(apiToken, serverUrl, endpoint, connectionTimeout)
  {
    if issues != [] {
      var first := issues[0];
      assert first in issues;
      match first
      case ApiTokenEmpty =>
      case ServerUrlEmpty => BlankUrlHasNoScheme(serverUrl);
      case ServerUrlScheme =>
      case InvalidEndpoint =>
      case ConnectionTimeoutLow =>
    } else {
      assert ApiTokenEmpty !in issues && ServerUrlScheme !in issues;
      assert InvalidEndpoint !in issues && ConnectionTimeoutLow !in issues;
    }
  }

  /** An issue's text starts with `ERROR: ` exactly when it is an error; the others
      start with `WARNING: `. */
  lemma MessageSeverity(issue: Issue)
    ensures StartsWith(issue.Message(), "ERROR: ") <==> issue.IsError()
    ensures !issue.IsError() ==> StartsWith(issue.Message(), "WARNING: ")
  {
    var detail := issue.Detail();
    if !issue.IsError() {
      assert issue.Message() == "WARNING: " + detail;
      assert issue.Message()[0] == 'W';
    }
  }

  /** The errors among some issues are the blank token, the blank URL and the unknown
      endpoint: the scheme and timeout checks only warn. */
  lemma ErrorKinds(issues: seq<Issue>)
    ensures (exists i :: i in issues && i.IsError()) <==>
            ApiTokenEmpty in issues || ServerUrlEmpty in issues || InvalidEndpoint in issues
  {
    if exists i :: i in issues && i.IsError() {
      var i :| i in issues && i.IsError();
      assert i == ApiTokenEmpty || i == ServerUrlEmpty || i == InvalidEndpoint;
    }
  }

  /** The list `validate` returns holds an error (an `ERROR: ` message, by
      MessageSeverity) exactly when the token or the URL is blank or the endpoint is
      unknown. */
  lemma ErrorIffMisconfigured(issues: seq<Issue>, apiToken: string, serverUrl: string, endpoint: string, connectionTimeout: int)
    requires ApiTokenEmpty in issues <==> Strip(apiToken) == []
    requires ServerUrlEmpty in issues <==> Strip(serverUrl) == []
    requires ServerUrlScheme in issues <==> !HasHttpScheme(serverUrl)
    requires InvalidEndpoint in issues <==> endpoint !in VALID_ENDPOINTS
    requires ConnectionTimeoutLow in issues <==> connectionTimeout < MIN_CONNECTION_TIMEOUT
    ensures (exists i :: i in issues && i.IsError()) <==>
            Strip(apiToken) == [] || Strip(serverUrl) == [] || endpoint !in VALID_ENDPOINTS
  {
    ErrorKinds(issues);
  }

  /** The built-in defaults pass validation, placeholder token included: `validate`
      only rejects a blank token. */
  lemma DefaultsAcceptable()
    ensures Acceptable(DEFAULT_API_TOKEN, DEFAULT_SERVER_URL, DEFAULT_ENDPOINT, DEFAULT_CONNECTION_TIMEOUT)
  {
    StripNonBlank(DEFAULT_API_TOKEN);
    assert DEFAULT_ENDPOINT == VALID_ENDPOINTS[0];
  }

  /** `__post_init__`'s output file name for an endpoint: slashes become underscores. */
  function DefaultOutputFile(endpoint: string): (name: string)
    ensures |name| == |endpoint| + 16
    ensures StartsWith(name, "pump_data_") && name[|name| - 6..] == ".jsonl"
    ensures name[10..|name| - 6] == Replace(endpoint, '/', '_')
    ensures '/' !in name
  {
    var name := "pump_data_" + Replace(endpoint, '/', '_') + ".jsonl";
    assert name[10..|name| - 6] == Replace(endpoint, '/', '_');
    assert forall k :: 0 <= k < |name| ==> name[k] != '/' by {
      forall k | 0 <= k < |name| ensures name[k] != '/' {
        if 10 <= k < |name| - 6 {
          assert name[k] == Replace(endpoint, '/', '_')[k - 10];
        }
      }
    }
    name
  }

  /** The `@dataclass` PumpMonitorConfig. */
  class PumpMonitorConfig {
    var serverUrl: string
    var apiToken: string
    var endpoint: string
    var connectionTimeout: int
    var readTimeout: Option<int>
    var streamTimeout: int
    var reconnectDelay: int
    var maxRetries: int
    var healthCheckInterval: int
    var showDetailedLogs: bool
    var showStatsInterval: int
    var quietMode: bool
    var showRawData: bool
    var saveToFile: bool
    var outputFile: Option<string>
    var enableDebugLogging: bool

    /** The generated `__init__` (every field a keyword argument with its default),
        followed by `__post_init__`, which names the output file after the endpoint
        when none is given. */
    constructor (serverUrl: string := DEFAULT_SERVER_URL,
                 apiToken: string := DEFAULT_API_TOKEN,
                 endpoint: string := DEFAULT_ENDPOINT,
                 connectionTimeout: int := DEFAULT_CONNECTION_TIMEOUT,
                 readTimeout: Option<int> := None,
                 streamTimeout: int := DEFAULT_STREAM_TIMEOUT,
                 reconnectDelay: int := DEFAULT_RECONNECT_DELAY,
                 maxRetries: int := DEFAULT_MAX_RETRIES,
                 healthCheckInterval: int := DEFAULT_HEALTH_CHECK_INTERVAL,
                 showDetailedLogs: bool := true,
                 showStatsInterval: int := DEFAULT_SHOW_STATS_INTERVAL,
                 quietMode: bool := false,
                 showRawData: bool := false,
                 saveToFile: bool := true,
                 outputFile: Option<string> := None,
                 enableDebugLogging: bool := false)
      ensures this.serverUrl == serverUrl && this.apiToken == apiToken && this.endpoint == endpoint
      ensures this.connectionTimeout == connectionTimeout && this.readTimeout == readTimeout
      ensures this.streamTimeout == streamTimeout && this.reconnectDelay == reconnectDelay
      ensures this.maxRetries == maxRetries && this.healthCheckInterval == healthCheckInterval
      ensures this.showDetailedLogs == showDetailedLogs && this.showStatsInterval == showStatsInterval
      ensures this.quietMode == quietMode && this.showRawData == showRawData && this.saveToFile == saveToFile
      ensures this.enableDebugLogging == enableDebugLogging
      ensures outputFile.Some? ==> this.outputFile == outputFile
      ensures outputFile.None? ==> this.outputFile == Some(DefaultOutputFile(endpoint))
    {
      this.serverUrl := serverUrl;
      this.apiToken := apiToken;
      this.endpoint := endpoint;
      this.connectionTimeout := connectionTimeout;
      this.readTimeout := readTimeout;
      this.streamTimeout := streamTimeout;
      this.reconnectDelay := reconnectDelay;
      this.maxRetries := maxRetries;
      this.healthCheckInterval := healthCheckInterval;
      this.showDetailedLogs := showDetailedLogs;
      this.showStatsInterval := showStatsInterval;
      this.quietMode := quietMode;
      this.showRawData := showRawData;
      this.saveToFile := saveToFile;
      this.outputFile := outputFile;
      this.enableDebugLogging := enableDebugLogging;
      new;
      if this.outputFile.None? {
        this.outputFile := Some(DefaultOutputFile(this.endpoint));
      }
    }

    /** `validate`: the issues found, each check appending at most one. The config is
        not changed. */
    method Validate() returns (issues: seq<Issue>)
      ensures ApiTokenEmpty in issues <==> Strip(apiToken) == []
      ensures ServerUrlEmpty in issues <==> Strip(serverUrl) == []
      ensures ServerUrlScheme in issues <==> !HasHttpScheme(serverUrl)
      ensures InvalidEndpoint in issues <==> endpoint !in VALID_ENDPOINTS
      ensures ConnectionTimeoutLow in issues <==> connectionTimeout < MIN_CONNECTION_TIMEOUT
      ensures InCheckOrder(issues) && |issues| <= 5
    {
      issues := [];
      issues := Report(issues, ApiTokenEmpty, Strip(apiToken) == []);
      issues := Report(issues, ServerUrlEmpty, Strip(serverUrl) == []);
      issues := Report(issues, ServerUrlScheme, !HasHttpScheme(serverUrl));
      issues := Report(issues, InvalidEndpoint, endpoint !in VALID_ENDPOINTS);
      issues := Report(issues, ConnectionTimeoutLow, connectionTimeout < MIN_CONNECTION_TIMEOUT);
    }

    /** `is_valid`: no issue at all, so a warning alone makes the config invalid. */
    method IsValid() returns (ok: bool)
      ensures ok <==> Acceptable(apiToken, serverUrl, endpoint, connectionTimeout)
    {
      var issues := Validate();
      ok := |issues| == 0;
      NoIssuesIffAcceptable(issues, apiToken, serverUrl, endpoint, connectionTimeout);
    }
  }
}
