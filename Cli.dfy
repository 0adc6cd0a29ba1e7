/**
 * The command-line entry point: the configuration built from the arguments, and the
 * exit code `main` chooses.
 */
module Cli {
  import opened Wrappers
  import opened PyStr
  import opened Config

  /** The parsed arguments; an option not given is None, a flag not given is false. */
  datatype Args = Args(
    endpoint: Option<string>,
    apiToken: Option<string>,
    serverUrl: Option<string>,
    quiet: bool,
    debug: bool,
    noSave: bool,
    outputFile: Option<string>,
    showRaw: bool,
    listEndpoints: bool,
    configCheck: bool)

  /** An optional string argument is truthy: given, and not empty. */
  predicate Given(arg: Option<string>) {
    arg.Some? && arg.value != ""
  }

  /** The value a field ends with when a truthy argument overrides its default. */
  function Chosen(arg: Option<string>, default: string): string {
    if Given(arg) then arg.value else default
  }

  /** The output file of a configuration built with the default endpoint. */
  lemma DefaultEndpointOutputFile()
    ensures DefaultOutputFile(DEFAULT_ENDPOINT) == "pump_data_all.jsonl"
  {
    var r := Replace(DEFAULT_ENDPOINT, '/', '_');
    assert |r| == 3 && r[0] == 'a' && r[1] == 'l' && r[2] == 'l';
    assert r == "all";
  }

  /** `create_config_from_args`: a default configuration whose fields are then
      overwritten, each under its own guard. The output file is named when the
      configuration is built, so it follows the default endpoint, not `--endpoint`. */
  method CreateConfigFromArgs(args: Args) returns (config: PumpMonitorConfig)
    ensures fresh(config)
    ensures config.endpoint == Chosen(args.endpoint, DEFAULT_ENDPOINT)
    ensures config.apiToken == Chosen(args.apiToken, DEFAULT_API_TOKEN)
    ensures config.serverUrl == Chosen(args.serverUrl, DEFAULT_SERVER_URL)
    ensures config.outputFile == Some(Chosen(args.outputFile, "pump_data_all.jsonl"))
    ensures config.quietMode == args.quiet && config.enableDebugLogging == args.debug
    ensures config.saveToFile == !args.noSave && config.showRawData == args.showRaw
    ensures config.connectionTimeout == DEFAULT_CONNECTION_TIMEOUT && config.readTimeout == None
    ensures config.streamTimeout == DEFAULT_STREAM_TIMEOUT && config.reconnectDelay == DEFAULT_RECONNECT_DELAY
    ensures config.maxRetries == DEFAULT_MAX_RETRIES && config.healthCheckInterval == DEFAULT_HEALTH_CHECK_INTERVAL
    ensures config.showDetailedLogs && config.showStatsInterval == DEFAULT_SHOW_STATS_INTERVAL
  {
    config := new PumpMonitorConfig();
    DefaultEndpointOutputFile();
    OverrideTarget(config, args);
    OverrideSwitches(config, args);
  }

  /** The first overrides of `create_config_from_args`: endpoint, API token and
      server URL, each only when its argument is truthy. */
  method OverrideTarget(config: PumpMonitorConfig, args: Args)
    modifies config`endpoint, config`apiToken, config`serverUrl
    ensures config.endpoint == Chosen(args.endpoint, old(config.endpoint))
    ensures config.apiToken == Chosen(args.apiToken, old(config.apiToken))
    ensures config.serverUrl == Chosen(args.serverUrl, old(config.serverUrl))
  {
    if Given(args.endpoint) {
      config.endpoint := args.endpoint.value;
    }
    if Given(args.apiToken) {
      config.apiToken := args.apiToken.value;
    }
    if Given(args.serverUrl) {
      config.serverUrl := args.serverUrl.value;
    }
  }

  /** The remaining overrides: the flags can only be switched on (saving only off),
      and the output file is replaced only by a truthy argument. */
  method OverrideSwitches(config: PumpMonitorConfig, args: Args)
    modifies config`quietMode, config`enableDebugLogging, config`saveToFile, config`outputFile, config`showRawData
    ensures config.quietMode == (old(config.quietMode) || args.quiet)
    ensures config.enableDebugLogging == (old(config.enableDebugLogging) || args.debug)
    ensures config.saveToFile == (old(config.saveToFile) && !args.noSave)
    ensures config.showRawData == (old(config.showRawData) || args.showRaw)
    ensures Given(args.outputFile) ==> config.outputFile == Some(args.outputFile.value)
    ensures !Given(args.outputFile) ==> config.outputFile == old(config.outputFile)
  {
    if args.quiet {
      config.quietMode := true;
    }
    if args.debug {
      config.enableDebugLogging := true;
    }
    if args.noSave {
      config.saveToFile := false;
    }
    if Given(args.outputFile) {
      config.outputFile := Some(args.outputFile.value);
    }
    if args.showRaw {
      config.showRawData := true;
    }
  }

  /** Whether the settings the arguments produce pass validation. */
  predicate ArgsAcceptable(args: Args) {
    Acceptable(Chosen(args.apiToken, DEFAULT_API_TOKEN), Chosen(args.serverUrl, DEFAULT_SERVER_URL),
               Chosen(args.endpoint, DEFAULT_ENDPOINT), DEFAULT_CONNECTION_TIMEOUT)
  }

  /** The decisions of `main`: the exit code, and whether the monitor is started
      (it returns normally once started). Listing endpoints exits with 0; otherwise,
      with or without `--config-check`, the code is 1 exactly when validation reports
      an issue, and the monitor starts only without `--config-check` and with no issue. */
  method MainOutcome(args: Args) returns (code: int, monitors: bool)
    ensures args.listEndpoints ==> code == 0 && !monitors
    ensures !args.listEndpoints ==> (code == 1 <==> !ArgsAcceptable(args))
    ensures code == 0 || code == 1
    ensures monitors <==> !args.listEndpoints && !args.configCheck && ArgsAcceptable(args)
  {
    if args.listEndpoints {
      return 0, false;
    }
    var config := CreateConfigFromArgs(args);
    if args.configCheck {
      var issues := config.Validate();
      NoIssuesIffAcceptable(issues, config.apiToken, config.serverUrl, config.endpoint, config.connectionTimeout);
      if |issues| > 0 {
        return 1, false;
      } else {
        return 0, false;
      }
    }
    // validate_and_setup_config
    var issues := config.Validate();
    NoIssuesIffAcceptable(issues, config.apiToken, config.serverUrl, config.endpoint, config.connectionTimeout);
    if |issues| > 0 {
      return 1, false;
    }
    return 0, true;
  }

  /** Run without arguments, the client starts monitoring with the placeholder token. */
  lemma NoArgumentsStartsMonitor()
    ensures ArgsAcceptable(Args(None, None, None, false, false, false, None, false, false, false))
  {
    var args := Args(None, None, None, false, false, false, None, false, false, false);
    assert Chosen(args.apiToken, DEFAULT_API_TOKEN) == DEFAULT_API_TOKEN;
    assert Chosen(args.serverUrl, DEFAULT_SERVER_URL) == DEFAULT_SERVER_URL;
    assert Chosen(args.endpoint, DEFAULT_ENDPOINT) == DEFAULT_ENDPOINT;
    DefaultsAcceptable();
  }
}
