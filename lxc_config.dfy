/** The LXC builder's configuration (builder/lxc/config.go): the part of
    NewConfig that runs after decoding. It fills defaults, parses the init
    timeout and checks that the LXC configuration file is not missing. */
module LxcConfig {
  import opened Common

  const DefaultTargetRunlevel := 3
  const DefaultCommandWrapper := "{{.Command}}"
  const DefaultInitTimeout := "20s"

  /** The Config fields NewConfig reads or writes after decoding. */
  datatype LxcValues = LxcValues(
    packerBuildName: string,
    configFile: string,
    outputDir: string,
    containerName: string,
    commandWrapper: string,
    rawInitTimeout: string,
    targetRunlevel: int,
    initTimeout: Duration)

  datatype LxcError =
    | InitTimeoutUnparsable(raw: string)
    | ConfigFileMissing(path: string)

  /** time.ParseDuration's duration: zero when parsing fails. */
  function ParsedOrZero(parsed: Option<Duration>): (d: Duration)
    ensures parsed.Some? ==> d == parsed.value
    ensures parsed.None? ==> d == 0
  {
    match parsed
    case Some(d) => d
    case None => 0
  }

  /** The configuration NewConfig builds: the defaults, then the parsed timeout. */
  function Resolved(v: LxcValues, parse: DurationParser): LxcValues
  {
    var raw := OrDefault(v.rawInitTimeout, DefaultInitTimeout);
    v.(outputDir := OrDefault(v.outputDir, "output-" + v.packerBuildName),
       containerName := OrDefault(v.containerName, "packer-" + v.packerBuildName),
       targetRunlevel := if v.targetRunlevel == 0 then DefaultTargetRunlevel else v.targetRunlevel,
       commandWrapper := OrDefault(v.commandWrapper, DefaultCommandWrapper),
       rawInitTimeout := raw,
       initTimeout := ParsedOrZero(parse(raw)))
  }

  /** A timeout that does not parse, then a configuration file that stat
      reports as not existing; any other stat outcome is accepted. */
  function Errors(v: LxcValues, parse: DurationParser, stat: string -> StatResult): (r: seq<LxcError>)
    ensures |r| <= 2
    ensures InitTimeoutUnparsable(OrDefault(v.rawInitTimeout, DefaultInitTimeout)) in r <==>
      parse(OrDefault(v.rawInitTimeout, DefaultInitTimeout)).None?
    ensures ConfigFileMissing(v.configFile) in r <==> stat(v.configFile) == NotExist
    ensures forall e :: e in r ==>
      e == InitTimeoutUnparsable(OrDefault(v.rawInitTimeout, DefaultInitTimeout)) || e == ConfigFileMissing(v.configFile)
    ensures |r| == 2 ==>
      r == [InitTimeoutUnparsable(OrDefault(v.rawInitTimeout, DefaultInitTimeout)), ConfigFileMissing(v.configFile)]
  {
    var raw := OrDefault(v.rawInitTimeout, DefaultInitTimeout);
    (if parse(raw).None? then [InitTimeoutUnparsable(raw)] else []) +
    (if stat(v.configFile) == NotExist then [ConfigFileMissing(v.configFile)] else [])
  }

  /** NewConfig succeeds exactly when the (defaulted) timeout parses and the
      configuration file is not reported missing. */
  lemma AcceptedIff(v: LxcValues, parse: DurationParser, stat: string -> StatResult)
    ensures Errors(v, parse, stat) == [] <==>
      parse(OrDefault(v.rawInitTimeout, DefaultInitTimeout)).Some? && stat(v.configFile) != NotExist
    ensures stat(v.configFile) == OtherStatError ==> ConfigFileMissing(v.configFile) !in Errors(v, parse, stat)
  {
  }

  /** An unparsable timeout adds exactly one error, and only that. */
  lemma UnparsableTimeoutIsOneError(v: LxcValues, parse: DurationParser, stat: string -> StatResult)
    requires parse(OrDefault(v.rawInitTimeout, DefaultInitTimeout)).None?
    requires stat(v.configFile) != NotExist
    ensures Errors(v, parse, stat) == [InitTimeoutUnparsable(OrDefault(v.rawInitTimeout, DefaultInitTimeout))]
  {
  }

  /** An omitted init_timeout is "20s", which parses to twenty seconds. */
  lemma OmittedTimeoutIsTwentySeconds(v: LxcValues, parse: DurationParser, stat: string -> StatResult)
    requires ParsesDefaultLiterals(parse)
    requires v.rawInitTimeout == ""
    ensures Resolved(v, parse).rawInitTimeout == "20s"
    ensures Resolved(v, parse).initTimeout == 20 * Second
    ensures InitTimeoutUnparsable("20s") !in Errors(v, parse, stat)
  {
  }

  /** The defaults replace only empty (or zero) values: the output
      directory and container are named after the build, the run level is 3
      and the command wrapper runs the command as given. */
  lemma DefaultsKeepGivenValues(v: LxcValues, parse: DurationParser)
    ensures v.outputDir == "" ==> Resolved(v, parse).outputDir == "output-" + v.packerBuildName
    ensures v.outputDir != "" ==> Resolved(v, parse).outputDir == v.outputDir
    ensures v.containerName == "" ==> Resolved(v, parse).containerName == "packer-" + v.packerBuildName
    ensures v.containerName != "" ==> Resolved(v, parse).containerName == v.containerName
    ensures v.targetRunlevel != 0 ==> Resolved(v, parse).targetRunlevel == v.targetRunlevel
    ensures v.targetRunlevel == 0 ==> Resolved(v, parse).targetRunlevel == 3
    ensures v.commandWrapper != "" ==> Resolved(v, parse).commandWrapper == v.commandWrapper
    ensures v.commandWrapper == "" ==> Resolved(v, parse).commandWrapper == "{{.Command}}"
    ensures v.rawInitTimeout != "" ==> Resolved(v, parse).rawInitTimeout == v.rawInitTimeout
    ensures Resolved(v, parse).configFile == v.configFile
  {
  }

  class Config {
    var packerBuildName: string
    var configFile: string
    var outputDir: string
    var containerName: string
    var commandWrapper: string
    var rawInitTimeout: string
    var targetRunlevel: int
    var initTimeout: Duration

    function Value(): LxcValues
      reads this
    {
      LxcValues(packerBuildName, configFile, outputDir, containerName, commandWrapper,
                rawInitTimeout, targetRunlevel, initTimeout)
    }

    /** The decoded configuration. */
    constructor (v: LxcValues)
      ensures Value() == v
    {
      packerBuildName, configFile, outputDir, containerName := v.packerBuildName, v.configFile, v.outputDir, v.containerName;
      commandWrapper, rawInitTimeout, targetRunlevel, initTimeout := v.commandWrapper, v.rawInitTimeout, v.targetRunlevel, v.initTimeout;
    }

    /** The four plain defaults. */
    method ApplyDefaults()
      modifies this`outputDir, this`containerName, this`targetRunlevel, this`commandWrapper
      ensures Value() == old(Value()).(
        outputDir := OrDefault(old(outputDir), "output-" + packerBuildName),
        containerName := OrDefault(old(containerName), "packer-" + packerBuildName),
        targetRunlevel := if old(targetRunlevel) == 0 then DefaultTargetRunlevel else old(targetRunlevel),
        commandWrapper := OrDefault(old(commandWrapper), DefaultCommandWrapper))
    {
      if outputDir == "" {
        outputDir := "output-" + packerBuildName;
      }
      if containerName == "" {
        containerName := "packer-" + packerBuildName;
      }
      if targetRunlevel == 0 {
        targetRunlevel := DefaultTargetRunlevel;
      }
      if commandWrapper == "" {
        commandWrapper := DefaultCommandWrapper;
      }
    }

    /** The init timeout default and its parse; a failed parse leaves zero
        and is the error returned. */
    method ParseInitTimeout(parse: DurationParser) returns (errs: seq<LxcError>)
      modifies this`rawInitTimeout, this`initTimeout
      ensures Value() == old(Value()).(
        rawInitTimeout := OrDefault(old(rawInitTimeout), DefaultInitTimeout),
        initTimeout := ParsedOrZero(parse(OrDefault(old(rawInitTimeout), DefaultInitTimeout))))
      ensures errs == if parse(rawInitTimeout).None? then [InitTimeoutUnparsable(rawInitTimeout)] else []
    {
      if rawInitTimeout == "" {
        rawInitTimeout := DefaultInitTimeout;
      }
      var parsed := parse(rawInitTimeout);
      initTimeout := ParsedOrZero(parsed);
      errs := [];
      if parsed.None? {
        errs := errs + [InitTimeoutUnparsable(rawInitTimeout)];
      }
    }

    /** The defaults, then the parse of the init timeout and the file check. */
    method Prepare(parse: DurationParser, stat: string -> StatResult) returns (errs: seq<LxcError>)
      modifies this
      ensures Value() == Resolved(old(Value()), parse)
      ensures errs == Errors(old(Value()), parse, stat)
    {
      ApplyDefaults();
      errs := ParseInitTimeout(parse);
      if stat(configFile) == NotExist {
        errs := errs + [ConfigFileMissing(configFile)];
      }
    }
  }

  /** NewConfig after decoding: the configuration and no error, or no
      configuration and every error. */
  method NewConfig(v: LxcValues, parse: DurationParser, stat: string -> StatResult)
    returns (c: Config?, errs: seq<LxcError>)
    ensures errs == Errors(v, parse, stat)
    ensures c == null <==> errs != []
    ensures c != null ==> c.Value() == Resolved(v, parse)
  {
    c := new Config(v);
    errs := c.Prepare(parse, stat);
    if |errs| > 0 {
      c := null;
    }
  }
}
