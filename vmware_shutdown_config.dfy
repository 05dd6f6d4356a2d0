/** The VMware builders' shutdown settings
    (builder/vmware/common/shutdown_config.go): Prepare defaults the raw
    timeout to "5m" and parses it. */
module VmwareShutdownConfig {
  import opened Common

  const DefaultShutdownTimeout := "5m"

  datatype ShutdownValues = ShutdownValues(
    shutdownCommand: string,
    rawShutdownTimeout: string,
    shutdownTimeout: Duration)

  datatype ShutdownError = ShutdownTimeoutUnparsable(raw: string)

  /** The settings after Prepare: the raw value defaulted, the duration its
      parse (zero when the parse fails). */
  function Prepared(v: ShutdownValues, parse: DurationParser): ShutdownValues
  {
    var raw := OrDefault(v.rawShutdownTimeout, DefaultShutdownTimeout);
    v.(rawShutdownTimeout := raw,
       shutdownTimeout := match parse(raw) case Some(d) => d case None => 0)
  }

  function Errors(v: ShutdownValues, parse: DurationParser): (r: seq<ShutdownError>)
    ensures |r| <= 1
    ensures r == [] <==> parse(OrDefault(v.rawShutdownTimeout, DefaultShutdownTimeout)).Some?
    ensures r != [] ==> r == [ShutdownTimeoutUnparsable(OrDefault(v.rawShutdownTimeout, DefaultShutdownTimeout))]
  {
    var raw := OrDefault(v.rawShutdownTimeout, DefaultShutdownTimeout);
    if parse(raw).None? then [ShutdownTimeoutUnparsable(raw)] else []
  }

  /** An omitted timeout is "5m", which parses to exactly five minutes
      without error; a given one is kept as written. */
  lemma OmittedTimeoutIsFiveMinutes(v: ShutdownValues, parse: DurationParser)
    requires ParsesDefaultLiterals(parse)
    requires v.rawShutdownTimeout == ""
    ensures Prepared(v, parse).rawShutdownTimeout == "5m"
    ensures Prepared(v, parse).shutdownTimeout == 5 * Minute
    ensures Errors(v, parse) == []
  {
  }

  /** Prepare keeps a given raw value and the shutdown command, and its
      duration is the parse of the raw value it leaves. */
  lemma PreparedKeepsGivenValues(v: ShutdownValues, parse: DurationParser)
    ensures v.rawShutdownTimeout != "" ==> Prepared(v, parse).rawShutdownTimeout == v.rawShutdownTimeout
    ensures Prepared(v, parse).shutdownCommand == v.shutdownCommand
    ensures parse(Prepared(v, parse).rawShutdownTimeout).Some? ==>
      Prepared(v, parse).shutdownTimeout == parse(Prepared(v, parse).rawShutdownTimeout).value
    ensures Prepared(Prepared(v, parse), parse) == Prepared(v, parse)
  {
  }

  class ShutdownConfig {
    var shutdownCommand: string
    var rawShutdownTimeout: string
    var shutdownTimeout: Duration

    function Value(): ShutdownValues
      reads this
    {
      ShutdownValues(shutdownCommand, rawShutdownTimeout, shutdownTimeout)
    }

    /** The decoded settings. */
    constructor (v: ShutdownValues)
      ensures Value() == v
    {
      shutdownCommand, rawShutdownTimeout, shutdownTimeout := v.shutdownCommand, v.rawShutdownTimeout, v.shutdownTimeout;
    }

    method Prepare(parse: DurationParser) returns (errs: seq<ShutdownError>)
      modifies this`rawShutdownTimeout, this`shutdownTimeout
      ensures Value() == Prepared(old(Value()), parse)
      ensures errs == Errors(old(Value()), parse)
    {
      if rawShutdownTimeout == "" {
        rawShutdownTimeout := DefaultShutdownTimeout;
      }
      errs := [];
      var parsed := parse(rawShutdownTimeout);
      shutdownTimeout := match parsed case Some(d) => d case None => 0;
      if parsed.None? {
        errs := errs + [ShutdownTimeoutUnparsable(rawShutdownTimeout)];
      }
    }
  }
}
