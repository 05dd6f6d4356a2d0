/** The LXD builder's configuration (builder/lxd/config.go): the part of
    NewConfig that runs after decoding. It fills chained defaults and
    requires a source image. */
module LxdConfig {
  import opened Common

  const DefaultCommandWrapper := "{{.Command}}"
  const DefaultProfile := "default"
  const DefaultInitSleep := "3"

  /** The Config fields NewConfig reads or writes after decoding. */
  datatype LxdValues = LxdValues(
    packerBuildName: string,
    outputImage: string,
    containerName: string,
    commandWrapper: string,
    image: string,
    profile: string,
    initSleep: string)

  datatype LxdError = ImageMissing

  /** The configuration once every default is filled; the output image
      follows the container name as already defaulted. */
  function Defaulted(v: LxdValues): LxdValues
  {
    var containerName := OrDefault(v.containerName, "packer-" + v.packerBuildName);
    v.(containerName := containerName,
       outputImage := OrDefault(v.outputImage, containerName),
       commandWrapper := OrDefault(v.commandWrapper, DefaultCommandWrapper),
       profile := OrDefault(v.profile, DefaultProfile),
       initSleep := OrDefault(v.initSleep, DefaultInitSleep))
  }

  /** image is the one required field and the one possible error. */
  function Errors(v: LxdValues): (r: seq<LxdError>)
    ensures r == [] <==> v.image != ""
    ensures r != [] ==> r == [ImageMissing]
  {
    if v.image == "" then [ImageMissing] else []
  }

  /** The chain: with neither name given, the output image is named
      "packer-<build name>" too. */
  lemma OutputImageFollowsContainerName(v: LxdValues)
    ensures v.outputImage == "" ==> Defaulted(v).outputImage == Defaulted(v).containerName
    ensures v.outputImage == "" && v.containerName == "" ==> Defaulted(v).outputImage == "packer-" + v.packerBuildName
    ensures v.outputImage != "" ==> Defaulted(v).outputImage == v.outputImage
    ensures Defaulted(v).outputImage != ""
  {
  }

  /** The defaults replace only empty values; the image is never defaulted. */
  lemma DefaultsKeepGivenValues(v: LxdValues)
    ensures v.containerName != "" ==> Defaulted(v).containerName == v.containerName
    ensures v.containerName == "" ==> Defaulted(v).containerName == "packer-" + v.packerBuildName
    ensures v.commandWrapper != "" ==> Defaulted(v).commandWrapper == v.commandWrapper
    ensures v.commandWrapper == "" ==> Defaulted(v).commandWrapper == "{{.Command}}"
    ensures v.profile != "" ==> Defaulted(v).profile == v.profile
    ensures v.profile == "" ==> Defaulted(v).profile == "default"
    ensures v.initSleep != "" ==> Defaulted(v).initSleep == v.initSleep
    ensures v.initSleep == "" ==> Defaulted(v).initSleep == "3"
    ensures Defaulted(v).image == v.image
    ensures Defaulted(Defaulted(v)) == Defaulted(v)
  {
  }

  class Config {
    var packerBuildName: string
    var outputImage: string
    var containerName: string
    var commandWrapper: string
    var image: string
    var profile: string
    var initSleep: string

    function Value(): LxdValues
      reads this
    {
      LxdValues(packerBuildName, outputImage, containerName, commandWrapper, image, profile, initSleep)
    }

    /** The decoded configuration. */
    constructor (v: LxdValues)
      ensures Value() == v
    {
      packerBuildName, outputImage, containerName := v.packerBuildName, v.outputImage, v.containerName;
      commandWrapper, image, profile, initSleep := v.commandWrapper, v.image, v.profile, v.initSleep;
    }

    /** The defaults and the image check, in the order NewConfig makes them. */
    method Prepare() returns (errs: seq<LxdError>)
      modifies this
      ensures Value() == Defaulted(old(Value()))
      ensures errs == Errors(old(Value()))
    {
      errs := [];
      if containerName == "" {
        containerName := "packer-" + packerBuildName;
      }
      if outputImage == "" {
        outputImage := containerName;
      }
      if commandWrapper == "" {
        commandWrapper := DefaultCommandWrapper;
      }
      if image == "" {
        errs := errs + [ImageMissing];
      }
      if profile == "" {
        profile := DefaultProfile;
      }
      if initSleep == "" {
        initSleep := DefaultInitSleep;
      }
    }
  }

  /** NewConfig after decoding: it succeeds exactly when an image is given. */
  method NewConfig(v: LxdValues) returns (c: Config?, errs: seq<LxdError>)
    ensures errs == Errors(v)
    ensures c == null <==> v.image == ""
    ensures c != null ==> c.Value() == Defaulted(v)
  {
    c := new Config(v);
    errs := c.Prepare();
    if |errs| > 0 {
      c := null;
    }
  }
}
