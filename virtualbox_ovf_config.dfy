/** The VirtualBox OVF builder's configuration (builder/virtualbox/ovf/config.go):
    the part of NewConfig that runs after decoding. It fills the guest
    additions and VM name defaults, gathers the errors of the embedded
    configurations, lowercases the checksums, checks the source file and the
    guest additions mode, warns about a missing shutdown command and, on
    success, turns import_opts into import flags. */
module VirtualBoxOvfConfig {
  import opened Common

  /** The embedded configurations whose Prepare NewConfig calls, in its order. */
  datatype Part =
    | ExportPart | ExportOptsPart | FloppyPart | HttpPart | OutputPart | RunPart
    | ShutdownPart | SshPart | VBoxManagePart | VBoxManagePostPart | VBoxVersionPart
    | BootPart | GuestAdditionsPart

  const PartOrder: seq<Part> := [
    ExportPart, ExportOptsPart, FloppyPart, HttpPart, OutputPart, RunPart,
    ShutdownPart, SshPart, VBoxManagePart, VBoxManagePostPart, VBoxVersionPart,
    BootPart, GuestAdditionsPart]

  const ModeDisable := "disable"
  const ModeAttach := "attach"
  const ModeUpload := "upload"
  const ValidModes: seq<string> := [ModeDisable, ModeAttach, ModeUpload]

  const DefaultGuestAdditionsPath := "VBoxGuestAdditions.iso"
  const DefaultGuestAdditionsInterface := "ide"

  const ShutdownWarning := "A shutdown_command was not specified. Without a shutdown command, Packer\nwill forcibly halt the virtual machine, which may result in data loss."

  /** The Config fields NewConfig reads or writes after decoding. */
  datatype OvfValues = OvfValues(
    packerBuildName: string,
    shutdownCommand: string,
    checksum: string,
    checksumType: string,
    guestAdditionsMode: string,
    guestAdditionsPath: string,
    guestAdditionsInterface: string,
    guestAdditionsSha256: string,
    importFlags: seq<string>,
    importOpts: string,
    sourcePath: string,
    vmName: string)

  /** What NewConfig asks of the outside world. */
  datatype Collaborators = Collaborators(
    initTime: int,                    // interpolate.InitTime.Unix()
    prepare: Part -> seq<Message>,    // the embedded configurations' Prepare
    stat: string -> StatResult)       // os.Stat

  datatype OvfError =
    | PartError(part: Part, message: Message)
    | SourcePathMissing
    | SourceFileMissing(path: string)
    | InvalidGuestAdditionsMode(mode: string)

  // ---------------------------------------------------------------------
  // The specification.
  // ---------------------------------------------------------------------

  /** The configuration once the four defaults are filled. */
  function Defaulted(v: OvfValues, initTime: int): OvfValues
  {
    v.(guestAdditionsMode := OrDefault(v.guestAdditionsMode, ModeUpload),
       guestAdditionsPath := OrDefault(v.guestAdditionsPath, DefaultGuestAdditionsPath),
       guestAdditionsInterface := OrDefault(v.guestAdditionsInterface, DefaultGuestAdditionsInterface),
       vmName := OrDefault(v.vmName, "packer-" + v.packerBuildName + "-" + IntToString(initTime)))
  }

  /** The checksum, its type and the guest additions digest in lower case. */
  function Normalized(d: OvfValues): OvfValues
  {
    d.(checksumType := ToLower(d.checksumType),
       checksum := ToLower(d.checksum),
       guestAdditionsSha256 := if d.guestAdditionsSha256 != "" then ToLower(d.guestAdditionsSha256) else d.guestAdditionsSha256)
  }

  /** The import flags once a non-empty import_opts has been turned into flags. */
  function WithImportOpts(d: OvfValues): (r: OvfValues)
    ensures d.importOpts == "" ==> r == d
    ensures d.importOpts != "" ==> r == d.(importFlags := d.importFlags + ["--options", d.importOpts])
  {
    if d.importOpts != "" then d.(importFlags := d.importFlags + ["--options", d.importOpts]) else d
  }

  /** The configuration NewConfig returns when it returns one. */
  function Final(v: OvfValues, initTime: int): OvfValues
  {
    WithImportOpts(Normalized(Defaulted(v, initTime)))
  }

  /** An embedded configuration's errors, tagged with it. */
  function PartErrors(part: Part, ms: seq<Message>): seq<OvfError>
  {
    Wrapped(ms, m => PartError(part, m))
  }

  /** The errors of the embedded configurations, part after part. */
  function SubErrors(parts: seq<Part>, prepare: Part -> seq<Message>): (r: seq<OvfError>)
    ensures r == [] <==> forall p :: p in parts ==> prepare(p) == []
    ensures forall e :: e in r ==> e.PartError? && e.part in parts && e.message in prepare(e.part)
    ensures forall p, m {:trigger PartError(p, m)} :: p in parts && m in prepare(p) ==> PartError(p, m) in r
  {
    if parts == [] then []
    else PartErrors(parts[0], prepare(parts[0])) + SubErrors(parts[1..], prepare)
  }

  /** The errors of a non-empty list of parts start with the first part's. */
  lemma SubErrorsCons(parts: seq<Part>, prepare: Part -> seq<Message>)
    requires parts != []
    ensures SubErrors(parts, prepare) == PartErrors(parts[0], prepare(parts[0])) + SubErrors(parts[1..], prepare)
  {
  }

  /** The errors come part after part: one more part adds its own errors
      after those of every part before it. */
  lemma {:induction false} SubErrorsAppend(parts: seq<Part>, p: Part, prepare: Part -> seq<Message>)
    ensures SubErrors(parts + [p], prepare) == SubErrors(parts, prepare) + PartErrors(p, prepare(p))
  {
    var q := parts + [p];
    SubErrorsCons(q, prepare);
    if parts == [] {
      assert q[1..] == [];
    } else {
      assert q[1..] == parts[1..] + [p];
      SubErrorsCons(parts, prepare);
      SubErrorsAppend(parts[1..], p, prepare);
    }
  }

  /** source_path is required and must name a file that stat accepts; the
      two errors are independent, so an empty path can report both. */
  function SourceRule(path: string, stat: string -> StatResult): (r: seq<OvfError>)
    ensures SourcePathMissing in r <==> path == ""
    ensures SourceFileMissing(path) in r <==> stat(path) != Exists
    ensures r == [] <==> path != "" && stat(path) == Exists
    ensures |r| <= 2
    ensures forall e :: e in r ==> e == SourcePathMissing || e == SourceFileMissing(path)
    ensures |r| == 2 ==> r == [SourcePathMissing, SourceFileMissing(path)]
  {
    (if path == "" then [SourcePathMissing] else []) +
    (if stat(path) != Exists then [SourceFileMissing(path)] else [])
  }

  /** The guest additions mode must be one of the three known modes. */
  function ModeRule(mode: string): (r: seq<OvfError>)
    ensures r == [] <==> mode == "disable" || mode == "attach" || mode == "upload"
    ensures r != [] ==> r == [InvalidGuestAdditionsMode(mode)]
  {
    if mode in ValidModes then [] else [InvalidGuestAdditionsMode(mode)]
  }

  /** Every error NewConfig reports after decoding, in its order. */
  function Errors(v: OvfValues, ext: Collaborators): seq<OvfError>
  {
    var d := Defaulted(v, ext.initTime);
    SubErrors(PartOrder, ext.prepare) + SourceRule(d.sourcePath, ext.stat) + ModeRule(d.guestAdditionsMode)
  }

  function Warnings(v: OvfValues): (r: seq<string>)
    ensures r == [] <==> v.shutdownCommand != ""
    ensures r != [] ==> r == [ShutdownWarning]
  {
    if v.shutdownCommand == "" then [ShutdownWarning] else []
  }

  // ---------------------------------------------------------------------
  // Properties.
  // ---------------------------------------------------------------------

  /** NewConfig succeeds exactly when no embedded configuration complains,
      the source file is given and exists, and the (defaulted) guest
      additions mode is a known one. */
  lemma AcceptedIff(v: OvfValues, ext: Collaborators)
    ensures Errors(v, ext) == [] <==>
      (forall p :: p in PartOrder ==> ext.prepare(p) == []) &&
      v.sourcePath != "" && ext.stat(v.sourcePath) == Exists &&
      (v.guestAdditionsMode == "" || v.guestAdditionsMode in ValidModes)
  {
  }

  /** An omitted guest additions mode becomes "upload", which is valid;
      given values are never replaced. */
  lemma DefaultsKeepGivenValues(v: OvfValues, initTime: int)
    ensures v.guestAdditionsMode == "" ==>
      Defaulted(v, initTime).guestAdditionsMode == "upload" && ModeRule(Defaulted(v, initTime).guestAdditionsMode) == []
    ensures v.guestAdditionsMode != "" ==> Defaulted(v, initTime).guestAdditionsMode == v.guestAdditionsMode
    ensures v.guestAdditionsPath == "" ==> Defaulted(v, initTime).guestAdditionsPath == "VBoxGuestAdditions.iso"
    ensures v.guestAdditionsPath != "" ==> Defaulted(v, initTime).guestAdditionsPath == v.guestAdditionsPath
    ensures v.guestAdditionsInterface == "" ==> Defaulted(v, initTime).guestAdditionsInterface == "ide"
    ensures v.guestAdditionsInterface != "" ==> Defaulted(v, initTime).guestAdditionsInterface == v.guestAdditionsInterface
    ensures v.vmName != "" ==> Defaulted(v, initTime).vmName == v.vmName
    ensures v.vmName == "" ==> HasPrefix(Defaulted(v, initTime).vmName, "packer-" + v.packerBuildName + "-")
  {
    var name := "packer-" + v.packerBuildName + "-";
    assert (name + IntToString(initTime))[..|name|] == name;
  }

  /** After NewConfig the checksum, its type and the guest additions
      digest hold no upper-case letter, and lowercasing them again changes
      nothing; every other field is as defaulted. */
  lemma {:induction false} NormalizedIsLowerCase(d: OvfValues)
    ensures forall i :: 0 <= i < |Normalized(d).checksum| ==> !('A' <= Normalized(d).checksum[i] <= 'Z')
    ensures forall i :: 0 <= i < |Normalized(d).checksumType| ==> !('A' <= Normalized(d).checksumType[i] <= 'Z')
    ensures forall i :: 0 <= i < |Normalized(d).guestAdditionsSha256| ==> !('A' <= Normalized(d).guestAdditionsSha256[i] <= 'Z')
    ensures Normalized(Normalized(d)) == Normalized(d)
    ensures Normalized(d).(checksum := d.checksum, checksumType := d.checksumType, guestAdditionsSha256 := d.guestAdditionsSha256) == d
  {
    ToLowerIdempotent(d.checksum);
    ToLowerIdempotent(d.checksumType);
    ToLowerIdempotent(d.guestAdditionsSha256);
  }

  /** import_opts is appended once, after the given flags, as "--options"
      and its value; with no import_opts the flags are unchanged. */
  lemma ImportOptsAppended(v: OvfValues, initTime: int)
    ensures v.importOpts != "" ==>
      Final(v, initTime).importFlags == v.importFlags + ["--options", v.importOpts] &&
      |Final(v, initTime).importFlags| == |v.importFlags| + 2
    ensures v.importOpts == "" ==> Final(v, initTime).importFlags == v.importFlags
    ensures Final(v, initTime).importOpts == v.importOpts
  {
  }

  // ---------------------------------------------------------------------
  // The imperative model.
  // ---------------------------------------------------------------------

  /** The loop over the valid modes, stopping at the first match. */
  method IsValidMode(mode: string) returns (valid: bool)
    ensures valid <==> mode in ValidModes
  {
    valid := false;
    for i := 0 to |ValidModes|
      invariant valid <==> mode in ValidModes[..i]
    {
      if mode == ValidModes[i] {
        valid := true;
        break;
      }
    }
  }

  class Config {
    var packerBuildName: string
    var shutdownCommand: string
    var checksum: string
    var checksumType: string
    var guestAdditionsMode: string
    var guestAdditionsPath: string
    var guestAdditionsInterface: string
    var guestAdditionsSha256: string
    var importFlags: seq<string>
    var importOpts: string
    var sourcePath: string
    var vmName: string

    function Value(): OvfValues
      reads this
    {
      OvfValues(packerBuildName, shutdownCommand, checksum, checksumType, guestAdditionsMode,
                guestAdditionsPath, guestAdditionsInterface, guestAdditionsSha256, importFlags,
                importOpts, sourcePath, vmName)
    }

    /** The decoded configuration. */
    constructor (v: OvfValues)
      ensures Value() == v
    {
      packerBuildName, shutdownCommand, checksum, checksumType := v.packerBuildName, v.shutdownCommand, v.checksum, v.checksumType;
      guestAdditionsMode, guestAdditionsPath, guestAdditionsInterface := v.guestAdditionsMode, v.guestAdditionsPath, v.guestAdditionsInterface;
      guestAdditionsSha256, importFlags, importOpts := v.guestAdditionsSha256, v.importFlags, v.importOpts;
      sourcePath, vmName := v.sourcePath, v.vmName;
    }

    method DefaultGuestAdditions()
      modifies this`guestAdditionsMode, this`guestAdditionsPath, this`guestAdditionsInterface
      ensures Value() == old(Value()).(
        guestAdditionsMode := OrDefault(old(guestAdditionsMode), ModeUpload),
        guestAdditionsPath := OrDefault(old(guestAdditionsPath), DefaultGuestAdditionsPath),
        guestAdditionsInterface := OrDefault(old(guestAdditionsInterface), DefaultGuestAdditionsInterface))
    {
      if guestAdditionsMode == "" {
        guestAdditionsMode := ModeUpload;
      }
      if guestAdditionsPath == "" {
        guestAdditionsPath := DefaultGuestAdditionsPath;
      }
      if guestAdditionsInterface == "" {
        guestAdditionsInterface := DefaultGuestAdditionsInterface;
      }
    }

    method DefaultVMName(initTime: int)
      modifies this`vmName
      ensures Value() == old(Value()).(vmName := OrDefault(old(vmName), "packer-" + packerBuildName + "-" + IntToString(initTime)))
    {
      if vmName == "" {
        vmName := "packer-" + packerBuildName + "-" + IntToString(initTime);
      }
    }

    method LowerChecksums()
      modifies this`checksumType, this`checksum
      ensures Value() == old(Value()).(checksumType := ToLower(old(checksumType)), checksum := ToLower(old(checksum)))
    {
      checksumType := ToLower(checksumType);
      checksum := ToLower(checksum);
    }

    method LowerGuestAdditionsSha256()
      modifies this`guestAdditionsSha256
      ensures Value() == old(Value()).(guestAdditionsSha256 :=
        if old(guestAdditionsSha256) != "" then ToLower(old(guestAdditionsSha256)) else old(guestAdditionsSha256))
    {
      if guestAdditionsSha256 != "" {
        guestAdditionsSha256 := ToLower(guestAdditionsSha256);
      }
    }

    /** The defaults, before any error is gathered. */
    method ApplyDefaults(initTime: int)
      modifies this
      ensures Value() == Defaulted(old(Value()), initTime)
    {
      DefaultGuestAdditions();
      DefaultVMName(initTime);
    }

    /** The three lowercasings; they touch no field the checks read. */
    method Normalize()
      modifies this
      ensures Value() == Normalized(old(Value()))
    {
      LowerChecksums();
      LowerGuestAdditionsSha256();
    }

    method AppendImportOpts()
      modifies this`importFlags
      ensures Value() == WithImportOpts(old(Value()))
    {
      if importOpts != "" {
        importFlags := importFlags + ["--options", importOpts];
      }
    }
  }

  /** The errors of the embedded configurations, of the source file and of
      the guest additions mode, on the defaulted configuration. */
  method Check(d: OvfValues, ext: Collaborators) returns (errs: seq<OvfError>)
    ensures errs == SubErrors(PartOrder, ext.prepare) + SourceRule(d.sourcePath, ext.stat) + ModeRule(d.guestAdditionsMode)
  {
    errs := SubErrors(PartOrder, ext.prepare) + SourceRule(d.sourcePath, ext.stat);
    var valid := IsValidMode(d.guestAdditionsMode);
    if !valid {
      errs := errs + [InvalidGuestAdditionsMode(d.guestAdditionsMode)];
    }
  }

  /** NewConfig after decoding: the warnings always, and either the
      configuration and no error or no configuration and every error. */
  method NewConfig(v: OvfValues, ext: Collaborators) returns (c: Config?, warnings: seq<string>, errs: seq<OvfError>)
    ensures errs == Errors(v, ext)
    ensures warnings == Warnings(v)
    ensures c == null <==> errs != []
    ensures c != null ==> c.Value() == Final(v, ext.initTime)
  {
    var config := new Config(v);
    config.ApplyDefaults(ext.initTime);
    var d := config.Value();
    errs := Check(d, ext);
    config.Normalize();
    warnings := Warnings(config.Value());

    if |errs| > 0 {
      return null, warnings, errs;
    }
    config.AppendImportOpts();
    c := config;
  }
}
