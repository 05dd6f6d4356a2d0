/** The AWS builders' run configuration (builder/amazon/common/run_config.go):
    the source-AMI filter predicates and RunConfig.Prepare, which fills
    defaults, moves a single security group id into the id list and
    appends one error per violated rule. */
module AmazonRunConfig {
  import opened Common

  /** One entry of an AWS filter map (`map[*string]*string`); the keys are
      pointers, so two entries never collide and the map's length is the
      number of entries. */
  datatype Filter = Filter(name: string, value: string)

  datatype AmiFilterOptions = AmiFilterOptions(filters: seq<Filter>, owners: seq<string>, mostRecent: bool)
  {
    predicate Empty() { |owners| == 0 && |filters| == 0 }
    predicate NoOwner() { |owners| == 0 }
  }

  datatype SubnetFilterOptions = SubnetFilterOptions(filters: seq<Filter>, mostFree: bool, random: bool)
  {
    predicate Empty() { |filters| == 0 }
  }

  datatype VpcFilterOptions = VpcFilterOptions(filters: seq<Filter>)
  {
    predicate Empty() { |filters| == 0 }
  }

  datatype SecurityGroupFilterOptions = SecurityGroupFilterOptions(filters: seq<Filter>)
  {
    predicate Empty() { |filters| == 0 }
  }

  /** An empty AMI filter has no owner, and emptiness looks only at the
      filter entries and owners, never at the selection flags. */
  lemma FilterEmptiness(a: AmiFilterOptions, s: SubnetFilterOptions, v: VpcFilterOptions,
                        g: SecurityGroupFilterOptions, flag1: bool, flag2: bool)
    ensures a.Empty() ==> a.NoOwner()
    ensures a.Empty() <==> a.NoOwner() && a.filters == []
    ensures a.(mostRecent := flag1).Empty() == a.Empty()
    ensures s.(mostFree := flag1, random := flag2).Empty() == s.Empty()
    ensures s.Empty() <==> s.filters == []
    ensures v.Empty() <==> v.filters == []
    ensures g.Empty() <==> g.filters == []
  {
  }

  /** The RunConfig fields Prepare reads or writes. */
  datatype RunValues = RunValues(
    blockDurationMinutes: int,
    enableT2Unlimited: bool,
    instanceInitiatedShutdownBehavior: string,
    instanceType: string,
    runTags: Option<map<string, string>>,
    securityGroupId: string,
    securityGroupIds: seq<string>,
    sourceAmi: string,
    sourceAmiFilter: AmiFilterOptions,
    spotInstanceTypes: seq<string>,
    spotPrice: string,
    spotPriceAutoProduct: string,
    spotTags: Option<map<string, string>>,
    temporarySGSourceCidrs: seq<string>,
    userData: string,
    userDataFile: string,
    windowsPasswordTimeout: Duration,
    comm: CommConfig)
  {
    /** A spot price other than "" and "0" requests a spot instance. */
    predicate IsSpotInstance() { spotPrice != "" && spotPrice != "0" }
  }

  /** What Prepare asks of the outside world. */
  datatype Collaborators = Collaborators(
    uuid: string,                 // uuid.TimeOrderedUUID()
    commPrepare: CommPrepare,     // Comm.Prepare
    stat: string -> StatResult,   // os.Stat
    parseCidr: string -> bool)    // net.ParseCIDR succeeds

  datatype RunError =
    | CommError(message: Message)
    | UnknownInterface(sshInterface: string)
    | WinRMNeedsPrivateKey
    | KeyPairNeedsPrivateKeyOrAgent
    | SourceAmiMissing
    | FilterNeedsOwner
    | InstanceTypeMissing
    | InstanceTypeConflict
    | BlockDurationNotHourly
    | AutoProductMissing
    | SpotPriceNotAuto
    | SpotTagsWithoutSpot
    | UserDataConflict
    | UserDataFileNotFound(path: string)
    | SecurityGroupConflict
    | BadCidr(cidr: string)
    | BadShutdownBehavior
    | T2UnlimitedWithSpot
    | InstanceTypeUndetermined(instanceType: string)
    | NotT2(instanceType: string)

  const AnyCidr := "0.0.0.0/0"
  const DefaultWindowsPasswordTimeout: Duration := 20 * Minute

  // ---------------------------------------------------------------------
  // The rules, one function each, in the order Prepare checks them.
  // ---------------------------------------------------------------------

  /** The communicator's own errors. */
  function CommErrors(ms: seq<Message>): seq<RunError>
  {
    Wrapped(ms, m => CommError(m))
  }

  function InterfaceRule(comm: CommConfig): (r: seq<RunError>)
    ensures r == [] <==> comm.sshInterface in {"public_ip", "private_ip", "public_dns", "private_dns", ""}
    ensures r != [] ==> r == [UnknownInterface(comm.sshInterface)]
  {
    if comm.sshInterface != "public_ip" && comm.sshInterface != "private_ip" &&
       comm.sshInterface != "public_dns" && comm.sshInterface != "private_dns" &&
       comm.sshInterface != ""
    then [UnknownInterface(comm.sshInterface)]
    else []
  }

  function KeyPairRule(comm: CommConfig): (r: seq<RunError>)
    ensures |r| <= 1
    ensures WinRMNeedsPrivateKey in r <==>
      comm.sshKeyPairName != "" && comm.commType == "winrm" && comm.winRMPassword == "" && comm.sshPrivateKeyFile == ""
    ensures KeyPairNeedsPrivateKeyOrAgent in r <==>
      comm.sshKeyPairName != "" && comm.sshPrivateKeyFile == "" && !comm.sshAgentAuth &&
      !(comm.commType == "winrm" && comm.winRMPassword == "")
    ensures forall e :: e in r ==> e == WinRMNeedsPrivateKey || e == KeyPairNeedsPrivateKeyOrAgent
  {
    if comm.sshKeyPairName == "" then []
    else if comm.commType == "winrm" && comm.winRMPassword == "" && comm.sshPrivateKeyFile == "" then [WinRMNeedsPrivateKey]
    else if comm.sshPrivateKeyFile == "" && !comm.sshAgentAuth then [KeyPairNeedsPrivateKeyOrAgent]
    else []
  }

  /** The two source-AMI checks are independent: an entirely empty filter
      draws both errors, a filter without owners only the second. */
  function SourceAmiRule(v: RunValues): (r: seq<RunError>)
    ensures v.sourceAmi != "" ==> r == []
    ensures v.sourceAmi == "" && v.sourceAmiFilter.Empty() ==> r == [SourceAmiMissing, FilterNeedsOwner]
    ensures v.sourceAmi == "" && v.sourceAmiFilter.filters != [] && v.sourceAmiFilter.NoOwner() ==> r == [FilterNeedsOwner]
    ensures v.sourceAmi == "" && !v.sourceAmiFilter.NoOwner() ==> r == []
  {
    (if v.sourceAmi == "" && v.sourceAmiFilter.Empty() then [SourceAmiMissing] else []) +
    (if v.sourceAmi == "" && v.sourceAmiFilter.NoOwner() then [FilterNeedsOwner] else [])
  }

  /** Exactly one of instance_type and spot_instance_types is accepted. */
  function InstanceTypeRule(v: RunValues): (r: seq<RunError>)
    ensures r == [] <==> (v.instanceType != "") != (|v.spotInstanceTypes| > 0)
    ensures v.instanceType == "" && |v.spotInstanceTypes| == 0 ==> r == [InstanceTypeMissing]
    ensures v.instanceType != "" && |v.spotInstanceTypes| > 0 ==> r == [InstanceTypeConflict]
  {
    (if v.instanceType == "" && |v.spotInstanceTypes| == 0 then [InstanceTypeMissing] else []) +
    (if v.instanceType != "" && |v.spotInstanceTypes| > 0 then [InstanceTypeConflict] else [])
  }

  function BlockDurationRule(v: RunValues): (r: seq<RunError>)
    ensures r == [] <==> v.blockDurationMinutes % 60 == 0
    ensures r != [] ==> r == [BlockDurationNotHourly]
  {
    GoRemBy60ZeroIffDivides(v.blockDurationMinutes);
    if GoRem(v.blockDurationMinutes, 60) != 0 then [BlockDurationNotHourly] else []
  }

  /** spot_price is "auto" exactly when spot_price_auto_product is given. */
  function SpotPriceRule(v: RunValues): (r: seq<RunError>)
    ensures r == [] <==> (v.spotPrice == "auto") == (v.spotPriceAutoProduct != "")
    ensures v.spotPrice == "auto" && v.spotPriceAutoProduct == "" ==> r == [AutoProductMissing]
    ensures v.spotPrice != "auto" && v.spotPriceAutoProduct != "" ==> r == [SpotPriceNotAuto]
  {
    (if v.spotPrice == "auto" && v.spotPriceAutoProduct == "" then [AutoProductMissing] else []) +
    (if v.spotPriceAutoProduct != "" && v.spotPrice != "auto" then [SpotPriceNotAuto] else [])
  }

  function SpotTagsRule(v: RunValues): (r: seq<RunError>)
    ensures r == [] <==> v.spotTags.None? || v.IsSpotInstance()
    ensures r != [] ==> r == [SpotTagsWithoutSpot]
  {
    if v.spotTags.Some? && (v.spotPrice == "" || v.spotPrice == "0") then [SpotTagsWithoutSpot] else []
  }

  /** Both user_data and user_data_file is one error; the file is looked
      up only when it is given alone. */
  function UserDataRule(v: RunValues, stat: string -> StatResult): (r: seq<RunError>)
    ensures |r| <= 1
    ensures UserDataConflict in r <==> v.userData != "" && v.userDataFile != ""
    ensures UserDataFileNotFound(v.userDataFile) in r <==>
      v.userData == "" && v.userDataFile != "" && stat(v.userDataFile) != Exists
    ensures forall e :: e in r ==> e == UserDataConflict || e == UserDataFileNotFound(v.userDataFile)
  {
    if v.userData != "" && v.userDataFile != "" then [UserDataConflict]
    else if v.userDataFile != "" && stat(v.userDataFile) != Exists then [UserDataFileNotFound(v.userDataFile)]
    else []
  }

  function SecurityGroupRule(v: RunValues): (r: seq<RunError>)
    ensures r == [] <==> v.securityGroupId == "" || |v.securityGroupIds| == 0
    ensures r != [] ==> r == [SecurityGroupConflict]
  {
    if v.securityGroupId != "" && |v.securityGroupIds| > 0 then [SecurityGroupConflict] else []
  }

  /** One BadCidr per entry that does not parse, in list order. */
  function CidrErrors(cidrs: seq<string>, parseCidr: string -> bool): (r: seq<RunError>)
    ensures |r| <= |cidrs|
    ensures forall e :: e in r ==> e.BadCidr? && e.cidr in cidrs && !parseCidr(e.cidr)
    ensures forall c :: c in cidrs && !parseCidr(c) ==> BadCidr(c) in r
  {
    if cidrs == [] then []
    else
      var last := cidrs[|cidrs| - 1];
      assert cidrs == cidrs[..|cidrs| - 1] + [last];
      CidrErrors(cidrs[..|cidrs| - 1], parseCidr) + (if parseCidr(last) then [] else [BadCidr(last)])
  }

  /** The errors of a concatenation are the errors of its first part
      followed by those of its second, so the entries are reported in list
      order. */
  lemma {:induction false} CidrErrorsAppend(a: seq<string>, b: seq<string>, parseCidr: string -> bool)
    ensures CidrErrors(a + b, parseCidr) == CidrErrors(a, parseCidr) + CidrErrors(b, parseCidr)
  {
    if b == [] {
      assert a + b == a;
    } else {
      var n := |b| - 1;
      var t := if parseCidr(b[n]) then [] else [BadCidr(b[n])];
      assert (a + b)[..|a + b| - 1] == a + b[..n];
      assert CidrErrors(a + b, parseCidr) == CidrErrors(a + b[..n], parseCidr) + t;
      assert CidrErrors(b, parseCidr) == CidrErrors(b[..n], parseCidr) + t;
      CidrErrorsAppend(a, b[..n], parseCidr);
    }
  }

  /** Each entry is checked on its own: one that parses adds nothing, one
      that does not adds its error. */
  lemma CidrErrorsOfOne(c: string, parseCidr: string -> bool)
    ensures CidrErrors([c], parseCidr) == if parseCidr(c) then [] else [BadCidr(c)]
  {
    assert [c][..0] == [];
  }

  /** The positions of the entries that do not parse. */
  function FailingCidrs(cidrs: seq<string>, parseCidr: string -> bool): set<int>
  {
    set i | 0 <= i < |cidrs| && !parseCidr(cidrs[i])
  }

  lemma FailingCidrsSnoc(cidrs: seq<string>, parseCidr: string -> bool)
    requires cidrs != []
    ensures FailingCidrs(cidrs, parseCidr) ==
      FailingCidrs(cidrs[..|cidrs| - 1], parseCidr) + (if parseCidr(cidrs[|cidrs| - 1]) then {} else {|cidrs| - 1})
  {
    var n := |cidrs| - 1;
    forall i | i in FailingCidrs(cidrs[..n], parseCidr)
      ensures i in FailingCidrs(cidrs, parseCidr)
    {
      assert cidrs[..n][i] == cidrs[i];
    }
    forall i | i in FailingCidrs(cidrs, parseCidr) && i < n
      ensures i in FailingCidrs(cidrs[..n], parseCidr)
    {
      assert cidrs[..n][i] == cidrs[i];
    }
  }

  /** One error per entry that does not parse, a repeated entry included. */
  lemma {:induction false} CidrErrorsCount(cidrs: seq<string>, parseCidr: string -> bool)
    ensures |CidrErrors(cidrs, parseCidr)| == |FailingCidrs(cidrs, parseCidr)|
  {
    if cidrs != [] {
      var n := |cidrs| - 1;
      CidrErrorsCount(cidrs[..n], parseCidr);
      FailingCidrsSnoc(cidrs, parseCidr);
      assert n !in FailingCidrs(cidrs[..n], parseCidr);
    }
  }

  function CidrRule(v: RunValues, parseCidr: string -> bool): (r: seq<RunError>)
  {
    if |v.temporarySGSourceCidrs| == 0 then [] else CidrErrors(v.temporarySGSourceCidrs, parseCidr)
  }

  /** `^(stop|terminate)$`; an empty value is defaulted, not checked. */
  function ShutdownBehaviorRule(v: RunValues): (r: seq<RunError>)
    ensures r == [] <==> v.instanceInitiatedShutdownBehavior in {"", "stop", "terminate"}
    ensures r != [] ==> r == [BadShutdownBehavior]
  {
    if v.instanceInitiatedShutdownBehavior != "" &&
       !(v.instanceInitiatedShutdownBehavior == "stop" || v.instanceInitiatedShutdownBehavior == "terminate")
    then [BadShutdownBehavior]
    else []
  }

  function T2UnlimitedRule(v: RunValues): (r: seq<RunError>)
    ensures !v.enableT2Unlimited ==> r == []
    ensures T2UnlimitedWithSpot in r <==> v.enableT2Unlimited && v.spotPrice != ""
    ensures InstanceTypeUndetermined(v.instanceType) in r <==> v.enableT2Unlimited && '.' !in v.instanceType
    ensures NotT2(v.instanceType) in r <==>
      v.enableT2Unlimited && '.' in v.instanceType && v.instanceType[..IndexOf(v.instanceType, '.')] != "t2"
    ensures forall e :: e in r ==>
      e == T2UnlimitedWithSpot || e == InstanceTypeUndetermined(v.instanceType) || e == NotT2(v.instanceType)
    ensures |r| <= 2 && (|r| == 2 ==> r[0] == T2UnlimitedWithSpot)
  {
    if !v.enableT2Unlimited then []
    else
      var firstDot := IndexOf(v.instanceType, '.');
      (if v.spotPrice != "" then [T2UnlimitedWithSpot] else []) +
      (if firstDot == -1 then [InstanceTypeUndetermined(v.instanceType)]
       else if v.instanceType[..firstDot] != "t2" then [NotT2(v.instanceType)]
       else [])
  }

  /** Every error Prepare reports, in the order it reports them: the
      communicator's own, then one per violated rule. */
  function Errors(v: RunValues, ext: Collaborators): seq<RunError>
  {
    var comm := WithTemporaryKeyPair(v.comm, ext.uuid);
    CommErrors(ext.commPrepare(comm)) + InterfaceRule(comm) + KeyPairRule(comm) + SourceAmiRule(v)
    + InstanceTypeRule(v) + BlockDurationRule(v) + SpotPriceRule(v) + SpotTagsRule(v)
    + UserDataRule(v, ext.stat) + SecurityGroupRule(v) + CidrRule(v, ext.parseCidr)
    + ShutdownBehaviorRule(v) + T2UnlimitedRule(v)
  }

  /** The receiver after Prepare. */
  function Resolved(v: RunValues, uuid: string): RunValues
  {
    var moveGroup := v.securityGroupId != "" && |v.securityGroupIds| == 0;
    v.(comm := WithTemporaryKeyPair(v.comm, uuid),
       windowsPasswordTimeout :=
         if v.windowsPasswordTimeout == 0 then DefaultWindowsPasswordTimeout else v.windowsPasswordTimeout,
       runTags := if v.runTags.None? then Some(map[]) else v.runTags,
       securityGroupIds := if moveGroup then [v.securityGroupId] else v.securityGroupIds,
       securityGroupId := if moveGroup then "" else v.securityGroupId,
       temporarySGSourceCidrs := if |v.temporarySGSourceCidrs| == 0 then [AnyCidr] else v.temporarySGSourceCidrs,
       instanceInitiatedShutdownBehavior := OrDefault(v.instanceInitiatedShutdownBehavior, "stop"))
  }

  /** The loop over temporary_security_group_source_cidrs. */
  method CheckCidrs(cidrs: seq<string>, parseCidr: string -> bool) returns (errs: seq<RunError>)
    ensures errs == CidrErrors(cidrs, parseCidr)
  {
    errs := [];
    for i := 0 to |cidrs|
      invariant errs == CidrErrors(cidrs[..i], parseCidr)
    {
      assert cidrs[..i + 1][..i] == cidrs[..i];
      if !parseCidr(cidrs[i]) {
        errs := errs + [BadCidr(cidrs[i])];
      }
    }
    assert cidrs[..|cidrs|] == cidrs;
  }

  /** The checks of Prepare, in the order they are made. Every check reads a
      value Prepare has not changed, except the communicator rules, which
      see the defaulted key pair; the CIDR entries are checked one by one. */
  method Validate(v: RunValues, ext: Collaborators) returns (errs: seq<RunError>)
    ensures errs == Errors(v, ext)
  {
    var comm := WithTemporaryKeyPair(v.comm, ext.uuid);
    errs := CommErrors(ext.commPrepare(comm));
    errs := errs + InterfaceRule(comm) + KeyPairRule(comm);
    errs := errs + SourceAmiRule(v) + InstanceTypeRule(v) + BlockDurationRule(v);
    errs := errs + SpotPriceRule(v) + SpotTagsRule(v) + UserDataRule(v, ext.stat);
    errs := errs + SecurityGroupRule(v);
    if |v.temporarySGSourceCidrs| > 0 {
      var cidrErrs := CheckCidrs(v.temporarySGSourceCidrs, ext.parseCidr);
      errs := errs + cidrErrs;
    }
    errs := errs + ShutdownBehaviorRule(v) + T2UnlimitedRule(v);
  }

  class RunConfig {
    var blockDurationMinutes: int
    var enableT2Unlimited: bool
    var instanceInitiatedShutdownBehavior: string
    var instanceType: string
    var runTags: Option<map<string, string>>
    var securityGroupId: string
    var securityGroupIds: seq<string>
    var sourceAmi: string
    var sourceAmiFilter: AmiFilterOptions
    var spotInstanceTypes: seq<string>
    var spotPrice: string
    var spotPriceAutoProduct: string
    var spotTags: Option<map<string, string>>
    var temporarySGSourceCidrs: seq<string>
    var userData: string
    var userDataFile: string
    var windowsPasswordTimeout: Duration
    var comm: CommConfig

    function Value(): RunValues
      reads this
    {
      RunValues(blockDurationMinutes, enableT2Unlimited, instanceInitiatedShutdownBehavior, instanceType,
                runTags, securityGroupId, securityGroupIds, sourceAmi, sourceAmiFilter, spotInstanceTypes,
                spotPrice, spotPriceAutoProduct, spotTags, temporarySGSourceCidrs, userData, userDataFile,
                windowsPasswordTimeout, comm)
    }

    /** The decoded configuration. */
    constructor (v: RunValues)
      ensures Value() == v
    {
      blockDurationMinutes, enableT2Unlimited := v.blockDurationMinutes, v.enableT2Unlimited;
      instanceInitiatedShutdownBehavior, instanceType := v.instanceInitiatedShutdownBehavior, v.instanceType;
      runTags, securityGroupId, securityGroupIds := v.runTags, v.securityGroupId, v.securityGroupIds;
      sourceAmi, sourceAmiFilter, spotInstanceTypes := v.sourceAmi, v.sourceAmiFilter, v.spotInstanceTypes;
      spotPrice, spotPriceAutoProduct, spotTags := v.spotPrice, v.spotPriceAutoProduct, v.spotTags;
      temporarySGSourceCidrs, userData, userDataFile := v.temporarySGSourceCidrs, v.userData, v.userDataFile;
      windowsPasswordTimeout, comm := v.windowsPasswordTimeout, v.comm;
    }

    /** The temporary key pair name, when no credential was given. */
    method DefaultKeyPair(uuid: string)
      modifies this`comm
      ensures Value() == old(Value()).(comm := WithTemporaryKeyPair(old(comm), uuid))
    {
      if comm.sshKeyPairName == "" && comm.sshTemporaryKeyPairName == "" &&
         comm.sshPrivateKeyFile == "" && comm.sshPassword == "" {
        comm := comm.(sshTemporaryKeyPairName := "packer_" + uuid);
      }
    }

    /** The Windows password timeout and the run tags. */
    method DefaultTimeoutAndTags()
      modifies this`windowsPasswordTimeout, this`runTags
      ensures Value() == old(Value()).(
        windowsPasswordTimeout :=
          if old(windowsPasswordTimeout) == 0 then DefaultWindowsPasswordTimeout else old(windowsPasswordTimeout),
        runTags := if old(runTags).None? then Some(map[]) else old(runTags))
    {
      if windowsPasswordTimeout == 0 {
        windowsPasswordTimeout := DefaultWindowsPasswordTimeout;
      }
      if runTags.None? {
        runTags := Some(map[]);
      }
    }

    /** A lone security group id moves into the (empty) id list. */
    method MoveSecurityGroup()
      modifies this`securityGroupId, this`securityGroupIds
      ensures old(securityGroupId) != "" && |old(securityGroupIds)| == 0 ==>
        Value() == old(Value()).(securityGroupIds := [old(securityGroupId)], securityGroupId := "")
      ensures !(old(securityGroupId) != "" && |old(securityGroupIds)| == 0) ==> Value() == old(Value())
    {
      if securityGroupId != "" && |securityGroupIds| == 0 {
        securityGroupIds := [securityGroupId];
        securityGroupId := "";
      }
    }

    /** The default source CIDR and shutdown behaviour. */
    method DefaultCidrsAndShutdownBehavior()
      modifies this`temporarySGSourceCidrs, this`instanceInitiatedShutdownBehavior
      ensures Value() == old(Value()).(
        temporarySGSourceCidrs := if |old(temporarySGSourceCidrs)| == 0 then [AnyCidr] else old(temporarySGSourceCidrs),
        instanceInitiatedShutdownBehavior := OrDefault(old(instanceInitiatedShutdownBehavior), "stop"))
    {
      if |temporarySGSourceCidrs| == 0 {
        temporarySGSourceCidrs := [AnyCidr];
      }
      if instanceInitiatedShutdownBehavior == "" {
        instanceInitiatedShutdownBehavior := "stop";
      }
    }

    /** The fields Prepare writes: the defaults and the security-group move. */
    method ApplyDefaults(uuid: string)
      modifies this
      ensures Value() == Resolved(old(Value()), uuid)
    {
      DefaultKeyPair(uuid);
      DefaultTimeoutAndTags();
      MoveSecurityGroup();
      DefaultCidrsAndShutdownBehavior();
    }

    /** RunConfig.Prepare: the checks see the configuration as decoded
        (with the defaulted key pair), the receiver ends up resolved. */
    method Prepare(ext: Collaborators) returns (errs: seq<RunError>)
      modifies this
      ensures Value() == Resolved(old(Value()), ext.uuid)
      ensures errs == Errors(old(Value()), ext)
    {
      errs := Validate(Value(), ext);
      ApplyDefaults(ext.uuid);
    }
  }

  // ---------------------------------------------------------------------
  // Properties of the resolved configuration.
  // ---------------------------------------------------------------------

  /** A lone security group id moves into security_group_ids and is
      cleared; together with a non-empty list it is the conflict error and
      neither field changes. */
  lemma SecurityGroupIdMoved(v: RunValues, uuid: string)
    ensures v.securityGroupId != "" && |v.securityGroupIds| == 0 ==>
      Resolved(v, uuid).securityGroupIds == [v.securityGroupId] &&
      Resolved(v, uuid).securityGroupId == "" && SecurityGroupRule(v) == []
    ensures v.securityGroupId != "" && |v.securityGroupIds| > 0 ==>
      Resolved(v, uuid).securityGroupIds == v.securityGroupIds &&
      Resolved(v, uuid).securityGroupId == v.securityGroupId &&
      SecurityGroupRule(v) == [SecurityGroupConflict]
    ensures v.securityGroupId == "" ==>
      Resolved(v, uuid).securityGroupIds == v.securityGroupIds && SecurityGroupRule(v) == []
  {
  }

  /** Empty source CIDRs become ["0.0.0.0/0"] and nothing is checked;
      otherwise the list is kept and exactly the entries that do not parse
      are reported. */
  lemma TemporaryCidrs(v: RunValues, uuid: string, parseCidr: string -> bool)
    ensures |v.temporarySGSourceCidrs| == 0 ==>
      Resolved(v, uuid).temporarySGSourceCidrs == [AnyCidr] && CidrRule(v, parseCidr) == []
    ensures |v.temporarySGSourceCidrs| > 0 ==> Resolved(v, uuid).temporarySGSourceCidrs == v.temporarySGSourceCidrs
    ensures forall c :: BadCidr(c) in CidrRule(v, parseCidr) <==> c in v.temporarySGSourceCidrs && !parseCidr(c)
    ensures |CidrRule(v, parseCidr)| == |FailingCidrs(v.temporarySGSourceCidrs, parseCidr)|
  {
    CidrErrorsCount(v.temporarySGSourceCidrs, parseCidr);
  }

  /** Empty shutdown behaviour becomes "stop"; any other value is kept and
      checked. */
  lemma ShutdownBehaviorDefault(v: RunValues, uuid: string)
    ensures v.instanceInitiatedShutdownBehavior == "" ==>
      Resolved(v, uuid).instanceInitiatedShutdownBehavior == "stop"
    ensures v.instanceInitiatedShutdownBehavior != "" ==>
      Resolved(v, uuid).instanceInitiatedShutdownBehavior == v.instanceInitiatedShutdownBehavior
  {
  }

  /** IsSpotInstance treats "" and "0" as "no spot instance", and so does
      the spot_tags check; the T2 Unlimited check looks only for a
      non-empty spot price, so with T2 Unlimited a spot price of "0" is
      refused as a spot request although IsSpotInstance is false. */
  lemma SpotInstanceChecks(v: RunValues)
    ensures v.IsSpotInstance() <==> v.spotPrice !in {"", "0"}
    ensures v.spotTags.Some? ==> (SpotTagsRule(v) == [] <==> v.IsSpotInstance())
    ensures v.enableT2Unlimited ==> (T2UnlimitedWithSpot in T2UnlimitedRule(v) <==> v.spotPrice != "")
    ensures v.enableT2Unlimited && v.spotPrice == "0" ==>
      !v.IsSpotInstance() && T2UnlimitedWithSpot in T2UnlimitedRule(v)
  {
  }

  /** block_duration_minutes must be a whole number of hours, negative
      values included: Go's remainder of -90 by 60 is -30, not zero. */
  lemma BlockDurationExamples(v: RunValues)
    ensures BlockDurationRule(v.(blockDurationMinutes := 90)) == [BlockDurationNotHourly]
    ensures BlockDurationRule(v.(blockDurationMinutes := -90)) == [BlockDurationNotHourly]
    ensures BlockDurationRule(v.(blockDurationMinutes := -120)) == []
    ensures BlockDurationRule(v.(blockDurationMinutes := 0)) == []
    ensures GoRem(-90, 60) == -30 && GoRem(90, 60) == 30
  {
  }

  /** Preparing a prepared configuration changes nothing. */
  lemma ResolvedIsIdempotent(v: RunValues, uuid: string, uuid': string)
    ensures Resolved(Resolved(v, uuid), uuid') == Resolved(v, uuid)
  {
  }

  /** A configuration that prepared without errors prepares again without
      errors, provided the default CIDR parses. */
  lemma ResolvedRevalidates(v: RunValues, ext: Collaborators)
    requires Errors(v, ext) == []
    requires ext.parseCidr(AnyCidr)
    ensures Errors(Resolved(v, ext.uuid), ext) == []
  {
    var r := Resolved(v, ext.uuid);
    assert WithTemporaryKeyPair(r.comm, ext.uuid) == WithTemporaryKeyPair(v.comm, ext.uuid);
    assert CidrRule(r, ext.parseCidr) == [] by {
      if |v.temporarySGSourceCidrs| == 0 {
        assert CidrErrors([AnyCidr], ext.parseCidr) == CidrErrors([], ext.parseCidr) + [];
      }
    }
  }
}
