/** The AWS builders' block device settings (builder/amazon/common/block_device.go):
    the check of one device, the checks of both mapping lists, the build of
    EC2 block device mappings and the omission map of the launch devices. */
module AmazonBlockDevice {
  import opened Common

  /** One entry of ami_block_device_mappings or launch_block_device_mappings. */
  datatype BlockDevice = BlockDevice(
    deleteOnTermination: bool,
    deviceName: string,
    encrypted: Option<bool>,      // *bool: unset, true or false
    iops: int,
    noDevice: bool,
    snapshotId: string,
    virtualName: string,
    volumeType: string,
    volumeSize: int,
    kmsKeyId: string,
    omitFromArtifact: bool)
  {
    /** BlockDevice.Prepare: at most one error, the missing device name first. */
    function Prepare(): (r: Option<DeviceError>)
      ensures r == Some(DeviceNameMissing) <==> deviceName == ""
      ensures r == Some(KmsKeyNeedsEncryption(deviceName)) <==>
        deviceName != "" && kmsKeyId != "" && encrypted == Some(false)
      ensures r.None? <==> deviceName != "" && (kmsKeyId == "" || encrypted != Some(false))
    {
      if deviceName == "" then Some(DeviceNameMissing)
      else if kmsKeyId != "" && encrypted.Some? && encrypted.value == false then Some(KmsKeyNeedsEncryption(deviceName))
      else None
    }
  }

  datatype DeviceError = DeviceNameMissing | KmsKeyNeedsEncryption(device: string)

  /** An error of BlockDevices.Prepare, prefixed with the list it came from. */
  datatype MappingError = AMIMapping(err: DeviceError) | LaunchMapping(err: DeviceError)

  datatype BlockDevices = BlockDevices(amiMappings: seq<BlockDevice>, launchMappings: seq<BlockDevice>)

  /** ec2.EbsBlockDevice; None stands for a nil pointer. */
  datatype EbsBlockDevice = EbsBlockDevice(
    deleteOnTermination: Option<bool>,
    encrypted: Option<bool>,
    iops: Option<int>,
    kmsKeyId: Option<string>,
    snapshotId: Option<string>,
    volumeSize: Option<int>,
    volumeType: Option<string>)

  /** ec2.BlockDeviceMapping; None stands for a nil pointer. */
  datatype BlockDeviceMapping = BlockDeviceMapping(
    deviceName: Option<string>,
    ebs: Option<EbsBlockDevice>,
    noDevice: Option<string>,
    virtualName: Option<string>)

  const EmptyMapping := BlockDeviceMapping(None, None, None, None)
  const EmptyEbs := EbsBlockDevice(None, None, None, None, None, None, None)

  // ---------------------------------------------------------------------
  // What a mapping built from a device must look like.
  // ---------------------------------------------------------------------

  /** o is set exactly when cond holds, and then to x. */
  predicate SetExactlyWhen<T(==)>(o: Option<T>, cond: bool, x: T)
  {
    (o.Some? <==> cond) && (o.Some? ==> o.value == x)
  }

  /** The EBS part: optional fields are sent only when given, IOPS only for
      io1 volumes, DeleteOnTermination and the tri-state Encrypted as they are. */
  predicate EbsDescribes(e: EbsBlockDevice, d: BlockDevice)
  {
    e.deleteOnTermination == Some(d.deleteOnTermination) &&
    e.encrypted == d.encrypted &&
    SetExactlyWhen(e.volumeType, d.volumeType != "", d.volumeType) &&
    SetExactlyWhen(e.volumeSize, d.volumeSize > 0, d.volumeSize) &&
    SetExactlyWhen(e.iops, d.volumeType == "io1", d.iops) &&
    SetExactlyWhen(e.snapshotId, d.snapshotId != "", d.snapshotId) &&
    SetExactlyWhen(e.kmsKeyId, d.kmsKeyId != "", d.kmsKeyId)
  }

  /** The mapping carries the device name and is of the kind the device
      asks for: suppressed, virtual (named only for "ephemeral*" names), or EBS. */
  predicate Describes(m: BlockDeviceMapping, d: BlockDevice)
  {
    m.deviceName == Some(d.deviceName) &&
    (d.noDevice ==> m.noDevice == Some("") && m.virtualName.None? && m.ebs.None?) &&
    (!d.noDevice && d.virtualName != "" ==>
      m.noDevice.None? && m.ebs.None? &&
      SetExactlyWhen(m.virtualName, HasPrefix(d.virtualName, "ephemeral"), d.virtualName)) &&
    (!d.noDevice && d.virtualName == "" ==>
      m.noDevice.None? && m.virtualName.None? && m.ebs.Some? && EbsDescribes(m.ebs.value, d))
  }

  /** One device's mapping, assigned field by field. */
  method BuildMapping(d: BlockDevice) returns (m: BlockDeviceMapping)
    ensures Describes(m, d)
  {
    m := EmptyMapping.(deviceName := Some(d.deviceName));
    if d.noDevice {
      m := m.(noDevice := Some(""));
    } else if d.virtualName != "" {
      if HasPrefix(d.virtualName, "ephemeral") {
        m := m.(virtualName := Some(d.virtualName));
      }
    } else {
      var ebs := EmptyEbs.(deleteOnTermination := Some(d.deleteOnTermination));
      if d.volumeType != "" {
        ebs := ebs.(volumeType := Some(d.volumeType));
      }
      if d.volumeSize > 0 {
        ebs := ebs.(volumeSize := Some(d.volumeSize));
      }
      if d.volumeType == "io1" {
        ebs := ebs.(iops := Some(d.iops));
      }
      if d.snapshotId != "" {
        ebs := ebs.(snapshotId := Some(d.snapshotId));
      }
      ebs := ebs.(encrypted := d.encrypted);
      if d.kmsKeyId != "" {
        ebs := ebs.(kmsKeyId := Some(d.kmsKeyId));
      }
      m := m.(ebs := Some(ebs));
    }
  }

  /** buildBlockDevices: one mapping per device, in the same order. */
  method BuildBlockDevices(b: seq<BlockDevice>) returns (ms: seq<BlockDeviceMapping>)
    ensures |ms| == |b|
    ensures forall i :: 0 <= i < |b| ==> Describes(ms[i], b[i])
  {
    ms := [];
    for i := 0 to |b|
      invariant |ms| == i
      invariant forall j :: 0 <= j < i ==> Describes(ms[j], b[j])
    {
      var m := BuildMapping(b[i]);
      ms := ms + [m];
    }
  }

  method BuildAMIDevices(b: BlockDevices) returns (ms: seq<BlockDeviceMapping>)
    ensures |ms| == |b.amiMappings|
    ensures forall i :: 0 <= i < |ms| ==> Describes(ms[i], b.amiMappings[i])
  {
    ms := BuildBlockDevices(b.amiMappings);
  }

  method BuildLaunchDevices(b: BlockDevices) returns (ms: seq<BlockDeviceMapping>)
    ensures |ms| == |b.launchMappings|
    ensures forall i :: 0 <= i < |ms| ==> Describes(ms[i], b.launchMappings[i])
  {
    ms := BuildBlockDevices(b.launchMappings);
  }

  /** A device determines its mapping: Describes leaves no field open. */
  lemma DescribesIsDeterministic(m1: BlockDeviceMapping, m2: BlockDeviceMapping, d: BlockDevice)
    requires Describes(m1, d) && Describes(m2, d)
    ensures m1 == m2
  {
    if !d.noDevice && d.virtualName == "" {
      var e1, e2 := m1.ebs.value, m2.ebs.value;
      assert e1.volumeType == e2.volumeType && e1.volumeSize == e2.volumeSize && e1.iops == e2.iops;
      assert e1.snapshotId == e2.snapshotId && e1.kmsKeyId == e2.kmsKeyId;
    }
  }

  /** A mapping is of at most one kind; it is EBS exactly when the device is
      neither suppressed nor virtual, and a virtual name that does not start
      with "ephemeral" leaves a mapping of no kind at all. */
  lemma MappingKinds(m: BlockDeviceMapping, d: BlockDevice)
    requires Describes(m, d)
    ensures m.deviceName == Some(d.deviceName)
    ensures (if m.noDevice.Some? then 1 else 0) + (if m.virtualName.Some? then 1 else 0) +
            (if m.ebs.Some? then 1 else 0) <= 1
    ensures m.ebs.Some? <==> !d.noDevice && d.virtualName == ""
    ensures m.noDevice.Some? <==> d.noDevice
    ensures m.virtualName.Some? <==> !d.noDevice && d.virtualName != "" && HasPrefix(d.virtualName, "ephemeral")
    ensures m.ebs.Some? ==> (m.ebs.value.iops.Some? <==> d.volumeType == "io1")
  {
  }

  /** A device that passed Prepare never reaches EC2 with a KMS key on a
      volume explicitly marked unencrypted. */
  lemma PreparedKmsKeyIsEncrypted(m: BlockDeviceMapping, d: BlockDevice)
    requires d.Prepare().None? && Describes(m, d)
    ensures m.ebs.Some? && m.ebs.value.kmsKeyId.Some? ==> m.ebs.value.encrypted != Some(false)
    ensures m.deviceName != Some("")
  {
  }

  // ---------------------------------------------------------------------
  // BlockDevices.Prepare
  // ---------------------------------------------------------------------

  function Prefix(launch: bool, e: DeviceError): MappingError
  {
    if launch then LaunchMapping(e) else AMIMapping(e)
  }

  /** The errors of the devices of one list that fail Prepare, in list
      order, prefixed with the list's name. */
  function Prefixed(ds: seq<BlockDevice>, launch: bool): (r: seq<MappingError>)
    ensures |r| <= |ds|
    ensures forall e :: e in r ==> e.LaunchMapping? == launch
  {
    if ds == [] then []
    else
      var last := ds[|ds| - 1];
      Prefixed(ds[..|ds| - 1], launch) + (if last.Prepare().Some? then [Prefix(launch, last.Prepare().value)] else [])
  }

  /** The errors of a list one device longer. */
  lemma PrefixedStep(ds: seq<BlockDevice>, i: int, launch: bool)
    requires 0 <= i < |ds|
    ensures Prefixed(ds[..i + 1], launch) ==
      Prefixed(ds[..i], launch) + (if ds[i].Prepare().Some? then [Prefix(launch, ds[i].Prepare().value)] else [])
  {
    assert ds[..i + 1][..i] == ds[..i];
  }

  /** The prefixed errors are exactly the errors of the failing devices. */
  lemma {:induction false} PrefixedMembers(ds: seq<BlockDevice>, launch: bool)
    ensures forall e :: e in Prefixed(ds, launch) ==>
      exists d :: d in ds && d.Prepare().Some? && e == Prefix(launch, d.Prepare().value)
    ensures forall d :: d in ds && d.Prepare().Some? ==> Prefix(launch, d.Prepare().value) in Prefixed(ds, launch)
  {
    if ds != [] {
      var n := |ds| - 1;
      PrefixedMembers(ds[..n], launch);
      assert ds == ds[..n] + [ds[n]];
    }
  }

  /** The positions of the devices that fail Prepare. */
  function FailingIndices(ds: seq<BlockDevice>): set<int>
  {
    set i | 0 <= i < |ds| && ds[i].Prepare().Some?
  }

  lemma FailingIndicesSnoc(ds: seq<BlockDevice>)
    requires ds != []
    ensures FailingIndices(ds) ==
      FailingIndices(ds[..|ds| - 1]) + (if ds[|ds| - 1].Prepare().Some? then {|ds| - 1} else {})
  {
    var n := |ds| - 1;
    forall i | i in FailingIndices(ds[..n])
      ensures i in FailingIndices(ds)
    {
      assert ds[..n][i] == ds[i];
    }
    forall i | i in FailingIndices(ds) && i < n
      ensures i in FailingIndices(ds[..n])
    {
      assert ds[..n][i] == ds[i];
    }
  }

  /** One error per failing device. */
  lemma {:induction false} PrefixedCount(ds: seq<BlockDevice>, launch: bool)
    ensures |Prefixed(ds, launch)| == |FailingIndices(ds)|
  {
    if ds != [] {
      var n := |ds| - 1;
      PrefixedCount(ds[..n], launch);
      FailingIndicesSnoc(ds);
      assert n !in FailingIndices(ds[..n]);
    }
  }

  /** What BlockDevices.Prepare returns. */
  function MappingErrors(b: BlockDevices): seq<MappingError>
  {
    Prefixed(b.amiMappings, false) + Prefixed(b.launchMappings, true)
  }

  /** One error per failing device of either list, and every AMI-mapping
      error before every launch-mapping error. */
  lemma MappingErrorsShape(b: BlockDevices)
    ensures |MappingErrors(b)| == |FailingIndices(b.amiMappings)| + |FailingIndices(b.launchMappings)|
    ensures forall i, j :: 0 <= i < j < |MappingErrors(b)| && MappingErrors(b)[i].LaunchMapping? ==>
      MappingErrors(b)[j].LaunchMapping?
  {
    PrefixedCount(b.amiMappings, false);
    PrefixedCount(b.launchMappings, true);
    var ami: seq<MappingError>, launch: seq<MappingError> := Prefixed(b.amiMappings, false), Prefixed(b.launchMappings, true);
    forall i, j | 0 <= i < j < |ami + launch| && (ami + launch)[i].LaunchMapping?
      ensures (ami + launch)[j].LaunchMapping?
    {
      assert (ami + launch)[j] == launch[j - |ami|];
      assert launch[j - |ami|] in launch;
    }
  }

  /** The two loops of BlockDevices.Prepare. */
  method PrepareMappings(b: BlockDevices) returns (errs: seq<MappingError>)
    ensures errs == MappingErrors(b)
  {
    errs := [];
    var ami := b.amiMappings;
    for i := 0 to |ami|
      invariant errs == Prefixed(ami[..i], false)
    {
      PrefixedStep(ami, i, false);
      if ami[i].Prepare().Some? {
        errs := errs + [AMIMapping(ami[i].Prepare().value)];
      }
    }
    assert ami[..|ami|] == ami;
    var launch := b.launchMappings;
    for i := 0 to |launch|
      invariant errs == Prefixed(ami, false) + Prefixed(launch[..i], true)
    {
      PrefixedStep(launch, i, true);
      if launch[i].Prepare().Some? {
        errs := errs + [LaunchMapping(launch[i].Prepare().value)];
      }
    }
    assert launch[..|launch|] == launch;
  }

  // ---------------------------------------------------------------------
  // GetOmissions
  // ---------------------------------------------------------------------

  /** The map GetOmissions fills, one assignment per launch device in order. */
  function Omissions(ds: seq<BlockDevice>): (m: map<string, bool>)
    ensures m.Keys == set d | d in ds :: d.deviceName
  {
    if ds == [] then map[]
    else
      var last := ds[|ds| - 1];
      assert ds == ds[..|ds| - 1] + [last];
      Omissions(ds[..|ds| - 1])[last.deviceName := last.omitFromArtifact]
  }

  /** For a name given more than once, the last launch device wins. */
  lemma {:induction false} OmissionsLastWins(ds: seq<BlockDevice>, i: int)
    requires 0 <= i < |ds|
    requires forall j :: i < j < |ds| ==> ds[j].deviceName != ds[i].deviceName
    ensures Omissions(ds)[ds[i].deviceName] == ds[i].omitFromArtifact
  {
    var n := |ds| - 1;
    if i < n {
      OmissionsLastWins(ds[..n], i);
    }
  }

  /** LaunchBlockDevices.GetOmissions: the AMI mappings play no part. */
  method GetOmissions(b: BlockDevices) returns (omit: map<string, bool>)
    ensures omit == Omissions(b.launchMappings)
  {
    omit := map[];
    var ds := b.launchMappings;
    for i := 0 to |ds|
      invariant omit == Omissions(ds[..i])
    {
      assert ds[..i + 1][..i] == ds[..i];
      omit := omit[ds[i].deviceName := ds[i].omitFromArtifact];
    }
    assert ds[..|ds|] == ds;
  }
}
