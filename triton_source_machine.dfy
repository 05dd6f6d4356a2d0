/** The Triton builder's source machine settings
    (builder/triton/source_machine_config.go): the image filter's emptiness
    test and Prepare, which checks two rules and replaces absent
    collections by empty ones. */
module TritonSourceMachine {
  import opened Common

  // A Go slice or map that may be nil is an Option: None is nil, Some holds
  // a value, possibly empty.

  datatype MachineImageFilter = MachineImageFilter(
    mostRecent: bool,
    name: string,
    os: string,
    version: string,
    public: bool,
    state: string,
    owner: string,
    imageType: string)
  {
    /** No string criterion is set; the two flags do not count. */
    predicate Empty()
    {
      name == "" && os == "" && version == "" && state == "" && owner == "" && imageType == ""
    }
  }

  /** Empty looks only at the string criteria: changing either flag never
      changes it, and setting any string criterion makes it false. */
  lemma EmptyIgnoresFlags(f: MachineImageFilter, mostRecent: bool, public: bool)
    ensures f.(mostRecent := mostRecent, public := public).Empty() == f.Empty()
    ensures f.Empty() <==> f == MachineImageFilter(f.mostRecent, "", "", "", f.public, "", "", "")
  {
  }

  datatype SourceMachineError =
    | MachinePackageMissing
    | ImageAndNameFilter

  /** The SourceMachineConfig fields Prepare reads or writes. */
  datatype SourceMachineValues = SourceMachineValues(
    machineName: string,
    machinePackage: string,
    machineImage: string,
    machineNetworks: Option<seq<string>>,
    machineMetadata: Option<map<string, string>>,
    machineTags: Option<map<string, string>>,
    machineFirewallEnabled: bool,
    machineImageFilters: MachineImageFilter)

  function OrEmpty<T>(x: Option<T>, empty: T): (r: Option<T>)
    ensures r.Some?
    ensures x.Some? ==> r == x
    ensures x.None? ==> r == Some(empty)
  {
    if x.None? then Some(empty) else x
  }

  /** The configuration after Prepare, errors or not: every nil collection
      is an empty one, and nothing else changes. */
  function Prepared(v: SourceMachineValues): SourceMachineValues
  {
    v.(machineNetworks := OrEmpty(v.machineNetworks, []),
       machineMetadata := OrEmpty(v.machineMetadata, map[]),
       machineTags := OrEmpty(v.machineTags, map[]))
  }

  /** The two rules: a package is required, and an image cannot be combined
      with a name filter (the other filter criteria may be). */
  function Errors(v: SourceMachineValues): (r: seq<SourceMachineError>)
    ensures MachinePackageMissing in r <==> v.machinePackage == ""
    ensures ImageAndNameFilter in r <==> v.machineImage != "" && v.machineImageFilters.name != ""
    ensures r == [] <==> v.machinePackage != "" && (v.machineImage == "" || v.machineImageFilters.name == "")
    ensures |r| <= 2
    ensures |r| == 2 ==> r == [MachinePackageMissing, ImageAndNameFilter]
  {
    (if v.machinePackage == "" then [MachinePackageMissing] else []) +
    (if v.machineImage != "" && v.machineImageFilters.name != "" then [ImageAndNameFilter] else [])
  }

  /** Prepare leaves no collection nil, keeps the ones that were given, and
      doing it again changes nothing. */
  lemma PreparedCollections(v: SourceMachineValues)
    ensures Prepared(v).machineNetworks.Some? && Prepared(v).machineMetadata.Some? && Prepared(v).machineTags.Some?
    ensures v.machineNetworks.None? ==> Prepared(v).machineNetworks.value == []
    ensures v.machineMetadata.None? ==> Prepared(v).machineMetadata.value == map[]
    ensures v.machineTags.None? ==> Prepared(v).machineTags.value == map[]
    ensures v.machineNetworks.Some? ==> Prepared(v).machineNetworks == v.machineNetworks
    ensures v.machineMetadata.Some? ==> Prepared(v).machineMetadata == v.machineMetadata
    ensures v.machineTags.Some? ==> Prepared(v).machineTags == v.machineTags
    ensures Prepared(v).(machineNetworks := v.machineNetworks, machineMetadata := v.machineMetadata,
                         machineTags := v.machineTags) == v
    ensures Prepared(Prepared(v)) == Prepared(v)
    ensures Errors(Prepared(v)) == Errors(v)
  {
  }

  /** A filter by name conflicts with an image; a filter by any other
      criterion does not. */
  lemma OnlyNameFilterConflicts(v: SourceMachineValues, f: MachineImageFilter)
    requires v.machineImage != ""
    requires f.name == ""
    ensures ImageAndNameFilter !in Errors(v.(machineImageFilters := f))
  {
  }

  class SourceMachineConfig {
    var machineName: string
    var machinePackage: string
    var machineImage: string
    var machineNetworks: Option<seq<string>>
    var machineMetadata: Option<map<string, string>>
    var machineTags: Option<map<string, string>>
    var machineFirewallEnabled: bool
    var machineImageFilters: MachineImageFilter

    function Value(): SourceMachineValues
      reads this
    {
      SourceMachineValues(machineName, machinePackage, machineImage, machineNetworks,
                          machineMetadata, machineTags, machineFirewallEnabled, machineImageFilters)
    }

    /** The decoded settings. */
    constructor (v: SourceMachineValues)
      ensures Value() == v
    {
      machineName, machinePackage, machineImage := v.machineName, v.machinePackage, v.machineImage;
      machineNetworks, machineMetadata, machineTags := v.machineNetworks, v.machineMetadata, v.machineTags;
      machineFirewallEnabled, machineImageFilters := v.machineFirewallEnabled, v.machineImageFilters;
    }

    /** Prepare: the errors of the two rules, and the collections defaulted
        whether or not there are errors. */
    method Prepare() returns (errs: seq<SourceMachineError>)
      modifies this`machineNetworks, this`machineMetadata, this`machineTags
      ensures errs == Errors(old(Value()))
      ensures Value() == Prepared(old(Value()))
    {
      errs := [];
      if machinePackage == "" {
        errs := errs + [MachinePackageMissing];
      }
      if machineImage != "" && machineImageFilters.name != "" {
        errs := errs + [ImageAndNameFilter];
      }
      if machineNetworks.None? {
        machineNetworks := Some([]);
      }
      if machineMetadata.None? {
        machineMetadata := Some(map[]);
      }
      if machineTags.None? {
        machineTags := Some(map[]);
      }
    }
  }
}
