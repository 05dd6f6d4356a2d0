/** The CloudStack builder's configuration (builder/cloudstack/config.go):
    the part of NewConfig that runs after decoding. It fills defaults from
    the environment and from fixed values, then checks the required and
    mutually exclusive fields, collecting every error. */
module CloudStackConfig {
  import opened Common

  /** The Config fields NewConfig reads or writes after decoding. */
  datatype CloudValues = CloudValues(
    apiUrl: string,
    apiKey: string,
    secretKey: string,
    asyncTimeout: Duration,
    cidrList: seq<string>,
    instanceName: string,
    templateName: string,
    templateDisplayText: string,
    comm: CommConfig,
    network: string,
    createSecurityGroup: bool,
    expunge: bool,
    serviceOffering: string,
    sourceIso: string,
    sourceTemplate: string,
    diskOffering: string,
    hypervisor: string,
    templateOs: string,
    userData: string,
    userDataFile: string,
    zone: string)

  /** What interpolate.Render returns for "packer-{{timestamp}}": the text
      (assigned even when rendering failed) and whether it failed. */
  datatype Rendered = Rendered(text: string, failed: bool)

  /** What NewConfig asks of the outside world. */
  datatype Collaborators = Collaborators(
    env: map<string, string>,       // os.Getenv
    instanceUuid: string,           // first uuid.TimeOrderedUUID()
    keyPairUuid: string,            // second uuid.TimeOrderedUUID()
    templateName: Rendered,         // interpolate.Render("packer-{{timestamp}}", nil)
    stat: string -> StatResult,     // os.Stat
    commPrepare: CommPrepare)       // Comm.Prepare

  datatype CloudError =
    | TemplateNameUnparsable
    | ApiUrlMissing
    | ApiKeyMissing
    | SecretKeyMissing
    | NetworkMissing
    | SecurityGroupNeedsExpunge
    | ServiceOfferingMissing
    | SourceMissing
    | SourceConflict
    | DiskOfferingMissing
    | HypervisorMissing
    | TemplateOsMissing
    | UserDataConflict
    | UserDataFileNotFound(path: string)
    | ZoneMissing
    | CommError(message: Message)

  const ApiUrlVariable := "CLOUDSTACK_API_URL"
  const ApiKeyVariable := "CLOUDSTACK_API_KEY"
  const SecretKeyVariable := "CLOUDSTACK_SECRET_KEY"
  const DefaultAsyncTimeout: Duration := 30 * Minute
  const AnyCidr := "0.0.0.0/0"

  // ---------------------------------------------------------------------
  // The defaults (the first half of NewConfig).
  // ---------------------------------------------------------------------

  /** The configuration once every default is filled. */
  function Defaulted(v: CloudValues, ext: Collaborators): CloudValues
  {
    var templateName := if v.templateName == "" then ext.templateName.text else v.templateName;
    v.(apiUrl := OrDefault(v.apiUrl, Getenv(ext.env, ApiUrlVariable)),
       apiKey := OrDefault(v.apiKey, Getenv(ext.env, ApiKeyVariable)),
       secretKey := OrDefault(v.secretKey, Getenv(ext.env, SecretKeyVariable)),
       asyncTimeout := if v.asyncTimeout == 0 then DefaultAsyncTimeout else v.asyncTimeout,
       cidrList := if |v.cidrList| == 0 then [AnyCidr] else v.cidrList,
       instanceName := OrDefault(v.instanceName, "packer-" + ext.instanceUuid),
       templateName := templateName,
       templateDisplayText := OrDefault(v.templateDisplayText, templateName),
       comm := WithTemporaryKeyPair(v.comm, ext.keyPairUuid))
  }

  /** The only error the defaults can raise: the template name did not render. */
  function DefaultErrors(v: CloudValues, ext: Collaborators): (r: seq<CloudError>)
    ensures r == [] || r == [TemplateNameUnparsable]
    ensures r != [] <==> v.templateName == "" && ext.templateName.failed
  {
    if v.templateName == "" && ext.templateName.failed then [TemplateNameUnparsable] else []
  }

  /** api_url, api_key and secret_key fall back to their environment
      variables only when empty; a given value is never overwritten. */
  lemma CredentialsFromEnvironment(v: CloudValues, ext: Collaborators)
    ensures v.apiUrl != "" ==> Defaulted(v, ext).apiUrl == v.apiUrl
    ensures v.apiUrl == "" ==> Defaulted(v, ext).apiUrl == Getenv(ext.env, ApiUrlVariable)
    ensures v.apiKey != "" ==> Defaulted(v, ext).apiKey == v.apiKey
    ensures v.apiKey == "" ==> Defaulted(v, ext).apiKey == Getenv(ext.env, ApiKeyVariable)
    ensures v.secretKey != "" ==> Defaulted(v, ext).secretKey == v.secretKey
    ensures v.secretKey == "" ==> Defaulted(v, ext).secretKey == Getenv(ext.env, SecretKeyVariable)
  {
  }

  /** Zero async_timeout becomes 30 minutes and an empty cidr_list
      ["0.0.0.0/0"]; given values are kept. */
  lemma TimeoutAndCidrDefaults(v: CloudValues, ext: Collaborators)
    ensures Defaulted(v, ext).asyncTimeout == if v.asyncTimeout == 0 then 30 * 60 * Second else v.asyncTimeout
    ensures Defaulted(v, ext).cidrList == if v.cidrList == [] then ["0.0.0.0/0"] else v.cidrList
  {
  }

  /** An empty template_display_text takes the template name as defaulted,
      so after NewConfig it is empty only when the template name is. */
  lemma DisplayTextFollowsTemplateName(v: CloudValues, ext: Collaborators)
    ensures v.templateDisplayText == "" ==> Defaulted(v, ext).templateDisplayText == Defaulted(v, ext).templateName
    ensures v.templateDisplayText == "" && v.templateName == "" ==>
      Defaulted(v, ext).templateDisplayText == ext.templateName.text
    ensures Defaulted(v, ext).templateDisplayText == "" ==> Defaulted(v, ext).templateName == ""
  {
  }

  /** Defaulting twice is defaulting once (the render failure aside). */
  lemma DefaultedIsIdempotent(v: CloudValues, ext: Collaborators)
    ensures Defaulted(Defaulted(v, ext), ext) == Defaulted(v, ext)
    ensures DefaultErrors(Defaulted(v, ext), ext) == [] || ext.templateName.text == ""
  {
  }

  // ---------------------------------------------------------------------
  // The checks (the second half of NewConfig), on the defaulted values.
  // ---------------------------------------------------------------------

  /** Where NewConfig looks for each error: it reports its errors in this order. */
  function CheckOrder(e: CloudError): nat
  {
    match e
    case TemplateNameUnparsable => 0
    case ApiUrlMissing => 1
    case ApiKeyMissing => 2
    case SecretKeyMissing => 3
    case NetworkMissing => 4
    case SecurityGroupNeedsExpunge => 5
    case ServiceOfferingMissing => 6
    case SourceMissing => 7
    case SourceConflict => 8
    case DiskOfferingMissing => 9
    case HypervisorMissing => 10
    case TemplateOsMissing => 11
    case UserDataConflict => 12
    case UserDataFileNotFound(_) => 13
    case ZoneMissing => 14
    case CommError(_) => 15
  }

  /** Errors in the order NewConfig checks for them, each position after
      the one before, so none twice. */
  predicate InCheckOrder(r: seq<CloudError>)
  {
    forall i :: 0 < i < |r| ==> CheckOrder(r[i - 1]) < CheckOrder(r[i])
  }

  /** api_url, api_key and secret_key are required, each with its own error. */
  function CredentialRule(d: CloudValues): (r: seq<CloudError>)
    ensures r == [] <==> d.apiUrl != "" && d.apiKey != "" && d.secretKey != ""
    ensures ApiUrlMissing in r <==> d.apiUrl == ""
    ensures ApiKeyMissing in r <==> d.apiKey == ""
    ensures SecretKeyMissing in r <==> d.secretKey == ""
    ensures forall e :: e in r ==> e == ApiUrlMissing || e == ApiKeyMissing || e == SecretKeyMissing
    ensures InCheckOrder(r)
  {
    (if d.apiUrl == "" then [ApiUrlMissing] else []) +
    (if d.apiKey == "" then [ApiKeyMissing] else []) +
    (if d.secretKey == "" then [SecretKeyMissing] else [])
  }

  /** A security group is created only for an instance that is expunged. */
  function SecurityGroupRule(d: CloudValues): (r: seq<CloudError>)
    ensures r == [] <==> !d.createSecurityGroup || d.expunge
    ensures r != [] ==> r == [SecurityGroupNeedsExpunge]
  {
    if d.createSecurityGroup && !d.expunge then [SecurityGroupNeedsExpunge] else []
  }

  /** Exactly one of source_iso and source_template; an ISO also needs a
      disk offering and a hypervisor, each reported on its own. */
  function SourceRule(d: CloudValues): (r: seq<CloudError>)
    ensures r == [] <==> (d.sourceIso == "" <==> d.sourceTemplate != "") &&
                         (d.sourceIso != "" ==> d.diskOffering != "" && d.hypervisor != "")
    ensures SourceMissing in r <==> d.sourceIso == "" && d.sourceTemplate == ""
    ensures SourceConflict in r <==> d.sourceIso != "" && d.sourceTemplate != ""
    ensures DiskOfferingMissing in r <==> d.sourceIso != "" && d.diskOffering == ""
    ensures HypervisorMissing in r <==> d.sourceIso != "" && d.hypervisor == ""
    ensures d.sourceIso == "" ==> |r| <= 1
    ensures forall e :: e in r ==> e == SourceMissing || e == SourceConflict || e == DiskOfferingMissing || e == HypervisorMissing
    ensures InCheckOrder(r)
  {
    if d.sourceIso == "" then
      (if d.sourceTemplate == "" then [SourceMissing] else [])
    else
      (if d.sourceTemplate != "" then [SourceConflict] else []) +
      (if d.diskOffering == "" then [DiskOfferingMissing] else []) +
      (if d.hypervisor == "" then [HypervisorMissing] else [])
  }

  /** user_data and user_data_file exclude each other; a given file must
      stat without error. The two checks are independent. */
  function UserDataRule(d: CloudValues, stat: string -> StatResult): (r: seq<CloudError>)
    ensures r == [] <==> (d.userData == "" || d.userDataFile == "") &&
                         (d.userDataFile == "" || stat(d.userDataFile) == Exists)
    ensures UserDataConflict in r <==> d.userData != "" && d.userDataFile != ""
    ensures UserDataFileNotFound(d.userDataFile) in r <==> d.userDataFile != "" && stat(d.userDataFile) != Exists
    ensures |r| <= 2
    ensures forall e :: e in r ==> e == UserDataConflict || e == UserDataFileNotFound(d.userDataFile)
    ensures InCheckOrder(r)
  {
    (if d.userData != "" && d.userDataFile != "" then [UserDataConflict] else []) +
    (if d.userDataFile != "" && stat(d.userDataFile) != Exists then [UserDataFileNotFound(d.userDataFile)] else [])
  }

  /** The communicator's own errors. */
  function CommErrors(ms: seq<Message>): seq<CloudError>
  {
    Wrapped(ms, m => CommError(m))
  }

  /** Every check NewConfig makes, in its order, then the communicator's errors. */
  function Checks(d: CloudValues, ext: Collaborators): seq<CloudError>
  {
    CredentialRule(d) +
    (if d.network == "" then [NetworkMissing] else []) +
    SecurityGroupRule(d) +
    (if d.serviceOffering == "" then [ServiceOfferingMissing] else []) +
    SourceRule(d) +
    (if d.templateOs == "" then [TemplateOsMissing] else []) +
    UserDataRule(d, ext.stat) +
    (if d.zone == "" then [ZoneMissing] else []) +
    CommErrors(ext.commPrepare(d.comm))
  }

  /** The defaulted configuration passes every check exactly when each
      required field is set, the sources and user data are consistent and
      the communicator accepts its settings. */
  lemma ChecksPassIff(d: CloudValues, ext: Collaborators)
    ensures Checks(d, ext) == [] <==>
      CredentialRule(d) == [] && d.network != "" && SecurityGroupRule(d) == [] &&
      d.serviceOffering != "" && SourceRule(d) == [] && d.templateOs != "" &&
      UserDataRule(d, ext.stat) == [] && d.zone != "" && ext.commPrepare(d.comm) == []
  {
  }

  /** An element of the middle of a concatenation is an element of it. */
  lemma InMiddle<T>(x: T, pre: seq<T>, mid: seq<T>, post: seq<T>)
    requires x in mid
    ensures x in pre + mid + post
  {
    assert x in pre + mid;
  }

  /** Each empty plain required field contributes its own error. */
  lemma RequiredFieldsReported(d: CloudValues, ext: Collaborators)
    ensures d.network == "" ==> NetworkMissing in Checks(d, ext)
    ensures d.serviceOffering == "" ==> ServiceOfferingMissing in Checks(d, ext)
    ensures d.templateOs == "" ==> TemplateOsMissing in Checks(d, ext)
    ensures d.zone == "" ==> ZoneMissing in Checks(d, ext)
  {
    var r1, r3 := CredentialRule(d), SecurityGroupRule(d);
    var r5, r7 := SourceRule(d), UserDataRule(d, ext.stat);
    var r2 := if d.network == "" then [NetworkMissing] else [];
    var r4 := if d.serviceOffering == "" then [ServiceOfferingMissing] else [];
    var r6 := if d.templateOs == "" then [TemplateOsMissing] else [];
    var r8 := if d.zone == "" then [ZoneMissing] else [];
    var comm := CommErrors(ext.commPrepare(d.comm));
    assert Checks(d, ext) == r1 + r2 + r3 + r4 + r5 + r6 + r7 + r8 + comm;
    if d.network == "" {
      InMiddle(NetworkMissing, r1, r2, r3 + r4 + r5 + r6 + r7 + r8 + comm);
    }
    if d.serviceOffering == "" {
      InMiddle(ServiceOfferingMissing, r1 + r2 + r3, r4, r5 + r6 + r7 + r8 + comm);
    }
    if d.templateOs == "" {
      InMiddle(TemplateOsMissing, r1 + r2 + r3 + r4 + r5, r6, r7 + r8 + comm);
    }
    if d.zone == "" {
      InMiddle(ZoneMissing, r1 + r2 + r3 + r4 + r5 + r6 + r7, r8, comm);
    }
  }

  /** Credentials from the environment count: with all three variables
      set, no credential error is reported whatever was decoded. */
  lemma EnvironmentSatisfiesCredentials(v: CloudValues, ext: Collaborators)
    requires Getenv(ext.env, ApiUrlVariable) != ""
    requires Getenv(ext.env, ApiKeyVariable) != ""
    requires Getenv(ext.env, SecretKeyVariable) != ""
    ensures CredentialRule(Defaulted(v, ext)) == []
  {
  }

  /** What NewConfig reports: the render failure, then the checks. */
  function Errors(v: CloudValues, ext: Collaborators): seq<CloudError>
  {
    DefaultErrors(v, ext) + Checks(Defaulted(v, ext), ext)
  }

  class Config {
    var apiUrl: string
    var apiKey: string
    var secretKey: string
    var asyncTimeout: Duration
    var cidrList: seq<string>
    var instanceName: string
    var templateName: string
    var templateDisplayText: string
    var comm: CommConfig
    var network: string
    var createSecurityGroup: bool
    var expunge: bool
    var serviceOffering: string
    var sourceIso: string
    var sourceTemplate: string
    var diskOffering: string
    var hypervisor: string
    var templateOs: string
    var userData: string
    var userDataFile: string
    var zone: string

    function Value(): CloudValues
      reads this
    {
      CloudValues(apiUrl, apiKey, secretKey, asyncTimeout, cidrList, instanceName, templateName,
                  templateDisplayText, comm, network, createSecurityGroup, expunge, serviceOffering,
                  sourceIso, sourceTemplate, diskOffering, hypervisor, templateOs, userData,
                  userDataFile, zone)
    }

    /** The decoded configuration. */
    constructor (v: CloudValues)
      ensures Value() == v
    {
      apiUrl, apiKey, secretKey, asyncTimeout := v.apiUrl, v.apiKey, v.secretKey, v.asyncTimeout;
      cidrList, instanceName, templateName := v.cidrList, v.instanceName, v.templateName;
      templateDisplayText, comm, network := v.templateDisplayText, v.comm, v.network;
      createSecurityGroup, expunge, serviceOffering := v.createSecurityGroup, v.expunge, v.serviceOffering;
      sourceIso, sourceTemplate, diskOffering := v.sourceIso, v.sourceTemplate, v.diskOffering;
      hypervisor, templateOs, userData := v.hypervisor, v.templateOs, v.userData;
      userDataFile, zone := v.userDataFile, v.zone;
    }

    /** api_url, api_key and secret_key from the environment when empty. */
    method DefaultCredentials(env: map<string, string>)
      modifies this`apiUrl, this`apiKey, this`secretKey
      ensures Value() == old(Value()).(
        apiUrl := OrDefault(old(apiUrl), Getenv(env, ApiUrlVariable)),
        apiKey := OrDefault(old(apiKey), Getenv(env, ApiKeyVariable)),
        secretKey := OrDefault(old(secretKey), Getenv(env, SecretKeyVariable)))
    {
      DefaultApiUrl(Getenv(env, ApiUrlVariable));
      DefaultApiKey(Getenv(env, ApiKeyVariable));
      DefaultSecretKey(Getenv(env, SecretKeyVariable));
    }

    method DefaultApiUrl(value: string)
      modifies this`apiUrl
      ensures Value() == old(Value()).(apiUrl := OrDefault(old(apiUrl), value))
    {
      if apiUrl == "" {
        apiUrl := value;
      }
    }

    method DefaultApiKey(value: string)
      modifies this`apiKey
      ensures Value() == old(Value()).(apiKey := OrDefault(old(apiKey), value))
    {
      if apiKey == "" {
        apiKey := value;
      }
    }

    method DefaultSecretKey(value: string)
      modifies this`secretKey
      ensures Value() == old(Value()).(secretKey := OrDefault(old(secretKey), value))
    {
      if secretKey == "" {
        secretKey := value;
      }
    }

    method DefaultTimeoutAndCidrs()
      modifies this`asyncTimeout, this`cidrList
      ensures Value() == old(Value()).(
        asyncTimeout := if old(asyncTimeout) == 0 then DefaultAsyncTimeout else old(asyncTimeout),
        cidrList := if |old(cidrList)| == 0 then [AnyCidr] else old(cidrList))
    {
      if asyncTimeout == 0 {
        asyncTimeout := DefaultAsyncTimeout;
      }
      if |cidrList| == 0 {
        cidrList := [AnyCidr];
      }
    }

    /** The instance name, the template name (its render error is the one
        error of this half) and the display text, in that order. */
    method DefaultNames(instanceUuid: string, rendered: Rendered) returns (errs: seq<CloudError>)
      modifies this`instanceName, this`templateName, this`templateDisplayText
      ensures errs == (if old(templateName) == "" && rendered.failed then [TemplateNameUnparsable] else [])
      ensures Value() == old(Value()).(
        instanceName := OrDefault(old(instanceName), "packer-" + instanceUuid),
        templateName := if old(templateName) == "" then rendered.text else old(templateName),
        templateDisplayText := OrDefault(old(templateDisplayText),
          if old(templateName) == "" then rendered.text else old(templateName)))
    {
      DefaultInstanceName("packer-" + instanceUuid);
      errs := DefaultTemplateName(rendered);
      DefaultDisplayText();
    }

    method DefaultInstanceName(name: string)
      modifies this`instanceName
      ensures Value() == old(Value()).(instanceName := OrDefault(old(instanceName), name))
    {
      if instanceName == "" {
        instanceName := name;
      }
    }

    /** The rendered name is assigned even when rendering failed. */
    method DefaultTemplateName(rendered: Rendered) returns (errs: seq<CloudError>)
      modifies this`templateName
      ensures errs == (if old(templateName) == "" && rendered.failed then [TemplateNameUnparsable] else [])
      ensures Value() == old(Value()).(templateName := if old(templateName) == "" then rendered.text else old(templateName))
    {
      errs := [];
      if templateName == "" {
        if rendered.failed {
          errs := [TemplateNameUnparsable];
        }
        templateName := rendered.text;
      }
    }

    method DefaultDisplayText()
      modifies this`templateDisplayText
      ensures Value() == old(Value()).(templateDisplayText := OrDefault(old(templateDisplayText), templateName))
    {
      if templateDisplayText == "" {
        templateDisplayText := templateName;
      }
    }

    method DefaultKeyPair(uuid: string)
      modifies this`comm
      ensures Value() == old(Value()).(comm := WithTemporaryKeyPair(old(comm), uuid))
    {
      if comm.sshKeyPairName == "" && comm.sshTemporaryKeyPairName == "" &&
         comm.sshPrivateKeyFile == "" && comm.sshPassword == "" {
        comm := comm.(sshTemporaryKeyPairName := "packer_" + uuid);
      }
    }

    /** The first half of NewConfig. */
    method ApplyDefaults(ext: Collaborators) returns (errs: seq<CloudError>)
      modifies this
      ensures Value() == Defaulted(old(Value()), ext)
      ensures errs == DefaultErrors(old(Value()), ext)
    {
      DefaultCredentials(ext.env);
      DefaultTimeoutAndCidrs();
      errs := DefaultNames(ext.instanceUuid, ext.templateName);
      DefaultKeyPair(ext.keyPairUuid);
    }
  }

  /** NewConfig after decoding: the configuration and no error, or no
      configuration and every error found. */
  method NewConfig(v: CloudValues, ext: Collaborators) returns (c: Config?, errs: seq<CloudError>)
    ensures errs == Errors(v, ext)
    ensures c == null <==> errs != []
    ensures c != null ==> c.Value() == Defaulted(v, ext)
  {
    c := new Config(v);
    errs := c.ApplyDefaults(ext);
    errs := errs + Checks(c.Value(), ext);
    if |errs| > 0 {
      return null, errs;
    }
  }
}
