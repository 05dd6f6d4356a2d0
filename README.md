# Configuration resolution of the Packer image builders, in Dafny

This project models how several Packer builders turn a decoded template into
a usable configuration. Each step does the same three things in the same
style:

- it fills defaults (from fixed values, environment variables, fresh UUIDs
  or other fields);
- it checks required and mutually exclusive settings, appending one error
  per violated rule;
- it returns either the configuration or every error found.

The builders covered are:

- the AWS run configuration and block device mappings;
- the CloudStack, VirtualBox OVF, LXC and LXD `NewConfig` after decoding;
- the Alicloud image settings;
- the Triton source machine and target image settings;
- the VMware export and shutdown settings.

The model follows the form of the Go code.

- A Go `Prepare` or `NewConfig` that updates its receiver becomes a Dafny
  `class`, with the fields it reads or writes.
  - `Value()` gives a snapshot of those fields as a datatype.
  - Each default is a small method with a field-level `modifies` frame.
  - A composing method (`ApplyDefaults`, `Prepare`, `NewConfig`) ties the
    final state to a pure specification function of the decoded values
    (`Resolved`, `Defaulted`, `Final`, `Prepared`).
- The checks are pure rule functions, one per `if` of the source, and
  their concatenation (`Errors`) is the error list in the source's order.
- Loops in the source become loop methods proved against those functions:
  - the CIDR check of the AWS run configuration;
  - the two loops of `BlockDevices.Prepare`;
  - `buildBlockDevices` and `GetOmissions`;
  - the Alicloud region deduplication;
  - the VirtualBox guest additions mode search.
- Code that only reads its receiver becomes a function: the Triton target
  image and the VMware export settings.

Collaborators the model cannot see are parameters, gathered per builder in a
`Collaborators` datatype:

- `os.Getenv` is an environment map;
- `os.Stat` is a function to `Exists | NotExist | OtherStatError`;
- `net.ParseCIDR` is a predicate;
- `time.ParseDuration` is a function to `Option<Duration>`, of which only
  `"5m"` and `"20s"` are pinned down (`ParsesDefaultLiterals`);
- `uuid.TimeOrderedUUID`, `interpolate.InitTime` and the rendering of
  `"packer-{{timestamp}}"` are values;
- `Comm.Prepare` and the embedded VirtualBox configurations' `Prepare`
  are functions returning opaque messages.

Go's `%` truncates toward zero (`Common.GoRem`). Go's `len` on a string
counts UTF-8 bytes (`AlicloudImageConfig.Utf8Len`).

Points where the model follows the code rather than its documentation:

- **AWS `Prepare` check order.** Prepare checks the configuration as
  decoded, except for the communicator rules, which see the temporary key
  pair name the first default may have set. No later default touches a
  field a check reads, so `Validate` runs on the decoded values.
- **VirtualBox OVF source-file error.** At `builder/virtualbox/ovf/config.go:113-116`
  the result of `MultiErrorAppend` is discarded, yet the stat error is
  still reported.
  - By then `errs` is always a non-nil `*MultiError`. The first
    `MultiErrorAppend` (line 92) allocates one even when there is nothing
    to append, and later appends extend that object in place.
  - So the model reports the missing source file whenever stat fails,
    including alongside "source_path is required".
  - This rests on the behaviour of `packer.MultiErrorAppend`;
    packer/multi_error.go is not part of this model.
- **VMware export format.** The field documentation says `format` defaults
  to "ovf". `ExportConfig.Prepare` sets no default, and neither does the
  model.
- **AWS non-ephemeral virtual names.** A block device with a virtual name
  that does not start with "ephemeral" is built into a mapping with a
  device name only: no `NoDevice`, no `VirtualName` and no EBS part
  (`AmazonBlockDevice.MappingKinds`).
- **AWS T2 Unlimited and spot price "0".** The T2 Unlimited check refuses
  any non-empty spot price, "0" included. `IsSpotInstance` and the
  spot_tags check treat "0" as no spot instance
  (`AmazonRunConfig.SpotInstanceChecks`).
- **Alicloud name length.** The image name bounds count bytes, so one
  three-byte character passes the two-character minimum
  (`AlicloudImageConfig.LengthCountsBytes`).

## Model

| member | source | states |
|---|---|---|
| Common.Getenv | builder/cloudstack/config.go:94-107 | an unset variable reads as the empty string, a set one as its value |
| Common.GoRem | builder/amazon/common/run_config.go:164 | what remains of a after Go's truncated quotient times b: strictly between -b and b, the mathematical remainder for non-negative dividends and never positive for negative ones, so -90 % 60 is -30 |
| Common.GoQuo | builder/amazon/common/run_config.go:164 | Go's quotient truncates toward zero: it has the sign of a, and its multiple of b falls short of a by less than b, on a's side of zero |
| Common.GoRemBy60ZeroIffDivides | builder/amazon/common/run_config.go:164-167 | the Go remainder by 60 is zero exactly for multiples of 60, negative ones included |
| Common.IndexOf | builder/amazon/common/run_config.go:227-232 | -1 exactly when the character is absent, otherwise the position of its first occurrence |
| Common.ToLower | builder/virtualbox/ovf/config.go:106-107 | same length, every ASCII capital lowered, every other character kept, no capital left |
| Common.ToLowerIdempotent | builder/virtualbox/ovf/config.go:137-139 | lowercasing twice is lowercasing once |
| Common.IntToString | builder/virtualbox/ovf/config.go:85-88 | the decimal text is non-empty and starts with '-' exactly for negative numbers |
| Common.WithTemporaryKeyPair | builder/amazon/common/run_config.go:112-116 | "packer_" + uuid becomes the temporary key pair name only when no key pair, temporary name, private key or password was given; afterwards none is ever needed |
| Common.Wrapped | builder/amazon/common/run_config.go:127 | a collaborator's errors become as many errors of the caller, each wrapping the message at the same position |
| AmazonRunConfig.FilterEmptiness | builder/amazon/common/run_config.go:24-56 | an AMI filter is empty iff it has neither owners nor filters, so an empty one has no owner; the other filters are empty iff they have no filters; the selection flags never matter |
| AmazonRunConfig.InterfaceRule | builder/amazon/common/run_config.go:130-136 | no error iff ssh_interface is one of the four known values or empty; otherwise exactly the unknown-interface error |
| AmazonRunConfig.KeyPairRule | builder/amazon/common/run_config.go:138-144 | only with a key pair name: the WinRM error iff the communicator is WinRM without password or private key; otherwise the private-key-or-agent error iff there is neither a private key nor agent authentication; at most one error |
| AmazonRunConfig.SourceAmiRule | builder/amazon/common/run_config.go:146-152 | without source_ami an empty filter draws both errors and a filter without owners the owner error; with source_ami or an owner, none |
| AmazonRunConfig.InstanceTypeRule | builder/amazon/common/run_config.go:154-162 | no error iff exactly one of instance_type and spot_instance_types is given; the missing and the conflict error otherwise |
| AmazonRunConfig.BlockDurationRule | builder/amazon/common/run_config.go:164-167 | no error iff block_duration_minutes is a multiple of 60 |
| AmazonRunConfig.SpotPriceRule | builder/amazon/common/run_config.go:169-181 | no error iff spot_price is "auto" exactly when spot_price_auto_product is given; each direction has its own error |
| AmazonRunConfig.SpotTagsRule | builder/amazon/common/run_config.go:183-188 | spot_tags draw one error iff they are set and no spot instance is requested |
| AmazonRunConfig.UserDataRule | builder/amazon/common/run_config.go:190-196 | the conflict error iff both user data fields are set; the not-found error iff only the file is given and stat fails; at most one error |
| AmazonRunConfig.SecurityGroupRule | builder/amazon/common/run_config.go:198-205 | the conflict error iff both security_group_id and a non-empty security_group_ids are given |
| AmazonRunConfig.CidrErrors | builder/amazon/common/run_config.go:207-215 | no more errors than entries; every error names an entry that does not parse, and every such entry is named |
| AmazonRunConfig.CidrErrorsAppend | builder/amazon/common/run_config.go:210-214 | the errors of a concatenated list are the first part's errors followed by the second part's, so errors come in list order |
| AmazonRunConfig.CidrErrorsOfOne | builder/amazon/common/run_config.go:211-213 | a single entry gives no error when it parses and exactly its own error when it does not |
| AmazonRunConfig.CidrErrorsCount | builder/amazon/common/run_config.go:210-214 | exactly one error per entry that does not parse, repeated entries counted each time |
| AmazonRunConfig.CheckCidrs | builder/amazon/common/run_config.go:210-214 | the loop over the CIDRs yields exactly their errors, in list order |
| AmazonRunConfig.ShutdownBehaviorRule | builder/amazon/common/run_config.go:217-221 | no error iff the behaviour is empty, "stop" or "terminate" |
| AmazonRunConfig.T2UnlimitedRule | builder/amazon/common/run_config.go:223-233 | only with T2 Unlimited: the spot error iff a spot price is set, the undetermined-type error iff the type has no '.', the non-T2 error iff its prefix before the first '.' is not "t2"; no other error, at most two, and with two the spot error first |
| AmazonRunConfig.Validate | builder/amazon/common/run_config.go:127-233 | the checks of Prepare, made one after the other, produce exactly Errors |
| AmazonRunConfig.RunConfig.DefaultKeyPair | builder/amazon/common/run_config.go:112-116 | only the communicator changes, to its temporary-key-pair default |
| AmazonRunConfig.RunConfig.DefaultTimeoutAndTags | builder/amazon/common/run_config.go:118-124 | a zero Windows password timeout becomes 20 minutes and nil run tags an empty map; nothing else changes |
| AmazonRunConfig.RunConfig.MoveSecurityGroup | builder/amazon/common/run_config.go:198-205 | a lone security group id moves into the empty id list and is cleared; in every other case nothing changes |
| AmazonRunConfig.RunConfig.DefaultCidrsAndShutdownBehavior | builder/amazon/common/run_config.go:207-221 | empty source CIDRs become ["0.0.0.0/0"] and an empty shutdown behaviour "stop"; nothing else changes |
| AmazonRunConfig.RunConfig.ApplyDefaults | builder/amazon/common/run_config.go:107-236 | the receiver ends up as Resolved of what it was |
| AmazonRunConfig.RunConfig.Prepare | builder/amazon/common/run_config.go:107-236 | the receiver ends up resolved and the errors are those of the decoded values, in the source's order |
| AmazonRunConfig.SecurityGroupIdMoved | builder/amazon/common/run_config.go:198-205 | a lone id moves without error; with a non-empty list both fields stay and the conflict is reported; without an id the list is kept |
| AmazonRunConfig.TemporaryCidrs | builder/amazon/common/run_config.go:207-215 | empty CIDRs become ["0.0.0.0/0"] unchecked; given ones are kept, exactly those that do not parse are reported, one error per failing entry |
| AmazonRunConfig.ShutdownBehaviorDefault | builder/amazon/common/run_config.go:217-221 | an empty behaviour becomes "stop", a given one is kept |
| AmazonRunConfig.SpotInstanceChecks | builder/amazon/common/run_config.go:238-240 | IsSpotInstance iff the spot price is neither "" nor "0"; set spot tags pass iff it holds; T2 Unlimited refuses any non-empty spot price, so "0" is refused though it is no spot request |
| AmazonRunConfig.BlockDurationExamples | builder/amazon/common/run_config.go:164-167 | 90 and -90 minutes are refused, -120 and 0 accepted; Go's remainder of -90 by 60 is -30 and of 90 is 30 |
| AmazonRunConfig.ResolvedIsIdempotent | builder/amazon/common/run_config.go:107-124 | resolving a resolved configuration, with any UUID, changes nothing |
| AmazonRunConfig.ResolvedRevalidates | builder/amazon/common/run_config.go:107-236 | a configuration that prepared without errors prepares again without errors when the default CIDR parses |
| AmazonBlockDevice.BlockDevice.Prepare | builder/amazon/common/block_device.go:99-111 | the missing-name error iff the device name is empty; otherwise the KMS error iff a key is given with encrypted explicitly false; no error otherwise |
| AmazonBlockDevice.BuildMapping | builder/amazon/common/block_device.go:53-94 | the mapping built for one device describes it: its name, and a suppressed, virtual (ephemeral names only) or EBS part with the optional fields set exactly when given and IOPS only for io1 |
| AmazonBlockDevice.BuildBlockDevices | builder/amazon/common/block_device.go:49-97 | one mapping per device, in order, each describing its device |
| AmazonBlockDevice.BuildAMIDevices | builder/amazon/common/block_device.go:127-129 | the AMI mappings' devices, built one to one |
| AmazonBlockDevice.BuildLaunchDevices | builder/amazon/common/block_device.go:131-133 | the launch mappings' devices, built one to one |
| AmazonBlockDevice.DescribesIsDeterministic | builder/amazon/common/block_device.go:49-97 | the description leaves nothing open: two mappings describing one device are equal |
| AmazonBlockDevice.MappingKinds | builder/amazon/common/block_device.go:57-91 | a mapping has at most one kind; EBS iff the device is neither suppressed nor virtual; suppressed iff NoDevice; virtual iff the name starts with "ephemeral"; IOPS iff io1 |
| AmazonBlockDevice.PreparedKmsKeyIsEncrypted | builder/amazon/common/block_device.go:99-111 | a device that passes Prepare never yields a mapping with a KMS key and encryption explicitly off, nor an empty device name |
| AmazonBlockDevice.Prefixed | builder/amazon/common/block_device.go:114-123 | at most one error per device, each tagged with the list it came from |
| AmazonBlockDevice.PrefixedMembers | builder/amazon/common/block_device.go:114-123 | the errors are exactly the tagged errors of the failing devices |
| AmazonBlockDevice.PrefixedCount | builder/amazon/common/block_device.go:114-123 | one error per failing device |
| AmazonBlockDevice.MappingErrorsShape | builder/amazon/common/block_device.go:113-125 | as many errors as failing devices in both lists, every AMI-mapping error before every launch-mapping error |
| AmazonBlockDevice.PrepareMappings | builder/amazon/common/block_device.go:113-125 | the two loops produce exactly the AMI errors followed by the launch errors |
| AmazonBlockDevice.Omissions | builder/amazon/common/block_device.go:135-143 | the map's keys are exactly the launch devices' names |
| AmazonBlockDevice.OmissionsLastWins | builder/amazon/common/block_device.go:138-140 | for a repeated name the last device's omit flag is kept |
| AmazonBlockDevice.GetOmissions | builder/amazon/common/block_device.go:135-143 | the loop over the launch devices builds exactly Omissions; the AMI devices play no part |
| CloudStackConfig.DefaultErrors | builder/cloudstack/config.go:121-129 | the only error of the defaults: the template name render failed while no name was given |
| CloudStackConfig.CredentialsFromEnvironment | builder/cloudstack/config.go:94-107 | api_url, api_key and secret_key come from their environment variables only when empty |
| CloudStackConfig.TimeoutAndCidrDefaults | builder/cloudstack/config.go:109-115 | a zero async_timeout becomes 30 minutes and an empty cidr_list ["0.0.0.0/0"]; given values are kept |
| CloudStackConfig.DisplayTextFollowsTemplateName | builder/cloudstack/config.go:121-133 | an empty display text takes the defaulted template name, the rendered one when neither was given |
| CloudStackConfig.DefaultedIsIdempotent | builder/cloudstack/config.go:94-141 | defaulting twice equals defaulting once, and the render error cannot recur unless the rendered name is empty |
| CloudStackConfig.CredentialRule | builder/cloudstack/config.go:144-154 | one error per missing credential and no other error, each at most once and in the order api_url, api_key, secret_key; none iff all three are set |
| CloudStackConfig.SecurityGroupRule | builder/cloudstack/config.go:160-162 | creating a security group without expunge is the one error |
| CloudStackConfig.SourceRule | builder/cloudstack/config.go:168-186 | no error iff exactly one source is given and an ISO has a disk offering and a hypervisor; each violation has its own error, no other error occurs, and they come at most once each in the order the source checks them |
| CloudStackConfig.UserDataRule | builder/cloudstack/config.go:192-202 | the conflict error iff both user data fields are set and, independently, the file error (naming the file) iff it is given and stat fails; no other error, the conflict error first |
| CloudStackConfig.ChecksPassIff | builder/cloudstack/config.go:143-210 | the checks pass iff every rule passes, network, service offering, template OS and zone are set and the communicator reports nothing |
| CloudStackConfig.RequiredFieldsReported | builder/cloudstack/config.go:156-206 | an empty network, service offering, template OS or zone each puts its own error among the checks |
| CloudStackConfig.EnvironmentSatisfiesCredentials | builder/cloudstack/config.go:94-154 | with all three environment variables set no credential error is reported |
| CloudStackConfig.Config.DefaultCredentials | builder/cloudstack/config.go:94-107 | only the three credentials change, each to its environment default when empty |
| CloudStackConfig.Config.DefaultApiUrl | builder/cloudstack/config.go:94-97 | only api_url changes, and only when empty |
| CloudStackConfig.Config.DefaultApiKey | builder/cloudstack/config.go:99-102 | only api_key changes, and only when empty |
| CloudStackConfig.Config.DefaultSecretKey | builder/cloudstack/config.go:104-107 | only secret_key changes, and only when empty |
| CloudStackConfig.Config.DefaultTimeoutAndCidrs | builder/cloudstack/config.go:109-115 | only the timeout and CIDR list change, to their defaults when unset |
| CloudStackConfig.Config.DefaultNames | builder/cloudstack/config.go:117-133 | instance name, template name and display text defaulted in order, with the render error |
| CloudStackConfig.Config.DefaultInstanceName | builder/cloudstack/config.go:117-119 | an empty instance name becomes "packer-" + uuid; nothing else changes |
| CloudStackConfig.Config.DefaultTemplateName | builder/cloudstack/config.go:121-129 | an empty template name takes the rendered text even when rendering failed, and the failure is the error |
| CloudStackConfig.Config.DefaultDisplayText | builder/cloudstack/config.go:131-133 | an empty display text takes the current template name |
| CloudStackConfig.Config.DefaultKeyPair | builder/cloudstack/config.go:138-141 | only the communicator changes, to its temporary-key-pair default |
| CloudStackConfig.Config.ApplyDefaults | builder/cloudstack/config.go:93-141 | the receiver ends up Defaulted and the errors are DefaultErrors |
| CloudStackConfig.NewConfig | builder/cloudstack/config.go:93-217 | the errors are the render error then the checks on the defaulted values; no configuration iff there is an error, otherwise the defaulted one |
| AlicloudImageConfig.Utf8Width | builder/alicloud/ecs/image_config.go:64 | a character takes one to four bytes, one exactly for ASCII |
| AlicloudImageConfig.Utf8Len | builder/alicloud/ecs/image_config.go:64 | between one and four bytes per character, one per character for ASCII text |
| AlicloudImageConfig.NameRule | builder/alicloud/ecs/image_config.go:62-69 | the missing error iff empty, else the length error iff outside 2 to 128 bytes, else the scheme error iff it starts with http:// or https://; at most one error |
| AlicloudImageConfig.SpaceRule | builder/alicloud/ecs/image_config.go:70-73 | one error iff the name holds a tab, newline, form feed, carriage return or space |
| AlicloudImageConfig.NameAcceptedIff | builder/alicloud/ecs/image_config.go:60-97 | no error iff 2 to 128 bytes, no web scheme and no white space; at most two errors; an empty name only the missing error |
| AlicloudImageConfig.LengthCountsBytes | builder/alicloud/ecs/image_config.go:64-65 | one three-byte character passes the length check, one ASCII letter does not |
| AlicloudImageConfig.Dedup | builder/alicloud/ecs/image_config.go:75-91 | the result repeats no region, holds exactly the given regions and is no longer |
| AlicloudImageConfig.FirstIndex | builder/alicloud/ecs/image_config.go:79-88 | the position of the first occurrence of a region |
| AlicloudImageConfig.DedupKeepsFirstOccurrenceOrder | builder/alicloud/ecs/image_config.go:79-88 | the kept regions come in the order of their first occurrences |
| AlicloudImageConfig.DedupOfDistinct | builder/alicloud/ecs/image_config.go:79-88 | a list without repeats is kept as it is |
| AlicloudImageConfig.DedupIsIdempotent | builder/alicloud/ecs/image_config.go:75-91 | deduplicating twice is deduplicating once |
| AlicloudImageConfig.DedupRegions | builder/alicloud/ecs/image_config.go:76-90 | the loop with a set of seen regions computes exactly Dedup |
| AlicloudImageConfig.ImageConfig.Prepare | builder/alicloud/ecs/image_config.go:60-98 | the name errors, and the copy regions deduplicated whether or not there are errors |
| VirtualBoxOvfConfig.WithImportOpts | builder/virtualbox/ovf/config.go:154-157 | a non-empty import_opts appends "--options" and its value to the flags; otherwise nothing changes |
| VirtualBoxOvfConfig.SubErrors | builder/virtualbox/ovf/config.go:91-104 | no error iff no embedded configuration reports one; every error carries a part of the list and a message that part reported; every message of every part appears, tagged with its part |
| VirtualBoxOvfConfig.SubErrorsAppend | builder/virtualbox/ovf/config.go:91-104 | the errors come part after part: a further part adds its own messages after those of every part before it |
| VirtualBoxOvfConfig.SourceRule | builder/virtualbox/ovf/config.go:109-116 | the required error iff the path is empty and, independently, the missing-file error iff stat fails; no other error, and with both the required error first |
| VirtualBoxOvfConfig.ModeRule | builder/virtualbox/ovf/config.go:118-135 | no error iff the mode is disable, attach or upload |
| VirtualBoxOvfConfig.Warnings | builder/virtualbox/ovf/config.go:141-147 | exactly the one shutdown warning iff shutdown_command is empty, no warning otherwise |
| VirtualBoxOvfConfig.AcceptedIff | builder/virtualbox/ovf/config.go:90-152 | no error iff no embedded configuration complains, the source file is given and exists, and the mode is omitted or valid |
| VirtualBoxOvfConfig.DefaultsKeepGivenValues | builder/virtualbox/ovf/config.go:73-88 | an omitted mode becomes "upload", which is valid, an omitted path "VBoxGuestAdditions.iso" and an omitted interface "ide"; given mode, path, interface and VM name are kept; an omitted VM name starts "packer-<build name>-" |
| VirtualBoxOvfConfig.NormalizedIsLowerCase | builder/virtualbox/ovf/config.go:106-107 | the checksum, its type and the guest additions digest hold no capital, lowercasing is idempotent and no other field changes |
| VirtualBoxOvfConfig.ImportOptsAppended | builder/virtualbox/ovf/config.go:154-157 | the flags grow by "--options" and the value exactly when import_opts is given |
| VirtualBoxOvfConfig.IsValidMode | builder/virtualbox/ovf/config.go:118-130 | the search over the valid modes finds the mode iff it is one of them |
| VirtualBoxOvfConfig.Config.DefaultGuestAdditions | builder/virtualbox/ovf/config.go:74-83 | empty mode, path and interface become "upload", "VBoxGuestAdditions.iso" and "ide"; nothing else changes |
| VirtualBoxOvfConfig.Config.DefaultVMName | builder/virtualbox/ovf/config.go:85-88 | an empty VM name becomes "packer-<build name>-<start time>" |
| VirtualBoxOvfConfig.Config.LowerChecksums | builder/virtualbox/ovf/config.go:106-107 | the checksum and its type are lowercased; nothing else changes |
| VirtualBoxOvfConfig.Config.LowerGuestAdditionsSha256 | builder/virtualbox/ovf/config.go:137-139 | a non-empty guest additions digest is lowercased |
| VirtualBoxOvfConfig.Config.ApplyDefaults | builder/virtualbox/ovf/config.go:73-88 | the receiver ends up Defaulted |
| VirtualBoxOvfConfig.Config.Normalize | builder/virtualbox/ovf/config.go:106-139 | the receiver ends up Normalized |
| VirtualBoxOvfConfig.Config.AppendImportOpts | builder/virtualbox/ovf/config.go:154-157 | the receiver ends up WithImportOpts |
| VirtualBoxOvfConfig.Check | builder/virtualbox/ovf/config.go:91-135 | the embedded configurations' errors, then the source errors, then the mode error |
| VirtualBoxOvfConfig.NewConfig | builder/virtualbox/ovf/config.go:73-159 | the warnings always; no configuration iff there is an error, otherwise the defaulted, lowercased configuration with import_opts appended |
| LxcConfig.ParsedOrZero | builder/lxc/config.go:76 | the parsed duration, or zero when parsing fails |
| LxcConfig.Errors | builder/lxc/config.go:72-83 | at most two errors: the timeout error iff the defaulted timeout does not parse, the file error iff stat reports the file as not existing, nothing else, and the timeout error first |
| LxcConfig.AcceptedIff | builder/lxc/config.go:76-89 | no error iff the defaulted timeout parses and the file is not reported missing; another stat failure is no error |
| LxcConfig.UnparsableTimeoutIsOneError | builder/lxc/config.go:76-79 | an unparsable timeout adds exactly one error |
| LxcConfig.OmittedTimeoutIsTwentySeconds | builder/lxc/config.go:72-79 | an omitted init_timeout is "20s", parses to 20 seconds and draws no error |
| LxcConfig.DefaultsKeepGivenValues | builder/lxc/config.go:56-70 | output directory "output-<build>", container "packer-<build>", run level 3 and command wrapper "{{.Command}}" replace only empty or zero values; given ones, including the raw init timeout, are kept |
| LxcConfig.Config.ApplyDefaults | builder/lxc/config.go:56-70 | only the four plain defaults change |
| LxcConfig.Config.ParseInitTimeout | builder/lxc/config.go:72-79 | the raw timeout defaulted, the duration its parse, the parse failure the error |
| LxcConfig.Config.Prepare | builder/lxc/config.go:53-83 | the receiver ends up Resolved and the errors are Errors |
| LxcConfig.NewConfig | builder/lxc/config.go:53-89 | no configuration iff there is an error, otherwise the resolved one |
| LxdConfig.Errors | builder/lxd/config.go:58-60 | the image error is the only error, reported iff image is empty |
| LxdConfig.OutputImageFollowsContainerName | builder/lxd/config.go:46-52 | an empty output image takes the defaulted container name, "packer-<build>" when both are empty; it is never empty |
| LxdConfig.DefaultsKeepGivenValues | builder/lxd/config.go:46-70 | container name, command wrapper, profile and init sleep default to "packer-<build name>", "{{.Command}}", "default" and "3" only when empty, and given values are kept; image is never defaulted; defaulting is idempotent |
| LxdConfig.Config.Prepare | builder/lxd/config.go:43-70 | the receiver ends up Defaulted and the errors are Errors |
| LxdConfig.NewConfig | builder/lxd/config.go:43-76 | succeeds iff image is given, with the defaulted configuration |
| TritonSourceMachine.EmptyIgnoresFlags | builder/triton/source_machine_config.go:35-37 | Empty iff Name, OS, Version, State, Owner and Type are all empty; MostRecent and Public never matter |
| TritonSourceMachine.OrEmpty | builder/triton/source_machine_config.go:51-61 | a nil collection becomes the empty one, a non-nil one is kept |
| TritonSourceMachine.Errors | builder/triton/source_machine_config.go:43-49 | the package error iff no package; the conflict error iff an image and a name filter are both given; no error iff neither holds; at most two, and with both the package error first |
| TritonSourceMachine.PreparedCollections | builder/triton/source_machine_config.go:51-61 | no collection is left nil; nil networks become [] and nil metadata and tags empty maps; given networks, metadata and tags are kept; no other field changes; preparing twice changes nothing and the errors do not depend on it |
| TritonSourceMachine.OnlyNameFilterConflicts | builder/triton/source_machine_config.go:47-49 | with an image, a filter without a name draws no conflict |
| TritonSourceMachine.SourceMachineConfig.Prepare | builder/triton/source_machine_config.go:40-68 | the two rules' errors, and the nil collections replaced whether or not there are errors |
| TritonTargetImage.Prepare | builder/triton/target_image_config.go:24-40 | one error per missing name or version, no error iff both are given, at most two, and with two the name error first |
| TritonTargetImage.BothMissing | builder/triton/target_image_config.go:27-33 | with both missing, exactly the name error then the version error |
| TritonTargetImage.OptionalFieldsIgnored | builder/triton/target_image_config.go:24-40 | the optional fields never change the result |
| VmwareExportConfig.Prepare | builder/vmware/common/export_config.go:21-30 | no error iff format is empty, "ova", "ovf" or "vmx"; exactly one otherwise |
| VmwareExportConfig.FormatCases | builder/vmware/common/export_config.go:23-27 | the empty and the three known formats pass; "OVA" and every other value fail once |
| VmwareShutdownConfig.Errors | builder/vmware/common/shutdown_config.go:24-31 | at most one error, reported iff the defaulted raw timeout does not parse, and it names that defaulted raw value |
| VmwareShutdownConfig.OmittedTimeoutIsFiveMinutes | builder/vmware/common/shutdown_config.go:20-26 | an omitted timeout becomes "5m", parses to five minutes and draws no error |
| VmwareShutdownConfig.PreparedKeepsGivenValues | builder/vmware/common/shutdown_config.go:19-32 | a given raw timeout and the shutdown command are kept, the duration is the parse of the raw value, preparing twice changes nothing |
| VmwareShutdownConfig.ShutdownConfig.Prepare | builder/vmware/common/shutdown_config.go:19-32 | the receiver ends up Prepared and the errors are Errors |

## Left out

- Decoding (`config.Decode`), template interpolation and the interpolation
  context are not modelled: every step starts from decoded values, and
  rendered text is a parameter.
- The rules of the communicator (`Comm.Prepare`) and of the embedded
  VirtualBox configurations are not part of this model. Their errors are
  opaque messages from a parameter, and any changes they make to the
  configuration are not modelled.
- Error texts are represented by error constructors carrying the values the
  messages quote; the exact wording is not modelled.
- Fields that the modelled code neither reads nor writes are left out of
  the value datatypes.
- Common.ToLower: lowers ASCII capitals only. Go's strings.ToLower also
  lowers other Unicode capitals.
- Common.IntToString: its contract states only the sign and non-emptiness of
  the decimal text, not its digits.
- The AWS filter maps (`map[*string]*string`) are modelled as sequences of
  entries: their pointer keys never collide, and emptiness only counts
  entries.
- AmazonRunConfig.ResolvedRevalidates: requires that "0.0.0.0/0" parses as
  a CIDR, since `net.ParseCIDR` is a parameter.
- The AWS run configuration's `reShutdownBehavior` regular expression is
  modelled by its meaning: exactly "stop" or "terminate".
- The difference between a nil and an empty Go slice or map is modelled,
  as an `Option`, only where the code tests for nil: the AWS `run_tags` and
  `spot_tags` maps, the Triton networks slice, and the Triton metadata and
  tags maps. Elsewhere an empty sequence stands for both.
- `time.ParseDuration` is not modelled beyond the two literals the
  builders use as defaults.
