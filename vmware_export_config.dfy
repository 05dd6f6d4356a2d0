/** The VMware builders' export settings (builder/vmware/common/export_config.go):
    Prepare accepts an empty format or one of three known ones, and changes
    nothing. */
module VmwareExportConfig {

  datatype ExportConfig = ExportConfig(
    format: string,
    ovfToolOptions: seq<string>,
    skipExport: bool,
    keepRegistered: bool,
    skipCompaction: bool)

  datatype ExportError = InvalidFormat

  const KnownFormats: set<string> := {"ova", "ovf", "vmx"}

  /** Prepare: one error for a non-empty format that is not "ova", "ovf" or
      "vmx". It writes nothing (an empty format stays empty), so it is a
      function here. */
  function Prepare(c: ExportConfig): (r: seq<ExportError>)
    ensures r == [] <==> c.format == "" || c.format in KnownFormats
    ensures r != [] ==> r == [InvalidFormat]
  {
    if c.format != "" && !(c.format == "ova" || c.format == "ovf" || c.format == "vmx") then [InvalidFormat] else []
  }

  /** The enumeration, case by case: the empty format and the three known
      formats pass, anything else (another case included) fails once. */
  lemma FormatCases(c: ExportConfig)
    ensures c.format == "" ==> Prepare(c) == []
    ensures c.format == "ova" || c.format == "ovf" || c.format == "vmx" ==> Prepare(c) == []
    ensures c.format == "OVA" ==> Prepare(c) == [InvalidFormat]
    ensures c.format !in KnownFormats && c.format != "" ==> |Prepare(c)| == 1
  {
  }
}
