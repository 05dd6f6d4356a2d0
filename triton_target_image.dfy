/** The Triton builder's target image settings
    (builder/triton/target_image_config.go): Prepare requires a name and a
    version and changes nothing. */
module TritonTargetImage {

  datatype TargetImageConfig = TargetImageConfig(
    imageName: string,
    imageVersion: string,
    imageDescription: string,
    imageHomepage: string,
    imageEula: string,
    imageAcl: seq<string>,
    imageTags: map<string, string>)

  datatype TargetImageError = ImageNameMissing | ImageVersionMissing

  /** Prepare: one error per missing field, the name's first. It reads the
      configuration and writes nothing, so it is a function here. */
  function Prepare(c: TargetImageConfig): (r: seq<TargetImageError>)
    ensures ImageNameMissing in r <==> c.imageName == ""
    ensures ImageVersionMissing in r <==> c.imageVersion == ""
    ensures r == [] <==> c.imageName != "" && c.imageVersion != ""
    ensures |r| <= 2
    ensures |r| == 2 ==> r == [ImageNameMissing, ImageVersionMissing]
  {
    (if c.imageName == "" then [ImageNameMissing] else []) +
    (if c.imageVersion == "" then [ImageVersionMissing] else [])
  }

  /** With both fields missing there are exactly two errors, the name's
      first; the optional fields never matter. */
  lemma BothMissing(c: TargetImageConfig)
    requires c.imageName == "" && c.imageVersion == ""
    ensures Prepare(c) == [ImageNameMissing, ImageVersionMissing]
  {
  }

  lemma OptionalFieldsIgnored(c: TargetImageConfig, d: TargetImageConfig)
    requires c.imageName == d.imageName && c.imageVersion == d.imageVersion
    ensures Prepare(c) == Prepare(d)
  {
  }
}
