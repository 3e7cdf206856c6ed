/** The start-up checks of both program versions, after flag parsing: required
    parameters and, in 2.0.0, the defaulting of the source side to the destination. */
module Config {

  /** Either the process exits with `code`, or it goes on with `settings`. */
  datatype Startup<S> = Exit(code: int) | Proceed(settings: S)

  /** The 2.0.0 flags the start-up check reads. */
  datatype Flags = Flags(
    inputFile: string,
    destinationAccessKey: string,
    destinationSecretKey: string,
    destinationBucketName: string,
    sourceBucketName: string,
    sourceAccessKey: string,
    sourceSecretKey: string,
    sourceEndpoint: string)

  /** The source side as the rest of 2.0.0 uses it. */
  datatype Source = Source(isS3: bool, bucketName: string, accessKey: string, secretKey: string, endpoint: string)

  function OrDefault(value: string, default: string): string {
    if value == "" then default else value
  }

  predicate MissingRequired(f: Flags) {
    f.inputFile == "" || f.destinationAccessKey == "" || f.destinationSecretKey == "" || f.destinationBucketName == ""
  }

  /** Version 2.0.0: a missing required parameter exits 1; copy mode is on exactly when
      a source endpoint is given; an empty source bucket, access key or secret key
      falls back to the destination's; the endpoint has no such default. */
  function StartV2(f: Flags): (r: Startup<Source>)
    ensures r.Exit? <==> MissingRequired(f)
    ensures r.Exit? ==> r.code == 1
    ensures r.Proceed? ==>
              && (r.settings.isS3 <==> f.sourceEndpoint != "")
              && r.settings.bucketName != "" && r.settings.accessKey != "" && r.settings.secretKey != ""
              && (f.sourceBucketName != "" ==> r.settings.bucketName == f.sourceBucketName)
              && (f.sourceAccessKey != "" ==> r.settings.accessKey == f.sourceAccessKey)
              && (f.sourceSecretKey != "" ==> r.settings.secretKey == f.sourceSecretKey)
              && (f.sourceBucketName == "" ==> r.settings.bucketName == f.destinationBucketName)
              && (f.sourceAccessKey == "" ==> r.settings.accessKey == f.destinationAccessKey)
              && (f.sourceSecretKey == "" ==> r.settings.secretKey == f.destinationSecretKey)
              && r.settings.endpoint == f.sourceEndpoint
  {
    if MissingRequired(f) then Exit(1)
    else Proceed(Source(
      f.sourceEndpoint != "",
      OrDefault(f.sourceBucketName, f.destinationBucketName),
      OrDefault(f.sourceAccessKey, f.destinationAccessKey),
      OrDefault(f.sourceSecretKey, f.destinationSecretKey),
      f.sourceEndpoint))
  }

  /** Defaulting is idempotent: giving back the resolved source values changes nothing. */
  lemma StartV2Idempotent(f: Flags)
    requires StartV2(f).Proceed?
    ensures var s := StartV2(f).settings;
            StartV2(f.(sourceBucketName := s.bucketName, sourceAccessKey := s.accessKey, sourceSecretKey := s.secretKey)) == StartV2(f)
  {
  }

  /** The 1.0.1 flags the start-up check reads. */
  datatype ScotFlags = ScotFlags(inputFile: string, accessKey: string, secretKey: string, bucketName: string)

  /** Version 1.0.1: the same check, but it exits with status 0. */
  function StartV1(f: ScotFlags): (r: Startup<ScotFlags>)
    ensures r.Exit? <==> (f.inputFile == "" || f.accessKey == "" || f.secretKey == "" || f.bucketName == "")
    ensures r.Exit? ==> r.code == 0
    ensures r.Proceed? ==> r.settings == f
  {
    if f.inputFile == "" || f.accessKey == "" || f.secretKey == "" || f.bucketName == "" then Exit(0)
    else Proceed(f)
  }

  /** The two versions agree on when to stop and disagree on the status. */
  lemma StartVersionsDiffer(f: Flags)
    requires MissingRequired(f)
    ensures StartV2(f) == Exit(1)
    ensures StartV1(ScotFlags(f.inputFile, f.destinationAccessKey, f.destinationSecretKey, f.destinationBucketName)) == Exit(0)
  {
  }
}
