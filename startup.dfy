/**
 * Start-up of the prober daemon: the values of the `start` command's flags
 * are checked and turned into the exporter every probe request uses.
 */
module Startup {
  import opened Wrappers
  import Prober

  /** The values of the `start` command's flags, after the CLI applied environment variables and defaults. */
  datatype Flags = Flags(
    listen: string,
    timeout: int,
    accessKey: string,
    secretKey: string,
    endpoint: string,
    bucket: string,
    filename: string,
    skipmakedeletebucket: bool)

  const FlagBucket := "bucket"
  const FlagEndpoint := "endpoint"
  const FlagAccessKey := "accesskey"
  const FlagSecretKey := "secretkey"
  const FlagFilename := "filename"

  /** The error for a required flag left empty. */
  function EmptyFlagError(name: string): string {
    "invalid empty flag " + name
  }

  /** The required flags, each with its value, in the order they are checked. */
  function Required(c: Flags): seq<(string, string)> {
    [(FlagBucket, c.bucket), (FlagEndpoint, c.endpoint), (FlagAccessKey, c.accessKey),
     (FlagSecretKey, c.secretKey), (FlagFilename, c.filename)]
  }

  /** The position of the first flag whose value is empty, or the number of flags when none is. */
  function FirstEmpty(flags: seq<(string, string)>): (k: nat)
    ensures k <= |flags|
    ensures forall j :: 0 <= j < k ==> flags[j].1 != ""
    ensures k < |flags| ==> flags[k].1 == ""
  {
    if flags == [] || flags[0].1 == "" then 0
    else
      var k := 1 + FirstEmpty(flags[1..]);
      assert forall j :: 1 <= j < |flags| ==> flags[j] == flags[1..][j - 1];
      k
  }

  /**
   * Checks the required flags in order and builds the exporter; the first
   * empty one is reported by name. The listen address only configures the
   * HTTP server.
   */
  function StartDaemon(c: Flags): (r: Result<Prober.Exporter, string>)
    ensures r.Ok? <==> c.bucket != "" && c.endpoint != "" && c.accessKey != "" && c.secretKey != "" && c.filename != ""
    ensures r.Ok? ==>
      r.value.bucket == c.bucket && r.value.endpoint == c.endpoint &&
      r.value.accessKey == c.accessKey && r.value.secretKey == c.secretKey &&
      r.value.filename == c.filename && r.value.skipmakedeletebucket == c.skipmakedeletebucket &&
      r.value.opTimeout == c.timeout
  {
    if c.bucket == "" then Err(EmptyFlagError(FlagBucket))
    else if c.endpoint == "" then Err(EmptyFlagError(FlagEndpoint))
    else if c.accessKey == "" then Err(EmptyFlagError(FlagAccessKey))
    else if c.secretKey == "" then Err(EmptyFlagError(FlagSecretKey))
    else if c.filename == "" then Err(EmptyFlagError(FlagFilename))
    else
      Ok(Prober.Exporter(
        bucket := c.bucket,
        endpoint := c.endpoint,
        accessKey := c.accessKey,
        secretKey := c.secretKey,
        filename := c.filename,
        skipmakedeletebucket := c.skipmakedeletebucket,
        opTimeout := c.timeout))
  }

  /**
   * Start-up fails exactly when some required flag is empty, and then names
   * the first empty one in the order bucket, endpoint, accesskey, secretkey,
   * filename.
   */
  lemma StartDaemonReportsFirstEmpty(c: Flags)
    ensures var k := FirstEmpty(Required(c));
      && (StartDaemon(c).Ok? <==> k == |Required(c)|)
      && (StartDaemon(c).Err? ==> StartDaemon(c).error == EmptyFlagError(Required(c)[k].0))
  {
    var flags := Required(c);
    var k := FirstEmpty(flags);
    if k < |flags| {
      assert forall j :: 0 <= j < k ==> flags[j].1 != "";
      if k == 0 {
        assert c.bucket == "";
      } else if k == 1 {
        assert flags[0].1 != "" && c.endpoint == "";
      } else if k == 2 {
        assert flags[0].1 != "" && flags[1].1 != "" && c.accessKey == "";
      } else if k == 3 {
        assert flags[0].1 != "" && flags[1].1 != "" && flags[2].1 != "" && c.secretKey == "";
      } else {
        assert flags[0].1 != "" && flags[1].1 != "" && flags[2].1 != "" && flags[3].1 != "" && c.filename == "";
      }
    } else {
      assert forall j :: 0 <= j < |flags| ==> flags[j].1 != "";
      assert flags[0].1 != "" && flags[1].1 != "" && flags[2].1 != "" && flags[3].1 != "" && flags[4].1 != "";
    }
  }
}
