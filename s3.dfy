/**
 * The S3 sink (internal/pkg/storage/s3/s3.go): the client constructor, the level
 * mapping of the SDK logger and the return contract of `Write`. Loading the AWS
 * configuration and the upload itself are parameters standing for the SDK.
 */
module S3Storage {
  import opened Wrappers
  import opened Text

  datatype S3Config = S3Config(bucketName: string, endpoint: string, region: string, insecure: bool)

  datatype S3Client = S3Client(bucket: string, endpoint: string, insecure: bool, region: string,
                               forcePathStyle: bool, fileName: string)

  /**
   * `NewS3`: path-style addressing exactly when a custom endpoint is given; an
   * empty bucket is refused, everything else is stored as given.
   */
  function NewS3(cfg: S3Config, fileName: string): (r: Result<S3Client, Error>)
    ensures r.Failure? <==> cfg.bucketName == ""
    ensures r.Failure? ==> r.error == Error("S3_BUCKET is not set")
    ensures r.Success? ==>
      r.value.bucket == cfg.bucketName && r.value.endpoint == cfg.endpoint && r.value.insecure == cfg.insecure
      && r.value.region == cfg.region && r.value.fileName == fileName
    ensures r.Success? ==> (r.value.forcePathStyle <==> cfg.endpoint != "")
  {
    var forcePathStyle := cfg.endpoint != "";
    var client := S3Client(cfg.bucketName, cfg.endpoint, cfg.insecure, cfg.region, forcePathStyle, fileName);
    if client.bucket == "" then Failure(Error("S3_BUCKET is not set")) else Success(client)
  }

  // ---------------------------------------------------------------------------
  // The SDK logger
  // ---------------------------------------------------------------------------

  /** A Smithy log classification is a string; these are the two it names. */
  type Classification = string
  const ClassificationDebug: Classification := "DEBUG"
  const ClassificationWarn: Classification := "WARN"

  datatype LogLevel = DebugLevel | WarnLevel | InfoLevel

  /** `zerologLogger.Logf`: the zerolog level a message of each classification is logged at. */
  function LogLevelFor(classification: Classification): (level: LogLevel)
    ensures level == DebugLevel <==> classification == ClassificationDebug
    ensures level == WarnLevel <==> classification == ClassificationWarn
    ensures level == InfoLevel <==> classification != ClassificationDebug && classification != ClassificationWarn
  {
    if classification == ClassificationDebug then DebugLevel
    else if classification == ClassificationWarn then WarnLevel
    else InfoLevel
  }

  // ---------------------------------------------------------------------------
  // Write
  // ---------------------------------------------------------------------------

  datatype Credentials = StaticCredentials(accessKeyId: string, secretAccessKey: string) | DefaultCredentialChain

  /** What `config.LoadDefaultConfig` is asked for. */
  datatype ConfigRequest = ConfigRequest(region: string, credentials: Credentials)

  /** What the transfer manager is asked to upload, with the client options it runs under. */
  datatype Upload = Upload(bucket: string, key: string, body: Bytes, usePathStyle: bool, baseEndpoint: Option<string>)

  /** The error loading the configuration gives, if any. */
  type ConfigLoader = ConfigRequest -> Option<Error>

  /** The error the upload gives, if any. */
  type Uploader = Upload -> Option<Error>

  /** A custom endpoint (a test server or MinIO) gets fixed placeholder credentials. */
  function ConfigRequestFor(c: S3Client): (r: ConfigRequest)
    ensures r.region == c.region
    ensures r.credentials.StaticCredentials? <==> c.endpoint != ""
    ensures r.credentials.StaticCredentials? ==>
      r.credentials == StaticCredentials("test-access-key", "test-secret-key")
  {
    if c.endpoint != "" then ConfigRequest(c.region, StaticCredentials("test-access-key", "test-secret-key"))
    else ConfigRequest(c.region, DefaultCredentialChain)
  }

  /** The object is stored under the client's file name, at the custom endpoint if there is one. */
  function UploadFor(c: S3Client, content: Bytes): (u: Upload)
    ensures u.bucket == c.bucket && u.key == c.fileName && u.body == content
    ensures u.usePathStyle == c.forcePathStyle
    ensures u.baseEndpoint.Some? <==> c.endpoint != ""
    ensures u.baseEndpoint.Some? ==> u.baseEndpoint.value == c.endpoint
  {
    Upload(c.bucket, c.fileName, content, c.forcePathStyle, if c.endpoint != "" then Some(c.endpoint) else None)
  }

  /**
   * `s3Client.Write`: a configuration error, then an upload error, is returned
   * with 0; otherwise the length of the content.
   */
  function Write(c: S3Client, content: Bytes, loadConfig: ConfigLoader, upload: Uploader): (r: (int, Option<Error>))
    ensures r.1.Some? ==> r.0 == 0
    ensures r.1.None? ==> r.0 == |content|
    ensures loadConfig(ConfigRequestFor(c)).Some? ==> r.1 == loadConfig(ConfigRequestFor(c))
    ensures loadConfig(ConfigRequestFor(c)).None? ==> r.1 == upload(UploadFor(c, content))
  {
    var configError := loadConfig(ConfigRequestFor(c));
    if configError.Some? then (0, configError)
    else
      var uploadError := upload(UploadFor(c, content));
      if uploadError.Some? then (0, uploadError) else (|content|, None)
  }

  /**
   * For a client `NewS3` built, the three endpoint-dependent choices agree:
   * path-style addressing, the endpoint override and the placeholder credentials
   * all come together, exactly when the configuration names an endpoint.
   */
  lemma NewS3EndpointChoices(cfg: S3Config, fileName: string, content: Bytes)
    requires NewS3(cfg, fileName).Success?
    ensures UploadFor(NewS3(cfg, fileName).value, content).usePathStyle <==> cfg.endpoint != ""
    ensures UploadFor(NewS3(cfg, fileName).value, content).baseEndpoint.Some? <==> cfg.endpoint != ""
    ensures ConfigRequestFor(NewS3(cfg, fileName).value).credentials.StaticCredentials? <==> cfg.endpoint != ""
  {
  }

  /** A successful write of empty content reports 0 bytes, like a failing one. */
  lemma WriteEmptyContent(c: S3Client, loadConfig: ConfigLoader, upload: Uploader)
    ensures Write(c, [], loadConfig, upload).0 == 0
  {
  }
}
