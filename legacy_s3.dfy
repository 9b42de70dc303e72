/**
 * The legacy S3 uploader (internal/cmd/imagecollector/storage/s3/s3.go): its
 * constructor, the object key of an upload and what `Upload` returns. The AWS
 * session and the upload manager are parameters standing for the SDK.
 */
module LegacyS3 {
  import opened Wrappers
  import opened Text

  datatype S3Parameters = S3Parameters(bucket: string, endpoint: string, insecure: bool, region: string,
                                       forcePathStyle: bool)

  /** `NewS3`: path style exactly for a custom endpoint; an empty bucket is refused. */
  function NewS3(bucketName: string, endpoint: string, region: string, insecure: bool): (r: Result<S3Parameters, Error>)
    ensures r.Failure? <==> bucketName == ""
    ensures r.Failure? ==> r.error == Error("S3_BUCKET is not set")
    ensures r.Success? ==> r.value == S3Parameters(bucketName, endpoint, insecure, region, endpoint != "")
  {
    var forcePathStyle := endpoint != "";
    var s3 := S3Parameters(bucketName, endpoint, insecure, region, forcePathStyle);
    if s3.bucket == "" then Failure(Error("S3_BUCKET is not set")) else Success(s3)
  }

  /** The object key: the environment, then "/imagecollector/", then the base of the file name. */
  function ObjectKey(environmentName: string, fileName: string): string {
    environmentName + "/imagecollector/" + PathBase(fileName)
  }

  /** What a session is opened with. */
  datatype SessionConfig = SessionConfig(disableSsl: bool, forcePathStyle: bool, region: string, endpoint: string)

  datatype UploadInput = UploadInput(bucket: string, key: string, body: Bytes)

  /**
   * `Upload`: the session error, if the session cannot be created, else the
   * error of uploading the content under `ObjectKey`, else none.
   */
  function Upload(s3: S3Parameters, content: Bytes, fileName: string, environmentName: string,
                  newSession: SessionConfig -> Option<Error>, upload: UploadInput -> Option<Error>): (err: Option<Error>)
    ensures newSession(SessionConfig(s3.insecure, s3.forcePathStyle, s3.region, s3.endpoint)).Some? ==>
      err == newSession(SessionConfig(s3.insecure, s3.forcePathStyle, s3.region, s3.endpoint))
    ensures newSession(SessionConfig(s3.insecure, s3.forcePathStyle, s3.region, s3.endpoint)).None? ==>
      err == upload(UploadInput(s3.bucket, ObjectKey(environmentName, fileName), content))
  {
    var sessionError := newSession(SessionConfig(s3.insecure, s3.forcePathStyle, s3.region, s3.endpoint));
    if sessionError.Some? then sessionError
    else upload(UploadInput(s3.bucket, ObjectKey(environmentName, fileName), content))
  }

  /** Directories in the file name play no part in the key. */
  lemma ObjectKeyDropsDirectories(environmentName: string, dir: string, name: string)
    requires name != "" && '/' !in name
    ensures ObjectKey(environmentName, dir + "/" + name) == ObjectKey(environmentName, name)
    ensures ObjectKey(environmentName, name) == environmentName + "/imagecollector/" + name
  {
    PathBaseDropsDirectories(dir, name);
    PathBaseOfName(name);
  }

  /** Trailing slashes are dropped too. */
  lemma ObjectKeyTrailingSlash(environmentName: string, fileName: string)
    requires fileName != ""
    ensures ObjectKey(environmentName, fileName + "/") == ObjectKey(environmentName, fileName)
  {
    PathBaseTrailingSlash(fileName);
  }

  /** An empty file name ends the key in ".". */
  lemma ObjectKeyEmptyName(environmentName: string)
    ensures ObjectKey(environmentName, "") == environmentName + "/imagecollector/."
  {
  }

  /** The key never ends at the "/imagecollector/" separator: its last part is never empty. */
  lemma ObjectKeyHasName(environmentName: string, fileName: string)
    ensures |ObjectKey(environmentName, fileName)| > |environmentName + "/imagecollector/"|
  {
  }
}
