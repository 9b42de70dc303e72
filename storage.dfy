/**
 * Sink selection (internal/pkg/storage/storage.go): the file name default and the
 * switch over the storage flag. The git sink and file creation are not part of
 * this model beyond their selection, so they are parameters.
 */
module Storage {
  import opened Wrappers
  import ApiStorage
  import S3Storage

  /** The configuration of every sink; the git settings stay a type parameter. */
  datatype StorageConfig<GitConfig> = StorageConfig(s3: S3Storage.S3Config, git: GitConfig, api: ApiStorage.ApiConfig,
                                                    storageFlag: string, fileName: string)

  /** The `io.Writer` chosen; the git writer is whatever `NewGit` builds. */
  datatype Sink<GitWriter> =
    | S3Sink(client: S3Storage.S3Client)
    | ApiSink(config: ApiStorage.ApiConfig)
    | GitSink(writer: GitWriter)
    | FileSink(name: string)
    | StdoutSink

  /** The file name used by the s3, git and fs sinks. */
  function OutputFileName<G>(cfg: StorageConfig<G>, environment: string): (name: string)
    ensures cfg.fileName != "" ==> name == cfg.fileName
    ensures cfg.fileName == "" ==> name == environment + "-output.json"
  {
    if cfg.fileName == "" then environment + "-output.json" else cfg.fileName
  }

  /**
   * `NewStorage`: "s3", "api", "git", "fs" and "stdout" select their sink, matched
   * exactly; `createFile` is the error `os.Create` gives for a name, if any. The
   * chosen constructor's error is passed on unchanged; any other flag is refused.
   */
  function NewStorage<G, W>(cfg: StorageConfig<G>, environment: string, newGit: (G, string) -> Result<W, Error>,
                            createFile: string -> Option<Error>): (r: Result<Sink<W>, Error>)
    ensures cfg.storageFlag == "s3" ==>
      r == MapValue(S3Storage.NewS3(cfg.s3, OutputFileName(cfg, environment)), c => S3Sink(c))
    ensures cfg.storageFlag == "api" ==> r == MapValue(ApiStorage.NewApi(cfg.api), a => ApiSink(a))
    ensures cfg.storageFlag == "git" ==> r == MapValue(newGit(cfg.git, OutputFileName(cfg, environment)), w => GitSink(w))
    ensures cfg.storageFlag == "fs" ==>
      r == (if createFile(OutputFileName(cfg, environment)).Some? then Failure(createFile(OutputFileName(cfg, environment)).value)
            else Success(FileSink(OutputFileName(cfg, environment))))
    ensures cfg.storageFlag == "stdout" ==> r == Success(StdoutSink)
    ensures cfg.storageFlag !in {"s3", "api", "git", "fs", "stdout"} ==>
      r == Failure(Error("Storage flag " + cfg.storageFlag + " is not supported"))
  {
    var filename := OutputFileName(cfg, environment);
    match cfg.storageFlag
    case "s3" => MapValue(S3Storage.NewS3(cfg.s3, filename), c => S3Sink(c))
    case "api" => MapValue(ApiStorage.NewApi(cfg.api), a => ApiSink(a))
    case "git" => MapValue(newGit(cfg.git, filename), w => GitSink(w))
    case "fs" =>
      var err := createFile(filename);
      if err.Some? then Failure(err.value) else Success(FileSink(filename))
    case "stdout" => Success(StdoutSink)
    case _ => Failure(Error("Storage flag " + cfg.storageFlag + " is not supported"))
  }

  /** The API sink ignores both the file name and the environment. */
  lemma ApiSinkIgnoresFileName<G, W>(cfg: StorageConfig<G>, fileName: string, environment: string, environment': string,
                                      newGit: (G, string) -> Result<W, Error>, createFile: string -> Option<Error>)
    requires cfg.storageFlag == "api"
    ensures NewStorage(cfg.(fileName := fileName), environment', newGit, createFile)
         == NewStorage(cfg, environment, newGit, createFile)
  {
  }

  /** Without a file name the s3 client stores the object as "<environment>-output.json". */
  lemma S3DefaultObjectName<G, W>(cfg: StorageConfig<G>, environment: string,
                                  newGit: (G, string) -> Result<W, Error>, createFile: string -> Option<Error>)
    requires cfg.storageFlag == "s3" && cfg.fileName == "" && cfg.s3.bucketName != ""
    ensures NewStorage(cfg, environment, newGit, createFile).Success?
    ensures NewStorage(cfg, environment, newGit, createFile).value.S3Sink?
    ensures NewStorage(cfg, environment, newGit, createFile).value.client.fileName == environment + "-output.json"
  {
  }

  /** The flag is matched case-sensitively: "S3" is not "s3". */
  lemma FlagIsCaseSensitive<G, W>(cfg: StorageConfig<G>, environment: string,
                                  newGit: (G, string) -> Result<W, Error>, createFile: string -> Option<Error>)
    requires cfg.storageFlag == "S3"
    ensures NewStorage(cfg, environment, newGit, createFile) == Failure(Error("Storage flag " + "S3" + " is not supported"))
  {
    assert cfg.storageFlag[0] == 'S' && cfg.storageFlag[1] == '3';
  }
}
