/**
 * Legacy storage selection (internal/cmd/imagecollector/storage/storage.go): one
 * switch over the storage flag. The git and file-system sinks are not part of this
 * model, so their constructors are parameters.
 */
module LegacyStorage {
  import opened Wrappers
  import LegacyS3

  datatype StorageConfig = StorageConfig(
    storageFlag: string,
    s3BucketName: string,
    s3Endpoint: string,
    s3Region: string,
    s3Insecure: bool,
    fsBaseDir: string,
    gitUrl: string,
    gitDirectory: string,
    gitPrivateKeyFile: string,
    gitPassword: string,
    githubAppId: int,
    githubInstallationId: int)

  /** The arguments of the legacy `NewGit`, in order. */
  datatype GitArgs = GitArgs(url: string, directory: string, privateKeyFile: string, password: string,
                             githubAppId: int, githubInstallationId: int)

  /** The `Storager` chosen; git and fs storers are whatever their constructors build. */
  datatype Storager<G, F> = S3Storager(s3: LegacyS3.S3Parameters) | GitStorager(git: G) | FsStorager(fs: F)

  /**
   * `NewStorage`: "s3", "git" and "fs" select their storer and pass the
   * constructor's error on; every other flag, "api" and "stdout" among them, is refused.
   */
  function NewStorage<G, F>(cfg: StorageConfig, newGit: GitArgs -> Result<G, Error>,
                            newFs: string -> Result<F, Error>): (r: Result<Storager<G, F>, Error>)
    ensures cfg.storageFlag == "s3" ==>
      r == MapValue(LegacyS3.NewS3(cfg.s3BucketName, cfg.s3Endpoint, cfg.s3Region, cfg.s3Insecure), s => S3Storager(s))
    ensures cfg.storageFlag == "git" ==>
      r == MapValue(newGit(GitArgs(cfg.gitUrl, cfg.gitDirectory, cfg.gitPrivateKeyFile, cfg.gitPassword,
                                   cfg.githubAppId, cfg.githubInstallationId)), g => GitStorager(g))
    ensures cfg.storageFlag == "fs" ==> r == MapValue(newFs(cfg.fsBaseDir), f => FsStorager(f))
    ensures cfg.storageFlag !in {"s3", "git", "fs"} ==>
      r == Failure(Error("Storage flag " + cfg.storageFlag + " is not supported"))
  {
    match cfg.storageFlag
    case "s3" => MapValue(LegacyS3.NewS3(cfg.s3BucketName, cfg.s3Endpoint, cfg.s3Region, cfg.s3Insecure), s => S3Storager(s))
    case "git" =>
      MapValue(newGit(GitArgs(cfg.gitUrl, cfg.gitDirectory, cfg.gitPrivateKeyFile, cfg.gitPassword,
                              cfg.githubAppId, cfg.githubInstallationId)), g => GitStorager(g))
    case "fs" => MapValue(newFs(cfg.fsBaseDir), f => FsStorager(f))
    case _ => Failure(Error("Storage flag " + cfg.storageFlag + " is not supported"))
  }

  /** The s3 storer is built from bucket, endpoint, region and the insecure flag, in that order. */
  lemma S3ArgumentOrder<G, F>(cfg: StorageConfig, newGit: GitArgs -> Result<G, Error>, newFs: string -> Result<F, Error>)
    requires cfg.storageFlag == "s3" && cfg.s3BucketName != ""
    ensures NewStorage(cfg, newGit, newFs)
         == Success(S3Storager(LegacyS3.S3Parameters(cfg.s3BucketName, cfg.s3Endpoint, cfg.s3Insecure, cfg.s3Region,
                                                    cfg.s3Endpoint != "")))
  {
  }

  /** The legacy switch knows neither the api nor the stdout sink. */
  lemma ApiAndStdoutUnsupported<G, F>(cfg: StorageConfig, newGit: GitArgs -> Result<G, Error>,
                                      newFs: string -> Result<F, Error>)
    requires cfg.storageFlag == "api" || cfg.storageFlag == "stdout"
    ensures NewStorage(cfg, newGit, newFs).Failure?
    ensures NewStorage(cfg, newGit, newFs).error == Error("Storage flag " + cfg.storageFlag + " is not supported")
  {
    assert cfg.storageFlag[0] in {'a', 's'} && |cfg.storageFlag| in {3, 6};
  }
}
