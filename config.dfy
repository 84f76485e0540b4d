/**
 * The scaffold configuration record and its defaults.  Go's enumerated
 * string types (database, package manager, storage kind) are strings here,
 * with the constants the scaffold compares against; Go's nil pointers to
 * storage sub-configurations are `Option`s.
 */
module ScaffoldConfig {
  import opened Wrappers
  import opened Text
  import opened ValidateInputs

  const DatabasePostgres := "postgres"
  const PackageBun := "bun"
  const StorageLocal := "local"
  const StorageS3 := "s3"

  datatype DBConnection = DBConnection(
    host: string, port: string, user: string, password: string, name: string, sslMode: string)

  datatype S3Config = S3Config(
    endpoint: string, region: string, bucket: string, accessKey: string, secretKey: string)

  datatype LocalStorageConfig = LocalStorageConfig(path: string)

  datatype StorageConfig = StorageConfig(
    kind: string, s3: Option<S3Config>, local: Option<LocalStorageConfig>)

  datatype ScaffoldConfiguration = ScaffoldConfiguration(
    projectName: string,
    destination: string,
    modulePath: string,
    includeWeb: bool,
    databaseType: string,
    dbConnection: DBConnection,
    packageManager: string,
    includeDocker: bool,
    initGit: bool,
    storage: StorageConfig,
    useDefaults: bool)

  const DefaultModuleOwner := "github.com/yourorg"

  /** scaffold.DefaultConfig: every optional part switched on, local storage
      under "storage", the Postgres defaults, and a module path under the
      placeholder owner. */
  function DefaultConfig(): (cfg: ScaffoldConfiguration)
    ensures cfg.includeWeb && cfg.includeDocker && cfg.initGit && cfg.useDefaults
    ensures cfg.destination == ""
    ensures cfg.storage.kind == StorageLocal && cfg.storage.s3 == None
    ensures cfg.storage.local == Some(LocalStorageConfig("storage"))
    ensures cfg.databaseType == DatabasePostgres && cfg.packageManager == PackageBun
    ensures cfg.projectName == "my-app"
    ensures cfg.modulePath == DefaultModuleOwner + "/" + cfg.projectName
    ensures cfg.dbConnection == DBConnection("localhost", "5432", "postgres", "postgres", "app", "disable")
  {
    ScaffoldConfiguration(
      projectName := "my-app",
      destination := "",
      modulePath := "github.com/yourorg/my-app",
      includeWeb := true,
      databaseType := DatabasePostgres,
      dbConnection := DBConnection("localhost", "5432", "postgres", "postgres", "app", "disable"),
      packageManager := PackageBun,
      includeDocker := true,
      initGit := true,
      storage := StorageConfig(StorageLocal, None, Some(LocalStorageConfig("storage"))),
      useDefaults := true)
  }

  /** The default project name and module path pass both validators. */
  lemma {:induction false} DefaultConfigValid()
    ensures ProjectName(DefaultConfig().projectName).Pass?
    ensures ModulePath(DefaultConfig().modulePath).Pass?
  {
    DefaultNameValid("my-app");
    DefaultModuleValid("github.com/yourorg/my-app");
  }

  lemma {:induction false} DefaultNameValid(name: string)
    requires name == "my-app"
    ensures ProjectName(name).Pass?
  {
    assert !IsSpace(name[0]);
    assert forall i | 0 <= i < |name| :: !IsForbiddenNameChar(name[i]);
  }

  lemma {:induction false} DefaultModuleValid(path: string)
    requires path == "github.com/yourorg/my-app"
    ensures ModulePath(path).Pass?
  {
    ThreeSegmentsAccepted("github.com", "yourorg", "my-app");
    DefaultModuleSpelling();
  }

  lemma {:induction false} DefaultModuleSpelling()
    ensures "github.com" + "/" + "yourorg" + "/" + "my-app" == "github.com/yourorg/my-app"
  {
  }
}
