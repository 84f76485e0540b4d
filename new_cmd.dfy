/**
 * The non-interactive `new` command: building the scaffold configuration
 * from the command-line arguments and flags, and the destination check made
 * before the scaffolder runs.
 */
module NewCommand {
  import opened Wrappers
  import opened ScaffoldConfig
  import ValidateInputs
  import ValidatePath

  const NameRequired := "project name is required (arg or --name)"
  const ModuleRequired := "module path is required (--module)"
  const S3DetailsRequired := "s3 storage selected: all s3 connection details are required"

  /** The flags of `new`, one field per flag. */
  datatype NewFlags = NewFlags(
    name: string, modulePath: string,
    web: bool, noWeb: bool, docker: bool, noDocker: bool, git: bool, noGit: bool,
    db: string, dbHost: string, dbPort: string, dbUser: string, dbPassword: string, dbName: string, dbSslMode: string,
    pkg: string, storage: string,
    s3Endpoint: string, s3Region: string, s3Bucket: string, s3Access: string, s3Secret: string)

  /** Every S3 connection flag was given. */
  predicate S3Complete(f: NewFlags) {
    f.s3Endpoint != "" && f.s3Region != "" && f.s3Bucket != "" && f.s3Access != "" && f.s3Secret != ""
  }

  /** The destination argument: the second positional argument, or the
      default configuration's empty destination. */
  function DestinationArg(args: seq<string>): string {
    if |args| > 1 then args[1] else DefaultConfig().destination
  }

  // ------------------------------------------------------------- the name

  /** The project name as configFromFlags picks it: the first argument, else
      a non-empty `--name`, else the default configuration's name. */
  function NameAsWritten(args: seq<string>, flags: NewFlags): string {
    if |args| > 0 then args[0]
    else if flags.name != "" then flags.name
    else DefaultConfig().projectName
  }

  /** The name check fires only for an explicitly empty first argument. */
  lemma {:induction false} NameCheckOnlyForEmptyArg(args: seq<string>, flags: NewFlags)
    ensures NameAsWritten(args, flags) == "" <==> |args| > 0 && args[0] == ""
  {
  }

  /** configFromFlags called with neither an argument nor `--name` raises
      no error and takes the default name "my-app", although the error
      message says a name is required.  The `new` command itself never
      makes that call: without an argument it opens the wizard (see Route). */
  lemma {:induction false} NameFallsBackToDefault(flags: NewFlags)
    requires flags.name == ""
    ensures NameAsWritten([], flags) == "my-app"
    ensures NameAsWritten([], flags) != ""
  {
  }

  /** The name the user asked for: the first argument, else `--name`, with
      no fallback; an empty result means none was given. */
  function RequestedName(args: seq<string>, flags: NewFlags): (r: string)
    ensures |args| > 0 ==> r == args[0]
    ensures r == "" <==> (|args| == 0 && flags.name == "") || (|args| > 0 && args[0] == "")
  {
    if |args| > 0 then args[0] else flags.name
  }

  /** Where the `new` command sends an invocation (new.go:69-76). */
  datatype NewRoute = Wizard | FromFlags

  /** As written: `--interactive`, or no argument at all, opens the wizard;
      anything else goes through configFromFlags. */
  function Route(interactive: bool, args: seq<string>): (route: NewRoute)
    ensures route == FromFlags <==> !interactive && |args| > 0
  {
    if interactive || |args| == 0 then Wizard else FromFlags
  }

  /**
   * `--name` never names the project: an invocation without an argument
   * opens the wizard, and one with an argument takes the argument's name,
   * whatever `--name` says.
   */
  lemma {:induction false} NameFlagIgnored(interactive: bool, args: seq<string>, flags: NewFlags)
    ensures Route(interactive, args) == FromFlags ==>
              NameAsWritten(args, flags) == args[0] && NameAsWritten(args, flags) == NameAsWritten(args, flags.(name := ""))
    ensures |args| == 0 ==> Route(interactive, args) == Wizard
  {
  }

  /** The dispatch the error message "(arg or --name)" describes: the wizard
      only when asked for, or when neither the argument nor `--name` names
      the project. */
  function IntendedRoute(interactive: bool, args: seq<string>, flags: NewFlags): NewRoute {
    if interactive || (|args| == 0 && flags.name == "") then Wizard else FromFlags
  }

  /** Under the intended dispatch `--name` names a project given without an
      argument, and every invocation sent to configFromFlags carries a name
      unless the argument itself is empty. */
  lemma {:induction false} NameFlagHonoured(interactive: bool, args: seq<string>, flags: NewFlags)
    ensures !interactive && |args| == 0 && flags.name != "" ==>
              IntendedRoute(interactive, args, flags) == FromFlags && RequestedName(args, flags) == flags.name
    ensures IntendedRoute(interactive, args, flags) == FromFlags ==>
              (RequestedName(args, flags) == "" <==> |args| > 0 && args[0] == "")
    ensures IntendedRoute(interactive, args, flags) == Wizard <==> interactive || (RequestedName(args, flags) == "" && |args| == 0)
  {
  }

  // ------------------------------------------------------------- configFromFlags

  /** cmd.configFromFlags as written: the name starts from the default
      configuration's, so the name error fires only for an explicitly empty
      first argument.  `cwd` is the working directory lookup used to make the
      destination absolute. */
  method ConfigFromFlags(args: seq<string>, flags: NewFlags, cwd: Result<string, string>)
    returns (r: Result<ScaffoldConfiguration, string>)
    ensures |args| > 0 && args[0] == "" ==> r == Failure(NameRequired)
    ensures (|args| == 0 || args[0] != "") && flags.modulePath == "" ==> r == Failure(ModuleRequired)
    ensures r.Success? && |args| == 0 && flags.name == "" ==> r.value.projectName == "my-app"
    ensures NameAsWritten(args, flags) == "" ==> r == Failure(NameRequired)
    ensures NameAsWritten(args, flags) != "" && flags.modulePath == "" ==> r == Failure(ModuleRequired)
    ensures (NameAsWritten(args, flags) != "" && flags.modulePath != "" && flags.storage == StorageS3
             && !S3Complete(flags)) ==> r == Failure(S3DetailsRequired)
    ensures r.Success? <==>
              NameAsWritten(args, flags) != "" && flags.modulePath != ""
              && (flags.storage == StorageS3 ==> S3Complete(flags))
              && ValidateInputs.ProjectName(NameAsWritten(args, flags)).Pass?
              && ValidateInputs.ModulePath(flags.modulePath).Pass?
              && ValidatePath.ResolveProjectDestination(DestinationArg(args), NameAsWritten(args, flags), cwd).Success?
    ensures r.Success? ==>
              r.value.projectName == NameAsWritten(args, flags) && r.value.modulePath == flags.modulePath
              && !r.value.useDefaults
              && r.value.destination
                 == ValidatePath.ResolveProjectDestination(DestinationArg(args), r.value.projectName, cwd).value
    ensures r.Success? ==>
              (r.value.includeWeb <==> flags.web && !flags.noWeb)
              && (r.value.includeDocker <==> flags.docker && !flags.noDocker)
              && (r.value.initGit <==> flags.git && !flags.noGit)
    ensures r.Success? ==>
              var db := r.value.dbConnection;
              var d := DefaultConfig().dbConnection;
              Overridden(flags.dbHost, d.host, db.host) && Overridden(flags.dbPort, d.port, db.port)
              && Overridden(flags.dbUser, d.user, db.user) && Overridden(flags.dbPassword, d.password, db.password)
              && Overridden(flags.dbName, d.name, db.name) && Overridden(flags.dbSslMode, d.sslMode, db.sslMode)
    ensures r.Success? ==>
              Overridden(flags.db, DatabasePostgres, r.value.databaseType)
              && r.value.packageManager == flags.pkg
    ensures r.Success? ==>
              r.value.storage.kind == flags.storage
              && r.value.storage.local == Some(LocalStorageConfig("storage"))
              && (flags.storage == StorageS3 ==>
                    r.value.storage.s3 == Some(S3Config(flags.s3Endpoint, flags.s3Region, flags.s3Bucket,
                                                        flags.s3Access, flags.s3Secret)))
              && (flags.storage != StorageS3 ==> r.value.storage.s3 == None)
    ensures r.Success? ==>
              ValidateInputs.ProjectName(r.value.projectName).Pass? && ValidateInputs.ModulePath(r.value.modulePath).Pass?
  {
    var name := NameAsWritten(args, flags);
    NameCheckOnlyForEmptyArg(args, flags);
    if name == "" {
      return Failure(NameRequired);
    }
    var cfg := DefaultConfig();
    cfg := cfg.(useDefaults := false, projectName := name);
    if |args| > 1 {
      cfg := cfg.(destination := args[1]);
    }
    if flags.modulePath == "" {
      return Failure(ModuleRequired);
    }
    var applied := ApplyFlags(cfg, flags);
    if applied.Failure? {
      return applied;
    }
    r := CheckAndResolve(applied.value, cwd);
  }

  /** The middle of configFromFlags: the module path, the feature switches
      (a `--no-*` flag wins over its positive flag), the database fields
      that were given, the package manager and the storage. */
  method ApplyFlags(cfg: ScaffoldConfiguration, flags: NewFlags) returns (r: Result<ScaffoldConfiguration, string>)
    requires cfg.storage.s3 == None && cfg.storage.local == Some(LocalStorageConfig("storage"))
    ensures r.Failure? <==> flags.storage == StorageS3 && !S3Complete(flags)
    ensures r.Failure? ==> r.error == S3DetailsRequired
    ensures r.Success? ==>
              r.value.projectName == cfg.projectName && r.value.destination == cfg.destination
              && r.value.useDefaults == cfg.useDefaults && r.value.modulePath == flags.modulePath
    ensures r.Success? ==>
              (r.value.includeWeb <==> flags.web && !flags.noWeb)
              && (r.value.includeDocker <==> flags.docker && !flags.noDocker)
              && (r.value.initGit <==> flags.git && !flags.noGit)
    ensures r.Success? ==>
              var db := r.value.dbConnection;
              var d := cfg.dbConnection;
              Overridden(flags.dbHost, d.host, db.host) && Overridden(flags.dbPort, d.port, db.port)
              && Overridden(flags.dbUser, d.user, db.user) && Overridden(flags.dbPassword, d.password, db.password)
              && Overridden(flags.dbName, d.name, db.name) && Overridden(flags.dbSslMode, d.sslMode, db.sslMode)
    ensures r.Success? ==>
              Overridden(flags.db, cfg.databaseType, r.value.databaseType)
              && r.value.packageManager == flags.pkg
    ensures r.Success? ==>
              r.value.storage.kind == flags.storage
              && r.value.storage.local == Some(LocalStorageConfig("storage"))
              && (flags.storage == StorageS3 ==>
                    r.value.storage.s3 == Some(S3Config(flags.s3Endpoint, flags.s3Region, flags.s3Bucket,
                                                        flags.s3Access, flags.s3Secret)))
              && (flags.storage != StorageS3 ==> r.value.storage.s3 == None)
  {
    var c := cfg.(modulePath := flags.modulePath);
    c := ApplySwitches(c, flags);
    c := ApplyDatabase(c, flags);
    c := c.(packageManager := flags.pkg);
    r := ApplyStorage(c, flags);
  }

  /** The three feature switches: a `--no-*` flag wins over its positive
      flag. */
  method ApplySwitches(cfg: ScaffoldConfiguration, flags: NewFlags) returns (c: ScaffoldConfiguration)
    ensures c == cfg.(includeWeb := c.includeWeb, includeDocker := c.includeDocker, initGit := c.initGit)
    ensures (c.includeWeb <==> flags.web && !flags.noWeb)
            && (c.includeDocker <==> flags.docker && !flags.noDocker)
            && (c.initGit <==> flags.git && !flags.noGit)
  {
    c := cfg.(includeWeb := flags.web);
    if flags.noWeb {
      c := c.(includeWeb := false);
    }
    c := c.(includeDocker := flags.docker);
    if flags.noDocker {
      c := c.(includeDocker := false);
    }
    c := c.(initGit := flags.git);
    if flags.noGit {
      c := c.(initGit := false);
    }
  }

  /** A string flag set on the command line replaces the configured value;
      an empty one leaves it. */
  predicate Overridden(flag: string, before: string, after: string) {
    (flag == "" ==> after == before) && (flag != "" ==> after == flag)
  }

  /** One `if flags.x != "" { cfg.X = flags.x }` step. */
  method Override(current: string, flag: string) returns (r: string)
    ensures Overridden(flag, current, r)
  {
    r := current;
    if flag != "" {
      r := flag;
    }
  }

  /** The database flags: each connection field, and the database type,
      changes only when its flag is non-empty. */
  method ApplyDatabase(cfg: ScaffoldConfiguration, flags: NewFlags) returns (c: ScaffoldConfiguration)
    ensures c == cfg.(databaseType := c.databaseType, dbConnection := c.dbConnection)
    ensures Overridden(flags.db, cfg.databaseType, c.databaseType)
    ensures var db := c.dbConnection;
            var d := cfg.dbConnection;
            Overridden(flags.dbHost, d.host, db.host) && Overridden(flags.dbPort, d.port, db.port)
            && Overridden(flags.dbUser, d.user, db.user) && Overridden(flags.dbPassword, d.password, db.password)
            && Overridden(flags.dbName, d.name, db.name) && Overridden(flags.dbSslMode, d.sslMode, db.sslMode)
  {
    var databaseType := Override(cfg.databaseType, flags.db);
    var d := cfg.dbConnection;
    var host := Override(d.host, flags.dbHost);
    var port := Override(d.port, flags.dbPort);
    var user := Override(d.user, flags.dbUser);
    var password := Override(d.password, flags.dbPassword);
    var name := Override(d.name, flags.dbName);
    var sslMode := Override(d.sslMode, flags.dbSslMode);
    c := cfg.(databaseType := databaseType,
              dbConnection := d.(host := host, port := port, user := user, password := password,
                                 name := name, sslMode := sslMode));
  }

  /** The storage flags: the kind is taken as given; S3 needs all five
      connection details; local storage keeps, or gets, the "storage"
      directory. */
  method ApplyStorage(cfg: ScaffoldConfiguration, flags: NewFlags) returns (r: Result<ScaffoldConfiguration, string>)
    requires cfg.storage.s3 == None && cfg.storage.local == Some(LocalStorageConfig("storage"))
    ensures r.Failure? <==> flags.storage == StorageS3 && !S3Complete(flags)
    ensures r.Failure? ==> r.error == S3DetailsRequired
    ensures r.Success? ==> r.value == cfg.(storage := r.value.storage)
    ensures r.Success? ==>
              r.value.storage.kind == flags.storage
              && r.value.storage.local == Some(LocalStorageConfig("storage"))
              && (flags.storage == StorageS3 ==>
                    r.value.storage.s3 == Some(S3Config(flags.s3Endpoint, flags.s3Region, flags.s3Bucket,
                                                        flags.s3Access, flags.s3Secret)))
              && (flags.storage != StorageS3 ==> r.value.storage.s3 == None)
  {
    var c := cfg.(storage := cfg.storage.(kind := flags.storage));
    if c.storage.kind == StorageS3 {
      if !S3Complete(flags) {
        return Failure(S3DetailsRequired);
      }
      c := c.(storage := c.storage.(s3 := Some(S3Config(flags.s3Endpoint, flags.s3Region, flags.s3Bucket,
                                                         flags.s3Access, flags.s3Secret))));
    }
    if c.storage.kind == StorageLocal && c.storage.local.None? {
      c := c.(storage := c.storage.(local := Some(LocalStorageConfig("storage"))));
    }
    return Success(c);
  }

  /** The end of configFromFlags: both validators, then the destination
      made absolute with the project name appended. */
  method CheckAndResolve(cfg: ScaffoldConfiguration, cwd: Result<string, string>)
    returns (r: Result<ScaffoldConfiguration, string>)
    ensures ValidateInputs.ProjectName(cfg.projectName).Fail? ==>
              r == Failure(ValidateInputs.ProjectName(cfg.projectName).error)
    ensures ValidateInputs.ProjectName(cfg.projectName).Pass? && ValidateInputs.ModulePath(cfg.modulePath).Fail? ==>
              r == Failure(ValidateInputs.ModulePath(cfg.modulePath).error)
    ensures r.Success? <==>
              ValidateInputs.ProjectName(cfg.projectName).Pass? && ValidateInputs.ModulePath(cfg.modulePath).Pass?
              && ValidatePath.ResolveProjectDestination(cfg.destination, cfg.projectName, cwd).Success?
    ensures r.Success? ==>
              r.value == cfg.(destination := ValidatePath.ResolveProjectDestination(cfg.destination, cfg.projectName, cwd).value)
  {
    var nameCheck := ValidateInputs.ProjectName(cfg.projectName);
    if nameCheck.Fail? {
      return Failure(nameCheck.error);
    }
    var moduleCheck := ValidateInputs.ModulePath(cfg.modulePath);
    if moduleCheck.Fail? {
      return Failure(moduleCheck.error);
    }
    var dest := ValidatePath.ResolveProjectDestination(cfg.destination, cfg.projectName, cwd);
    if dest.Failure? {
      return Failure(dest.error);
    }
    return Success(cfg.(destination := dest.value));
  }

  // ------------------------------------------------------------- runNonInteractive

  /** The error for a destination that already has entries. */
  function NotEmptyMessage(dest: string): string {
    "destination " + dest + " is not empty"
  }

  /** cmd.runNonInteractive.  `probe` is what the file system reports for
      the destination and `scaffold` the outcome of the scaffolder, which
      runs only when the destination is missing or an empty directory;
      `scaffolded` says whether it ran. */
  method RunNonInteractive(cfg: ScaffoldConfiguration, probe: ValidatePath.DirProbe, scaffold: Outcome<string>)
    returns (r: Outcome<string>, scaffolded: bool)
    ensures scaffolded <==> ValidatePath.IsNonEmptyDir(probe) == Success(false)
    ensures scaffolded ==> r == scaffold
    ensures ValidatePath.IsNonEmptyDir(probe) == Success(true) ==> r == Fail(NotEmptyMessage(cfg.destination))
    ensures ValidatePath.IsNonEmptyDir(probe).Failure? ==> r == Fail(ValidatePath.IsNonEmptyDir(probe).error)
  {
    var nonEmpty := ValidatePath.IsNonEmptyDir(probe);
    if nonEmpty.Failure? {
      return Fail(nonEmpty.error), false;
    }
    if nonEmpty.value {
      return Fail(NotEmptyMessage(cfg.destination)), false;
    }
    return scaffold, true;
  }

  /** A probe that finds a directory with entries classifies it as non-empty,
      which is the case RunNonInteractive refuses without scaffolding. */
  lemma {:induction false} NonEmptyNeverScaffolds(n: nat)
    requires n > 0
    ensures ValidatePath.IsNonEmptyDir(ValidatePath.Directory(Success(n))) == Success(true)
  {
  }
}
