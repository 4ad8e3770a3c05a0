/** The buildpack package command: it checks the raw flags, resolves the pull
 *  policy (the flag, else the persisted value, else "always"), chooses the
 *  package definition (the built-in default, or what the reader makes of the
 *  given path), and hands the assembled options to the packager. Each step can
 *  stop the command with an error before the next one runs.
 *
 *  The reader and the packager are external: here they are functions the caller
 *  supplies, whose results stand for whatever the real collaborators return, and
 *  every call made to them is recorded in a trace. */
module BuildpackPackage {
  import opened Errors
  import opened PullPolicies
  import opened Configs

  /** BuildpackPackageFlags: --config, --format, --publish and --pull-policy. */
  datatype Flags = Flags(packageTomlPath: string, format: string, publish: bool, policy: string)

  /** A package definition (the buildpack to package and its dependencies). Its
   *  parsing belongs to the reader and is not part of this model. */
  datatype PackageConfig = PackageConfig(buildpack: string, dependencies: seq<string>)

  /** The built-in definition used when no --config path is given. */
  function DefaultConfig(): PackageConfig
  {
    PackageConfig(".", [])
  }

  /** PackageBuildpackOptions: what the packager receives. */
  datatype PackageOptions =
    PackageOptions(name: string, format: string, config: PackageConfig, publish: bool, pullPolicy: PullPolicy)

  /** A call to an external collaborator. */
  datatype Call = ReadCall(path: string) | PackageCall(options: PackageOptions)

  /** validateBuildpackPackageFlags: publishing needs remote images, so --publish
   *  together with --pull-policy never is refused. Only the raw flag is looked at. */
  function ValidateFlags(flags: Flags): (r: Option<Error>)
    ensures r.Some? <==> flags.publish && flags.policy == "never"
    ensures r.Some? ==> r.value == ConflictingPublishNever
  {
    if flags.publish && flags.policy == PolicyString(Never) then Some(ConflictingPublishNever) else None
  }

  /** The pull policy a run uses: the flag when it is given, otherwise the
   *  persisted value, and "always" when neither is set. */
  function EffectivePolicy(flag: string, persisted: string): (r: Result<PullPolicy>)
    ensures flag != "" ==> r == ParsePullPolicy(flag)
    ensures flag == "" ==> r == ParsePullPolicy(persisted)
    ensures flag == "" && persisted == "" ==> r == Success(Always)
  {
    ParsePullPolicy(if flag != "" then flag else persisted)
  }

  /** The run gets past argument, flag and pull-policy checks. */
  predicate Resolved(args: seq<string>, flags: Flags, cfg: Config)
  {
    |args| == 1 && ValidateFlags(flags).None? && EffectivePolicy(flags.policy, cfg.pullPolicy).Success?
  }

  /** One invocation, with positional arguments args, the flags, the persisted
   *  configuration, and the reader and packager. Returns the error, the calls made
   *  to the reader and packager in order, and the lines logged. */
  method Execute(args: seq<string>, flags: Flags, cfg: Config,
                 reader: string -> Result<PackageConfig>, packager: PackageOptions -> Option<Error>)
    returns (err: Option<Error>, calls: seq<Call>, out: seq<string>)
    // Exactly one positional argument, the package name.
    ensures |args| != 1 ==> err == Some(WrongArgCount(1, |args|)) && calls == [] && out == []
    // The flag conflict stops the run before the reader, the parse or the packager.
    ensures |args| == 1 && ValidateFlags(flags).Some? ==>
      err == Some(ConflictingPublishNever) && calls == [] && out == []
    // An unparseable effective policy stops the run before any call.
    ensures |args| == 1 && ValidateFlags(flags).None? && EffectivePolicy(flags.policy, cfg.pullPolicy).Failure? ==>
      err == Some(Wrapped("parsing pull policy", EffectivePolicy(flags.policy, cfg.pullPolicy).error)) &&
      calls == [] && out == []
    // A reader error stops the run before the packager.
    ensures Resolved(args, flags, cfg) && flags.packageTomlPath != "" && reader(flags.packageTomlPath).Failure? ==>
      err == Some(Wrapped("reading config", reader(flags.packageTomlPath).error)) &&
      calls == [ReadCall(flags.packageTomlPath)] && out == []
    // Otherwise the packager is called once, last, with exactly these options;
    // its error is returned as it is, and success is logged as "created" or
    // "published" after the publish flag.
    ensures Resolved(args, flags, cfg) && (flags.packageTomlPath == "" || reader(flags.packageTomlPath).Success?) ==>
      var definition := if flags.packageTomlPath == "" then DefaultConfig() else reader(flags.packageTomlPath).value;
      var options := PackageOptions(args[0], flags.format, definition, flags.publish,
                                    EffectivePolicy(flags.policy, cfg.pullPolicy).value);
      calls == (if flags.packageTomlPath == "" then [] else [ReadCall(flags.packageTomlPath)]) + [PackageCall(options)] &&
      err == packager(options) &&
      out == if err.Some? then [] else ["Successfully " + (if flags.publish then "published" else "created") + " package " + args[0]]
  {
    calls, out := [], [];
    if |args| != 1 {
      return Some(WrongArgCount(1, |args|)), calls, out;
    }
    err := ValidateFlags(flags);
    if err.Some? {
      return;
    }

    var stringPolicy := flags.policy;
    if stringPolicy == "" {
      stringPolicy := cfg.pullPolicy;
    }
    var pullPolicy := ParsePullPolicy(stringPolicy);
    if pullPolicy.Failure? {
      err := Some(Wrapped("parsing pull policy", pullPolicy.error));
      return;
    }

    var definition: PackageConfig;
    if flags.packageTomlPath == "" {
      definition := DefaultConfig();
    } else {
      calls := calls + [ReadCall(flags.packageTomlPath)];
      var read := reader(flags.packageTomlPath);
      if read.Failure? {
        err := Some(Wrapped("reading config", read.error));
        return;
      }
      definition := read.value;
    }

    var name := args[0];
    var options := PackageOptions(name, flags.format, definition, flags.publish, pullPolicy.value);
    calls := calls + [PackageCall(options)];
    err := packager(options);
    if err.Some? {
      return;
    }

    var action := "created";
    if flags.publish {
      action := "published";
    }
    out := ["Successfully " + action + " package " + name];
  }

  /** The conflict check reads only the raw flag: with --publish, no
   *  --pull-policy and "never" persisted, the run reaches the packager with
   *  Never, and the default definition is used without calling the reader. */
  method PublishWithPersistedNever(name: string) returns (err: Option<Error>, calls: seq<Call>)
    ensures err == None
    ensures calls == [PackageCall(PackageOptions(name, "image", DefaultConfig(), true, Never))]
  {
    var reader := (path: string) => Failure(External("unexpected read"));
    var packager := (options: PackageOptions) => None;
    var out;
    err, calls, out := Execute([name], Flags("", "image", true, ""), Config("never", false, map[]), reader, packager);
  }

  /** --publish with --pull-policy never fails with the conflict message and
   *  calls nothing, whatever the reader and packager would do. */
  method PublishNeverRefused(reader: string -> Result<PackageConfig>, packager: PackageOptions -> Option<Error>)
    returns (err: Option<Error>, calls: seq<Call>)
    ensures err.Some? && Message(err.value) == ConflictText
    ensures calls == []
  {
    var out;
    err, calls, out := Execute(["pkg"], Flags("./package.toml", "", true, "never"), Config("", false, map[]), reader, packager);
  }

  /** A --config path the reader rejects is reported as "reading config: ..."
   *  with the reader's error, and the packager is not called. */
  method RejectedConfigPath(path: string, why: string) returns (err: Option<Error>, calls: seq<Call>)
    requires path != ""
    ensures err.Some? && Message(err.value) == "reading config: " + why
    ensures calls == [ReadCall(path)]
  {
    var reader := (p: string) => Failure(External(why));
    var packager := (options: PackageOptions) => None;
    var out;
    err, calls, out := Execute(["pkg"], Flags(path, "file", false, ""), Config("", false, map[]), reader, packager);
  }
}
