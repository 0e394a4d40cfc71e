/**
 * The Google Cloud Function configuration service provider: `register()`
 * rewrites the configuration store for the serverless runtime, `boot()` checks
 * the compiled-views setting, makes sure its directory exists and registers
 * the two files the package publishes.
 */
module Provider {
  import opened Php
  import opened Config
  import opened FileSystem

  // Environment and server variables read by register().
  const KServiceVar := "K_SERVICE"
  const MixAssetUrlVar := "MIX_ASSET_URL"

  // Configuration keys read or written.
  const MixUrlKey := "app.mix_url"
  const StoragePathKey := "storagePath"
  const LogDriverKey := "logging.default"
  const CompiledViewKey := "view.compiled"
  const SessionDriverKey := "session.driver"
  const AppKeyKey := "app.key"
  const CipherKey := "config.app.cipher"
  const CachePathKey := "cache.stores.file.path"

  /** Every key register() may write. */
  const WrittenKeys: set<string> :=
    {MixUrlKey, StoragePathKey, LogDriverKey, CompiledViewKey, SessionDriverKey, AppKeyKey, CachePathKey}

  // Values written in the Cloud Function environment.
  const TmpStorage := "/tmp/storage"
  const TmpCompiledViews := "/tmp/storage/framework/views"
  const TmpFileCache := "/tmp/storage/framework/cache"
  const KeyPrefix := "base64:"
  const PublishGroup := "laravel-assets"

  /**
   * The flag as the source computes it: `getenv('K_SERVICE') !== null`.
   * Since `getenv` yields a string or `false`, never `null`, it holds in every environment.
   */
  function IsRunningGoogleCloudFunction(env: map<string, string>): (r: bool)
    ensures r
  {
    GetEnv(env, KServiceVar) != Null
  }

  /** The flag as evidently intended: `getenv('K_SERVICE') !== false`, i.e. the variable is set. */
  function KServiceDefined(env: map<string, string>): (r: bool)
    ensures r <==> KServiceVar in env
  {
    GetEnv(env, KServiceVar) != Bool(false)
  }

  /**
   * The configuration store after register() with the given flag, asset URL from
   * `$_SERVER` and key generator. `encodedKey(cipher)` stands for
   * `base64_encode(Encrypter::generateKey(cipher))`, whose bytes are random.
   * The steps follow the source's `Config::set` calls in order.
   */
  function Configured(c: map<string, Value>, running: bool, mixAssetUrl: Value, encodedKey: Value -> string)
    : (r: map<string, Value>)
    // app.mix_url holds the asset URL exactly when that is truthy, whatever the flag
    ensures Truthy(mixAssetUrl) ==> MixUrlKey in r && r[MixUrlKey] == mixAssetUrl
    ensures !Truthy(mixAssetUrl) ==> SameAt(c, r, MixUrlKey)
    // outside the Cloud Function environment nothing else changes
    ensures !running ==> forall k :: k != MixUrlKey ==> SameAt(c, r, k)
    // inside it, three paths are set unconditionally
    ensures running ==> StoragePathKey in r && r[StoragePathKey] == Str(TmpStorage)
    ensures running ==> CompiledViewKey in r && r[CompiledViewKey] == Str(TmpCompiledViews)
    ensures running ==> CachePathKey in r && r[CachePathKey] == Str(TmpFileCache)
    // the log and session drivers are replaced only when they hold the sentinel
    ensures running ==>
      if Lookup(c, LogDriverKey, Null) == Str("stack")
      then LogDriverKey in r && r[LogDriverKey] == Str("stderr")
      else SameAt(c, r, LogDriverKey)
    ensures running ==>
      if Lookup(c, SessionDriverKey, Null) == Str("file")
      then SessionDriverKey in r && r[SessionDriverKey] == Str("cookie")
      else SameAt(c, r, SessionDriverKey)
    // the application key is generated only when it is null or missing
    ensures running ==> AppKeyKey in r && r[AppKeyKey] != Null
    ensures running && Lookup(c, AppKeyKey, Null) == Null ==>
      r[AppKeyKey] == Str(KeyPrefix + encodedKey(Lookup(c, CipherKey, Null)))
      && r[AppKeyKey].Str? && KeyPrefix <= r[AppKeyKey].s
    ensures running && Lookup(c, AppKeyKey, Null) != Null ==> r[AppKeyKey] == c[AppKeyKey]
    // no key outside the written ones changes
    ensures forall k :: k !in WrittenKeys ==> SameAt(c, r, k)
  {
    var c0 := if Truthy(mixAssetUrl) then c[MixUrlKey := mixAssetUrl] else c;
    if !running then c0
    else
      var c1 := c0[StoragePathKey := Str(TmpStorage)];
      var c2 := if Lookup(c1, LogDriverKey, Null) == Str("stack") then c1[LogDriverKey := Str("stderr")] else c1;
      var c3 := c2[CompiledViewKey := Str(TmpCompiledViews)];
      var c4 := if Lookup(c3, SessionDriverKey, Null) == Str("file") then c3[SessionDriverKey := Str("cookie")] else c3;
      var c5 :=
        if Lookup(c4, AppKeyKey, Null) == Null
        then c4[AppKeyKey := Str(KeyPrefix + encodedKey(Lookup(c4, CipherKey, Null)))]
        else c4;
      c5[CachePathKey := Str(TmpFileCache)]
  }

  /** The exceptions boot() throws. */
  datatype BootError =
    | NotDeclared
    | NotAString
    | CannotCreate(path: string)
  {
    /** The `RuntimeException` message; the creation error names the directory. */
    function Message(): (r: string)
      ensures !CannotCreate? ==> "Configuration `view.compiled` " <= r
      ensures CannotCreate? ==> "Directory \"" + path + "\"" <= r
    {
      match this
      case NotDeclared => "Configuration `view.compiled` is not declared"
      case NotAString => "Configuration `view.compiled` must be a valid string"
      case CannotCreate(path) => "Directory \"" + path + "\" cannot be created"
    }
  }

  /** A checked value: the validation step produces the path boot() goes on with, or the exception. */
  datatype Result<T> = Ok(value: T) | Err(error: BootError)

  /** boot() itself produces no value: it returns normally or throws. */
  datatype Outcome = Pass | Fail(error: BootError)

  /** The validation at the start of boot(): the compiled-views directory, or why it is refused. */
  function CompiledViewDirectory(c: map<string, Value>): (r: Result<string>)
    ensures r.Ok? <==> CompiledViewKey in c && c[CompiledViewKey].Str? && c[CompiledViewKey].s !in {"", "0"}
    ensures r.Ok? ==> r.value == c[CompiledViewKey].s
    ensures r == Err(NotDeclared) <==> CompiledViewKey !in c || IsEmpty(c[CompiledViewKey])
    ensures r == Err(NotAString) <==> CompiledViewKey in c && !IsEmpty(c[CompiledViewKey]) && !c[CompiledViewKey].Str?
  {
    var compiled := Lookup(c, CompiledViewKey, Str(""));
    if IsEmpty(compiled) then Err(NotDeclared)
    else if !compiled.Str? then Err(NotAString)
    else Ok(compiled.s)
  }

  /** One `source => destination` entry of `publishes()`. */
  datatype PublishPair = PublishPair(source: string, destination: string)

  /** One `publishes($paths, $group)` registration. */
  datatype Publication = Publication(paths: seq<PublishPair>, group: string)

  /**
   * The registration boot() ends with. `packageDir` stands for `__DIR__` and
   * `basePath` for `$this->app->basePath(...)`.
   */
  function AssetsPublication(packageDir: string, basePath: string -> string): (r: Publication)
    ensures r.group == PublishGroup
    ensures |r.paths| == 2
    ensures r.paths[0] == PublishPair(packageDir + "/../index.php", basePath("index.php"))
    ensures r.paths[1] == PublishPair(packageDir + "/../.gcloudignore", basePath(".gcloudignore"))
  {
    Publication(
      [ PublishPair(packageDir + "/../index.php", basePath("index.php")),
        PublishPair(packageDir + "/../.gcloudignore", basePath(".gcloudignore")) ],
      PublishGroup)
  }

  /** What one boot() call does: its outcome, the directories afterwards, the `mkdir` calls and registrations it adds. */
  datatype BootStep = BootStep(outcome: Outcome, dirs: set<string>, mkdirCalls: seq<string>, registered: seq<Publication>)

  /** boot() on configuration `c` and existing directories `dirs`, with `mkdir` behaving as `effect`. */
  function BootEffect(c: map<string, Value>, dirs: set<string>, effect: MkdirEffect,
                      packageDir: string, basePath: string -> string): (b: BootStep)
    // a refused setting fails before any directory is touched
    ensures CompiledViewDirectory(c).Err? ==>
      b == BootStep(Fail(CompiledViewDirectory(c).error), dirs, [], [])
    ensures CompiledViewDirectory(c).Ok? ==>
      var path := CompiledViewDirectory(c).value;
      // an existing directory is left alone; a missing one is what mkdir leaves behind
      && b.dirs == (if path in dirs then dirs else DirsAfterMkdir(dirs, path, effect))
      // mkdir is attempted exactly when the directory is missing
      && b.mkdirCalls == (if path in dirs then [] else [path])
      // a valid setting either passes or fails to create its directory
      && (b.outcome.Pass? || b.outcome == Fail(CannotCreate(path)))
      // the creation error happens only when mkdir failed and nobody else made the directory
      && (b.outcome == Fail(CannotCreate(path)) <==> path !in dirs && effect == Failed(false))
    // success means a valid setting whose directory now exists
    ensures b.outcome.Pass? <==> CompiledViewDirectory(c).Ok? && CompiledViewDirectory(c).value in b.dirs
    // exactly the two files are registered, and only on success
    ensures b.registered == (if b.outcome.Pass? then [AssetsPublication(packageDir, basePath)] else [])
  {
    match CompiledViewDirectory(c)
    case Err(e) => BootStep(Fail(e), dirs, [], [])
    case Ok(path) =>
      if path in dirs then BootStep(Pass, dirs, [], [AssetsPublication(packageDir, basePath)])
      else
        var after := DirsAfterMkdir(dirs, path, effect);
        if !effect.Created? && path !in after then BootStep(Fail(CannotCreate(path)), after, [path], [])
        else BootStep(Pass, after, [path], [AssetsPublication(packageDir, basePath)])
  }

  class ServiceProvider {
    const config: Repository
    const disk: Disk
    var publishes: seq<Publication>

    constructor (config: Repository, disk: Disk)
      ensures this.config == config && this.disk == disk && publishes == []
    {
      this.config := config;
      this.disk := disk;
      publishes := [];
    }

    /** register(), with the environment flag computed as the source computes it. */
    method Register(env: map<string, string>, server: map<string, Value>, encodedKey: Value -> string)
      modifies config
      ensures config.items == Configured(old(config.items), true, ServerVar(server, MixAssetUrlVar), encodedKey)
    {
      var isRunningGoogleCloudFunction := IsRunningGoogleCloudFunction(env);
      Configure(isRunningGoogleCloudFunction, ServerVar(server, MixAssetUrlVar), encodedKey);
    }

    /** register() with the flag as evidently intended: only when `K_SERVICE` is set. */
    method RegisterCorrected(env: map<string, string>, server: map<string, Value>, encodedKey: Value -> string)
      modifies config
      ensures config.items == Configured(old(config.items), KServiceVar in env, ServerVar(server, MixAssetUrlVar), encodedKey)
    {
      var isRunningGoogleCloudFunction := KServiceDefined(env);
      Configure(isRunningGoogleCloudFunction, ServerVar(server, MixAssetUrlVar), encodedKey);
    }

    /** The body of register() once the flag and `$_SERVER['MIX_ASSET_URL'] ?? null` are known. */
    method Configure(isRunningGoogleCloudFunction: bool, mixAssetUrl: Value, encodedKey: Value -> string)
      modifies config
      ensures config.items == Configured(old(config.items), isRunningGoogleCloudFunction, mixAssetUrl, encodedKey)
    {
      if Truthy(mixAssetUrl) {
        config.Set(MixUrlKey, mixAssetUrl);
      }
      if !isRunningGoogleCloudFunction {
        return;
      }
      config.Set(StoragePathKey, Str(TmpStorage));
      var logDriver := config.Get(LogDriverKey, Null);
      if logDriver == Str("stack") {
        config.Set(LogDriverKey, Str("stderr"));
      }
      config.Set(CompiledViewKey, Str(TmpCompiledViews));
      var sessionDriver := config.Get(SessionDriverKey, Null);
      if sessionDriver == Str("file") {
        config.Set(SessionDriverKey, Str("cookie"));
      }
      var key := config.Get(AppKeyKey, Null);
      if key == Null {
        config.Set(AppKeyKey, Str(KeyPrefix + encodedKey(config.Get(CipherKey, Null))));
      }
      config.Set(CachePathKey, Str(TmpFileCache));
    }

    /** boot(), with `mkdir` behaving as `effect`. */
    method Boot(effect: MkdirEffect, packageDir: string, basePath: string -> string) returns (r: Outcome)
      modifies disk, this`publishes
      ensures r == BootEffect(config.items, old(disk.dirs), effect, packageDir, basePath).outcome
      ensures disk.dirs == BootEffect(config.items, old(disk.dirs), effect, packageDir, basePath).dirs
      ensures disk.mkdirCalls ==
        old(disk.mkdirCalls) + BootEffect(config.items, old(disk.dirs), effect, packageDir, basePath).mkdirCalls
      ensures publishes ==
        old(publishes) + BootEffect(config.items, old(disk.dirs), effect, packageDir, basePath).registered
    {
      var compiledViewDirectory := config.Get(CompiledViewKey, Str(""));
      if IsEmpty(compiledViewDirectory) {
        return Fail(NotDeclared);
      }
      if !compiledViewDirectory.Str? {
        return Fail(NotAString);
      }
      var path := compiledViewDirectory.s;
      if !disk.IsDir(path) {
        var made := disk.Mkdir(path, effect);
        if !made && !disk.IsDir(path) {
          return Fail(CannotCreate(path));
        }
      }
      publishes := publishes + [AssetsPublication(packageDir, basePath)];
      return Pass;
    }
  }
}
