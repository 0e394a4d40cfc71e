/**
 * Properties that relate several register() and boot() calls.
 */
module ProviderProperties {
  import opened Php
  import opened Config
  import opened FileSystem
  import opened Provider

  /**
   * register() is idempotent: a second run leaves the store of the first run as
   * it is, whatever key material the second run would have generated.
   */
  lemma ConfiguredIdempotent(c: map<string, Value>, running: bool, mixAssetUrl: Value,
                             firstKey: Value -> string, secondKey: Value -> string)
    ensures Configured(Configured(c, running, mixAssetUrl, firstKey), running, mixAssetUrl, secondKey)
            == Configured(c, running, mixAssetUrl, firstKey)
  {
  }

  /** With the flag as written, register() rewrites the store even where `K_SERVICE` is not set. */
  lemma RegisterWithoutKService(c: map<string, Value>, server: map<string, Value>, encodedKey: Value -> string)
    ensures !KServiceDefined(map[])
    ensures IsRunningGoogleCloudFunction(map[])
    ensures Configured(c, IsRunningGoogleCloudFunction(map[]), ServerVar(server, MixAssetUrlVar), encodedKey)[StoragePathKey]
            == Str(TmpStorage)
  {
  }

  /** With the corrected flag and no `K_SERVICE`, only `app.mix_url` may change. */
  lemma RegisterCorrectedOutsideCloud(env: map<string, string>, c: map<string, Value>,
                                      server: map<string, Value>, encodedKey: Value -> string)
    requires KServiceVar !in env
    ensures var r := Configured(c, KServiceDefined(env), ServerVar(server, MixAssetUrlVar), encodedKey);
            forall k :: k != MixUrlKey ==> SameAt(c, r, k)
  {
  }

  /** After register() in the Cloud Function environment, boot()'s validation accepts the views path. */
  lemma CloudConfigurationPassesValidation(c: map<string, Value>, mixAssetUrl: Value, encodedKey: Value -> string)
    ensures CompiledViewDirectory(Configured(c, true, mixAssetUrl, encodedKey)) == Ok(TmpCompiledViews)
  {
  }

  /**
   * boot() is idempotent: once it has succeeded, another boot() succeeds whatever
   * `mkdir` would do, attempts no `mkdir`, leaves the directories alone and registers the same files.
   */
  lemma BootIdempotent(c: map<string, Value>, dirs: set<string>, first: MkdirEffect, second: MkdirEffect,
                       packageDir: string, basePath: string -> string)
    requires BootEffect(c, dirs, first, packageDir, basePath).outcome.Pass?
    ensures var b1 := BootEffect(c, dirs, first, packageDir, basePath);
            BootEffect(c, b1.dirs, second, packageDir, basePath) == BootStep(Pass, b1.dirs, [], b1.registered)
  {
  }

  /** The store after register() has run once per key generator in `keys`, in order. */
  function RegisteredRepeatedly(c: map<string, Value>, running: bool, mixAssetUrl: Value,
                                keys: seq<Value -> string>): (r: map<string, Value>)
    decreases |keys|
  {
    if keys == [] then c
    else RegisteredRepeatedly(Configured(c, running, mixAssetUrl, keys[0]), running, mixAssetUrl, keys[1..])
  }

  /** Any number of register() runs, each with its own random key material, leave the store of the first run. */
  lemma {:induction false} RegisteredRepeatedlyIsOnce(c: map<string, Value>, running: bool, mixAssetUrl: Value,
                                                      keys: seq<Value -> string>)
    requires keys != []
    ensures RegisteredRepeatedly(c, running, mixAssetUrl, keys) == Configured(c, running, mixAssetUrl, keys[0])
    decreases |keys|
  {
    var once := Configured(c, running, mixAssetUrl, keys[0]);
    if |keys| > 1 {
      RegisteredRepeatedlyIsOnce(once, running, mixAssetUrl, keys[1..]);
      ConfiguredIdempotent(c, running, mixAssetUrl, keys[0], keys[1]);
    }
  }

  /** The outcomes of successive boot() calls on one filesystem, `mkdir` behaving as `effects` says in turn. */
  function BootOutcomes(c: map<string, Value>, dirs: set<string>, effects: seq<MkdirEffect>,
                        packageDir: string, basePath: string -> string): (r: seq<Outcome>)
    decreases |effects|
  {
    if effects == [] then []
    else
      var b := BootEffect(c, dirs, effects[0], packageDir, basePath);
      [b.outcome] + BootOutcomes(c, b.dirs, effects[1..], packageDir, basePath)
  }

  /** Once a boot() has succeeded, every later boot() on the same filesystem succeeds too. */
  lemma {:induction false} BootsAfterSuccessPass(c: map<string, Value>, dirs: set<string>, effects: seq<MkdirEffect>,
                                                 packageDir: string, basePath: string -> string)
    requires effects != []
    requires BootEffect(c, dirs, effects[0], packageDir, basePath).outcome.Pass?
    ensures |BootOutcomes(c, dirs, effects, packageDir, basePath)| == |effects|
    ensures forall i :: 0 <= i < |effects| ==> BootOutcomes(c, dirs, effects, packageDir, basePath)[i] == Pass
    decreases |effects|
  {
    var b := BootEffect(c, dirs, effects[0], packageDir, basePath);
    if |effects| > 1 {
      BootIdempotent(c, dirs, effects[0], effects[1], packageDir, basePath);
      BootsAfterSuccessPass(c, b.dirs, effects[1..], packageDir, basePath);
    }
  }

  /**
   * A valid compiled-views path whose directory is missing is created, and boot() succeeds,
   * when `mkdir` succeeds or another process wins the race to create it.
   */
  lemma BootCreatesMissingDirectory(c: map<string, Value>, dirs: set<string>, effect: MkdirEffect,
                                    packageDir: string, basePath: string -> string)
    requires CompiledViewDirectory(c).Ok? && CompiledViewDirectory(c).value !in dirs
    requires effect != Failed(false)
    ensures var path := CompiledViewDirectory(c).value;
            BootEffect(c, dirs, effect, packageDir, basePath)
            == BootStep(Pass, dirs + {path}, [path], [AssetsPublication(packageDir, basePath)])
  {
  }

  /** The creation error's message holds the directory right after its fixed opening. */
  lemma CannotCreateMessageHoldsPath(path: string)
    ensures var m := CannotCreate(path).Message();
            |m| == |path| + 30 && m[11..11 + |path|] == path
  {
  }

  /**
   * The three exception messages are told apart: different errors give different messages,
   * and the creation error's message determines the directory it names.
   */
  lemma MessagesDistinct(e1: BootError, e2: BootError)
    requires e1 != e2
    ensures e1.Message() != e2.Message()
  {
    if e1.CannotCreate? && e2.CannotCreate? {
      CannotCreateMessageHoldsPath(e1.path);
      CannotCreateMessageHoldsPath(e2.path);
    } else if e1.CannotCreate? || e2.CannotCreate? {
      assert e1.Message()[0] != e2.Message()[0];
    }
  }
}
