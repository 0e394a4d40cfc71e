# Google Cloud Function configuration provider: a Dafny model

This project models the Laravel service provider `GoogleCloudFunctionConfigServiceProvider`.
The provider adapts a Laravel application to the Google Cloud Functions runtime in two steps:

- `register()` rewrites the shared configuration store. It sets the Laravel Mix asset URL when
  `$_SERVER['MIX_ASSET_URL']` is truthy. In the Cloud Function environment it also moves the
  storage, compiled-view and file-cache paths under `/tmp/storage`. It replaces the
  `stack` log driver with `stderr` and the `file` session driver with `cookie`, and it
  generates an `app.key` when none is configured.
- `boot()` checks `view.compiled`. The value must not be PHP-empty and must be a string. It then
  makes sure that directory exists, tolerating a `mkdir` that failed because another process
  created the directory first. Finally it registers two files (`index.php`, `.gcloudignore`) for
  publishing under the tag `laravel-assets`.

Files and modules:

- `php.dfy` (`Php`): the PHP value shape, `empty()`, truthiness, `getenv` (string or `false`)
  and `$_SERVER[...] ?? null`.
- `config.dfy` (`Config`): the configuration repository, a class over a `map<string, Value>`
  with `Config::get` (with default) and `Config::set`.
- `filesystem.dfy` (`FileSystem`): the directories that exist and a log of `mkdir` calls. What a
  `mkdir` does is a `MkdirEffect` supplied by the environment: it succeeded, or it failed and
  another process did or did not create the directory meanwhile.
- `provider.dfy` (`Provider`): the provider class. `Register`, `Configure` and `Boot` change the
  store, the filesystem and the publish registry step by step, as the source does. Each is
  proved equal to a specification function (`Configured`, `BootEffect`) whose contract states
  the post-state of every key, the frame condition, and the boot outcomes.
- `properties.dfy` (`ProviderProperties`): lemmas about several calls: idempotence of
  `register()` and `boot()`, `register()` followed by `boot()`, and the flag finding below.

The process environment, `$_SERVER`, the random key material (`base64_encode(Encrypter::generateKey($cipher))`),
the outcome of `mkdir`, `__DIR__` and `$this->app->basePath()` are all parameters.

The variable name `$isRunningGoogleCloudFunction` (line 19) and the comment at line 27 ("The
rest below is specific to the Google Cloud Function environment") say that the rewriting is meant
to happen only when `K_SERVICE` is set. The code computes the flag as `getenv('K_SERVICE') !== null`,
which is true in every environment. `Register` follows the code (see Findings). The key generator
is applied to the value of `config.app.cipher`, the key the code actually reads, not `app.cipher`.

## Model

| member | source | states |
|---|---|---|
| `Php.IsEmpty` | src/GoogleCloudFunctionConfigServiceProvider.php:77 | `empty()` rejects exactly `null`, `false`, `0`, `''`, `'0'` and the empty array |
| `Php.GetEnv` | src/GoogleCloudFunctionConfigServiceProvider.php:19 | `getenv` yields the variable's string when it is set and `false` otherwise, never `null` |
| `Provider.IsRunningGoogleCloudFunction` | src/GoogleCloudFunctionConfigServiceProvider.php:19 | the flag as written, `getenv('K_SERVICE') !== null`, is true for every environment |
| `Provider.KServiceDefined` | src/GoogleCloudFunctionConfigServiceProvider.php:19 | the corrected flag holds exactly when `K_SERVICE` is set |
| `Provider.Configured` | src/GoogleCloudFunctionConfigServiceProvider.php:22-64 | post-state of `register()`. `app.mix_url` becomes the asset URL exactly when that is truthy, whatever the flag. With the flag off, no other key changes. With the flag on, the storage, views and cache paths get their `/tmp` values. `logging.default` becomes `stderr` only if it was `stack`, and `session.driver` becomes `cookie` only if it was `file`; otherwise each is unchanged. `app.key` is non-null afterwards. It is regenerated, from the `config.app.cipher` value and with the `base64:` prefix, only when it was null or missing. No key outside the seven written ones changes |
| `Provider.ServiceProvider.Configure` | src/GoogleCloudFunctionConfigServiceProvider.php:22-64 | the sequence of guarded `Config::set` calls leaves the store equal to `Configured` of the old store |
| `Provider.ServiceProvider.Register` | src/GoogleCloudFunctionConfigServiceProvider.php:17-65 | with the flag computed as written, `register()` always takes the Cloud Function branch: the new store is `Configured(old, true, …)` |
| `Provider.ServiceProvider.RegisterCorrected` | src/GoogleCloudFunctionConfigServiceProvider.php:17-65 | with the corrected flag, the new store is `Configured` of the old store, gated on `K_SERVICE` being set |
| `Config.Repository.Set` | src/GoogleCloudFunctionConfigServiceProvider.php:33 | `Config::set` writes one key and leaves every other key as it was |
| `Provider.CompiledViewDirectory` | src/GoogleCloudFunctionConfigServiceProvider.php:74-84 | `view.compiled` is accepted exactly when it is a string other than `''` and `'0'`. A missing or PHP-empty value, including `0` and `false`, gives "not declared". A non-empty non-string gives "must be a valid string" |
| `FileSystem.DirsAfterMkdir` | src/GoogleCloudFunctionConfigServiceProvider.php:90 | `mkdir` adds at most the requested path. The path exists afterwards exactly when it already did, `mkdir` succeeded, or another process created it |
| `FileSystem.Disk.Mkdir` | src/GoogleCloudFunctionConfigServiceProvider.php:90 | a `mkdir` call is logged, returns whether it succeeded, and success leaves the directory in place |
| `Provider.BootEffect` | src/GoogleCloudFunctionConfigServiceProvider.php:72-99 | a refused setting fails with its error and touches no directory, makes no `mkdir` call and registers nothing. For a valid path, an existing directory is left alone and a missing one gets exactly what `mkdir` leaves behind. `mkdir` is called exactly when the directory is missing. The outcome is either success or "cannot be created", and "cannot be created" occurs exactly when `mkdir` failed and nobody else created the directory. Success holds exactly when the setting is valid and the directory exists afterwards. The two publish pairs with tag `laravel-assets` are registered exactly on success |
| `Php.Truthy` | src/GoogleCloudFunctionConfigServiceProvider.php:23 | `if ($v)` is false exactly for `null`, `false`, `0`, `''`, `'0'` and the empty array |
| `Php.ServerVar` | src/GoogleCloudFunctionConfigServiceProvider.php:22 | `$_SERVER[$name] ?? null` is the entry when present and `null` when missing |
| `Config.Lookup` | src/GoogleCloudFunctionConfigServiceProvider.php:36 | `Config::get($key, $default)` is the stored value when the key is present, even `null`, and the default otherwise |
| `Config.Repository.Get` | src/GoogleCloudFunctionConfigServiceProvider.php:53 | `Config::get` on the current store: the stored value when present, the default otherwise |
| `FileSystem.Disk.IsDir` | src/GoogleCloudFunctionConfigServiceProvider.php:87 | `is_dir` holds exactly for an existing directory |
| `Provider.AssetsPublication` | src/GoogleCloudFunctionConfigServiceProvider.php:95-98 | boot() registers exactly two pairs under `laravel-assets`: `index.php` and `.gcloudignore` beside the package source, to the application's base path |
| `Provider.BootError.Message` | src/GoogleCloudFunctionConfigServiceProvider.php:78-91 | the two configuration errors begin with "Configuration `view.compiled` "; the creation error begins with `Directory "<path>"` |
| `Provider.ServiceProvider.Boot` | src/GoogleCloudFunctionConfigServiceProvider.php:72-99 | `boot()`'s outcome, directories, `mkdir` log and publish registry are those of `BootEffect` on the old state |
| `ProviderProperties.ConfiguredIdempotent` | src/GoogleCloudFunctionConfigServiceProvider.php:17-65 | running `register()` a second time, with any key generator, leaves the store of the first run unchanged |
| `ProviderProperties.RegisteredRepeatedlyIsOnce` | src/GoogleCloudFunctionConfigServiceProvider.php:53-58 | any non-empty series of `register()` runs, each with its own random key material, gives the store of the first run |
| `ProviderProperties.RegisterWithoutKService` | src/GoogleCloudFunctionConfigServiceProvider.php:19-33 | in an environment without `K_SERVICE`, the flag as written still holds and `storagePath` is rewritten to `/tmp/storage` |
| `ProviderProperties.RegisterCorrectedOutsideCloud` | src/GoogleCloudFunctionConfigServiceProvider.php:28-30 | with the corrected flag and no `K_SERVICE`, only `app.mix_url` may change |
| `ProviderProperties.CloudConfigurationPassesValidation` | src/GoogleCloudFunctionConfigServiceProvider.php:43-84 | after `register()` in the Cloud Function branch, `boot()`'s validation accepts `/tmp/storage/framework/views` |
| `ProviderProperties.BootIdempotent` | src/GoogleCloudFunctionConfigServiceProvider.php:86-98 | after a successful `boot()`, another `boot()` succeeds whatever `mkdir` would do. It makes no `mkdir` call, leaves the directories alone and registers the same files |
| `ProviderProperties.BootsAfterSuccessPass` | src/GoogleCloudFunctionConfigServiceProvider.php:86-93 | once one `boot()` has succeeded, every later `boot()` on the same filesystem succeeds |
| `ProviderProperties.BootCreatesMissingDirectory` | src/GoogleCloudFunctionConfigServiceProvider.php:86-98 | a valid path whose directory is missing is created and boot() succeeds, with one `mkdir` call and the two files registered, when `mkdir` succeeds or another process wins the race to create it |
| `ProviderProperties.CannotCreateMessageHoldsPath` | src/GoogleCloudFunctionConfigServiceProvider.php:91 | the creation error's message carries the directory verbatim right after `Directory "` |
| `ProviderProperties.MessagesDistinct` | src/GoogleCloudFunctionConfigServiceProvider.php:78-91 | different errors give different exception messages, so a creation message names exactly one directory |

## Findings

| source | as written | input that shows it | evidently intended | confidence | as-written member | corrected member |
|---|---|---|---|---|---|---|
| src/GoogleCloudFunctionConfigServiceProvider.php:19 | `getenv('K_SERVICE') !== null`; `getenv` returns a string or `false`, never `null` | a process environment without `K_SERVICE`: `register()` still moves storage to `/tmp`, changes drivers and may generate a key | `getenv('K_SERVICE') !== false`, so that the rewriting happens only in Cloud Functions | high; not executed | `Provider.IsRunningGoogleCloudFunction`, exhibited by `ProviderProperties.RegisterWithoutKService` | `Provider.KServiceDefined`, used by `Provider.ServiceProvider.RegisterCorrected`, with `ProviderProperties.RegisterCorrectedOutsideCloud` |

`Register` keeps the behaviour as written. `RegisterCorrected` uses the corrected flag. The contract of
`Provider.Configured` holds for every flag value, so with `K_SERVICE` unset `RegisterCorrected`
changes nothing but `app.mix_url`.

## Left out

- The process environment and `$_SERVER` are parameters (maps); nothing reads a real environment.
- Floating-point values are not part of `Php.Value`, so `empty(0.0)` is not modelled; `Other` stands for objects and other non-empty non-strings.
- Laravel's dot notation on nested arrays is not modelled. Keys are flat names, so writing `app.key` does not change an `app` array entry, and the reverse.
- `Encrypter::generateKey` and `base64_encode` are one abstract parameter from the cipher value to the encoded text. The model therefore does not prove that the key decodes as base64, that its length fits the cipher, or that two processes get different keys. It proves only the `base64:` prefix and the "only when null or missing" rule.
- `mkdir` is reduced to its outcome. Recursive creation of parent directories, the `0755` mode, path normalisation and a non-directory at the path are not modelled.
- Concurrency between processes appears only as the `Failed(true)` outcome of `mkdir` (another process created the directory).
- The `E_WARNING` that PHP's `mkdir` emits on every failure is not modelled. The `Failed(true)` outcome, which leads to success, assumes that warnings are not turned into exceptions. Under an error handler that raises them, as Laravel's usual one does, a failed `mkdir` ends `boot()` with that exception before `is_dir` is checked again.
- `publishes()` is recorded as a value in the provider's registry. Laravel's merging of repeated registrations and the later file copy are not modelled. `__DIR__` and `$this->app->basePath()` are parameters.
- The `ServiceProvider` lifecycle (`register()` before `boot()`) is not enforced; `ProviderProperties.CloudConfigurationPassesValidation` composes the two steps explicitly.
