# Godot crash-reporting modules: the installer and upload logic in Dafny

This project models the two pieces of real logic inside the Godot crash-reporting
modules `modules/crashpad` and `modules/breakpad`:

- **The Crashpad installer** (`crashpad.dfy`, module `CrashpadInstaller`). It checks
  that the out-of-process `crashpad_handler` executable exists. On Windows an unset
  path defaults to `res://crashpad_handler.exe`. It then makes sure the crash database
  directory exists, defaulting to `res://Crashpad/db/` and creating it when it is
  missing, and initialises the database. After that it enables uploads, appends
  `--no-rate-limit` to the handler arguments and inserts the user's attributes into the
  annotation map. Unless uploads are skipped, it starts the handler with the upload URL
  `api_URL + api_token + "/minidump"`. The class's static configuration is the
  `CrashpadSettings` object, which every `Crashpad` node shares by reference. Each node
  holds `clientInit`, `annotations` and `arguments`. The calls into the Crashpad SDK are
  recorded in the ghost log `sdkCalls`, and the SDK's answers are parameters.
- **The path resolver** (`path_resolver.dfy`, module `PathResolver`).
  `get_global_path_from_local_path` turns `res://` paths into paths under the
  executable's directory, using Godot's replace-every-occurrence `String::replace`. It
  hands `user://` paths to the engine and returns every other path unchanged.
- **The Breakpad dump callback** (`breakpad.dfy`, module `BreakpadUpload`). Unless
  uploads are skipped, `dump_callback` launches `curl` once with four arguments: `-v`,
  `--data-binary`, `@<dump path>`, and the upload URL followed by `&key=value` for each
  attribute in dictionary index order. It always returns its `succeeded` argument. The
  launch is recorded in the ghost log `executed`. `ParseQuery` is the inverse used to
  prove that the attribute text carries every attribute, in order, as long as keys and
  values contain no separators. `SeparatorInValueIsAmbiguous` shows what happens without
  that condition, because the source does no escaping.
- **The engine** (`godot.dfy`, module `Godot`). It is reduced to what the modules observe:
  - a `Dictionary` given as its key/value pairs in index order;
  - the platform, a flag in place of the preprocessor selection;
  - the executable's directory, and an uninterpreted `localize_path`;
  - a `FileSystem` object holding the sets of existing files and directories.

Facts about the code that the model states:

- The upload is not a multipart POST. `dump_callback` sends the dump with
  `--data-binary` and appends the attributes to the URL as `&key=value`, directly after
  `/minidump`, with no `?` (`modules/breakpad/breakpad.cpp:87-106`).
- A missing handler still leaves the application path defaulted on Windows: the handler
  check fills in the default path before it looks for the file
  (`modules/crashpad/crashpad.cpp:144-148`, `43-47`). `StartCrashpad` states this.
- The database check reports success after trying to make a missing directory, whether
  or not that worked, and `start_crashpad` ignores the check's answer.
  `CheckForDatabase` and `StartCrashpad` state both facts.
- Installing twice is not rejected. Each pass that gets past database initialisation
  appends one more `--no-rate-limit`.

## Model

| member | source | states |
|---|---|---|
| `PathResolver.GlobalPath` | modules/crashpad/crashpad.cpp:155-172 | a path with neither prefix is returned unchanged; a `user://` path is whatever the engine's localisation gives; a `res://` path is the executable's directory, then `/`, then the rest of the path with each further `res://` replaced by `/` |
| `PathResolver.ReplaceAllWithoutMatch` | modules/crashpad/crashpad.cpp:163 | replacing a pattern that does not occur in a string leaves the string unchanged |
| `PathResolver.ResPathResolves` | modules/crashpad/crashpad.cpp:160-164 | `res://X`, where X holds no further `res://`, resolves to the executable's directory + `/` + X |
| `PathResolver.ResolvesNextToExecutable` | modules/crashpad/crashpad.cpp:160-164 | `res://` followed by a name without `:` resolves to that name under the executable's directory |
| `CrashpadInstaller.DefaultsResolve` | modules/crashpad/crashpad.cpp:141-181 | the default handler path resolves to `<exe dir>/crashpad_handler.exe`, and the default database path to `<exe dir>/Crashpad/db/` |
| `CrashpadInstaller.InsertAllKeys` | modules/crashpad/crashpad.cpp:79-87 | after the annotation loop, the annotation keys are exactly the old keys plus every attribute key |
| `CrashpadInstaller.InsertAllKeepsExisting` | modules/crashpad/crashpad.cpp:86 | an annotation already present keeps its value, because `std::map::insert` never overwrites |
| `CrashpadInstaller.InsertAllFirstWins` | modules/crashpad/crashpad.cpp:79-87 | a key not yet annotated gets the value of the first attribute with that key |
| `CrashpadInstaller.CrashpadSettings.constructor` | modules/crashpad/crashpad.cpp:27-34 | the static settings start empty, with uploads not skipped and no log upload |
| `CrashpadInstaller.CrashpadSettings.SetApiUrl` | modules/crashpad/crashpad.cpp:236-239 | stores the URL; only that setting may change |
| `CrashpadInstaller.CrashpadSettings.GetApiUrl` | modules/crashpad/crashpad.cpp:240-243 | returns the stored URL |
| `CrashpadInstaller.CrashpadSettings.SetApiToken` | modules/crashpad/crashpad.cpp:244-247 | stores the token; only that setting may change |
| `CrashpadInstaller.CrashpadSettings.GetApiToken` | modules/crashpad/crashpad.cpp:248-251 | returns the stored token |
| `CrashpadInstaller.CrashpadSettings.SetApplicationPath` | modules/crashpad/crashpad.cpp:252-255 | stores the handler path; only that setting may change |
| `CrashpadInstaller.CrashpadSettings.GetApplicationPath` | modules/crashpad/crashpad.cpp:256-259 | returns the stored handler path |
| `CrashpadInstaller.CrashpadSettings.SetDatabasePath` | modules/crashpad/crashpad.cpp:260-263 | stores the database path; only that setting may change |
| `CrashpadInstaller.CrashpadSettings.GetDatabasePath` | modules/crashpad/crashpad.cpp:264-267 | returns the stored database path |
| `CrashpadInstaller.CrashpadSettings.SetSkipErrorUpload` | modules/crashpad/crashpad.cpp:269-272 | stores the skip flag; only that setting may change |
| `CrashpadInstaller.CrashpadSettings.GetSkipErrorUpload` | modules/crashpad/crashpad.cpp:273-276 | returns the stored skip flag |
| `CrashpadInstaller.CrashpadSettings.SetUserCrashAttributes` | modules/crashpad/crashpad.cpp:278-281 | stores the attribute dictionary; only that setting may change |
| `CrashpadInstaller.CrashpadSettings.GetUserCrashAttributes` | modules/crashpad/crashpad.cpp:282-285 | returns the stored attribute dictionary |
| `CrashpadInstaller.CrashpadSettings.SetUploadGodotLog` | modules/crashpad/crashpad.cpp:287-289 | stores the log-upload flag; only that setting may change |
| `CrashpadInstaller.CrashpadSettings.GetUploadGodotLog` | modules/crashpad/crashpad.cpp:290-292 | returns the stored log-upload flag |
| `CrashpadInstaller.SetThenGetApiUrl` | modules/crashpad/crashpad.cpp:236-243 | a getter called after its setter returns the value set, and every other setting keeps its value |
| `CrashpadInstaller.Crashpad.constructor` | modules/crashpad/crashpad.h:34-37 | a new node has no client started, no annotations and no arguments |
| `CrashpadInstaller.Crashpad.CheckForApplication` | modules/crashpad/crashpad.cpp:141-154 | an empty handler path becomes `res://crashpad_handler.exe` on Windows only, and a non-empty one is never changed; the answer is true exactly when the resolved path is an existing file |
| `CrashpadInstaller.Crashpad.CheckForDatabase` | modules/crashpad/crashpad.cpp:174-198 | an empty database path becomes `res://Crashpad/db/`; an existing directory answers true and changes nothing; a missing one answers false and creates nothing unless asked to make it; when asked, it is made and the answer is true whatever the mkdir result |
| `CrashpadInstaller.Crashpad.InsertAnnotations` | modules/crashpad/crashpad.cpp:79-87 | the annotations become the old annotations with every attribute inserted in index order, with no key overwritten |
| `CrashpadInstaller.Crashpad.StartCrashpad` | modules/crashpad/crashpad.cpp:37-129 | on an unsupported platform nothing changes; a missing handler ends the call before any directory, database, argument, annotation or client change; otherwise the database directory is made when missing and the database initialised; a failed init ends the call there; a successful one enables uploads, appends exactly one `--no-rate-limit` and inserts the attributes; with skip-upload the handler is not started and `clientInit` keeps its value; otherwise the handler is started with `api_URL + api_token + "/minidump"` and `clientInit` is its result |
| `Godot.FileSystem.MakeDirRecursive` | modules/crashpad/crashpad.cpp:187-189 | the directory exists afterwards when the host manages to make it; nothing else changes |
| `BreakpadUpload.QueryStringAppend` | modules/breakpad/breakpad.cpp:94-104 | the attribute text of two dictionaries laid end to end is the first one's text followed by the second one's |
| `BreakpadUpload.QueryStringFirst` | modules/breakpad/breakpad.cpp:94-104 | the attribute text is `&key=value` for the first attribute followed by the text of the rest, so the fields come in index order |
| `BreakpadUpload.QueryStringStartsWithSeparator` | modules/breakpad/breakpad.cpp:103 | the attribute text is empty or starts with `&` |
| `BreakpadUpload.QueryRoundTrip` | modules/breakpad/breakpad.cpp:92-106 | when no key holds `&` or `=` and no value holds `&`, reading the attribute text back gives exactly the attributes, in order |
| `BreakpadUpload.SeparatorInValueIsAmbiguous` | modules/breakpad/breakpad.cpp:103 | because nothing is escaped, a value holding `&b=y` gives the same URL as a separate attribute `b=y` |
| `BreakpadUpload.Breakpad.constructor` | modules/breakpad/breakpad.cpp:9-12 | the static settings start empty, with uploads not skipped and nothing launched |
| `BreakpadUpload.Breakpad.SetApiUrl` | modules/breakpad/breakpad.cpp:42-45 | stores the URL; only that setting may change |
| `BreakpadUpload.Breakpad.GetApiUrl` | modules/breakpad/breakpad.cpp:46-49 | returns the stored URL |
| `BreakpadUpload.Breakpad.SetApiToken` | modules/breakpad/breakpad.cpp:50-53 | stores the token; only that setting may change |
| `BreakpadUpload.Breakpad.GetApiToken` | modules/breakpad/breakpad.cpp:54-57 | returns the stored token |
| `BreakpadUpload.Breakpad.SetSkipErrorUpload` | modules/breakpad/breakpad.cpp:59-62 | stores the skip flag; only that setting may change |
| `BreakpadUpload.Breakpad.GetSkipErrorUpload` | modules/breakpad/breakpad.cpp:63-66 | returns the stored skip flag |
| `BreakpadUpload.Breakpad.SetCrashAttributes` | modules/breakpad/breakpad.cpp:68-71 | stores the attribute dictionary; only that setting may change |
| `BreakpadUpload.Breakpad.GetCrashAttributes` | modules/breakpad/breakpad.cpp:72-75 | returns the stored attribute dictionary |
| `BreakpadUpload.SetThenGetCrashAttributes` | modules/breakpad/breakpad.cpp:68-75 | a getter called after its setter returns the value set, and every other setting keeps its value |
| `BreakpadUpload.Breakpad.DumpCallback` | modules/breakpad/breakpad.cpp:78-120 | always returns `succeeded`; with skip-upload it launches nothing; otherwise it launches `curl` exactly once with exactly `-v`, `--data-binary`, `@` + dump path, and `api_URL + api_token + "/minidump"` followed by one `&key=value` per attribute in index order; with no attributes the last argument is exactly `api_URL + api_token + "/minidump"` |

## Left out

- SDK calls are not modelled. `CrashReportDatabase::Initialize`, `SetUploadsEnabled` and
  `CrashpadClient::StartHandler` are recorded calls, and their results are parameters.
  The `crashpad_client` object is not modelled.
- Breakpad's `start_crashpad` (modules/breakpad/breakpad.cpp:15-19) is not modelled. It
  only constructs the SDK's `ExceptionHandler` with a `/tmp` dump descriptor. The header
  declares it as `start_breakpad`.
- The `curl` launch (`OS::execute`) is recorded with its arguments and is not executed.
  Its exit status is ignored by the source.
- Engine services are not modelled. `OS::get_executable_path().get_base_dir()` is a
  parameter, and `ProjectSettings::localize_path` is an uninterpreted function.
  `FileAccess::exists` and `DirAccess::exists` are membership in the file and directory
  sets.
- `make_dir_recursive` records only the directory asked for, not its parents.
- Logging (`ERR_PRINT`, `WARN_PRINT`, `print_line`, `OS::print`) has no effect on
  state. This includes the warning printed when the Godot log upload is requested.
- `_bind_methods`, the property registrations and the node constructors are engine
  reflection glue and are not modelled. The constructors re-read the statics through
  `get(...)`. Where the name is a registered property, its getter returns that same
  static, so the read changes nothing. Three of the names are not registered
  properties: `crashpad_settings/api_token` (`modules/crashpad/crashpad.cpp:303`; the
  property is `crashpad_settings/crashpad_api_token`), and `get_api_url` and
  `get_api_token` (`modules/breakpad/breakpad.cpp:130-131`; the properties are `api_URL`
  and `api_token`). The Crashpad constructor does not read the database path.
- `force_crash` is a deliberate null dereference, which is undefined behaviour.
- `get_std_string_from_godot_string` is taken as the identity. Its wide-to-narrow
  truncation depends on the platform's `wchar_t` width.
- The preprocessor's platform selection is the `Platform` parameter.
- Breakpad's header declares `upload_godot_log` with its setter and getter, but
  `breakpad.cpp` does not define them, so they are not part of this model.
- Godot dictionaries have unique keys. The model's `Dictionary` allows repeated keys,
  and every lemma holds either way.
- Directory scanning, stale-dump deletion and log-file attachment do not exist in this
  code and are not modelled.
