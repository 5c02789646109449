# ora2pg project-file utilities, modelled in Dafny

This project models the project-file module of visulate-ora2pg, a web front end
for the ora2pg Oracle-to-PostgreSQL migration tool. Each migration project is a
directory under a configured project root. The directory holds a `config/`
subdirectory with two files:

- `ora2pg-conf.json`, the configuration object as JSON;
- `ora2pg.conf`, the ora2pg configuration file rendered from that object through
  a Handlebars template.

The model covers two things:

- **Key validation** (`KeyValidator`). `validKeys` checks the configuration
  object's own keys against the 21 canonical category names. The check goes by
  position, from index 20 down to 0. The object's keys are a `seq<string>`, and
  a position past the end reads as `None`, JavaScript's `undefined`.
- **Project files** (`FileSystem`, `FileUtils`). The filesystem is a finite map
  from path strings to entries: `Directory`, `RegularFile(contents)` or
  `Special`. Every operation is a pure function from one state to a result:
  - reading and writing the JSON document;
  - rendering `ora2pg.conf`;
  - the guarded `createConfigFile` workflow, whose outcome is `NOT-FOUND`,
    `CONFLICT` or `CREATED`;
  - deleting the rendered file;
  - creating a project directory;
  - the two directory listings.

  A rejected promise is a `Failure` carrying one of `ReadError`, `ParseError`,
  `WriteError` or `TemplateError`.

Foreign code is passed in as function-typed parameters:

- `JSON.parse` is `parse: string -> Option<Json>`, where `None` means a syntax error.
- `JSON.stringify` is `stringify: Json -> string`.
- Compiling and applying the Handlebars template is `render: (string, Json) -> Option<string>`,
  where `None` means the template does not compile.
- The order in which `readdir` enumerates a directory is the parameter `names`.
- The process-wide settings are an `AppConfig` value holding `projectDirectory`
  and `resourceDirectory`.

`validKeys` never reads past index 20, so an object with extra trailing keys
is accepted (`KeyValidator.TrailingKeysIgnored`).

Files:

- `wrappers.dfy`: `Option` and `Result`.
- `key_validator.dfy`: `validKeys`.
- `filesystem.dfy`: the abstract filesystem and the `fs` primitives the module calls.
- `file_utils.dfy`: the module's exported operations.
- `file_utils_properties.dfy`: lemmas that relate several calls.

## Model

| member | source | states |
|---|---|---|
| `KeyValidator.MatchesBelow` | express/api/file-utils.js:30-33 | no contract of its own: the `while (i--)` loop entered with `i == n`, comparing positions `n-1` down to `0` and stopping at the first mismatch; characterised by `KeyValidator.MatchesBelowMeaning` |
| `KeyValidator.ValidKeys` | express/api/file-utils.js:25-35 | no contract of its own: `validKeys` as the loop run from `i == 21`; characterised by `KeyValidator.ValidKeysIsPrefix` |
| `KeyValidator.MatchesBelowMeaning` | express/api/file-utils.js:30-33 | the downward loop started at `i == n` succeeds exactly when every position below `n` holds a key and that key equals the canonical name at that position |
| `KeyValidator.ValidKeysIsPrefix` | express/api/file-utils.js:25-35 | `validKeys`, modelled as the loop, is true exactly when the 21 canonical names are a prefix of the object's key sequence, i.e. there are at least 21 keys and the first 21 equal the canonical list position by position |
| `KeyValidator.CanonicalKeysDistinct` | express/api/file-utils.js:26-28 | the 21 canonical category names are pairwise different |
| `KeyValidator.CanonicalAccepted` | express/api/file-utils.js:26-34 | the canonical list itself passes the check |
| `KeyValidator.FewerKeysRejected` | express/api/file-utils.js:29-32 | an object with fewer than 21 own keys is rejected, because a missing position never equals a canonical name |
| `KeyValidator.MismatchRejected` | express/api/file-utils.js:31-32 | a wrong key at any of the positions 0..20 makes the check fail |
| `KeyValidator.TrailingKeysIgnored` | express/api/file-utils.js:30-31 | appending any keys to an accepted key sequence keeps it accepted |
| `KeyValidator.OnlyFirstPositionsMatter` | express/api/file-utils.js:30-32 | two key sequences that agree on their first 21 positions get the same verdict |
| `KeyValidator.SwapRejected` | express/api/file-utils.js:31-32 | swapping two of the first 21 keys of an accepted sequence keeps the same multiset of keys but is rejected, so the check is order-sensitive and not a set comparison |
| `FileSystem.Access` | express/api/file-utils.js:109 | no contract of its own: `fs.promises.access(p, F_OK)` resolves when `p` exists, and a path ending in `/` resolves only to a directory; characterised by `FileUtils.ConfigDirProbeMeansDirectory` and `FileUtilsProperties.FileExistsAfterWrite` |
| `FileSystem.ReadFile` | express/api/file-utils.js:44 | `readFile` succeeds exactly on a regular file and returns its stored contents |
| `FileSystem.WriteFile` | express/api/file-utils.js:71 | `writeFile` succeeds exactly when the parent is a directory and the target is absent or a regular file; on success it adds or overwrites that one path with the new contents and keeps every other entry |
| `FileSystem.Unlink` | express/api/file-utils.js:98 | `unlink` succeeds exactly on an existing non-directory, removes that path only and keeps every other entry |
| `FileSystem.MakeDirs` | express/api/file-utils.js:121 | recursive `mkdir` succeeds exactly when no level exists as a non-directory; afterwards every level is a directory, exactly the missing levels were added and existing entries are untouched; a failure is a `WriteError` |
| `FileSystem.FilterByKind` | express/api/file-utils.js:134 | filtering a listing by `statSync(...).isDirectory()` or `.isFile()` fails exactly when some listed name does not exist; otherwise it keeps exactly the listed names whose entry has the wanted kind, as a subsequence of the listing (same relative order, each position used at most once); a failure is a `ReadError` |
| `FileUtils.FileExists` | express/api/file-utils.js:108-112 | no contract of its own: `fileExists` never rejects and is true exactly when `access` resolves; characterised by `FileUtils.ConfigDirProbeMeansDirectory` and `FileUtilsProperties.FileExistsAfterWrite` |
| `FileUtils.StatusText` | express/api/file-utils.js:82-88 | no contract of its own: the strings `NOT-FOUND`, `CONFLICT` and `CREATED` returned for the three outcomes; characterised by `FileUtilsProperties.StatusTextsDistinct` |
| `FileUtils.ConfigDirProbeMeansDirectory` | express/api/file-utils.js:81 | probing `…/config/` with its trailing slash succeeds exactly when `…/config` is a directory |
| `FileUtils.GetConfigObject` | express/api/file-utils.js:43-46 | `getConfigObject` succeeds exactly when the JSON document is a regular file whose text parses, and then returns the parsed object; otherwise it fails with `ReadError` when the document is not a regular file and with `ParseError` when its text does not parse |
| `FileUtils.SaveConfigJson` | express/api/file-utils.js:55-58 | `saveConfigJson` succeeds exactly when the config directory exists and the JSON path is not a directory or special file; it then replaces only the JSON document, with the stringified object; a failure is a `WriteError` |
| `FileUtils.RenderConfig` | express/api/file-utils.js:68-70 | rendering succeeds exactly when the template is a regular file and compiles, and yields the template applied to the object; otherwise it fails with `ReadError` when the template is not a regular file and with `TemplateError` when it does not compile |
| `FileUtils.SaveConfigFile` | express/api/file-utils.js:67-72 | `saveConfigFile` succeeds exactly when rendering succeeds and `ora2pg.conf` can be written; it then changes only `ora2pg.conf`, to the rendered text; a failure carries the rendering error (`ReadError` or `TemplateError`) when rendering fails and `WriteError` otherwise |
| `FileUtils.CreateConfigFile` | express/api/file-utils.js:80-90 | `NOT-FOUND` is returned exactly when there is no config directory, and `CONFLICT` exactly when the directory and `ora2pg.conf` both exist; in both cases the state is unchanged. `CREATED` is returned exactly when the directory exists, the file is absent, the JSON parses and the template renders, and then only `ora2pg.conf` changes, to the rendered object. Otherwise the call rejects, with the JSON document's error if it cannot be read or parsed and with the template's error otherwise |
| `FileUtils.DeleteConfigFile` | express/api/file-utils.js:97-101 | `deleteConfigFile` never fails; it removes `ora2pg.conf` when that path holds a non-directory, otherwise leaves the key set alone, and never changes any other entry |
| `FileUtils.CreateProjectDirectory` | express/api/file-utils.js:120-125 | `createProjectDirectory` succeeds exactly when none of the root, the project directory and its `config` directory exists as a non-directory; afterwards all three are directories, only missing ones were added and nothing else changed; a failure is a `WriteError` |
| `FileUtils.ListProjectDirectories` | express/api/file-utils.js:131-135 | the listing succeeds exactly when the root is a directory and every listed name exists under it, and otherwise fails with `ReadError`; on success it holds exactly the listed names that are directories under the root, in listing order |
| `FileUtils.ListProjectFiles` | express/api/file-utils.js:143-146 | the listing succeeds exactly when the project directory is a directory and every listed name exists in it, and otherwise fails with `ReadError`; on success it holds exactly the listed names that are regular files in it, in listing order |
| `FileUtilsProperties.StatusTextsDistinct` | express/api/file-utils.js:80-90 | the three status strings `NOT-FOUND`, `CONFLICT` and `CREATED` are pairwise different |
| `FileUtilsProperties.FileExistsAfterWrite` | express/api/file-utils.js:108-112 | `fileExists` is false for an absent path and true for that path once `writeFile` has created it |
| `FileUtilsProperties.SecondCreateConflicts` | express/api/file-utils.js:83-89 | after a call that returned `CREATED`, a second call returns `CONFLICT` and leaves the state, including the rendered file, unchanged |
| `FileUtilsProperties.CreateThenDeleteRestores` | express/api/file-utils.js:85-101 | deleting the rendered file right after creating it gives back exactly the state from before the creation |
| `FileUtilsProperties.DeleteIdempotent` | express/api/file-utils.js:97-101 | deleting twice has the same effect as deleting once |
| `FileUtilsProperties.DeleteMissingIsNoOp` | express/api/file-utils.js:97-101 | deleting a rendered file that does not exist leaves the state unchanged |
| `FileUtilsProperties.ConfigFileIsNotAnInput` | express/api/file-utils.js:68-71 | the rendered file's path is never the template's path or the JSON document's path |
| `FileUtilsProperties.CreatedKeepsInputs` | express/api/file-utils.js:85-89 | after `CREATED`, the JSON document reads back to the same object and the template renders it to the same text as before the call |
| `FileUtilsProperties.SaveConfigFileIdempotent` | express/api/file-utils.js:67-72 | saving the rendered file again with the same object leaves the state exactly as the first save left it |
| `FileUtilsProperties.DeleteThenCreateRegenerates` | express/api/file-utils.js:80-101 | deleting an existing rendered file and creating it again returns `CREATED` and writes the file rendered from the current JSON document and template, whatever it held before |
| `FileUtilsProperties.SaveThenGetConfigObject` | express/api/file-utils.js:43-58 | if `JSON.parse` inverts `JSON.stringify` on an object, saving that object and reading it back returns the same object |
| `FileUtilsProperties.ProjectDirectoryEnablesCreate` | express/api/file-utils.js:120-125 | after `createProjectDirectory` succeeds, `createConfigFile` never returns `NOT-FOUND` |
| `FileUtilsProperties.ListProjectDirectoriesComplete` | express/api/file-utils.js:131-135 | given the complete `readdir` listing of the root, the listing succeeds and holds exactly the directories under the root |
| `FileUtilsProperties.ListProjectFilesComplete` | express/api/file-utils.js:143-146 | given the complete `readdir` listing of a project directory, the listing succeeds and holds exactly its regular files |
| `FileUtilsProperties.FiltersExclusive` | express/api/file-utils.js:134-145 | the directory filter and the file filter never keep the same name from one listing |

## Left out

- Real I/O is not modelled: `fs.promises.*`, `fs.statSync`, `fs.unlink`, promises and `await` become pure functions over the abstract state.
- Permissions and I/O failures other than a missing path or a wrong kind of entry are not modelled.
- Races between concurrent calls on the same project are not modelled; every call is assumed to run alone.
- `console.error` logging is not modelled; a swallowed error simply leaves the state as it was.
- Handlebars compilation and rendering, `JSON.parse` and `JSON.stringify` are foreign code. They are uninterpreted parameters. Their round-trip fidelity is only an assumption, stated as a precondition of `FileUtilsProperties.SaveThenGetConfigObject`.
- Loading `appConfig` from `../resources/http-config` is not part of this model; its two directories are the `AppConfig` parameter.
- `Object.keys` is not modelled; `KeyValidator.ValidKeys` takes the key sequence as given. JavaScript's ordering of integer-like keys is therefore not modelled, and neither is the `TypeError` that `Object.keys(null)` throws.
- `path.join` normalisation is not modelled. Paths are built by string concatenation, and a project name containing `/`, `.` or `..` is not resolved.
- The enumeration order of `readdir` is not modelled; it is the `names` parameter. The completeness lemmas assume `names` is exactly the directory's contents.
- FileSystem.ReadFile: reading a `Special` entry (device, FIFO, socket) is always a `ReadError`. Real `readFile` could read some devices.
- FileSystem.WriteFile: writing to a `Special` entry is always a `WriteError`.
- FileSystem.MakeDirs: the ancestors of the project root are assumed to exist. A recursive `mkdir` that must create them as well is not modelled.
- FileSystem.MakeDirs: on failure the state is taken as unchanged. On a filesystem where every entry's parent is a directory, Node detects the conflicting level before it creates anything.
- FileUtils.CreateProjectDirectory: every `mkdir` error rejects the returned promise, including `EEXIST` when a level exists as a non-directory. The callback passed to `fs.promises.mkdir` is never invoked, so nothing is logged for it.
- FileUtils.DeleteConfigFile: the source returns before its callback-style `fs.unlink` has finished. The model's result is the state after the unlink has completed, and the lemmas about deletion hold only from that point on.
- The `JNumber` case of `FileUtils.Json` holds an `int`, while JSON numbers are IEEE doubles. Nothing in the model computes on numbers, because `parse` and `stringify` are uninterpreted.
