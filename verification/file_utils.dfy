/** The project-file operations: the JSON configuration store, the rendered
    ora2pg.conf writer, the guarded creation workflow, deletion, project
    directory creation and the two listings.

    Everything the source reaches through foreign code is a parameter:
    `parse` is `JSON.parse` (None for a syntax error), `stringify` is
    `JSON.stringify`, and `render` is `handlebars.compile(template)({config})`
    (None when the template does not compile). */
module FileUtils {
  import opened Wrappers
  import opened FileSystem

  /** A parsed JSON document, the value the configuration object stands for. */
  datatype Json =
    | JNull
    | JBool(b: bool)
    | JNumber(n: int)
    | JString(s: string)
    | JArray(items: seq<Json>)
    | JObject(members: seq<(string, Json)>)

  /** The two directory settings of the process-wide configuration. */
  datatype AppConfig = AppConfig(projectDirectory: Path, resourceDirectory: Path)

  /** The three outcomes of the creation workflow. */
  datatype Status = NotFound | Conflict | Created

  const ConfigDirName := "config"
  const ConfigJsonName := "ora2pg-conf.json"
  const ConfigFileName := "ora2pg.conf"
  const TemplateName := "ora2pg-config-file.hbs"

  /** The string the workflow returns for each outcome. */
  function StatusText(s: Status): string {
    match s
    case NotFound => "NOT-FOUND"
    case Conflict => "CONFLICT"
    case Created => "CREATED"
  }

  /** `${projectDirectory}/${project}` */
  function ProjectPath(app: AppConfig, project: string): Path {
    Join(app.projectDirectory, project)
  }

  /** `${projectDirectory}/${project}/config` */
  function ConfigDir(app: AppConfig, project: string): Path {
    Join(ProjectPath(app, project), ConfigDirName)
  }

  /** `${projectDirectory}/${project}/config/`, the probe for the directory. */
  function ConfigDirProbe(app: AppConfig, project: string): Path {
    ConfigDir(app, project) + "/"
  }

  /** `${projectDirectory}/${project}/config/ora2pg-conf.json` */
  function ConfigJsonPath(app: AppConfig, project: string): Path {
    Join(ConfigDir(app, project), ConfigJsonName)
  }

  /** `${projectDirectory}/${project}/config/ora2pg.conf` */
  function ConfigFilePath(app: AppConfig, project: string): Path {
    Join(ConfigDir(app, project), ConfigFileName)
  }

  /** `${resourceDirectory}/ora2pg-config-file.hbs` */
  function TemplatePath(app: AppConfig): Path {
    Join(app.resourceDirectory, TemplateName)
  }

  /** `fileExists(file)`: never rejects; any failed access reads as false. */
  predicate FileExists(fs: Fs, file: Path) {
    Access(fs, file)
  }

  /** The config directory probe succeeds exactly when the config directory
      is a directory. */
  lemma ConfigDirProbeMeansDirectory(fs: Fs, app: AppConfig, project: string)
    ensures FileExists(fs, ConfigDirProbe(app, project)) <==> IsDir(fs, ConfigDir(app, project))
  {
  }

  /** The config file path never names the config directory itself. */
  lemma ConfigFileIsNotConfigDir(app: AppConfig, project: string)
    ensures ConfigFilePath(app, project) != ConfigDir(app, project)
  {
  }

  /** `getConfigObject(project)`: read the JSON document and parse it. */
  function GetConfigObject(fs: Fs, app: AppConfig, project: string, parse: string -> Option<Json>)
    : (r: Result<Json, Error>)
    ensures r.Failure? ==> r.error == if IsFile(fs, ConfigJsonPath(app, project)) then ParseError else ReadError
    ensures r.Success? <==>
              IsFile(fs, ConfigJsonPath(app, project)) && parse(fs[ConfigJsonPath(app, project)].contents).Some?
    ensures r.Success? ==> Some(r.value) == parse(fs[ConfigJsonPath(app, project)].contents)
  {
    var text :- ReadFile(fs, ConfigJsonPath(app, project));
    parse(text).ToResult(ParseError)
  }

  /** `saveConfigJson(project, configObject)`: overwrite the JSON document. */
  function SaveConfigJson(fs: Fs, app: AppConfig, project: string, config: Json, stringify: Json -> string)
    : (r: Result<Fs, Error>)
    ensures r.Success? <==>
              && IsDir(fs, ConfigDir(app, project))
              && (ConfigJsonPath(app, project) in fs ==> IsFile(fs, ConfigJsonPath(app, project)))
    ensures r.Success? ==> r.value == fs[ConfigJsonPath(app, project) := RegularFile(stringify(config))]
    ensures r.Failure? ==> r.error == WriteError
  {
    WriteFile(fs, ConfigDir(app, project), ConfigJsonName, stringify(config))
  }

  /** The text `saveConfigFile` writes: the template rendered with the object. */
  function RenderConfig(fs: Fs, app: AppConfig, config: Json, render: (string, Json) -> Option<string>)
    : (r: Result<string, Error>)
    ensures r.Success? <==> IsFile(fs, TemplatePath(app)) && render(fs[TemplatePath(app)].contents, config).Some?
    ensures r.Success? ==> Some(r.value) == render(fs[TemplatePath(app)].contents, config)
    ensures r.Failure? ==> r.error == if IsFile(fs, TemplatePath(app)) then TemplateError else ReadError
  {
    var template :- ReadFile(fs, TemplatePath(app));
    render(template, config).ToResult(TemplateError)
  }

  /** `saveConfigFile(project, configObject)`: render and overwrite ora2pg.conf. */
  function SaveConfigFile(fs: Fs, app: AppConfig, project: string, config: Json,
                          render: (string, Json) -> Option<string>)
    : (r: Result<Fs, Error>)
    ensures r.Success? <==>
              && RenderConfig(fs, app, config, render).Success?
              && IsDir(fs, ConfigDir(app, project))
              && (ConfigFilePath(app, project) in fs ==> IsFile(fs, ConfigFilePath(app, project)))
    ensures r.Success? ==>
              r.value == fs[ConfigFilePath(app, project) := RegularFile(RenderConfig(fs, app, config, render).value)]
    ensures r.Failure? ==>
              r.error == if RenderConfig(fs, app, config, render).Failure?
                         then RenderConfig(fs, app, config, render).error else WriteError
  {
    var text :- RenderConfig(fs, app, config, render);
    WriteFile(fs, ConfigDir(app, project), ConfigFileName, text)
  }

  /** `createConfigFile(project)`. The config directory is probed first, the
      rendered file second; only when the directory is there and the file is
      not are the JSON document read and the file written. A failure of that
      last step rejects, and leaves the filesystem as it was. */
  function CreateConfigFile(fs: Fs, app: AppConfig, project: string,
                            parse: string -> Option<Json>, render: (string, Json) -> Option<string>)
    : (r: Result<(Status, Fs), Error>)
    ensures !IsDir(fs, ConfigDir(app, project)) ==> r == Success((NotFound, fs))
    ensures IsDir(fs, ConfigDir(app, project)) && ConfigFilePath(app, project) in fs ==>
              r == Success((Conflict, fs))
    ensures r.Success? && r.value.0 == NotFound <==> !IsDir(fs, ConfigDir(app, project))
    ensures r.Success? && r.value.0 == Conflict <==>
              IsDir(fs, ConfigDir(app, project)) && ConfigFilePath(app, project) in fs
    ensures r.Success? && r.value.0 == Created <==>
              && IsDir(fs, ConfigDir(app, project))
              && ConfigFilePath(app, project) !in fs
              && GetConfigObject(fs, app, project, parse).Success?
              && RenderConfig(fs, app, GetConfigObject(fs, app, project, parse).value, render).Success?
    ensures r.Success? && r.value.0 == Created ==>
              r.value.1 == fs[ConfigFilePath(app, project) :=
                RegularFile(RenderConfig(fs, app, GetConfigObject(fs, app, project, parse).value, render).value)]
    ensures r.Success? && r.value.0 != Created ==> r.value.1 == fs
    ensures r.Failure? ==>
              && IsDir(fs, ConfigDir(app, project))
              && ConfigFilePath(app, project) !in fs
              && r.error == if GetConfigObject(fs, app, project, parse).Failure?
                            then GetConfigObject(fs, app, project, parse).error
                            else RenderConfig(fs, app, GetConfigObject(fs, app, project, parse).value, render).error
  {
    ConfigDirProbeMeansDirectory(fs, app, project);
    ConfigFileIsNotConfigDir(app, project);
    if !FileExists(fs, ConfigDirProbe(app, project)) then
      Success((NotFound, fs))
    else if FileExists(fs, ConfigFilePath(app, project)) then
      Success((Conflict, fs))
    else
      var config :- GetConfigObject(fs, app, project, parse);
      var fs' :- SaveConfigFile(fs, app, project, config, render);
      Success((Created, fs'))
  }

  /** `deleteConfigFile(project)`: fire-and-forget unlink of ora2pg.conf. A
      failure (no such file, or a directory there) is only logged and never
      reaches the caller. The source returns before the unlink completes; the
      result here is the state once it has completed. */
  function DeleteConfigFile(fs: Fs, app: AppConfig, project: string): (r: Fs)
    ensures r.Keys == if ConfigFilePath(app, project) in fs && !fs[ConfigFilePath(app, project)].Directory?
                      then fs.Keys - {ConfigFilePath(app, project)} else fs.Keys
    ensures forall p :: p in r ==> r[p] == fs[p]
  {
    match Unlink(fs, ConfigFilePath(app, project))
    case Success(fs') => fs'
    case Failure(_) => fs
  }

  /** `createProjectDirectory(project)`: `mkdir -p` of the config directory.
      The outermost level tracked is the project root; its own ancestors are
      taken to exist. The callback handed to `fs.promises.mkdir` is never
      called, so a failure rejects the returned promise. */
  function CreateProjectDirectory(fs: Fs, app: AppConfig, project: string): (r: Result<Fs, Error>)
    ensures r.Success? <==>
              forall p :: p in {app.projectDirectory, ProjectPath(app, project), ConfigDir(app, project)} && p in fs
                ==> fs[p].Directory?
    ensures r.Success? ==>
              && IsDir(r.value, app.projectDirectory)
              && IsDir(r.value, ProjectPath(app, project))
              && IsDir(r.value, ConfigDir(app, project))
    ensures r.Success? ==> r.value.Keys == fs.Keys + {app.projectDirectory, ProjectPath(app, project), ConfigDir(app, project)}
    ensures r.Failure? ==> r.error == WriteError
    ensures r.Success? ==> forall p :: p in fs ==> r.value[p] == fs[p]
  {
    var levels := [app.projectDirectory, ProjectPath(app, project), ConfigDir(app, project)];
    var made := set k | 0 <= k < |levels| :: levels[k];
    assert levels[0] in made && levels[1] in made && levels[2] in made;
    assert made == {app.projectDirectory, ProjectPath(app, project), ConfigDir(app, project)};
    MakeDirs(fs, levels)
  }

  /** `listProjectDirectories()`: the entries of the project root that are
      directories. `names` is what `readdir` enumerated, in its order. */
  function ListProjectDirectories(fs: Fs, app: AppConfig, names: seq<string>): (r: Result<seq<string>, Error>)
    ensures !IsDir(fs, app.projectDirectory) ==> r == Failure(ReadError)
    ensures r.Success? <==>
              IsDir(fs, app.projectDirectory) && forall k :: 0 <= k < |names| ==> Join(app.projectDirectory, names[k]) in fs
    ensures r.Failure? ==> r.error == ReadError
    ensures r.Success? ==> IsSubsequence(r.value, names)
    ensures r.Success? ==> forall name :: name in r.value ==>
              name in names && IsDir(fs, Join(app.projectDirectory, name))
    ensures r.Success? ==> forall name :: name in names && IsDir(fs, Join(app.projectDirectory, name)) ==>
              name in r.value
  {
    if !IsDir(fs, app.projectDirectory) then Failure(ReadError)
    else FilterByKind(fs, app.projectDirectory, names, DirectoryKind)
  }

  /** `listProjectFiles(project)`: the entries of a project directory that are
      regular files. `names` is what `readdir` enumerated, in its order. */
  function ListProjectFiles(fs: Fs, app: AppConfig, project: string, names: seq<string>)
    : (r: Result<seq<string>, Error>)
    ensures !IsDir(fs, ProjectPath(app, project)) ==> r == Failure(ReadError)
    ensures r.Success? <==>
              && IsDir(fs, ProjectPath(app, project))
              && forall k :: 0 <= k < |names| ==> Join(ProjectPath(app, project), names[k]) in fs
    ensures r.Failure? ==> r.error == ReadError
    ensures r.Success? ==> IsSubsequence(r.value, names)
    ensures r.Success? ==> forall name :: name in r.value ==>
              name in names && IsFile(fs, Join(ProjectPath(app, project), name))
    ensures r.Success? ==> forall name :: name in names && IsFile(fs, Join(ProjectPath(app, project), name)) ==>
              name in r.value
  {
    if !IsDir(fs, ProjectPath(app, project)) then Failure(ReadError)
    else FilterByKind(fs, ProjectPath(app, project), names, FileKind)
  }
}
