/** Properties that relate several calls of the project-file operations. */
module FileUtilsProperties {
  import opened Wrappers
  import opened FileSystem
  import opened FileUtils

  /** The three status strings are pairwise different, so a caller can branch on them. */
  lemma StatusTextsDistinct(s: Status, t: Status)
    requires s != t
    ensures StatusText(s) != StatusText(t)
  {
  }

  /** A path that is absent does not exist, and after `writeFile` succeeds the
      written path exists. */
  lemma FileExistsAfterWrite(fs: Fs, dir: Path, name: string, contents: string)
    requires IsEntryName(name)
    requires Join(dir, name) !in fs
    requires WriteFile(fs, dir, name, contents).Success?
    ensures !FileExists(fs, Join(dir, name))
    ensures FileExists(WriteFile(fs, dir, name, contents).value, Join(dir, name))
  {
  }

  /** A successful creation followed by a second call: the second call
      reports a conflict and the rendered file keeps its contents. */
  lemma SecondCreateConflicts(fs: Fs, app: AppConfig, project: string,
                              parse: string -> Option<Json>, render: (string, Json) -> Option<string>)
    requires CreateConfigFile(fs, app, project, parse, render).Success?
    requires CreateConfigFile(fs, app, project, parse, render).value.0 == Created
    ensures var fs1 := CreateConfigFile(fs, app, project, parse, render).value.1;
            && CreateConfigFile(fs1, app, project, parse, render) == Success((Conflict, fs1))
            && IsFile(fs1, ConfigFilePath(app, project))
  {
  }

  /** Creating the rendered file and then deleting it restores the filesystem
      exactly: creation wrote one path that was absent before. */
  lemma CreateThenDeleteRestores(fs: Fs, app: AppConfig, project: string,
                                 parse: string -> Option<Json>, render: (string, Json) -> Option<string>)
    requires CreateConfigFile(fs, app, project, parse, render).Success?
    requires CreateConfigFile(fs, app, project, parse, render).value.0 == Created
    ensures DeleteConfigFile(CreateConfigFile(fs, app, project, parse, render).value.1, app, project) == fs
  {
  }

  /** Deleting twice is the same as deleting once. */
  lemma DeleteIdempotent(fs: Fs, app: AppConfig, project: string)
    ensures DeleteConfigFile(DeleteConfigFile(fs, app, project), app, project) == DeleteConfigFile(fs, app, project)
  {
  }

  /** Deleting the rendered file when it is absent changes nothing. */
  lemma DeleteMissingIsNoOp(fs: Fs, app: AppConfig, project: string)
    requires ConfigFilePath(app, project) !in fs
    ensures DeleteConfigFile(fs, app, project) == fs
  {
  }

  /** The last character of a joined path is the last character of the name. */
  lemma JoinLast(dir: Path, name: string)
    requires name != ""
    ensures Join(dir, name)[|Join(dir, name)| - 1] == name[|name| - 1]
  {
  }

  /** The rendered file is never the template or the JSON document it is
      rendered from. */
  lemma ConfigFileIsNotAnInput(app: AppConfig, project: string)
    ensures ConfigFilePath(app, project) != TemplatePath(app)
    ensures ConfigFilePath(app, project) != ConfigJsonPath(app, project)
  {
    JoinLast(ConfigDir(app, project), ConfigFileName);
    JoinLast(app.resourceDirectory, TemplateName);
    ConfigFileIsNotConfigDir(app, project);
  }

  /** Writing ora2pg.conf touches neither of its inputs: after `CREATED`, the
      JSON document reads back and the template renders exactly as before. */
  lemma CreatedKeepsInputs(fs: Fs, app: AppConfig, project: string,
                           parse: string -> Option<Json>, render: (string, Json) -> Option<string>)
    requires CreateConfigFile(fs, app, project, parse, render).Success?
    requires CreateConfigFile(fs, app, project, parse, render).value.0 == Created
    ensures var fs1 := CreateConfigFile(fs, app, project, parse, render).value.1;
            var config := GetConfigObject(fs, app, project, parse);
            && GetConfigObject(fs1, app, project, parse) == config
            && RenderConfig(fs1, app, config.value, render) == RenderConfig(fs, app, config.value, render)
  {
  }

  /** Saving the rendered file a second time with the same object leaves the
      state exactly as the first save did. */
  lemma SaveConfigFileIdempotent(fs: Fs, app: AppConfig, project: string, config: Json,
                                 render: (string, Json) -> Option<string>)
    requires SaveConfigFile(fs, app, project, config, render).Success?
    ensures var fs1 := SaveConfigFile(fs, app, project, config, render).value;
            SaveConfigFile(fs1, app, project, config, render) == Success(fs1)
  {
    ConfigFileIsNotAnInput(app, project);
    var fs1 := SaveConfigFile(fs, app, project, config, render).value;
    var text := RenderConfig(fs, app, config, render).value;
    assert RenderConfig(fs1, app, config, render) == Success(text);
    assert fs1[ConfigFilePath(app, project) := RegularFile(text)] == fs1;
  }

  /** Deleting the rendered file and creating it again regenerates it from the
      current JSON document and template, whatever it held before. */
  lemma DeleteThenCreateRegenerates(fs: Fs, app: AppConfig, project: string,
                                    parse: string -> Option<Json>, render: (string, Json) -> Option<string>)
    requires IsDir(fs, ConfigDir(app, project))
    requires IsFile(fs, ConfigFilePath(app, project))
    requires GetConfigObject(fs, app, project, parse).Success?
    requires RenderConfig(fs, app, GetConfigObject(fs, app, project, parse).value, render).Success?
    ensures var r := CreateConfigFile(DeleteConfigFile(fs, app, project), app, project, parse, render);
            && r.Success? && r.value.0 == Created
            && r.value.1 == fs[ConfigFilePath(app, project) :=
                 RegularFile(RenderConfig(fs, app, GetConfigObject(fs, app, project, parse).value, render).value)]
  {
  }

  /** Writing the JSON document and reading it back yields the same object,
      provided `JSON.parse` inverts `JSON.stringify` on it. */
  lemma SaveThenGetConfigObject(fs: Fs, app: AppConfig, project: string, config: Json,
                                parse: string -> Option<Json>, stringify: Json -> string)
    requires parse(stringify(config)) == Some(config)
    requires SaveConfigJson(fs, app, project, config, stringify).Success?
    ensures GetConfigObject(SaveConfigJson(fs, app, project, config, stringify).value, app, project, parse)
            == Success(config)
  {
  }

  /** Once `createProjectDirectory` has succeeded, the creation workflow gets
      past its first guard. */
  lemma ProjectDirectoryEnablesCreate(fs: Fs, app: AppConfig, project: string,
                                      parse: string -> Option<Json>, render: (string, Json) -> Option<string>)
    requires CreateProjectDirectory(fs, app, project).Success?
    ensures var r := CreateConfigFile(CreateProjectDirectory(fs, app, project).value, app, project, parse, render);
            r.Success? ==> r.value.0 != NotFound
  {
  }

  /** Given the complete `readdir` listing of the project root, the listing
      succeeds and holds every directory under the root and nothing else. */
  lemma ListProjectDirectoriesComplete(fs: Fs, app: AppConfig, names: seq<string>)
    requires IsDir(fs, app.projectDirectory)
    requires IsListing(fs, app.projectDirectory, names)
    ensures ListProjectDirectories(fs, app, names).Success?
    ensures forall name :: name in ListProjectDirectories(fs, app, names).value <==>
              IsEntryName(name) && IsDir(fs, Join(app.projectDirectory, name))
  {
  }

  /** Given the complete `readdir` listing of a project directory, the listing
      succeeds and holds every regular file in it and nothing else. */
  lemma ListProjectFilesComplete(fs: Fs, app: AppConfig, project: string, names: seq<string>)
    requires IsDir(fs, ProjectPath(app, project))
    requires IsListing(fs, ProjectPath(app, project), names)
    ensures ListProjectFiles(fs, app, project, names).Success?
    ensures forall name :: name in ListProjectFiles(fs, app, project, names).value <==>
              IsEntryName(name) && IsFile(fs, Join(ProjectPath(app, project), name))
  {
  }

  /** No name is reported both as a project directory and, for the same
      directory, as a file: the two filters are exclusive. */
  lemma FiltersExclusive(fs: Fs, dir: Path, names: seq<string>)
    requires FilterByKind(fs, dir, names, DirectoryKind).Success?
    ensures FilterByKind(fs, dir, names, FileKind).Success?
    ensures forall name :: name in FilterByKind(fs, dir, names, DirectoryKind).value ==>
              name !in FilterByKind(fs, dir, names, FileKind).value
  {
  }
}
