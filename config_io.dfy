/**
 * The global configuration store: the library, alias-group and project-type
 * registries, how a loaded configuration is defaulted, and the lookups and
 * updates on each registry.
 *
 * The pure part is stated on `ConfigRecord`, the value the codec reads and
 * writes; the class `Config` holds the same four fields and updates them in
 * place, each method proved against the function on records that specifies it.
 */
module ConfigIo {
  import opened Wrappers
  import opened Paths
  import opened Filesystem

  datatype Alias = Alias(path: string)

  /** A project template; `ProjectType::new` is this constructor. */
  datatype ProjectType = ProjectType(defaultAliasGroups: Option<seq<string>>, builder: Option<string>, opener: Option<string>)

  /** The per-project configuration file; `ProjectConfig::new` is this constructor. */
  datatype ProjectConfig = ProjectConfig(projectType: Option<string>, opener: Option<string>, builder: Option<string>)

  /** The four optional fields of the global configuration, as a value. */
  datatype ConfigRecord = ConfigRecord(
    defaultLib: Option<string>,
    libraryPaths: Option<map<string, string>>,
    aliasGroups: Option<map<string, Alias>>,
    projectTypes: Option<map<string, ProjectType>>)

  /** What the codec stores in a file: one of the two configurations, or text it cannot decode. */
  datatype Document = ConfigDoc(config: ConfigRecord) | ProjectDoc(project: ProjectConfig) | Malformed

  /** The two base directories of the platform, taken as given. */
  datatype Xdg = Xdg(configHome: string, dataHome: string)

  const RC_REL_PATH: string := "project_manager/config.toml"
  const PROJECT_ROOT_REL_PATH: string := ".pm/project.toml"
  const DEFAULT_LIB: string := "default"
  const DEFAULT_LIB_REL_PATH: string := "project_manager/projects"

  const UNWRAP_PANIC: string := "called `Option::unwrap()` on a `None` value"
  const DECODE_PANIC: string := "called `Result::unwrap()` on an `Err` value"

  /** The file `load` and `save` use: the explicit path, else `<configHome>/project_manager/config.toml`. */
  function ConfigFilePath(path: Option<string>, xdg: Xdg): string {
    match path
    case Some(p) => p
    case None => Join(xdg.configHome, RC_REL_PATH)
  }

  /** Where the `default` library lives when the configuration names none. */
  function DefaultLibPath(xdg: Xdg): string {
    Join(xdg.dataHome, DEFAULT_LIB_REL_PATH)
  }

  /** The directory of a project's configuration: `<lib>/<name>/.pm`. */
  function ProjectConfigDir(libPath: string, name: string): string {
    Join(Join(libPath, name), ".pm")
  }

  /** `<lib>/<name>/.pm/project.toml`, whose parent is the configuration directory. */
  function ProjectConfigPath(libPath: string, name: string): (p: string)
    ensures p == Join(ProjectConfigDir(libPath, name), "project.toml")
  {
    Join(Join(libPath, name), PROJECT_ROOT_REL_PATH)
  }

  /** The decoding step of `load`: an empty file decodes to a configuration with no fields set. */
  function DecodeConfig(f: FileData<Document>): Option<ConfigRecord> {
    match f
    case Empty => Some(ConfigRecord(None, None, None, None))
    case Written(ConfigDoc(c)) => Some(c)
    case Written(_) => None
  }

  /** The shape every loaded configuration has. */
  predicate IsLoaded(c: ConfigRecord) {
    c.libraryPaths.Some? && DEFAULT_LIB in c.libraryPaths.value && c.aliasGroups.Some?
  }

  /** The post-processing `load` applies to every decoded configuration. */
  function Loaded(c: ConfigRecord, xdg: Xdg): (l: ConfigRecord)
    ensures IsLoaded(l)
    ensures l.defaultLib == c.defaultLib && l.projectTypes == c.projectTypes
    ensures c.aliasGroups.Some? ==> l.aliasGroups == c.aliasGroups
    ensures c.aliasGroups.None? ==> l.aliasGroups == Some(map[])
    ensures c.libraryPaths.Some? && DEFAULT_LIB in c.libraryPaths.value ==> l.libraryPaths == c.libraryPaths
    ensures !(c.libraryPaths.Some? && DEFAULT_LIB in c.libraryPaths.value) ==>
              l.libraryPaths.value[DEFAULT_LIB] == DefaultLibPath(xdg)
    ensures forall k :: k != DEFAULT_LIB ==>
              (k in l.libraryPaths.value <==> c.libraryPaths.Some? && k in c.libraryPaths.value)
    ensures forall k :: k != DEFAULT_LIB && k in l.libraryPaths.value ==>
              l.libraryPaths.value[k] == c.libraryPaths.value[k]
  {
    var paths := c.libraryPaths.GetOr(map[]);
    c.(libraryPaths := Some(if DEFAULT_LIB in paths then paths else paths[DEFAULT_LIB := DefaultLibPath(xdg)]),
       aliasGroups := Some(c.aliasGroups.GetOr(map[])))
  }

  /**
   * `Config::load` as a function of the filesystem: a missing file is an I/O
   * error, a file the codec cannot decode is a panic, and anything else is
   * decoded and post-processed.
   */
  function LoadRecord(s: FsState<Document>, path: Option<string>, xdg: Xdg): (r: Result<ConfigRecord>)
    ensures ConfigFilePath(path, xdg) !in s.files ==> r.Err? && r.error.ConfigError?
    ensures ConfigFilePath(path, xdg) in s.files && DecodeConfig(s.files[ConfigFilePath(path, xdg)]).None? ==>
              r == Err(Panic(DECODE_PANIC))
    ensures r.Ok? <==> ConfigFilePath(path, xdg) in s.files && DecodeConfig(s.files[ConfigFilePath(path, xdg)]).Some?
    ensures r.Ok? ==> IsLoaded(r.value)
    ensures r.Ok? ==> r.value == Loaded(DecodeConfig(s.files[ConfigFilePath(path, xdg)]).value, xdg)
  {
    var p := ConfigFilePath(path, xdg);
    if p !in s.files then Err(ConfigError("IO Error"))
    else match DecodeConfig(s.files[p])
      case None => Err(Panic(DECODE_PANIC))
      case Some(c) => Ok(Loaded(c, xdg))
  }

  /** `Config::save` as a function of the filesystem: the whole record is written to the file. */
  function SaveRecord(s: FsState<Document>, path: Option<string>, xdg: Xdg, c: ConfigRecord): Option<FsState<Document>> {
    WriteFile(s, ConfigFilePath(path, xdg), Written(ConfigDoc(c)))
  }

  /** Post-processing a loaded configuration again changes nothing. */
  lemma {:induction false} LoadedIsStable(c: ConfigRecord, xdg: Xdg)
    requires IsLoaded(c)
    ensures Loaded(c, xdg) == c
  {
    assert c.libraryPaths.GetOr(map[]) == c.libraryPaths.value;
    assert c.aliasGroups.GetOr(map[]) == c.aliasGroups.value;
  }

  /** Saving a loaded configuration and loading it again gives back the same configuration. */
  lemma {:induction false} SaveThenLoad(s: FsState<Document>, path: Option<string>, xdg: Xdg, c: ConfigRecord)
    requires IsLoaded(c)
    requires SaveRecord(s, path, xdg, c).Some?
    ensures LoadRecord(SaveRecord(s, path, xdg, c).value, path, xdg) == Ok(c)
  {
    LoadedIsStable(c, xdg);
  }

  /** A key that resolves in `paths` yields its path; one that does not yields an error. */
  predicate ResolvesTo(paths: map<string, string>, key: string, r: Result<string>) {
    if key in paths then r == Ok(paths[key]) else r.Err?
  }

  /**
   * `get_lib_path`: the library named by the caller, else the configured
   * default library, else the one called `default`; never a path that is not
   * in the table.
   */
  function GetLibPath(c: ConfigRecord, name: Option<string>): (r: Result<string>)
    ensures c.libraryPaths.None? ==> r == Err(Panic("No library paths found"))
    ensures c.libraryPaths.Some? ==> r.Ok? || r == Err(ConfigError("Could not find library path"))
    ensures r.Ok? ==> r.value in c.libraryPaths.value.Values
    ensures c.libraryPaths.Some? && name.Some? ==> ResolvesTo(c.libraryPaths.value, name.value, r)
    ensures c.libraryPaths.Some? && name.None? && c.defaultLib.Some? ==>
              ResolvesTo(c.libraryPaths.value, c.defaultLib.value, r)
    ensures c.libraryPaths.Some? && name.None? && c.defaultLib.None? ==>
              ResolvesTo(c.libraryPaths.value, DEFAULT_LIB, r)
  {
    match c.libraryPaths
    case None => Err(Panic("No library paths found"))
    case Some(paths) =>
      var key := name.GetOr(c.defaultLib.GetOr(DEFAULT_LIB));
      if key in paths then Ok(paths[key]) else Err(ConfigError("Could not find library path"))
  }

  /** `get_alias_group`: the registered alias or none; a panic when the table is absent. */
  function GetAliasGroup(c: ConfigRecord, name: string): (r: Result<Option<Alias>>)
    ensures r.Err? <==> c.aliasGroups.None?
    ensures r.Err? ==> r.error.Panic?
    ensures r.Ok? ==> (r.value.Some? <==> name in c.aliasGroups.value)
    ensures r.Ok? && r.value.Some? ==> r.value.value == c.aliasGroups.value[name]
  {
    match c.aliasGroups
    case None => Err(Panic(UNWRAP_PANIC))
    case Some(groups) => Ok(if name in groups then Some(groups[name]) else None)
  }

  /** `get_project_type`: the registered type or none; a panic when the table is absent. */
  function GetProjectType(c: ConfigRecord, name: string): (r: Result<Option<ProjectType>>)
    ensures r.Err? <==> c.projectTypes.None?
    ensures r.Err? ==> r.error == Panic("Tried to get undefined project type")
    ensures r.Ok? ==> (r.value.Some? <==> name in c.projectTypes.value)
    ensures r.Ok? && r.value.Some? ==> r.value.value == c.projectTypes.value[name]
  {
    match c.projectTypes
    case None => Err(Panic("Tried to get undefined project type"))
    case Some(types) => Ok(if name in types then Some(types[name]) else None)
  }

  /** `add_alias_group`: upsert, creating the table when it is absent. */
  function WithAliasGroup(c: ConfigRecord, name: string, alias: Alias): (d: ConfigRecord)
    ensures d.(aliasGroups := c.aliasGroups) == c
    ensures GetAliasGroup(d, name) == Ok(Some(alias))
    ensures c.aliasGroups.Some? ==> forall k :: k != name ==> GetAliasGroup(d, k) == GetAliasGroup(c, k)
    ensures c.aliasGroups.None? ==> d.aliasGroups == Some(map[name := alias])
    ensures IsLoaded(c) ==> IsLoaded(d)
  {
    c.(aliasGroups := Some(c.aliasGroups.GetOr(map[])[name := alias]))
  }

  /**
   * `delete_alias_group`: removes one key and returns what it held; a panic
   * when the table is absent.
   */
  function WithoutAliasGroup(c: ConfigRecord, name: string): (r: Result<(ConfigRecord, Option<Alias>)>)
    ensures r.Err? <==> c.aliasGroups.None?
    ensures r.Err? ==> r.error.Panic?
    ensures r.Ok? ==> GetAliasGroup(c, name) == Ok(r.value.1)
    ensures r.Ok? ==> r.value.0.(aliasGroups := c.aliasGroups) == c
    ensures r.Ok? ==> GetAliasGroup(r.value.0, name) == Ok(None)
    ensures r.Ok? ==> forall k :: k != name ==> GetAliasGroup(r.value.0, k) == GetAliasGroup(c, k)
  {
    match c.aliasGroups
    case None => Err(Panic(UNWRAP_PANIC))
    case Some(groups) =>
      Ok((c.(aliasGroups := Some(groups - {name})), if name in groups then Some(groups[name]) else None))
  }

  /**
   * `add_lib`: upsert into the library table; a panic when the table is
   * absent. The default library is never touched here.
   */
  function WithLib(c: ConfigRecord, name: string, path: string): (r: Result<ConfigRecord>)
    ensures r.Err? <==> c.libraryPaths.None?
    ensures r.Err? ==> r.error.Panic?
    ensures r.Ok? ==> r.value.(libraryPaths := c.libraryPaths) == c
    ensures r.Ok? ==> GetLibPath(r.value, Some(name)) == Ok(path)
    ensures r.Ok? ==> forall k :: k != name ==> GetLibPath(r.value, Some(k)) == GetLibPath(c, Some(k))
    ensures r.Ok? && IsLoaded(c) ==> IsLoaded(r.value)
  {
    match c.libraryPaths
    case None => Err(Panic(UNWRAP_PANIC))
    case Some(paths) => Ok(c.(libraryPaths := Some(paths[name := path])))
  }

  /** `add_project_type`: upsert of the type built from the arguments, creating the table when absent. */
  function WithProjectType(c: ConfigRecord, name: string, t: ProjectType): (d: ConfigRecord)
    ensures d.(projectTypes := c.projectTypes) == c
    ensures GetProjectType(d, name) == Ok(Some(t))
    ensures c.projectTypes.Some? ==> forall k :: k != name ==> GetProjectType(d, k) == GetProjectType(c, k)
    ensures c.projectTypes.None? ==> d.projectTypes == Some(map[name := t])
    ensures IsLoaded(c) ==> IsLoaded(d)
  {
    c.(projectTypes := Some(c.projectTypes.GetOr(map[])[name := t]))
  }

  /** Deleting an alias group just added to a table that did not hold it restores the configuration. */
  lemma {:induction false} DeleteUndoesAdd(c: ConfigRecord, name: string, alias: Alias)
    requires c.aliasGroups.Some? && name !in c.aliasGroups.value
    ensures WithoutAliasGroup(WithAliasGroup(c, name, alias), name) == Ok((c, Some(alias)))
  {
    var groups := c.aliasGroups.value;
    assert groups[name := alias] - {name} == groups;
  }

  /** `ProjectConfig::save`: the whole per-project configuration is written to `path`. */
  method SaveProjectConfig(fs: FileSystem<Document>, pc: ProjectConfig, path: string) returns (r: Outcome)
    modifies fs
    ensures r.Pass? == WriteFile(old(fs.State()), path, Written(ProjectDoc(pc))).Some?
    ensures r.Pass? ==> fs.State() == WriteFile(old(fs.State()), path, Written(ProjectDoc(pc))).value
    ensures r.Fail? ==> fs.State() == old(fs.State()) && r.error.ConfigError?
  {
    var ok := fs.Write(path, Written(ProjectDoc(pc)));
    r := if ok then Pass else Fail(ConfigError("IO Error"));
  }

  /** The global configuration, updated in place by the registry operations. */
  class Config {
    var defaultLib: Option<string>
    var libraryPaths: Option<map<string, string>>
    var aliasGroups: Option<map<string, Alias>>
    var projectTypes: Option<map<string, ProjectType>>

    function Value(): ConfigRecord
      reads this
    {
      ConfigRecord(defaultLib, libraryPaths, aliasGroups, projectTypes)
    }

    /** The configuration exactly as the codec decoded it. */
    constructor FromRecord(c: ConfigRecord)
      ensures Value() == c
    {
      defaultLib, libraryPaths, aliasGroups, projectTypes := c.defaultLib, c.libraryPaths, c.aliasGroups, c.projectTypes;
    }

    static method Load(fs: FileSystem<Document>, path: Option<string>, xdg: Xdg) returns (r: Result<Config>)
      ensures r.Ok? <==> LoadRecord(fs.State(), path, xdg).Ok?
      ensures r.Ok? ==> fresh(r.value) && r.value.Value() == LoadRecord(fs.State(), path, xdg).value
      ensures r.Err? ==> r.error == LoadRecord(fs.State(), path, xdg).error
    {
      var p := ConfigFilePath(path, xdg);
      if p !in fs.files {
        return Err(ConfigError("IO Error"));
      }
      var decoded := DecodeConfig(fs.files[p]);
      if decoded.None? {
        return Err(Panic(DECODE_PANIC));
      }
      var config := new Config.FromRecord(decoded.value);
      config.ApplyLoadDefaults(xdg);
      return Ok(config);
    }

    /** The post-processing of `load`, done on the fields in place. */
    method ApplyLoadDefaults(xdg: Xdg)
      modifies this
      ensures Value() == Loaded(old(Value()), xdg)
    {
      if libraryPaths.None? {
        libraryPaths := Some(map[]);
      }
      if aliasGroups.None? {
        aliasGroups := Some(map[]);
      }
      if DEFAULT_LIB !in libraryPaths.value {
        libraryPaths := Some(libraryPaths.value[DEFAULT_LIB := DefaultLibPath(xdg)]);
      }
    }

    method Save(fs: FileSystem<Document>, path: Option<string>, xdg: Xdg) returns (r: Outcome)
      modifies fs
      ensures r.Pass? == SaveRecord(old(fs.State()), path, xdg, Value()).Some?
      ensures r.Pass? ==> fs.State() == SaveRecord(old(fs.State()), path, xdg, Value()).value
      ensures r.Fail? ==> fs.State() == old(fs.State()) && r.error.ConfigError?
    {
      var ok := fs.Write(ConfigFilePath(path, xdg), Written(ConfigDoc(Value())));
      r := if ok then Pass else Fail(ConfigError("IO Error"));
    }

    method AddAliasGroup(name: string, alias: Alias)
      modifies this
      ensures Value() == WithAliasGroup(old(Value()), name, alias)
    {
      match aliasGroups
      case Some(groups) =>
        aliasGroups := Some(groups[name := alias]);
      case None =>
        aliasGroups := Some(map[name := alias]);
    }

    method DeleteAliasGroup(name: string) returns (r: Result<Option<Alias>>)
      modifies this
      ensures WithoutAliasGroup(old(Value()), name).Err? ==>
                r == Err(WithoutAliasGroup(old(Value()), name).error) && Value() == old(Value())
      ensures WithoutAliasGroup(old(Value()), name).Ok? ==>
                r == Ok(WithoutAliasGroup(old(Value()), name).value.1) &&
                Value() == WithoutAliasGroup(old(Value()), name).value.0
    {
      if aliasGroups.None? {
        return Err(Panic(UNWRAP_PANIC));
      }
      var groups := aliasGroups.value;
      r := Ok(if name in groups then Some(groups[name]) else None);
      aliasGroups := Some(groups - {name});
    }

    /** The `default` flag is accepted and ignored, as in the source. */
    method AddLib(name: string, path: string, default: bool) returns (r: Outcome)
      modifies this
      ensures WithLib(old(Value()), name, path).Err? ==>
                r == Fail(WithLib(old(Value()), name, path).error) && Value() == old(Value())
      ensures WithLib(old(Value()), name, path).Ok? ==>
                r == Pass && Value() == WithLib(old(Value()), name, path).value
      ensures defaultLib == old(defaultLib)
    {
      if libraryPaths.None? {
        return Fail(Panic(UNWRAP_PANIC));
      }
      libraryPaths := Some(libraryPaths.value[name := path]);
      r := Pass;
    }

    method SetDefaultLib(name: string)
      modifies this
      ensures Value() == old(Value()).(defaultLib := Some(name))
    {
      defaultLib := Some(name);
    }

    method AddProjectType(name: string, defaultAliasGroups: Option<seq<string>>, builder: Option<string>, opener: Option<string>)
      modifies this
      ensures Value() == WithProjectType(old(Value()), name, ProjectType(defaultAliasGroups, builder, opener))
    {
      var t := ProjectType(defaultAliasGroups, builder, opener);
      match projectTypes
      case Some(types) =>
        projectTypes := Some(types[name := t]);
      case None =>
        projectTypes := Some(map[name := t]);
    }
  }
}
