/**
 * The top-level operations of the tool: three registry mutators, each a
 * load, one change and a save of the global configuration, and project
 * creation, which resolves a library and a set of alias groups and then
 * creates the project's directory, its configuration file and one symbolic
 * link per alias group.
 *
 * Each operation is a method on the filesystem. The mutators are proved
 * equal to a function of the old filesystem (`...Run`); project creation is
 * proved against `Prepare` (everything up to the links, a function) and
 * `FannedOut` (the links, a relation, because the source walks a hash set
 * in no fixed order).
 */
module ProjectManager {
  import opened Wrappers
  import opened Paths
  import opened Filesystem
  import opened ConfigIo

  /** The filesystem after a top-level operation, and how the operation ended. */
  datatype Run = Run(state: FsState<Document>, outcome: Outcome)

  // ---------------------------------------------------------------------------
  // Registry mutators: load, change one entry, save.
  // ---------------------------------------------------------------------------

  function DefineProjectTypeRun(s: FsState<Document>, name: string, defaults: Option<seq<string>>,
                                builder: Option<string>, opener: Option<string>, xdg: Xdg): Run
  {
    match LoadRecord(s, None, xdg)
    case Err(e) => Run(s, Fail(Expect(e, "Could not load config")))
    case Ok(c) =>
      match SaveRecord(s, None, xdg, WithProjectType(c, name, ProjectType(defaults, builder, opener)))
      case None => Run(s, Fail(Panic("Could not save config")))
      case Some(s1) => Run(s1, Pass)
  }

  method DefineProjectType(fs: FileSystem<Document>, name: string, defaults: Option<seq<string>>,
                           builder: Option<string>, opener: Option<string>, xdg: Xdg) returns (r: Outcome)
    modifies fs
    ensures Run(fs.State(), r) == DefineProjectTypeRun(old(fs.State()), name, defaults, builder, opener, xdg)
  {
    var loaded := Config.Load(fs, None, xdg);
    if loaded.Err? {
      return Fail(Expect(loaded.error, "Could not load config"));
    }
    var config := loaded.value;
    config.AddProjectType(name, defaults, builder, opener);
    var saved := config.Save(fs, None, xdg);
    if saved.Fail? {
      return Fail(Expect(saved.error, "Could not save config"));
    }
    r := Pass;
  }

  function CreateAliasGroupRun(s: FsState<Document>, name: string, path: string, xdg: Xdg): Run {
    match LoadRecord(s, None, xdg)
    case Err(e) => Run(s, Fail(Expect(e, "Could not load config")))
    case Ok(c) =>
      match MkdirAll(s, path)
      case None => Run(s, Fail(Panic("Could not create dir")))
      case Some(s1) =>
        match SaveRecord(s1, None, xdg, WithAliasGroup(c, name, Alias(path)))
        case None => Run(s1, Fail(Panic("Could not save config")))
        case Some(s2) => Run(s2, Pass)
  }

  method CreateAliasGroup(fs: FileSystem<Document>, name: string, path: string, xdg: Xdg) returns (r: Outcome)
    modifies fs
    ensures Run(fs.State(), r) == CreateAliasGroupRun(old(fs.State()), name, path, xdg)
  {
    var loaded := Config.Load(fs, None, xdg);
    if loaded.Err? {
      return Fail(Expect(loaded.error, "Could not load config"));
    }
    var config := loaded.value;
    var ok := fs.CreateDirAll(path);
    if !ok {
      return Fail(Panic("Could not create dir"));
    }
    config.AddAliasGroup(name, Alias(path));
    var saved := config.Save(fs, None, xdg);
    if saved.Fail? {
      return Fail(Expect(saved.error, "Could not save config"));
    }
    r := Pass;
  }

  function CreateLibRun(s: FsState<Document>, name: string, path: string, default: bool, xdg: Xdg): Run {
    match LoadRecord(s, None, xdg)
    case Err(e) => Run(s, Fail(Expect(e, "Could not load config")))
    case Ok(c) =>
      match MkdirAll(s, path)
      case None => Run(s, Fail(Panic("Could not create folder")))
      case Some(s1) =>
        match WithLib(c, name, path)
        case Err(e) => Run(s1, Fail(e))
        case Ok(c1) =>
          var c2 := if default then c1.(defaultLib := Some(name)) else c1;
          match SaveRecord(s1, None, xdg, c2)
          case None => Run(s1, Fail(Panic("Could not save config")))
          case Some(s2) => Run(s2, Pass)
  }

  method CreateLib(fs: FileSystem<Document>, name: string, path: string, default: bool, xdg: Xdg) returns (r: Outcome)
    modifies fs
    ensures Run(fs.State(), r) == CreateLibRun(old(fs.State()), name, path, default, xdg)
  {
    var loaded := Config.Load(fs, None, xdg);
    if loaded.Err? {
      return Fail(Expect(loaded.error, "Could not load config"));
    }
    var config := loaded.value;
    var ok := fs.CreateDirAll(path);
    if !ok {
      return Fail(Panic("Could not create folder"));
    }
    var added := config.AddLib(name, path, default);
    if added.Fail? {
      return added;
    }
    if default {
      config.SetDefaultLib(name);
    }
    var saved := config.Save(fs, None, xdg);
    if saved.Fail? {
      return Fail(Expect(saved.error, "Could not save config"));
    }
    r := Pass;
  }

  /** After `define_project_type` succeeds, loading the configuration finds exactly the type defined. */
  lemma {:induction false} DefinedProjectTypeIsFound(s: FsState<Document>, name: string, defaults: Option<seq<string>>,
                                                     builder: Option<string>, opener: Option<string>, xdg: Xdg)
    requires DefineProjectTypeRun(s, name, defaults, builder, opener, xdg).outcome.Pass?
    ensures var after := LoadRecord(DefineProjectTypeRun(s, name, defaults, builder, opener, xdg).state, None, xdg);
            after.Ok? && GetProjectType(after.value, name) == Ok(Some(ProjectType(defaults, builder, opener)))
  {
    var c := LoadRecord(s, None, xdg).value;
    SaveThenLoad(s, None, xdg, WithProjectType(c, name, ProjectType(defaults, builder, opener)));
  }

  /**
   * After `create_alias_group` succeeds, the alias directory exists, loading
   * the configuration finds the group at that path, and no link was touched.
   */
  lemma {:induction false} CreatedAliasGroupIsFound(s: FsState<Document>, name: string, path: string, xdg: Xdg)
    requires CreateAliasGroupRun(s, name, path, xdg).outcome.Pass?
    ensures var s' := CreateAliasGroupRun(s, name, path, xdg).state;
            var after := LoadRecord(s', None, xdg);
            && after.Ok? && GetAliasGroup(after.value, name) == Ok(Some(Alias(path)))
            && DirChain(path) <= s'.dirs && s'.links == s.links
  {
    var c := LoadRecord(s, None, xdg).value;
    var s1 := MkdirAll(s, path).value;
    SaveThenLoad(s1, None, xdg, WithAliasGroup(c, name, Alias(path)));
  }

  /**
   * Creating the same alias group twice leaves the filesystem and the
   * registry as creating it once did.
   */
  lemma {:induction false} CreateAliasGroupIsIdempotent(s: FsState<Document>, name: string, path: string, xdg: Xdg)
    requires CreateAliasGroupRun(s, name, path, xdg).outcome.Pass?
    ensures CreateAliasGroupRun(CreateAliasGroupRun(s, name, path, xdg).state, name, path, xdg)
            == CreateAliasGroupRun(s, name, path, xdg)
  {
    var cfgPath := ConfigFilePath(None, xdg);
    var c := LoadRecord(s, None, xdg).value;
    var s1 := MkdirAll(s, path).value;
    var c1 := WithAliasGroup(c, name, Alias(path));
    var s2 := SaveRecord(s1, None, xdg, c1).value;
    SaveThenLoad(s1, None, xdg, c1);
    assert LoadRecord(s2, None, xdg) == Ok(c1);
    assert s2.files.Keys == s.files.Keys;
    assert MkdirAll(s2, path) == Some(s2);
    assert c1.aliasGroups.value[name := Alias(path)] == c1.aliasGroups.value;
    assert WithAliasGroup(c1, name, Alias(path)) == c1;
    assert s2.files[cfgPath := Written(ConfigDoc(c1))] == s2.files;
  }

  /**
   * After `create_lib` succeeds, the library is registered at its path; with
   * `default` it becomes the library used when none is named, without it the
   * default library is the one there was before.
   */
  lemma {:induction false} CreatedLibIsFound(s: FsState<Document>, name: string, path: string, default: bool, xdg: Xdg)
    requires CreateLibRun(s, name, path, default, xdg).outcome.Pass?
    ensures var before := LoadRecord(s, None, xdg);
            var after := LoadRecord(CreateLibRun(s, name, path, default, xdg).state, None, xdg);
            && before.Ok? && after.Ok?
            && GetLibPath(after.value, Some(name)) == Ok(path)
            && (default ==> after.value.defaultLib == Some(name) && GetLibPath(after.value, None) == Ok(path))
            && (!default ==> after.value.defaultLib == before.value.defaultLib)
  {
    var c := LoadRecord(s, None, xdg).value;
    var s1 := MkdirAll(s, path).value;
    var c1 := WithLib(c, name, path).value;
    var c2 := if default then c1.(defaultLib := Some(name)) else c1;
    SaveThenLoad(s1, None, xdg, c2);
  }

  // ---------------------------------------------------------------------------
  // Project creation.
  // ---------------------------------------------------------------------------

  /** The alias groups a new project is linked into: the type's defaults together with the explicit group. */
  function AliasGroupSet(defaults: Option<seq<string>>, explicit: Option<string>): set<string> {
    (if defaults.Some? then set g | g in defaults.value else {}) + (if explicit.Some? then {explicit.value} else {})
  }

  /**
   * Filling the hash set: `extend` with the type's defaults, one insert at a
   * time, then `insert` of the explicit group, which adds to the defaults.
   */
  method CollectAliasGroups(defaults: Option<seq<string>>, explicit: Option<string>) returns (groups: set<string>)
    ensures forall g :: g in groups <==> (defaults.Some? && g in defaults.value) || explicit == Some(g)
    ensures groups == AliasGroupSet(defaults, explicit)
  {
    groups := {};
    if defaults.Some? {
      var names := defaults.value;
      for i := 0 to |names|
        invariant groups == set g | g in names[..i]
      {
        assert names[..i + 1] == names[..i] + [names[i]];
        groups := groups + {names[i]};
      }
      assert names[..|names|] == names;
    }
    if explicit.Some? {
      groups := groups + {explicit.value};
    }
  }

  /** A list of names has at most as many distinct names as entries. */
  lemma {:induction false} DistinctNamesBound(names: seq<string>)
    ensures |set g | g in names| <= |names|
  {
    if names != [] {
      DistinctNamesBound(names[1..]);
      assert (set g | g in names) == (set g | g in names[1..]) + {names[0]};
    }
  }

  /** Duplicates collapse: a project gets at most one link per listed group, plus one. */
  lemma {:induction false} AliasGroupSetSize(defaults: Option<seq<string>>, explicit: Option<string>)
    ensures |AliasGroupSet(defaults, explicit)| <= |defaults.GetOr([])| + (if explicit.Some? then 1 else 0)
  {
    var fromType: set<string> := if defaults.Some? then set g | g in defaults.value else {};
    var extra: set<string> := if explicit.Some? then {explicit.value} else {};
    if defaults.Some? {
      DistinctNamesBound(defaults.value);
    }
    assert |fromType + extra| <= |fromType| + |extra|;
  }

  /** The default alias groups of the named project type, if one is named; a panic if it is not registered. */
  function ProjectTypeDefaults(c: ConfigRecord, projectType: Option<string>): Result<Option<seq<string>>> {
    match projectType
    case None => Ok(None)
    case Some(pt) =>
      match GetProjectType(c, pt)
      case Err(e) => Err(e)
      case Ok(None) => Err(Panic("Could not find project type"))
      case Ok(Some(t)) => Ok(t.defaultAliasGroups)
  }

  /** How far project creation gets before it starts linking. */
  datatype Stage =
    | Aborted(state: FsState<Document>, error: Error)
    | ReadyToLink(state: FsState<Document>, config: ConfigRecord, groups: set<string>, target: string)

  /**
   * Project creation up to the links, in the source's order: load the
   * configuration, resolve the library, then `Materialize`.
   */
  function Prepare(s: FsState<Document>, name: string, projectType: Option<string>,
                   aliasGroup: Option<string>, lib: Option<string>, xdg: Xdg): Stage
  {
    match LoadRecord(s, None, xdg)
    case Err(e) => Aborted(s, Expect(e, "Could not load config"))
    case Ok(c) =>
      match GetLibPath(c, lib)
      case Err(e) => Aborted(s, Expect(e, "Could not find lib path"))
      case Ok(libPath) => Materialize(s, c, libPath, name, projectType, aliasGroup)
  }

  /**
   * In library `libPath`: create the directories and the empty configuration
   * file, write the project configuration, then resolve the project type.
   */
  function Materialize(s: FsState<Document>, c: ConfigRecord, libPath: string, name: string,
                       projectType: Option<string>, aliasGroup: Option<string>): Stage
  {
    var target := ProjectConfigPath(libPath, name);
    match MkdirAll(s, ProjectConfigDir(libPath, name))
    case None => Aborted(s, Panic("Could not create parent directory"))
    case Some(s1) =>
      match CreateFile(s1, target)
      case None => Aborted(s1, Panic("Could not create project config file"))
      case Some(s2) =>
        match WriteFile(s2, target, Written(ProjectDoc(ProjectConfig(projectType, None, None))))
        case None => Aborted(s2, Panic("Could not save project config"))
        case Some(s3) => ResolveGroups(s3, c, target, projectType, aliasGroup)
  }

  /** The project type's default groups together with the explicit one, or the panic of an unknown type. */
  function ResolveGroups(s: FsState<Document>, c: ConfigRecord, target: string,
                         projectType: Option<string>, aliasGroup: Option<string>): Stage
  {
    match ProjectTypeDefaults(c, projectType)
    case Err(e) => Aborted(s, e)
    case Ok(defaults) => ReadyToLink(s, c, AliasGroupSet(defaults, aliasGroup), target)
  }

  /** An unknown library stops project creation before anything is created. */
  lemma {:induction false} UnknownLibraryCreatesNothing(s: FsState<Document>, name: string, projectType: Option<string>,
                                                        aliasGroup: Option<string>, lib: Option<string>, xdg: Xdg)
    requires LoadRecord(s, None, xdg).Ok? && GetLibPath(LoadRecord(s, None, xdg).value, lib).Err?
    ensures Prepare(s, name, projectType, aliasGroup, lib, xdg) == Aborted(s, Panic("Could not find lib path"))
  {
  }

  /**
   * When project creation reaches the links, it has created the project
   * directory `<lib>/<name>` and written `<lib>/<name>/.pm/project.toml`
   * holding the project type and no opener or builder, with `<lib>` the
   * resolved library; it links into the union of the type's default groups
   * and the explicit group, and no link exists yet that was not there before.
   */
  lemma {:induction false} ProjectConfigWritten(s: FsState<Document>, name: string, projectType: Option<string>,
                                                aliasGroup: Option<string>, lib: Option<string>, xdg: Xdg)
    requires Prepare(s, name, projectType, aliasGroup, lib, xdg).ReadyToLink?
    ensures var p := Prepare(s, name, projectType, aliasGroup, lib, xdg);
            var c := LoadRecord(s, None, xdg).value;
            var libPath := GetLibPath(c, lib).value;
            && LoadRecord(s, None, xdg).Ok? && GetLibPath(c, lib).Ok? && p.config == c
            && p.target == Join(Join(libPath, name), PROJECT_ROOT_REL_PATH)
            && p.target in p.state.files
            && p.state.files[p.target] == Written(ProjectDoc(ProjectConfig(projectType, None, None)))
            && Join(libPath, name) in p.state.dirs && ProjectConfigDir(libPath, name) in p.state.dirs
            && p.state.links == s.links
            && ProjectTypeDefaults(c, projectType).Ok?
            && p.groups == AliasGroupSet(ProjectTypeDefaults(c, projectType).value, aliasGroup)
  {
    var c := LoadRecord(s, None, xdg).value;
    var libPath := GetLibPath(c, lib).value;
    JoinedPrefixInChain(libPath, name, ".pm");
  }

  /**
   * A project type that is not registered stops project creation after the
   * directory and the configuration file exist and before any link is made.
   * With no project-type table at all, the lookup itself panics; with a
   * table that lacks the type, the caller's `expect` does.
   */
  lemma {:induction false} UnregisteredTypeStopsBeforeLinks(s: FsState<Document>, name: string, projectType: string,
                                                            aliasGroup: Option<string>, lib: Option<string>, xdg: Xdg)
    requires LoadRecord(s, None, xdg).Ok?
    requires GetLibPath(LoadRecord(s, None, xdg).value, lib).Ok?
    requires !(GetProjectType(LoadRecord(s, None, xdg).value, projectType).Ok? &&
               GetProjectType(LoadRecord(s, None, xdg).value, projectType).value.Some?)
    requires var libPath := GetLibPath(LoadRecord(s, None, xdg).value, lib).value;
             MkdirAll(s, ProjectConfigDir(libPath, name)).Some? &&
             CreateFile(MkdirAll(s, ProjectConfigDir(libPath, name)).value, ProjectConfigPath(libPath, name)).Some?
    ensures var p := Prepare(s, name, Some(projectType), aliasGroup, lib, xdg);
            var c := LoadRecord(s, None, xdg).value;
            var libPath := GetLibPath(c, lib).value;
            && p.Aborted?
            && (c.projectTypes.None? ==> p.error == Panic("Tried to get undefined project type"))
            && (c.projectTypes.Some? ==> p.error == Panic("Could not find project type"))
            && Join(libPath, name) in p.state.dirs
            && ProjectConfigPath(libPath, name) in p.state.files
            && p.state.files[ProjectConfigPath(libPath, name)] == Written(ProjectDoc(ProjectConfig(Some(projectType), None, None)))
            && p.state.links == s.links
  {
    var libPath := GetLibPath(LoadRecord(s, None, xdg).value, lib).value;
    JoinedPrefixInChain(libPath, name, ".pm");
  }

  // A worked example: library `default` at `/projects`, type `app` whose
  // default group is `work`, groups `work` and `extra`.

  function ExampleXdg(): Xdg {
    Xdg("/cfg", "/data")
  }

  function ExampleConfig(): ConfigRecord {
    ConfigRecord(None, Some(map["default" := "/projects"]),
                 Some(map["work" := Alias("/links/work"), "extra" := Alias("/links/extra")]),
                 Some(map["app" := ProjectType(Some(["work"]), None, None)]))
  }

  function ExampleState(): FsState<Document> {
    FsState({"/links/work", "/links/extra"}, map[ConfigFilePath(None, ExampleXdg()) := Written(ConfigDoc(ExampleConfig()))], map[])
  }

  lemma ExampleLoads()
    ensures LoadRecord(ExampleState(), None, ExampleXdg()) == Ok(ExampleConfig())
    ensures GetLibPath(ExampleConfig(), None) == Ok("/projects")
    ensures GetProjectType(ExampleConfig(), "app") == Ok(Some(ProjectType(Some(["work"]), None, None)))
  {
    var p := ConfigFilePath(None, ExampleXdg());
    assert DecodeConfig(ExampleState().files[p]) == Some(ExampleConfig());
    assert IsLoaded(ExampleConfig());
    LoadedIsStable(ExampleConfig(), ExampleXdg());
    assert "default" in ExampleConfig().libraryPaths.value;
    assert "app" in ExampleConfig().projectTypes.value;
  }

  lemma ExampleLinkPaths()
    ensures LinkPath(ExampleConfig(), "work", "foo") == Some("/links/work/foo")
    ensures LinkPath(ExampleConfig(), "extra", "foo") == Some("/links/extra/foo")
  {
    assert GetAliasGroup(ExampleConfig(), "work") == Ok(Some(Alias("/links/work")));
    assert GetAliasGroup(ExampleConfig(), "extra") == Ok(Some(Alias("/links/extra")));
    assert Join("/links/work", "foo") == "/links/work/foo";
    assert Join("/links/extra", "foo") == "/links/extra/foo";
  }

  lemma ExampleChain()
    ensures DirChain("/projects/foo/.pm") == {"/projects", "/projects/foo", "/projects/foo/.pm"}
  {
    var p := "/projects/foo/.pm";
    forall i | 0 < i <= |p| && (i == |p| || p[i] == '/')
      ensures i == 9 || i == 13 || i == 17
    {
    }
    assert p[..9] == "/projects" && p[..13] == "/projects/foo" && p[..17] == p;
  }

  /** The example's filesystem after the directories are created. */
  function ExampleWithDirs(): FsState<Document> {
    ExampleState().(dirs := {"/links/work", "/links/extra", "/projects", "/projects/foo", "/projects/foo/.pm"})
  }

  /** ... after the empty configuration file is created. */
  function ExampleWithFile(): FsState<Document> {
    ExampleWithDirs().(files := ExampleState().files["/projects/foo/.pm/project.toml" := Empty])
  }

  /** ... and after the project configuration is written. */
  function ExamplePrepared(): FsState<Document> {
    ExampleWithDirs().(files := ExampleState().files["/projects/foo/.pm/project.toml" :=
                                                     Written(ProjectDoc(ProjectConfig(Some("app"), None, None)))])
  }

  lemma ExampleDirsCreated()
    ensures MkdirAll(ExampleState(), ProjectConfigDir("/projects", "foo")) == Some(ExampleWithDirs())
  {
    assert ProjectConfigDir("/projects", "foo") == "/projects/foo/.pm";
    ExampleChain();
    var chain := DirChain("/projects/foo/.pm");
    assert ConfigFilePath(None, ExampleXdg()) !in chain;
    assert chain !! (ExampleState().files.Keys + ExampleState().links.Keys);
    assert ExampleState().dirs + chain == ExampleWithDirs().dirs;
  }

  lemma ExampleFileWritten()
    ensures CreateFile(ExampleWithDirs(), ProjectConfigPath("/projects", "foo")) == Some(ExampleWithFile())
    ensures WriteFile(ExampleWithFile(), ProjectConfigPath("/projects", "foo"),
                      Written(ProjectDoc(ProjectConfig(Some("app"), None, None)))) == Some(ExamplePrepared())
  {
    var t := "/projects/foo/.pm/project.toml";
    assert ProjectConfigPath("/projects", "foo") == t;
    assert t !in ExampleWithDirs().dirs;
    assert ProjectConfigDir("/projects", "foo") == "/projects/foo/.pm";
    ParentOfJoin("/projects/foo/.pm", "project.toml");
    assert Parent(t) == "/projects/foo/.pm";
    var files := ExampleState().files;
    assert files[t := Empty][t := Written(ProjectDoc(ProjectConfig(Some("app"), None, None)))]
           == ExamplePrepared().files;
  }

  lemma ExampleGroups()
    ensures ResolveGroups(ExamplePrepared(), ExampleConfig(), ProjectConfigPath("/projects", "foo"), Some("app"), Some("extra"))
            == ReadyToLink(ExamplePrepared(), ExampleConfig(), {"work", "extra"}, ProjectConfigPath("/projects", "foo"))
  {
    ExampleLoads();
    assert ProjectTypeDefaults(ExampleConfig(), Some("app")) == Ok(Some(["work"]));
    assert AliasGroupSet(Some(["work"]), Some("extra")) == {"work", "extra"};
  }

  lemma ExampleMaterialize()
    ensures Materialize(ExampleState(), ExampleConfig(), "/projects", "foo", Some("app"), Some("extra"))
            == ReadyToLink(ExamplePrepared(), ExampleConfig(), {"work", "extra"}, ProjectConfigPath("/projects", "foo"))
  {
    ExampleDirsCreated();
    ExampleFileWritten();
    ExampleGroups();
  }

  lemma ExamplePrepare()
    ensures Prepare(ExampleState(), "foo", Some("app"), Some("extra"), None, ExampleXdg())
            == ReadyToLink(ExamplePrepared(), ExampleConfig(), {"work", "extra"}, "/projects/foo/.pm/project.toml")
  {
    ExampleLoads();
    ExampleMaterialize();
    assert ProjectConfigPath("/projects", "foo") == "/projects/foo/.pm/project.toml";
  }

  lemma ExampleCanLink()
    ensures CanLinkAll(ExamplePrepared(), ExampleConfig(), {"work", "extra"}, "foo")
  {
    ExampleLinkPaths();
    var s := ExamplePrepared();
    ParentOfJoin("/links/work", "foo");
    ParentOfJoin("/links/extra", "foo");
    assert s.HasParentDir("/links/work/foo") && s.HasParentDir("/links/extra/foo");
    assert !s.Exists("/links/work/foo") && !s.Exists("/links/extra/foo");
  }

  lemma ExamplePlanned(target: string)
    ensures Planned(ExampleConfig(), {"work", "extra"}, "foo", target)
            == map["/links/work/foo" := target, "/links/extra/foo" := target]
  {
    ExampleLinkPaths();
    assert LinkPaths(ExampleConfig(), {"work", "extra"}, "foo") == {"/links/work/foo", "/links/extra/foo"};
  }

  /**
   * In the example, creating `foo` of type `app` with the explicit group
   * `extra` writes `/projects/foo/.pm/project.toml` holding type `app` and,
   * since the fan-out can succeed, links it from `/links/work/foo` and
   * `/links/extra/foo`.
   */
  lemma WorkedExample()
    ensures var p := Prepare(ExampleState(), "foo", Some("app"), Some("extra"), None, ExampleXdg());
            && p.ReadyToLink?
            && p.target == "/projects/foo/.pm/project.toml"
            && p.state.files[p.target] == Written(ProjectDoc(ProjectConfig(Some("app"), None, None)))
            && p.groups == {"work", "extra"}
            && CanLinkAll(p.state, p.config, p.groups, "foo")
            && Planned(p.config, p.groups, "foo", p.target)
               == map["/links/work/foo" := p.target, "/links/extra/foo" := p.target]
  {
    ExamplePrepare();
    ExampleCanLink();
    ExamplePlanned("/projects/foo/.pm/project.toml");
  }

  /** Where the link for group `g` goes: `<alias path>/<name>`, if the group is registered. */
  function LinkPath(c: ConfigRecord, g: string, name: string): Option<string> {
    match GetAliasGroup(c, g)
    case Ok(Some(a)) => Some(Join(a.path, name))
    case _ => None
  }

  function LinkPaths(c: ConfigRecord, groups: set<string>, name: string): set<string> {
    set g | g in groups && LinkPath(c, g, name).Some? :: LinkPath(c, g, name).value
  }

  /** The links of a complete fan-out: one per group, each pointing at `target`. */
  function Planned(c: ConfigRecord, groups: set<string>, name: string, target: string): map<string, string> {
    map p | p in LinkPaths(c, groups, name) :: target
  }

  /**
   * The fan-out can succeed: every group is registered, no link path exists
   * yet while the directory it goes in does, and no two groups share a link
   * path.
   */
  predicate CanLinkAll(s: FsState<Document>, c: ConfigRecord, groups: set<string>, name: string) {
    && (forall g :: g in groups ==>
          && LinkPath(c, g, name).Some?
          && !s.Exists(LinkPath(c, g, name).value)
          && s.HasParentDir(LinkPath(c, g, name).value))
    && (forall g, h :: g in groups && h in groups && g != h ==> LinkPath(c, g, name) != LinkPath(c, h, name))
  }

  /**
   * What the link loop does, whatever order it visits the groups in: it
   * succeeds exactly when `CanLinkAll` holds and then adds every planned
   * link; when it fails it has added some of the planned links and removed
   * nothing. Directories and files are untouched either way.
   */
  predicate FannedOut(before: FsState<Document>, after: FsState<Document>, r: Outcome,
                      c: ConfigRecord, groups: set<string>, name: string, target: string)
  {
    && after.dirs == before.dirs && after.files == before.files
    && (r.Pass? <==> CanLinkAll(before, c, groups, name))
    && (r.Pass? ==> after.links == before.links + Planned(c, groups, name, target))
    && (r.Fail? ==> r.error.Panic?)
    && (r.Fail? ==> forall p :: p in before.links ==> p in after.links && after.links[p] == before.links[p])
    && (r.Fail? ==> forall p :: p in after.links && p !in before.links ==>
                      p in LinkPaths(c, groups, name) && after.links[p] == target)
  }

  /** The link loop of project creation: one symbolic link per alias group. */
  method LinkProject(fs: FileSystem<Document>, c: ConfigRecord, groups: set<string>, name: string, target: string)
    returns (r: Outcome)
    modifies fs
    ensures FannedOut(old(fs.State()), fs.State(), r, c, groups, name, target)
  {
    ghost var s0 := fs.State();
    var rest := groups;
    ghost var done: set<string> := {};
    while rest != {}
      invariant rest !! done && rest + done == groups
      invariant fs.dirs == s0.dirs && fs.files == s0.files
      invariant CanLinkAll(s0, c, done, name)
      invariant fs.links == s0.links + Planned(c, done, name, target)
      decreases rest
    {
      var g :| g in rest;
      var found := GetAliasGroup(c, g);
      if found.Err? {
        r := Fail(found.error);
        StoppedEarly(s0, fs.State(), c, done, groups, name, target);
        return;
      }
      if found.value.None? {
        r := Fail(Panic("Could not find alias"));
        StoppedEarly(s0, fs.State(), c, done, groups, name, target);
        return;
      }
      var linkPath := Join(found.value.value.path, name);
      ghost var s := fs.State();
      var ok := fs.MakeSymlink(target, linkPath);
      if !ok {
        r := Fail(Panic("Could not create symlink"));
        SymlinkClash(s0, s, c, done, groups, g, name, target, linkPath);
        StoppedEarly(s0, fs.State(), c, done, groups, name, target);
        return;
      }
      LinkAdded(s0, s, fs.State(), c, done, g, name, target, linkPath);
      rest := rest - {g};
      done := done + {g};
    }
    r := Pass;
  }

  /** Links a feasible partial fan-out plans are all at paths that did not exist. */
  lemma PlannedLinksAreNew(s0: FsState<Document>, c: ConfigRecord, done: set<string>, name: string)
    requires CanLinkAll(s0, c, done, name)
    ensures forall p :: p in LinkPaths(c, done, name) ==> !s0.Exists(p)
  {
    forall p | p in LinkPaths(c, done, name)
      ensures !s0.Exists(p)
    {
      var g :| g in done && LinkPath(c, g, name).Some? && LinkPath(c, g, name).value == p;
    }
  }

  /** A loop stopped early leaves the old links and some planned links. */
  lemma StoppedEarly(s0: FsState<Document>, s: FsState<Document>, c: ConfigRecord,
                     done: set<string>, groups: set<string>, name: string, target: string)
    requires done <= groups
    requires CanLinkAll(s0, c, done, name)
    requires s.links == s0.links + Planned(c, done, name, target)
    ensures forall p :: p in s0.links ==> p in s.links && s.links[p] == s0.links[p]
    ensures forall p :: p in s.links && p !in s0.links ==> p in LinkPaths(c, groups, name) && s.links[p] == target
  {
    PlannedLinksAreNew(s0, c, done, name);
    assert LinkPaths(c, done, name) <= LinkPaths(c, groups, name);
  }

  /** A symlink that fails on the way means the whole fan-out could not have succeeded. */
  lemma SymlinkClash(s0: FsState<Document>, s: FsState<Document>, c: ConfigRecord, done: set<string>,
                     groups: set<string>, g: string, name: string, target: string, p: string)
    requires done <= groups && g in groups && g !in done
    requires CanLinkAll(s0, c, done, name)
    requires s.dirs == s0.dirs && s.files == s0.files
    requires s.links == s0.links + Planned(c, done, name, target)
    requires LinkPath(c, g, name) == Some(p) && (s.Exists(p) || !s.HasParentDir(p))
    ensures !CanLinkAll(s0, c, groups, name)
  {
    if !s0.Exists(p) && s0.HasParentDir(p) {
      assert p in LinkPaths(c, done, name);
      var h :| h in done && LinkPath(c, h, name).Some? && LinkPath(c, h, name).value == p;
      assert g != h && LinkPath(c, g, name) == LinkPath(c, h, name);
    }
  }

  /** A group whose link can be made keeps a partial fan-out feasible. */
  lemma LinkStillFeasible(s0: FsState<Document>, s: FsState<Document>, c: ConfigRecord,
                          done: set<string>, g: string, name: string, p: string)
    requires CanLinkAll(s0, c, done, name) && g !in done
    requires s.dirs == s0.dirs && s.files == s0.files && s0.links.Keys <= s.links.Keys
    requires LinkPaths(c, done, name) <= s.links.Keys
    requires LinkPath(c, g, name) == Some(p) && !s.Exists(p) && s.HasParentDir(p)
    ensures CanLinkAll(s0, c, done + {g}, name)
  {
    forall h | h in done
      ensures LinkPath(c, h, name) != Some(p)
    {
      assert LinkPath(c, h, name).value in LinkPaths(c, done, name);
    }
    assert !s0.Exists(p) && s0.HasParentDir(p);
  }

  /** One successful symlink extends the fan-out by the group just linked. */
  lemma LinkAdded(s0: FsState<Document>, s: FsState<Document>, s': FsState<Document>, c: ConfigRecord,
                  done: set<string>, g: string, name: string, target: string, p: string)
    requires CanLinkAll(s0, c, done, name) && g !in done
    requires s.dirs == s0.dirs && s.files == s0.files
    requires s.links == s0.links + Planned(c, done, name, target)
    requires LinkPath(c, g, name) == Some(p) && Symlink(s, target, p) == Some(s')
    ensures CanLinkAll(s0, c, done + {g}, name)
    ensures s'.links == s0.links + Planned(c, done + {g}, name, target)
  {
    PlannedGrows(c, done, g, name, target, p);
    assert CanLinkAll(s0, c, done + {g}, name) by {
      assert !s.Exists(p) && s.HasParentDir(p);
      LinkStillFeasible(s0, s, c, done, g, name, p);
    }
    assert s'.links == s.links[p := target];
    UpdateAfterUnion(s0.links, Planned(c, done, name, target), p, target);
  }

  /** Updating a union updates its right-hand side. */
  lemma UpdateAfterUnion(m1: map<string, string>, m2: map<string, string>, k: string, v: string)
    ensures (m1 + m2)[k := v] == m1 + m2[k := v]
  {
  }

  /** Planning one more group adds exactly its link. */
  lemma PlannedGrows(c: ConfigRecord, done: set<string>, g: string, name: string, target: string, p: string)
    requires LinkPath(c, g, name) == Some(p)
    ensures Planned(c, done, name, target).Keys == LinkPaths(c, done, name)
    ensures Planned(c, done + {g}, name, target) == Planned(c, done, name, target)[p := target]
  {
    assert LinkPaths(c, done + {g}, name) == LinkPaths(c, done, name) + {p};
  }

  /** `create_project`: everything `Prepare` describes, then the link loop. */
  method CreateProject(fs: FileSystem<Document>, name: string, projectType: Option<string>,
                       aliasGroup: Option<string>, lib: Option<string>, xdg: Xdg) returns (r: Outcome)
    modifies fs
    ensures var p := Prepare(old(fs.State()), name, projectType, aliasGroup, lib, xdg);
            p.Aborted? ==> fs.State() == p.state && r == Fail(p.error)
    ensures var p := Prepare(old(fs.State()), name, projectType, aliasGroup, lib, xdg);
            p.ReadyToLink? ==> FannedOut(p.state, fs.State(), r, p.config, p.groups, name, p.target)
  {
    var loaded := Config.Load(fs, None, xdg);
    if loaded.Err? {
      return Fail(Expect(loaded.error, "Could not load config"));
    }
    var config := loaded.value;
    var libPath := GetLibPath(config.Value(), lib);
    if libPath.Err? {
      return Fail(Expect(libPath.error, "Could not find lib path"));
    }
    var projectConfigPath := ProjectConfigPath(libPath.value, name);
    var ok := fs.CreateDirAll(ProjectConfigDir(libPath.value, name));
    if !ok {
      return Fail(Panic("Could not create parent directory"));
    }
    ok := fs.Create(projectConfigPath);
    if !ok {
      return Fail(Panic("Could not create project config file"));
    }
    var saved := SaveProjectConfig(fs, ProjectConfig(projectType, None, None), projectConfigPath);
    if saved.Fail? {
      return Fail(Panic("Could not save project config"));
    }
    var defaults: Option<seq<string>> := None;
    if projectType.Some? {
      var found := GetProjectType(config.Value(), projectType.value);
      if found.Err? {
        return Fail(found.error);
      }
      if found.value.None? {
        return Fail(Panic("Could not find project type"));
      }
      defaults := found.value.value.defaultAliasGroups;
    }
    var groups := CollectAliasGroups(defaults, aliasGroup);
    r := LinkProject(fs, config.Value(), groups, name, projectConfigPath);
  }
}
