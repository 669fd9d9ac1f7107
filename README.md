# cli-project-manager: configuration registry and project creation

A model in Dafny of the core of `cli-project-manager`, a personal tool for
scaffolding projects. A user-level configuration file names three registries:

- **libraries**: directories where projects live. There is always one called
  `default`, and optionally a configured default library.
- **alias groups**: directories that receive a symbolic link to every project
  associated with them.
- **project types**: templates listing default alias groups, a builder and an
  opener.

Creating a project does four things:

1. It resolves a library.
2. It creates `<lib>/<name>/.pm/project.toml`.
3. It writes the per-project configuration into that file.
4. It links the file into every alias group that applies: the type's default
   groups plus the one named on the command line.

The model has five modules:

- `Wrappers` holds `Option`, `Result` and `Outcome`. An `Error` is either a
  typed `ConfigError`, which is returned to the caller, or a `Panic`, which
  stands for an `unwrap` or `expect` that fails and so ends the process.
  `Expect` converts one into the other.
- `Paths` holds path joining, `Parent`, and `DirChain`, the set of
  directories that `create_dir_all` guarantees.
- `Filesystem` has two parts.
  - An abstract filesystem of directories, files and links (`FsState`). Each
    of the four calls the tool makes is a function on it that says when the
    call fails and what it changes.
  - The class `FileSystem`, whose methods update the same three fields in
    place and are proved equal to those functions.
- `ConfigIo` models `src/config_io.rs`. The configuration is a value,
  `ConfigRecord`, with four optional fields. Every operation on it is a
  function whose contract relates it to the lookups:
  - `Loaded` applies the defaults at load time.
  - `GetLibPath`, `GetAliasGroup` and `GetProjectType` are the lookups.
  - `WithAliasGroup`, `WithoutAliasGroup`, `WithLib` and `WithProjectType`
    are the updates.

  The class `Config` holds the same four fields and updates them in place.
  Each of its methods is proved against the record function that specifies
  it. `ProjectType::new`, `ProjectConfig::new` and `Alias::new` only copy
  their arguments, so they are the constructors of the datatypes
  `ProjectType`, `ProjectConfig` and `Alias`.
- `ProjectManager` models `src/lib.rs`. Each of the four entry points is a
  method on the filesystem.
  - The three registry mutators are each proved equal to a function of the
    old filesystem (`...Run`). Lemmas prove that what they register is what
    a later load finds.
  - Project creation is split in two:
    - Everything before the links is proved equal to the function `Prepare`.
    - The link loop walks a hash set in no fixed order. It is therefore
      specified by the relation `FannedOut`: the loop succeeds exactly when
      every group is registered and the link paths are new, pairwise
      distinct and inside existing directories; in that case it adds every planned link; when it fails, it
      has added only planned links and removed nothing.

## Model

| member | source | states |
|---|---|---|
| Wrappers.Expect | src/lib.rs:19 | `expect` on a failed call always panics: a typed error becomes a panic carrying the given message, and a panic raised inside the call keeps its own message |
| Paths.Join | src/config_io.rs:41 | joining a relative path yields the base, one separator, then the relative part |
| Paths.DirChain | src/lib.rs:45 | `create_dir_all(p)` guarantees only non-empty prefixes of `p`, and always `p` itself |
| Paths.Parent | src/lib.rs:43 | the parent of a path is the prefix before its last `/`; no `/` follows it, and it is empty only for a path with no `/` after its first character |
| Paths.ParentOfJoin | src/lib.rs:43 | the parent of `<base>/<leaf>` is `base` when the leaf has no `/`: the parent of a link path is its alias directory, and the parent of the project configuration file is its `.pm` directory |
| Paths.JoinedPrefixInChain | src/lib.rs:42-45 | creating the parent of `<lib>/<name>/.pm/project.toml` creates the project directory `<lib>/<name>` and the `.pm` directory |
| Filesystem.MkdirAll | src/lib.rs:45 | `create_dir_all` fails exactly when a component of the path is a file or a link; on success every directory of the path exists, nothing else was added, and files and links are unchanged |
| Filesystem.WriteFile | src/config_io.rs:69-73 | `fs::write` fails exactly when the path is a directory or a link, or its parent directory is missing; on success the file holds the new content and every other file, directory and link is unchanged |
| Filesystem.CreateFile | src/lib.rs:46 | `File::create` leaves an empty file at the path, truncating an existing one; it fails in the same cases as a write |
| Filesystem.Symlink | src/lib.rs:66 | `symlink` fails exactly when anything exists at the link path or its parent directory is missing; on success it adds only that link, pointing at the target |
| Filesystem.FileSystem.CreateDirAll | src/lib.rs:45 | the in-place call changes the filesystem exactly as `MkdirAll`, and leaves it unchanged on failure |
| Filesystem.FileSystem.Write | src/config_io.rs:69-73 | the in-place call changes the filesystem exactly as `WriteFile`, and leaves it unchanged on failure |
| Filesystem.FileSystem.Create | src/lib.rs:46 | the in-place call changes the filesystem exactly as `CreateFile` |
| Filesystem.FileSystem.MakeSymlink | src/lib.rs:66 | the in-place call changes the filesystem exactly as `Symlink` |
| ConfigIo.ProjectConfigPath | src/config_io.rs:179 | the project configuration file is `project.toml` inside the `.pm` directory of `<lib>/<name>` |
| ConfigIo.Loaded | src/config_io.rs:46-61 | after loading, the library and alias tables are always present and `default` is always a library. An absent alias table becomes empty. A configured `default` is kept, and a missing one is set to `<dataHome>/project_manager/projects`. Every other library, the default library name and the project types are unchanged |
| ConfigIo.LoadRecord | src/config_io.rs:38-64 | load succeeds exactly when the configuration file exists and decodes, and then returns the decoded configuration with the load-time defaults applied. A missing file is a typed I/O error. An undecodable file panics |
| ConfigIo.LoadedIsStable | src/config_io.rs:46-61 | applying the load-time defaults to a configuration that already has them changes nothing |
| ConfigIo.SaveThenLoad | src/config_io.rs:38-76 | saving a loaded configuration and loading it again gives back the same configuration |
| ConfigIo.GetLibPath | src/config_io.rs:111-120 | the library named by the caller wins over the configured default library, which wins over `default`. A key that is not registered is the typed error "Could not find library path". An absent table panics. A returned path is always one of the registered paths |
| ConfigIo.GetAliasGroup | src/config_io.rs:92-94 | the group is found exactly when it is registered, and then with its registered alias; an absent table panics |
| ConfigIo.GetProjectType | src/config_io.rs:148-153 | the type is found exactly when it is registered, and then with its registered template; an absent table panics with "Tried to get undefined project type" |
| ConfigIo.WithAliasGroup | src/config_io.rs:78-90 | after the upsert, the group resolves to the new alias, every other group resolves as before, an absent table becomes a one-entry table, and no other field changes |
| ConfigIo.WithoutAliasGroup | src/config_io.rs:96-98 | returns what the group held, after which it no longer resolves; every other group and field is unchanged; an absent table panics |
| ConfigIo.WithLib | src/config_io.rs:100-105 | the named library resolves to the new path, every other library resolves as before, and the default library name is untouched; an absent table panics |
| ConfigIo.WithProjectType | src/config_io.rs:122-146 | after the upsert, the type resolves to the new template, every other type resolves as before, an absent table becomes a one-entry table, and no other field changes |
| ConfigIo.DeleteUndoesAdd | src/config_io.rs:78-98 | deleting an alias group just added to a table that lacked it returns the added alias and restores the configuration |
| ConfigIo.SaveProjectConfig | src/config_io.rs:200-206 | `ProjectConfig::save` writes the whole per-project configuration to the path, or fails with a typed error and changes nothing |
| ConfigIo.Config.FromRecord | src/config_io.rs:44 | the decoded configuration object holds exactly the decoded fields |
| ConfigIo.Config.Load | src/config_io.rs:38-64 | `Config::load` succeeds exactly when `LoadRecord` does, and then returns a new object holding that configuration; otherwise it returns the same error |
| ConfigIo.Config.ApplyLoadDefaults | src/config_io.rs:46-61 | the in-place post-processing leaves the fields equal to `Loaded` of the old fields |
| ConfigIo.Config.Save | src/config_io.rs:66-76 | `save` writes the current configuration to the configuration file, or fails with a typed error and changes nothing |
| ConfigIo.Config.AddAliasGroup | src/config_io.rs:78-90 | the fields become `WithAliasGroup` of the old fields |
| ConfigIo.Config.DeleteAliasGroup | src/config_io.rs:96-98 | the result and the new fields are those of `WithoutAliasGroup`; on a panic nothing changes |
| ConfigIo.Config.AddLib | src/config_io.rs:100-105 | the fields become `WithLib` of the old fields, whatever the `default` flag says, and the default library name is never changed |
| ConfigIo.Config.SetDefaultLib | src/config_io.rs:107-109 | only the default library name changes, and it becomes the given name |
| ConfigIo.Config.AddProjectType | src/config_io.rs:122-146 | the fields become `WithProjectType` of the old fields, with the template built from the arguments as `ProjectType::new` builds it |
| ProjectManager.DefineProjectType | src/lib.rs:18-22 | `define_project_type` has exactly the effect and outcome of load, add the type, then save, with each failure ending the run where it happens |
| ProjectManager.CreateAliasGroup | src/lib.rs:24-29 | `create_alias_group` has exactly the effect and outcome of load, create the alias directory, add the group, then save |
| ProjectManager.CreateLib | src/lib.rs:31-37 | `create_lib` has exactly the effect and outcome of load, create the library directory, add the library, set it as default when asked, then save |
| ProjectManager.DefinedProjectTypeIsFound | src/lib.rs:18-22 | after a successful `define_project_type`, loading the configuration finds the type with exactly the given defaults, builder and opener |
| ProjectManager.CreatedAliasGroupIsFound | src/lib.rs:24-29 | after a successful `create_alias_group`, the alias directory exists, a later load finds the group at that path, and no link was touched |
| ProjectManager.CreateAliasGroupIsIdempotent | src/lib.rs:24-29 | running `create_alias_group` a second time with the same arguments leaves the filesystem and the registry exactly as the first run left them |
| ProjectManager.CreatedLibIsFound | src/lib.rs:31-37 | after a successful `create_lib`, the library resolves to its path. With `default` set, it is also the library used when none is named. Without it, the default library name is unchanged |
| ProjectManager.CollectAliasGroups | src/lib.rs:52-61 | the hash set holds exactly the type's default groups and the explicit group |
| ProjectManager.AliasGroupSetSize | src/lib.rs:52-61 | duplicates collapse, so a project gets at most one link per listed default group, plus one for the explicit group |
| ProjectManager.UnknownLibraryCreatesNothing | src/lib.rs:41-42 | when the library cannot be resolved, project creation panics with "Could not find lib path" before touching the filesystem |
| ProjectManager.ProjectConfigWritten | src/lib.rs:40-61 | when creation reaches the links, the project directory and the `.pm` directory exist. The configuration file at `<lib>/<name>/.pm/project.toml` holds the project type with no opener or builder. The groups to link are the union of the type's defaults and the explicit group. No link has been made yet |
| ProjectManager.UnregisteredTypeStopsBeforeLinks | src/lib.rs:45-54 | an unregistered project type stops creation after the directory and the configuration file are already on disk and before any link exists. With no project-type table at all, the lookup panics with "Tried to get undefined project type". With a table that lacks the type, the panic is "Could not find project type" |
| ProjectManager.WorkedExample | src/lib.rs:40-67 | creating `foo` of type `app` (default group `work`) with the group `extra` in library `default` at `/projects` writes `/projects/foo/.pm/project.toml` with type `app`. The links can all be made, and they are `/links/work/foo` and `/links/extra/foo`, both pointing at that file |
| ProjectManager.LinkProject | src/lib.rs:63-67 | whatever order it visits the groups in, the link loop succeeds exactly when every group is registered and every link path is new and distinct and lies in an existing directory, and then it adds exactly one link per group to the project configuration file. On failure it panics, keeps every old link and has added only planned links. Directories and files are never touched |
| ProjectManager.CreateProject | src/lib.rs:40-70 | `create_project` stops with the failure and the filesystem described by `Prepare`, or else its links satisfy `FannedOut` from the state `Prepare` reaches |

## Left out

- The TOML codec is assumed correct: a saved document is stored as its value. An empty file decodes to a configuration with every field absent, and any other content that is not a global configuration is treated as undecodable.
- `toml::to_string` failing during `save` is not modelled. The records hold only strings, lists and maps, which always serialize.
- `ConfigError` messages: an I/O error carries the fixed message "IO Error" instead of the formatted operating-system error.
- Panic texts keep only the message given to `expect`, or the fixed text of `unwrap`. The ": <error>" suffix that `Result::expect` and `Result::unwrap` append is dropped; for example, `Could not find lib path: ConfigError { message: "Could not find library path" }` is modelled as `Could not find lib path`.
- Operating-system behaviour of the filesystem:
  - Permissions are not modelled.
  - No call follows a symbolic link. A write through an existing link is treated as a failure.
  - Reading a configuration file that is a link to a file gives an I/O error here, while `fs::read_to_string` follows the link.
  - `create_dir_all` through a link to a directory, such as a library or alias directory that is itself a link, fails here and succeeds in the source.
  - A path's parent is its text before the last `/`. Paths are not normalised: `.`, `..`, repeated or trailing `/` are not resolved.
- The XDG base directories are given as plain strings; looking them up in the environment is not part of this model.
- `PathBuf::join` corner cases are not modelled: an absolute right-hand side replacing the base, and `parent()` of a root path. Every joined path has the form `base/rel`.
- Non-UTF-8 paths are not modelled, so the `to_str().unwrap()` calls cannot fail here.
- `println!` of the project configuration in `create_project` is output only, and is left out.
- `ProjectConfig::load` and `impl Default for ProjectConfig` are not used by the core operations and are not modelled.
- Concurrency, such as two processes editing the configuration at once, is not modelled.
- ProjectManager.LinkProject: the order in which a `HashSet` is walked is unspecified. On failure, the contract therefore states only which links may have been added, not which ones were.
