/**
 * An abstract filesystem: the directories, files and symbolic links that the
 * tool creates, and the four calls it makes on them (`create_dir_all`,
 * `File::create`, `fs::write`, `symlink`). A file holds either nothing (just
 * created) or a document written by the codec, of type `D`.
 */
module Filesystem {
  import opened Wrappers
  import opened Paths

  datatype FileData<D> = Empty | Written(doc: D)

  datatype FsState<D> = FsState(dirs: set<string>, files: map<string, FileData<D>>, links: map<string, string>) {

    /** Something, of any kind, is at path `p`. */
    predicate Exists(p: string) {
      p in dirs || p in files || p in links
    }

    /** The directory `p` would be created in exists (the root always does). */
    predicate HasParentDir(p: string) {
      Parent(p) == "" || Parent(p) in dirs
    }
  }

  /**
   * `create_dir_all(p)`: fails when a component of `p` is a file or a link;
   * otherwise every directory on the path exists afterwards.
   */
  function MkdirAll<D>(s: FsState<D>, p: string): (r: Option<FsState<D>>)
    ensures r.Some? <==> forall q :: q in DirChain(p) ==> q !in s.files && q !in s.links
    ensures r.Some? ==> s.dirs <= r.value.dirs && DirChain(p) <= r.value.dirs
    ensures r.Some? ==> forall q :: q in r.value.dirs && q !in s.dirs ==> q in DirChain(p)
    ensures r.Some? ==> r.value.files == s.files && r.value.links == s.links
  {
    if DirChain(p) !! (s.files.Keys + s.links.Keys) then
      Some(s.(dirs := s.dirs + DirChain(p)))
    else
      None
  }

  /**
   * `fs::write(p, d)`: fails when `p` is a directory or a link or its parent
   * directory is missing; otherwise the file `p` holds exactly `d` and nothing
   * else changes.
   */
  function WriteFile<D>(s: FsState<D>, p: string, d: FileData<D>): (r: Option<FsState<D>>)
    ensures r.Some? <==> p !in s.dirs && p !in s.links && s.HasParentDir(p)
    ensures r.Some? ==> p in r.value.files && r.value.files[p] == d
    ensures r.Some? ==> forall q :: q != p ==> (q in r.value.files <==> q in s.files)
    ensures r.Some? ==> forall q :: q != p && q in s.files ==> r.value.files[q] == s.files[q]
    ensures r.Some? ==> r.value.dirs == s.dirs && r.value.links == s.links
  {
    if p in s.dirs || p in s.links || !s.HasParentDir(p) then None else Some(s.(files := s.files[p := d]))
  }

  /** `File::create(p)`: writing an empty file, with the same failure cases. */
  function CreateFile<D>(s: FsState<D>, p: string): (r: Option<FsState<D>>)
    ensures r.Some? <==> p !in s.dirs && p !in s.links && s.HasParentDir(p)
    ensures r.Some? ==> p in r.value.files && r.value.files[p] == Empty
    ensures r.Some? ==> r.value.dirs == s.dirs && r.value.links == s.links
  {
    WriteFile(s, p, Empty)
  }

  /**
   * `symlink(target, p)`: fails when anything already exists at `p` or the
   * directory `p` would be created in is missing; otherwise `p` is a new link
   * to `target` and every other entry is unchanged.
   */
  function Symlink<D>(s: FsState<D>, target: string, p: string): (r: Option<FsState<D>>)
    ensures r.Some? <==> !s.Exists(p) && s.HasParentDir(p)
    ensures r.Some? ==> p in r.value.links && r.value.links[p] == target
    ensures r.Some? ==> forall q :: q in s.links ==> q in r.value.links && r.value.links[q] == s.links[q]
    ensures r.Some? ==> r.value.links.Keys == s.links.Keys + {p}
    ensures r.Some? ==> r.value.dirs == s.dirs && r.value.files == s.files
  {
    if s.Exists(p) || !s.HasParentDir(p) then None else Some(s.(links := s.links[p := target]))
  }

  /** The filesystem the tool runs against, updated in place by each call. */
  class FileSystem<D> {
    var dirs: set<string>
    var files: map<string, FileData<D>>
    var links: map<string, string>

    function State(): FsState<D>
      reads this
    {
      FsState(dirs, files, links)
    }

    constructor (s: FsState<D>)
      ensures State() == s
    {
      dirs, files, links := s.dirs, s.files, s.links;
    }

    method CreateDirAll(p: string) returns (ok: bool)
      modifies this
      ensures ok == MkdirAll(old(State()), p).Some?
      ensures ok ==> State() == MkdirAll(old(State()), p).value
      ensures !ok ==> State() == old(State())
    {
      ok := DirChain(p) !! (files.Keys + links.Keys);
      if ok {
        dirs := dirs + DirChain(p);
      }
    }

    method Write(p: string, d: FileData<D>) returns (ok: bool)
      modifies this
      ensures ok == WriteFile(old(State()), p, d).Some?
      ensures ok ==> State() == WriteFile(old(State()), p, d).value
      ensures !ok ==> State() == old(State())
    {
      ok := p !in dirs && p !in links && (Parent(p) == "" || Parent(p) in dirs);
      if ok {
        files := files[p := d];
      }
    }

    method Create(p: string) returns (ok: bool)
      modifies this
      ensures ok == CreateFile(old(State()), p).Some?
      ensures ok ==> State() == CreateFile(old(State()), p).value
      ensures !ok ==> State() == old(State())
    {
      ok := Write(p, Empty);
    }

    method MakeSymlink(target: string, p: string) returns (ok: bool)
      modifies this
      ensures ok == Symlink(old(State()), target, p).Some?
      ensures ok ==> State() == Symlink(old(State()), target, p).value
      ensures !ok ==> State() == old(State())
    {
      ok := !(p in dirs || p in files || p in links) && (Parent(p) == "" || Parent(p) in dirs);
      if ok {
        links := links[p := target];
      }
    }
  }
}
