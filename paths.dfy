/**
 The part of POSIX `pathlib` that the flashcp driver relies on: the final
 component of a path (`PurePosixPath.name`) and joining one component onto a
 directory (`joinpath`). Paths are plain strings; the paths handled here are
 absolute and already normalised (`os.path.abspath` output, a staging folder,
 a device root), so the model does not elide `.` components.
 */
module Paths {

  /** A directory path: never the empty string. */
  type DirPath = p: string | p != [] witness "/"

  /** `p` without its trailing '/' characters. */
  function StripTrailingSlashes(p: string): string
  {
    if p != [] && p[|p| - 1] == '/' then StripTrailingSlashes(p[..|p| - 1]) else p
  }

  /** Stripping keeps a prefix that does not end in '/' and drops only '/' characters. */
  lemma {:induction false} StripTrailingSlashesSpec(p: string)
    ensures var r := StripTrailingSlashes(p);
      && |r| <= |p| && r == p[..|r|]
      && (r == [] || r[|r| - 1] != '/')
      && forall i | |r| <= i < |p| :: p[i] == '/'
  {
    if p != [] && p[|p| - 1] == '/' {
      StripTrailingSlashesSpec(p[..|p| - 1]);
    }
  }

  /** The text after the last '/' of `p` (all of `p` when it has none). */
  function AfterLastSlash(p: string): string
  {
    if p == [] || p[|p| - 1] == '/' then [] else AfterLastSlash(p[..|p| - 1]) + [p[|p| - 1]]
  }

  /** The result is the suffix of `p` that holds no '/' and follows its last '/'. */
  lemma {:induction false} AfterLastSlashSpec(p: string)
    ensures var r := AfterLastSlash(p);
      && |r| <= |p| && r == p[|p| - |r|..]
      && '/' !in r
      && (|r| < |p| ==> p[|p| - |r| - 1] == '/')
  {
    if p != [] && p[|p| - 1] != '/' {
      var q := p[..|p| - 1];
      AfterLastSlashSpec(q);
      var r := AfterLastSlash(p);
      assert r == AfterLastSlash(q) + [p[|p| - 1]];
      assert r == p[|p| - |r|..];
    }
  }

  /** `PurePosixPath(p).name`: the last non-empty component, "" for the root. */
  function Name(p: string): string
  {
    AfterLastSlash(StripTrailingSlashes(p))
  }

  /** A name is a single component: no '/' in it, none after it. */
  lemma NameSpec(p: string)
    ensures '/' !in Name(p) && |Name(p)| <= |p|
    ensures Name(p) != [] ==> Name(p)[|Name(p)| - 1] != '/'
  {
    StripTrailingSlashesSpec(p);
    AfterLastSlashSpec(StripTrailingSlashes(p));
  }

  /** The prefix that every direct entry of directory `dir` starts with. */
  function EntryPrefix(dir: string): string
  {
    if dir != [] && dir[|dir| - 1] == '/' then dir else dir + "/"
  }

  /** `path` names a direct entry of directory `dir` (not `dir` itself). */
  predicate IsEntryOf(path: string, dir: string)
  {
    var pre := EntryPrefix(dir);
    |pre| < |path| && path[..|pre|] == pre && '/' !in path[|pre|..]
  }

  /**
   `PurePosixPath(dir).joinpath(name).as_posix()` for a normalised `dir`
   (no repeated '/', no `.` component, no trailing '/' except the root) and a
   single component `name`: joining "" leaves the directory unchanged, and no
   second '/' is added after a directory that already ends in one (the root).
   */
  function Join(dir: string, name: string): string
    requires dir != [] && '/' !in name
  {
    if name == [] then dir else EntryPrefix(dir) + name
  }

  /** Joining "" names the directory itself; joining a name gives one of its entries. */
  lemma JoinIsEntry(dir: string, name: string)
    requires dir != [] && '/' !in name
    ensures name == [] ==> Join(dir, name) == dir
    ensures name != [] ==> IsEntryOf(Join(dir, name), dir) && Join(dir, name)[..|dir|] == dir
  {
    if name != [] {
      var pre := EntryPrefix(dir);
      assert Join(dir, name)[|pre|..] == name;
    }
  }

  /** An entry of a directory is named by what follows the directory's prefix. */
  lemma NameOfEntry(path: string, dir: string)
    requires IsEntryOf(path, dir)
    ensures Name(path) == path[|EntryPrefix(dir)|..]
  {
    var pre := EntryPrefix(dir);
    var tail := path[|pre|..];
    assert path == pre + tail;
    assert path[|path| - 1] != '/' by {
      assert path[|path| - 1] == tail[|tail| - 1];
    }
    assert StripTrailingSlashes(path) == path;
    assert pre[|pre| - 1] == '/';
    AfterLastSlashSpec(path);
  }

  /** Path agreement: the entry made by `Join` keeps the joined name. */
  lemma NameOfJoin(dir: string, name: string)
    requires dir != [] && '/' !in name && name != []
    ensures Name(Join(dir, name)) == name
  {
    JoinIsEntry(dir, name);
    NameOfEntry(Join(dir, name), dir);
  }
}
