/**
 * Path resolution (`get_path` and `file_exists`). The file system enters
 * only through the existence test `access(path, F_OK)`, modelled as the set
 * of paths that exist.
 */
module PathResolution {
  import opened Wrappers

  /** The paths for which `access(path, F_OK)` succeeds. */
  type FileSystem = set<string>

  predicate Exists(fs: FileSystem, path: string)
  {
    path in fs
  }

  /** The string `file_exists` and `get_path` build: `dir + "/" + file`. */
  function Candidate(dir: string, file: string): (c: string)
    ensures |c| == |dir| + 1 + |file|
    ensures c[..|dir|] == dir && c[|dir|] == '/' && c[|dir| + 1..] == file
  {
    dir + "/" + file
  }

  /** `file_exists`: whether `dir/file` exists. */
  predicate FileExists(fs: FileSystem, dir: string, file: string)
    ensures FileExists(fs, dir, file) <==> Exists(fs, dir + "/" + file)
  {
    Exists(fs, Candidate(dir, file))
  }

  // ---------------------------------------------------------------------
  // Splitting PATH on ':'
  // ---------------------------------------------------------------------

  /** Index of the first ':' in `s`, or `|s|` when there is none. */
  function IndexOfColon(s: string): (i: nat)
    ensures i <= |s|
    ensures i < |s| ==> s[i] == ':'
    ensures forall j :: 0 <= j < i ==> s[j] != ':'
  {
    if s == [] then 0
    else if s[0] == ':' then 0
    else 1 + IndexOfColon(s[1..])
  }

  /** A directory entry of a split PATH: non-empty and free of ':'. */
  predicate IsPathEntry(d: string)
  {
    d != [] && ':' !in d
  }

  /**
   * PATH split on ':'. `tokenizer.h` is not part of this model; the split is
   * assumed to drop empty fields, so an empty PATH entry is never searched.
   */
  function SplitPath(s: string): (dirs: seq<string>)
    ensures forall k :: 0 <= k < |dirs| ==> IsPathEntry(dirs[k])
    decreases |s|
  {
    var i := IndexOfColon(s);
    var first := if i == 0 then [] else [s[..i]];
    if i == |s| then first else first + SplitPath(s[i + 1..])
  }

  /** The directories written back as a PATH value. */
  function JoinPath(dirs: seq<string>): string
  {
    if dirs == [] then ""
    else if |dirs| == 1 then dirs[0]
    else dirs[0] + ":" + JoinPath(dirs[1..])
  }

  lemma {:induction false} SplitJoinPath(dirs: seq<string>)
    requires forall k :: 0 <= k < |dirs| ==> IsPathEntry(dirs[k])
    ensures SplitPath(JoinPath(dirs)) == dirs
  {
    if |dirs| == 1 {
      assert forall j :: 0 <= j < |dirs[0]| ==> dirs[0][j] != ':';
      assert IndexOfColon(dirs[0]) == |dirs[0]|;
      assert dirs[0][..|dirs[0]|] == dirs[0];
    } else if |dirs| > 1 {
      var s := JoinPath(dirs);
      var rest := JoinPath(dirs[1..]);
      assert s == dirs[0] + ":" + rest;
      assert forall j :: 0 <= j < |dirs[0]| ==> s[j] == dirs[0][j] != ':';
      assert s[|dirs[0]|] == ':';
      assert IndexOfColon(s) == |dirs[0]|;
      assert s[..|dirs[0]|] == dirs[0];
      assert s[|dirs[0]| + 1..] == rest;
      SplitJoinPath(dirs[1..]);
    }
  }

  // ---------------------------------------------------------------------
  // Resolution
  // ---------------------------------------------------------------------

  /** The first directory, in order, that holds `file`, as the joined path. */
  function SearchDirs(fs: FileSystem, dirs: seq<string>, file: string): Option<string>
  {
    if dirs == [] then None
    else if FileExists(fs, dirs[0], file) then Some(Candidate(dirs[0], file))
    else SearchDirs(fs, dirs[1..], file)
  }

  /** What `get_path` returns: `file` itself if it exists, else the first PATH hit, else NULL. */
  function Resolve(fs: FileSystem, pathEnv: string, file: string): Option<string>
  {
    if Exists(fs, file) then Some(file) else SearchDirs(fs, SplitPath(pathEnv), file)
  }

  /** No directory of `dirs` holds `file`. */
  ghost predicate NoCandidateExists(fs: FileSystem, dirs: seq<string>, file: string)
  {
    forall k :: 0 <= k < |dirs| ==> !FileExists(fs, dirs[k], file)
  }

  /** `dirs[k]` is the first directory, in order, that holds `file`. */
  ghost predicate IsFirstHit(fs: FileSystem, dirs: seq<string>, file: string, k: int)
  {
    0 <= k < |dirs| && FileExists(fs, dirs[k], file)
    && forall j :: 0 <= j < k ==> !FileExists(fs, dirs[j], file)
  }

  lemma {:induction false} SearchDirsFirstHit(fs: FileSystem, dirs: seq<string>, file: string)
    ensures SearchDirs(fs, dirs, file).None? <==> NoCandidateExists(fs, dirs, file)
    ensures SearchDirs(fs, dirs, file).Some? ==>
              exists k :: IsFirstHit(fs, dirs, file, k) && SearchDirs(fs, dirs, file).value == Candidate(dirs[k], file)
  {
    if dirs == [] {
    } else if FileExists(fs, dirs[0], file) {
      assert IsFirstHit(fs, dirs, file, 0);
    } else {
      var rest := dirs[1..];
      SearchDirsFirstHit(fs, rest, file);
      assert forall k :: 1 <= k < |dirs| ==> dirs[k] == rest[k - 1];
      if SearchDirs(fs, dirs, file).Some? {
        var k :| IsFirstHit(fs, rest, file, k) && SearchDirs(fs, rest, file).value == Candidate(rest[k], file);
        assert forall j :: 0 <= j < k + 1 ==> !FileExists(fs, dirs[j], file) by {
          forall j | 0 <= j < k + 1 ensures !FileExists(fs, dirs[j], file) {
            if j > 0 { assert dirs[j] == rest[j - 1]; }
          }
        }
        assert IsFirstHit(fs, dirs, file, k + 1);
      } else {
        assert NoCandidateExists(fs, dirs, file) by {
          forall k | 0 <= k < |dirs| ensures !FileExists(fs, dirs[k], file) {
            if k > 0 { assert dirs[k] == rest[k - 1]; }
          }
        }
      }
    }
  }

  /** A path `get_path` returns always passes the existence test. */
  lemma ResolvedPathExists(fs: FileSystem, pathEnv: string, file: string)
    ensures Resolve(fs, pathEnv, file).Some? ==> Exists(fs, Resolve(fs, pathEnv, file).value)
  {
    SearchDirsFirstHit(fs, SplitPath(pathEnv), file);
  }

  /** The order `get_path` follows: the name as given, then PATH in order, then NULL. */
  lemma ResolveOrder(fs: FileSystem, pathEnv: string, file: string)
    ensures Exists(fs, file) ==> Resolve(fs, pathEnv, file) == Some(file)
    ensures !Exists(fs, file) ==>
              (Resolve(fs, pathEnv, file).None? <==> NoCandidateExists(fs, SplitPath(pathEnv), file))
    ensures !Exists(fs, file) && Resolve(fs, pathEnv, file).Some? ==>
              exists k :: IsFirstHit(fs, SplitPath(pathEnv), file, k)
                          && Resolve(fs, pathEnv, file).value == Candidate(SplitPath(pathEnv)[k], file)
  {
    SearchDirsFirstHit(fs, SplitPath(pathEnv), file);
  }

  /** `get_path`: split PATH, try the name as given, then scan the directories in order. */
  method GetPath(fs: FileSystem, pathEnv: string, file: string) returns (r: Option<string>)
    ensures r == Resolve(fs, pathEnv, file)
  {
    var dirs := SplitPath(pathEnv);
    if Exists(fs, file) {
      return Some(file);
    }
    var i := 0;
    while i < |dirs|
      invariant 0 <= i <= |dirs|
      invariant SearchDirs(fs, dirs[i..], file) == SearchDirs(fs, dirs, file)
    {
      assert dirs[i..][1..] == dirs[i + 1..];
      if FileExists(fs, dirs[i], file) {
        return Some(Candidate(dirs[i], file));
      }
      i := i + 1;
    }
    return None;
  }
}
