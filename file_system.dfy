// The file system as the services touch it: the set of paths that exist,
// and the path helpers the services name files with.

module FileSystems {
  import opened Common

  /** The paths that exist; both background services share one. */
  class FileSystem {
    var paths: set<string>

    constructor (paths: set<string>)
      ensures this.paths == paths
    {
      this.paths := paths;
    }
  }

  /**
   * `Path.GetFileName`: the part after the last '/'.  The result is the
   * longest suffix without a '/': all of `path`, or what follows a '/'.
   */
  function FileName(path: string): (r: string)
    ensures forall i :: 0 <= i < |r| ==> r[i] != '/'
    ensures |r| <= |path| && path == path[..|path| - |r|] + r
    ensures r == path || path[|path| - |r| - 1] == '/'
  {
    match LastIndexOfChar(path, '/')
    case None => path
    case Some(i) => path[i + 1..]
  }

  /**
   * `Path.GetFileNameWithoutExtension`: the file name up to its last '.',
   * or the whole file name when it has no '.'.
   */
  function FileNameWithoutExtension(path: string): (r: string)
    ensures forall i :: 0 <= i < |r| ==> r[i] != '/'
    ensures StartsWith(FileName(path), r)
    ensures r == FileName(path) ==> forall i :: 0 <= i < |r| ==> r[i] != '.'
    ensures r != FileName(path) ==>
              FileName(path)[|r|] == '.' && forall i :: |r| < i < |FileName(path)| ==> FileName(path)[i] != '.'
  {
    var name := FileName(path);
    match LastIndexOfChar(name, '.')
    case None => name
    case Some(i) => name[..i]
  }

  /** Only one suffix of a path has the shape `FileName` promises, so its contract determines it. */
  lemma FileNameUnique(path: string, t: string)
    requires forall i :: 0 <= i < |t| ==> t[i] != '/'
    requires |t| <= |path| && path == path[..|path| - |t|] + t
    requires t == path || path[|path| - |t| - 1] == '/'
    ensures t == FileName(path)
  {
    var n := |path|;
    assert forall i :: 0 <= i < |t| ==> path[n - |t| + i] == t[i];
    if t == path {
      assert LastIndexOfChar(path, '/').None?;
    } else {
      var k := n - |t| - 1;
      assert path[k] == '/';
      assert forall j :: k < j < n ==> path[j] != '/' by {
        forall j | k < j < n ensures path[j] != '/' {
          assert path[j] == t[j - k - 1];
        }
      }
      AfterLastSlash(path, k);
      assert path[k + 1..] == path[n - |t|..] == t;
    }
  }

  /** After the last '/' comes the file name. */
  lemma AfterLastSlash(path: string, k: nat)
    requires k < |path| && path[k] == '/' && forall j :: k < j < |path| ==> path[j] != '/'
    ensures FileName(path) == path[k + 1..]
  {
    assert LastIndexOfChar(path, '/') == Some(k);
  }

  /** Only one prefix of a file name has the shape `FileNameWithoutExtension` promises. */
  lemma FileNameWithoutExtensionUnique(path: string, t: string)
    requires StartsWith(FileName(path), t)
    requires t == FileName(path) ==> forall i :: 0 <= i < |t| ==> t[i] != '.'
    requires t != FileName(path) ==>
               FileName(path)[|t|] == '.' && forall i :: |t| < i < |FileName(path)| ==> FileName(path)[i] != '.'
    ensures t == FileNameWithoutExtension(path)
  {
    var name, r := FileName(path), FileNameWithoutExtension(path);
    assert forall i :: 0 <= i < |t| ==> name[i] == t[i];
    assert forall i :: 0 <= i < |r| ==> name[i] == r[i];
    assert t == name[..|t|] && r == name[..|r|];
  }
}
