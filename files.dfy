/**
 * The working directory as the drivers see it: which paths exist and, for
 * each, its size in bytes. `os.path.isfile`, `os.stat(..).st_size` and
 * `os.path.getsize` become lookups in this map; an external tool becomes a
 * call of `Create` with the paths it writes.
 */
module Files {
  import opened PyStr

  type Path = string

  datatype FileSystem = FileSystem(sizes: map<Path, nat>) {

    /** `os.path.isfile(p)`. */
    predicate Exists(p: Path) { p in sizes }

    /**
     * The file system after a tool has written `outs`: each of them exists
     * with the size the tool gives it, every other file is as it was.
     */
    function Create(outs: seq<Path>, size: Path -> nat): (fs: FileSystem)
      ensures forall p :: fs.Exists(p) <==> Exists(p) || p in outs
      ensures forall p :: p in outs ==> fs.Exists(p) && fs.sizes[p] == size(p)
      ensures forall p :: Exists(p) && p !in outs ==> fs.Exists(p) && fs.sizes[p] == sizes[p]
    {
      FileSystem(sizes + map p | p in outs :: size(p))
    }
  }

  /** A file a tool does not write exists afterwards exactly when it existed before. */
  lemma CreateKeeps(fs: FileSystem, outs: seq<Path>, size: Path -> nat, p: Path)
    requires p !in outs
    ensures fs.Create(outs, size).Exists(p) == fs.Exists(p)
  {
  }

  /** `p.split('/')[-1]`: the file name part of a path, extension included. */
  function Basename(p: Path): string
  {
    Last(Split(p, '/'))
  }

  /** The base name of `d + '/' + f`, where `f` has no '/', is `f`. */
  lemma BasenameAfterSlash(d: string, f: string)
    requires '/' !in f
    ensures Basename(d + ['/'] + f) == f
  {
    SplitAppend(d, f, '/');
    SplitNone(f, '/');
  }

  /**
   * The base name holds no '/', and it is the tail of the path that follows
   * the last '/' (the whole path when there is none).
   */
  lemma BasenameSpec(p: Path)
    ensures var b := Basename(p);
      && '/' !in b
      && |b| <= |p| && b == p[|p| - |b|..]
      && (|b| == |p| || p[|p| - |b| - 1] == '/')
  {
    SplitLast(p, '/');
  }
}
