/** The path value types `DirectoryPath` and `FilePath`: a normalized full
    path with an optional provider tag naming the backing source, and the
    operations that combine and decompose them. Every operation returns a
    new value; a null argument is `None` and the `ArgumentNullException`
    it raises is `Err(NullArgument)`. */
module IO {
  import opened Wrappers
  import opened PathString

  /** The strings a `FullPath` can hold. */
  type NormalizedPath = s: string | IsNormalized(s) witness "."

  datatype PathError =
    | NullArgument  // a required argument was null
    | InvalidPath   // the path string was empty

  /** Two paths with the same `fullPath` under different providers are different values. */
  datatype DirectoryPath = DirectoryPath(fullPath: NormalizedPath, provider: Option<string>)

  datatype FilePath = FilePath(fullPath: NormalizedPath, provider: Option<string>)

  // ---------------------------------------------------------------------
  // Construction
  // ---------------------------------------------------------------------

  /** `new DirectoryPath(provider, path)`; `new DirectoryPath(path)` passes `None` as provider. */
  function NewDirectoryPath(provider: Option<string>, path: Option<string>): (r: Result<DirectoryPath, PathError>)
    ensures path.None? ==> r == Err(NullArgument)
    ensures path == Some([]) ==> r == Err(InvalidPath)
    ensures path.Some? && path.value != [] ==>
      r.Ok? && r.value.provider == provider && r.value.fullPath == Normalize(path.value)
  {
    match path
    case None => Err(NullArgument)
    case Some(p) => if p == [] then Err(InvalidPath) else Ok(DirectoryPath(Normalize(p), provider))
  }

  /** `new FilePath(provider, path)`; `new FilePath(path)` passes `None` as provider. */
  function NewFilePath(provider: Option<string>, path: Option<string>): (r: Result<FilePath, PathError>)
    ensures path.None? ==> r == Err(NullArgument)
    ensures path == Some([]) ==> r == Err(InvalidPath)
    ensures path.Some? && path.value != [] ==>
      r.Ok? && r.value.provider == provider && r.value.fullPath == Normalize(path.value)
  {
    match path
    case None => Err(NullArgument)
    case Some(p) => if p == [] then Err(InvalidPath) else Ok(FilePath(Normalize(p), provider))
  }

  predicate IsAbsoluteDirectory(d: DirectoryPath) {
    IsAbsolute(d.fullPath)
  }

  predicate IsAbsoluteFile(f: FilePath) {
    IsAbsolute(f.fullPath)
  }

  // ---------------------------------------------------------------------
  // Decomposition
  // ---------------------------------------------------------------------

  /** `DirectoryPath.GetDirectoryName()`: the final segment only, whatever it looks like. */
  function GetDirectoryName(d: DirectoryPath): (r: string)
    ensures IsLastSegment(d.fullPath, r)
    ensures !IsRoot(d.fullPath) ==> r != []
  {
    LeafIsJoinable(d.fullPath);
    LeafName(d.fullPath)
  }

  /** `FilePath.FileName`: the final segment of a file path. */
  function GetFileName(f: FilePath): (r: string)
    ensures IsLastSegment(f.fullPath, r)
    ensures !IsRoot(f.fullPath) ==> Joinable(r)
  {
    LeafIsJoinable(f.fullPath);
    LeafName(f.fullPath)
  }

  // ---------------------------------------------------------------------
  // Combination
  // ---------------------------------------------------------------------

  /** `DirectoryPath.GetFilePath(file)`: the file's name alone, re-rooted
      under this directory, under this directory's provider — whatever
      directories or provider the file carried. */
  function GetFilePath(d: DirectoryPath, file: Option<FilePath>): (r: Result<FilePath, PathError>)
    ensures file.None? <==> r == Err(NullArgument)
    ensures r.Ok? ==> r.value.provider == d.provider
    ensures file.Some? && !IsRoot(file.value.fullPath) ==>
      r.Ok? && r.value.fullPath == Join(d.fullPath, GetFileName(file.value))
    ensures file.Some? && IsRoot(file.value.fullPath) ==>
      r.Ok? && r.value.fullPath ==
        (if IsRoot(d.fullPath + [Separator]) then d.fullPath + [Separator] else d.fullPath)
  {
    match file
    case None => Err(NullArgument)
    case Some(f) =>
      var name := GetFileName(f);
      var rebased := d.fullPath + [Separator] + name;
      assert !IsRoot(f.fullPath) ==> Normalize(rebased) == Join(d.fullPath, name) by {
        if !IsRoot(f.fullPath) { JoinNormalizes(d.fullPath, name); }
      }
      var bare := if IsRoot(d.fullPath + [Separator]) then d.fullPath + [Separator] else d.fullPath;
      assert IsRoot(f.fullPath) ==> Normalize(rebased) == bare by {
        if IsRoot(f.fullPath) {
          assert rebased == d.fullPath + [Separator];
          GetFilePathOfRoot(d.fullPath);
        }
      }
      Ok(FilePath(Normalize(rebased), d.provider))
  }

  /** A file name that is empty leaves the directory itself, with a
      separator only where that makes a bare drive its root. */
  lemma GetFilePathOfRoot(dir: NormalizedPath)
    ensures Normalize(dir + [Separator]) ==
      (if IsRoot(dir + [Separator]) then dir + [Separator] else dir)
  {
    if IsRoot(dir + [Separator]) {
      NormalizeFixesNormalized(dir + [Separator]);
    } else {
      NormalizeDropsTrailingSeparator(dir);
    }
  }

  /** `DirectoryPath.CombineFile(file)`: a relative file keeps its whole
      chain after this directory and takes this directory's provider; an
      absolute file is the result's path, and its own provider, when it has
      one, is the result's provider. */
  function CombineFile(d: DirectoryPath, file: Option<FilePath>): (r: Result<FilePath, PathError>)
    ensures file.None? <==> r == Err(NullArgument)
    ensures file.Some? && !IsAbsoluteFile(file.value) ==>
      r.Ok? && r.value.fullPath == Join(d.fullPath, file.value.fullPath) && r.value.provider == d.provider
    ensures file.Some? && IsAbsoluteFile(file.value) ==>
      r.Ok? && r.value.fullPath == file.value.fullPath
      && (file.value.provider.Some? ==> r.value.provider == file.value.provider)
  {
    match file
    case None => Err(NullArgument)
    case Some(f) =>
      if IsAbsoluteFile(f) then
        Ok(FilePath(f.fullPath, if f.provider.Some? then f.provider else d.provider))
      else
        RelativeIsJoinable(f.fullPath);
        JoinNormalizes(d.fullPath, f.fullPath);
        Ok(FilePath(Normalize(d.fullPath + [Separator] + f.fullPath), d.provider))
  }

  /** `DirectoryPath.Combine(path)`: the same rule as `CombineFile`, for a
      directory operand. */
  function Combine(d: DirectoryPath, other: Option<DirectoryPath>): (r: Result<DirectoryPath, PathError>)
    ensures other.None? <==> r == Err(NullArgument)
    ensures other.Some? && !IsAbsoluteDirectory(other.value) ==>
      r.Ok? && r.value.fullPath == Join(d.fullPath, other.value.fullPath) && r.value.provider == d.provider
    ensures other.Some? && IsAbsoluteDirectory(other.value) ==>
      r.Ok? && r.value.fullPath == other.value.fullPath
      && (other.value.provider.Some? ==> r.value.provider == other.value.provider)
  {
    match other
    case None => Err(NullArgument)
    case Some(o) =>
      if IsAbsoluteDirectory(o) then
        Ok(DirectoryPath(o.fullPath, if o.provider.Some? then o.provider else d.provider))
      else
        RelativeIsJoinable(o.fullPath);
        JoinNormalizes(d.fullPath, o.fullPath);
        Ok(DirectoryPath(Normalize(d.fullPath + [Separator] + o.fullPath), d.provider))
  }

  // ---------------------------------------------------------------------
  // Properties relating the operations
  // ---------------------------------------------------------------------

  /** Constructing a path from a path's own `FullPath` gives that path back. */
  lemma NewDirectoryPathRoundTrip(d: DirectoryPath)
    ensures NewDirectoryPath(d.provider, Some(d.fullPath)) == Ok(d)
  {
    NormalizeFixesNormalized(d.fullPath);
  }

  /** Constructing a path from a path's own `FullPath` gives that path back. */
  lemma NewFilePathRoundTrip(f: FilePath)
    ensures NewFilePath(f.provider, Some(f.fullPath)) == Ok(f)
  {
    NormalizeFixesNormalized(f.fullPath);
  }

  /** `GetFilePath` sees nothing of its argument but the file name: two
      files with the same name give the same result, whatever their
      directories, absoluteness or providers. */
  lemma GetFilePathSeesOnlyFileName(d: DirectoryPath, f1: FilePath, f2: FilePath)
    requires GetFileName(f1) == GetFileName(f2)
    ensures GetFilePath(d, Some(f1)) == GetFilePath(d, Some(f2))
  {
  }

  /** `GetFilePath` keeps the file name of its argument. */
  lemma GetFilePathKeepsFileName(d: DirectoryPath, f: FilePath)
    requires !IsRoot(f.fullPath)
    ensures GetFilePath(d, Some(f)).Ok?
    ensures GetFileName(GetFilePath(d, Some(f)).value) == GetFileName(f)
  {
    JoinKeepsLeaf(d.fullPath, GetFileName(f));
    LeafIsJoinable(GetFileName(f));
  }

  /** For a relative file, `GetFilePath` and `CombineFile` agree exactly
      when the file has no directory part: `GetFilePath` flattens, and
      `CombineFile` does not. */
  lemma GetFilePathIsCombineFileIffNoDirectory(d: DirectoryPath, f: FilePath)
    requires !IsAbsoluteFile(f)
    ensures GetFilePath(d, Some(f)) == CombineFile(d, Some(f)) <==> Separator !in f.fullPath
  {
  }

  /** `CombineFile` keeps the file name of a relative file, and its result
      ends with the file's whole relative chain. */
  lemma CombineFileKeepsChain(d: DirectoryPath, f: FilePath)
    requires !IsAbsoluteFile(f)
    ensures CombineFile(d, Some(f)).Ok?
    ensures var p := CombineFile(d, Some(f)).value.fullPath;
      |f.fullPath| < |p| && p[|p| - |f.fullPath|..] == f.fullPath
    ensures GetFileName(CombineFile(d, Some(f)).value) == GetFileName(f)
  {
    RelativeIsJoinable(f.fullPath);
    JoinKeepsLeaf(d.fullPath, f.fullPath);
  }

  /** A combined directory is absolute exactly when the base or the operand is. */
  lemma CombineAbsolute(d: DirectoryPath, o: DirectoryPath)
    ensures Combine(d, Some(o)).Ok?
    ensures IsAbsoluteDirectory(Combine(d, Some(o)).value) <==> IsAbsoluteDirectory(d) || IsAbsoluteDirectory(o)
  {
  }

  /** Combining relative directories one after another is combining them
      all at once. */
  lemma CombineAssociative(a: DirectoryPath, b: DirectoryPath, c: DirectoryPath)
    requires !IsAbsoluteDirectory(b) && !IsAbsoluteDirectory(c)
    ensures Combine(a, Some(b)).Ok? && Combine(b, Some(c)).Ok?
    ensures Combine(Combine(a, Some(b)).value, Some(c)) == Combine(a, Some(Combine(b, Some(c)).value))
  {
    RelativeIsJoinable(b.fullPath);
    RelativeIsJoinable(c.fullPath);
    JoinKeepsAbsolute(b.fullPath, c.fullPath);
    JoinAssociative(a.fullPath, b.fullPath, c.fullPath);
  }
}
