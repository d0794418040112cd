/** The cases of the `DirectoryPath` test fixture: for each test method a
    predicate that is its body (construct, call, compare), a lemma that
    states the method's assertion for every input of the shape its cases
    use, and one lemma per test case. Both builds' cases are here: the model
    always reads a drive designator as absolute. */
module DirectoryPathTests {
  import opened Wrappers
  import opened PathString
  import opened IO

  // ---------------------------------------------------------------------
  // The test bodies
  // ---------------------------------------------------------------------

  predicate DirectoryNameIs(directoryPath: string, name: string) {
    var d := NewDirectoryPath(None, Some(directoryPath));
    d.Ok? && GetDirectoryName(d.value) == name
  }

  predicate GetFilePathGives(first: string, second: string, expected: string) {
    var d := NewDirectoryPath(None, Some(first));
    var f := NewFilePath(None, Some(second));
    d.Ok? && f.Ok? && GetFilePath(d.value, Some(f.value)).Ok?
    && GetFilePath(d.value, Some(f.value)).value.fullPath == expected
  }

  predicate GetFilePathProviderIs(firstProvider: Option<string>, firstPath: string,
                                  secondProvider: Option<string>, secondPath: string) {
    var d := NewDirectoryPath(firstProvider, Some(firstPath));
    var f := NewFilePath(secondProvider, Some(secondPath));
    d.Ok? && f.Ok? && GetFilePath(d.value, Some(f.value)).Ok?
    && GetFilePath(d.value, Some(f.value)).value.provider == firstProvider
  }

  predicate CombineFileGives(first: string, second: string, expected: string) {
    var d := NewDirectoryPath(None, Some(first));
    var f := NewFilePath(None, Some(second));
    d.Ok? && f.Ok? && CombineFile(d.value, Some(f.value)).Ok?
    && CombineFile(d.value, Some(f.value)).value.fullPath == expected
  }

  /** The directory is constructed with provider "first". */
  predicate CombineFileProviderIs(first: string, secondProvider: Option<string>, second: string,
                                  expected: Option<string>) {
    var d := NewDirectoryPath(Some("first"), Some(first));
    var f := NewFilePath(secondProvider, Some(second));
    d.Ok? && f.Ok? && CombineFile(d.value, Some(f.value)).Ok?
    && CombineFile(d.value, Some(f.value)).value.provider == expected
  }

  predicate CombineGives(first: string, second: string, expected: string) {
    var d := NewDirectoryPath(None, Some(first));
    var o := NewDirectoryPath(None, Some(second));
    d.Ok? && o.Ok? && Combine(d.value, Some(o.value)).Ok?
    && Combine(d.value, Some(o.value)).value.fullPath == expected
  }

  /** The base directory is constructed with provider "first". */
  predicate CombineProviderIs(first: string, secondProvider: Option<string>, second: string,
                              expected: Option<string>) {
    var d := NewDirectoryPath(Some("first"), Some(first));
    var o := NewDirectoryPath(secondProvider, Some(second));
    d.Ok? && o.Ok? && Combine(d.value, Some(o.value)).Ok?
    && Combine(d.value, Some(o.value)).value.provider == expected
  }

  // ---------------------------------------------------------------------
  // The assertions of the test methods for every input of the cases' shape:
  // a normalized path, possibly with one trailing separator
  // ---------------------------------------------------------------------

  /** `raw` is `n`, or `n` with one separator more that makes no root. */
  predicate SpelledAs(raw: string, n: string) {
    IsNormalized(n) && (raw == n || (raw == n + [Separator] && !IsRoot(raw)))
  }

  lemma SpelledAsNormalizes(raw: string, n: string)
    requires SpelledAs(raw, n)
    ensures Normalize(raw) == n
  {
    if raw == n { NormalizeFixesNormalized(n); } else { NormalizeDropsTrailingSeparator(n); }
  }

  lemma DirectoryNameCase(path: string, name: string)
    requires IsNormalized(path) && IsLastSegment(path, name)
    ensures DirectoryNameIs(path, name)
  {
    NormalizeFixesNormalized(path);
    LeafNameIsLastSegment(path, name);
  }

  lemma GetFilePathCase(first: string, dir: string, second: string, file: string, leaf: string, expected: string)
    requires SpelledAs(first, dir) && SpelledAs(second, file)
    requires IsLastSegment(file, leaf) && !IsRoot(file)
    requires expected == Join(dir, leaf)
    ensures GetFilePathGives(first, second, expected)
  {
    SpelledAsNormalizes(first, dir);
    SpelledAsNormalizes(second, file);
    LeafNameIsLastSegment(file, leaf);
  }

  lemma CombineFileCase(first: string, dir: string, second: string, file: string, expected: string)
    requires SpelledAs(first, dir) && SpelledAs(second, file)
    requires expected == if IsAbsolute(file) then file else Join(dir, file)
    ensures CombineFileGives(first, second, expected)
  {
    SpelledAsNormalizes(first, dir);
    SpelledAsNormalizes(second, file);
  }

  lemma CombineFileProviderCase(first: string, dir: string, secondProvider: Option<string>, second: string, file: string,
                                expected: Option<string>)
    requires SpelledAs(first, dir) && SpelledAs(second, file)
    requires IsAbsolute(file) ==> secondProvider.Some?
    requires expected == if IsAbsolute(file) then secondProvider else Some("first")
    ensures CombineFileProviderIs(first, secondProvider, second, expected)
  {
    SpelledAsNormalizes(first, dir);
    SpelledAsNormalizes(second, file);
  }

  lemma CombineCase(first: string, dir: string, second: string, other: string, expected: string)
    requires SpelledAs(first, dir) && SpelledAs(second, other)
    requires expected == if IsAbsolute(other) then other else Join(dir, other)
    ensures CombineGives(first, second, expected)
  {
    SpelledAsNormalizes(first, dir);
    SpelledAsNormalizes(second, other);
  }

  lemma CombineProviderCase(first: string, dir: string, secondProvider: Option<string>, second: string, other: string,
                            expected: Option<string>)
    requires SpelledAs(first, dir) && SpelledAs(second, other)
    requires IsAbsolute(other) ==> secondProvider.Some?
    requires expected == if IsAbsolute(other) then secondProvider else Some("first")
    ensures CombineProviderIs(first, secondProvider, second, expected)
  {
    SpelledAsNormalizes(first, dir);
    SpelledAsNormalizes(second, other);
  }

  // ---------------------------------------------------------------------
  // GetDirectoryName: ShouldReturnDirectoryName
  // ---------------------------------------------------------------------

  lemma ShouldReturnDirectoryNameCase1()
    ensures DirectoryNameIs("C:/Data", "Data")
  {
    DirectoryNameCase("C:/Data", "Data");
  }

  lemma ShouldReturnDirectoryNameCase2()
    ensures DirectoryNameIs("C:/Data/Work", "Work")
  {
    DirectoryNameCase("C:/Data/Work", "Work");
  }

  lemma ShouldReturnDirectoryNameCase3()
    ensures DirectoryNameIs("C:/Data/Work/file.txt", "file.txt")
  {
    DirectoryNameCase("C:/Data/Work/file.txt", "file.txt");
  }

  // ---------------------------------------------------------------------
  // GetFilePath
  // ---------------------------------------------------------------------

  lemma GetFilePathShouldThrowIfPathIsNull()
    ensures NewDirectoryPath(None, Some("assets")).Ok?
    ensures GetFilePath(NewDirectoryPath(None, Some("assets")).value, None) == Err(NullArgument)
  {
  }

  lemma GetFilePathShouldCombinePathsCase1()
    ensures GetFilePathGives("c:/assets/shaders/", "simple.frag", "c:/assets/shaders/simple.frag")
  {
    GetFilePathCase("c:/assets/shaders/", "c:/assets/shaders", "simple.frag", "simple.frag", "simple.frag", "c:/assets/shaders/simple.frag");
  }

  lemma GetFilePathShouldCombinePathsCase2()
    ensures GetFilePathGives("c:/", "simple.frag", "c:/simple.frag")
  {
    GetFilePathCase("c:/", "c:/", "simple.frag", "simple.frag", "simple.frag", "c:/simple.frag");
  }

  lemma GetFilePathShouldCombinePathsCase3()
    ensures GetFilePathGives("c:/", "c:/simple.frag", "c:/simple.frag")
  {
    GetFilePathCase("c:/", "c:/", "c:/simple.frag", "c:/simple.frag", "simple.frag", "c:/simple.frag");
  }

  lemma GetFilePathShouldCombinePathsCase4()
    ensures GetFilePathGives("c:/", "c:/test/simple.frag", "c:/simple.frag")
  {
    GetFilePathCase("c:/", "c:/", "c:/test/simple.frag", "c:/test/simple.frag", "simple.frag", "c:/simple.frag");
  }

  lemma GetFilePathShouldCombinePathsCase5()
    ensures GetFilePathGives("c:/assets/shaders/", "test/simple.frag", "c:/assets/shaders/simple.frag")
  {
    GetFilePathCase("c:/assets/shaders/", "c:/assets/shaders", "test/simple.frag", "test/simple.frag", "simple.frag", "c:/assets/shaders/simple.frag");
  }

  lemma GetFilePathShouldCombinePathsCase6()
    ensures GetFilePathGives("c:/", "test/simple.frag", "c:/simple.frag")
  {
    GetFilePathCase("c:/", "c:/", "test/simple.frag", "test/simple.frag", "simple.frag", "c:/simple.frag");
  }

  lemma GetFilePathShouldCombinePathsCase7()
    ensures GetFilePathGives("assets/shaders", "simple.frag", "assets/shaders/simple.frag")
  {
    GetFilePathCase("assets/shaders", "assets/shaders", "simple.frag", "simple.frag", "simple.frag", "assets/shaders/simple.frag");
  }

  lemma GetFilePathShouldCombinePathsCase8()
    ensures GetFilePathGives("assets/shaders/", "simple.frag", "assets/shaders/simple.frag")
  {
    GetFilePathCase("assets/shaders/", "assets/shaders", "simple.frag", "simple.frag", "simple.frag", "assets/shaders/simple.frag");
  }

  lemma GetFilePathShouldCombinePathsCase9()
    ensures GetFilePathGives("/assets/shaders/", "simple.frag", "/assets/shaders/simple.frag")
  {
    GetFilePathCase("/assets/shaders/", "/assets/shaders", "simple.frag", "simple.frag", "simple.frag", "/assets/shaders/simple.frag");
  }

  lemma GetFilePathShouldCombinePathsCase10()
    ensures GetFilePathGives("assets/shaders", "test/simple.frag", "assets/shaders/simple.frag")
  {
    GetFilePathCase("assets/shaders", "assets/shaders", "test/simple.frag", "test/simple.frag", "simple.frag", "assets/shaders/simple.frag");
  }

  lemma GetFilePathShouldCombinePathsCase11()
    ensures GetFilePathGives("assets/shaders", "/test/simple.frag", "assets/shaders/simple.frag")
  {
    GetFilePathCase("assets/shaders", "assets/shaders", "/test/simple.frag", "/test/simple.frag", "simple.frag", "assets/shaders/simple.frag");
  }

  lemma GetFilePathShouldCombinePathsCase12()
    ensures GetFilePathGives("assets/shaders/", "test/simple.frag", "assets/shaders/simple.frag")
  {
    GetFilePathCase("assets/shaders/", "assets/shaders", "test/simple.frag", "test/simple.frag", "simple.frag", "assets/shaders/simple.frag");
  }

  lemma GetFilePathShouldCombinePathsCase13()
    ensures GetFilePathGives("assets/shaders/", "/test/simple.frag", "assets/shaders/simple.frag")
  {
    GetFilePathCase("assets/shaders/", "assets/shaders", "/test/simple.frag", "/test/simple.frag", "simple.frag", "assets/shaders/simple.frag");
  }

  lemma GetFilePathShouldCombinePathsCase14()
    ensures GetFilePathGives("/assets/shaders/", "test/simple.frag", "/assets/shaders/simple.frag")
  {
    GetFilePathCase("/assets/shaders/", "/assets/shaders", "test/simple.frag", "test/simple.frag", "simple.frag", "/assets/shaders/simple.frag");
  }

  lemma GetFilePathShouldCombinePathsCase15()
    ensures GetFilePathGives("/assets/shaders/", "/test/simple.frag", "/assets/shaders/simple.frag")
  {
    GetFilePathCase("/assets/shaders/", "/assets/shaders", "/test/simple.frag", "/test/simple.frag", "simple.frag", "/assets/shaders/simple.frag");
  }

  lemma FileProviderFromDirectoryPathIsUsed()
    ensures GetFilePathProviderIs(Some("first"), "c:/assets/shaders/", None, "simple.frag")
    ensures GetFilePathProviderIs(Some("first"), "c:/", Some("second"), "c:/simple.frag")
    ensures GetFilePathProviderIs(None, "assets/shaders", None, "simple.frag")
    ensures GetFilePathProviderIs(Some("first"), "/assets/shaders/", None, "simple.frag")
    ensures GetFilePathProviderIs(None, "assets/shaders", Some("second"), "/simple.frag")
    ensures GetFilePathProviderIs(Some("first"), "/assets/shaders/", Some("second"), "/simple.frag")
  {
  }

  // ---------------------------------------------------------------------
  // CombineFile
  // ---------------------------------------------------------------------

  lemma CombineFileShouldThrowIfPathIsNull()
    ensures NewDirectoryPath(None, Some("assets")).Ok?
    ensures CombineFile(NewDirectoryPath(None, Some("assets")).value, None) == Err(NullArgument)
  {
  }

  lemma CombineFileShouldCombinePathsCase1()
    ensures CombineFileGives("c:/assets/shaders/", "simple.frag", "c:/assets/shaders/simple.frag")
  {
    CombineFileCase("c:/assets/shaders/", "c:/assets/shaders", "simple.frag", "simple.frag", "c:/assets/shaders/simple.frag");
  }

  lemma CombineFileShouldCombinePathsCase2()
    ensures CombineFileGives("c:/", "simple.frag", "c:/simple.frag")
  {
    CombineFileCase("c:/", "c:/", "simple.frag", "simple.frag", "c:/simple.frag");
  }

  lemma CombineFileShouldCombinePathsCase3()
    ensures CombineFileGives("c:/assets/shaders/", "test/simple.frag", "c:/assets/shaders/test/simple.frag")
  {
    CombineFileCase("c:/assets/shaders/", "c:/assets/shaders", "test/simple.frag", "test/simple.frag", "c:/assets/shaders/test/simple.frag");
  }

  lemma CombineFileShouldCombinePathsCase4()
    ensures CombineFileGives("c:/", "test/simple.frag", "c:/test/simple.frag")
  {
    CombineFileCase("c:/", "c:/", "test/simple.frag", "test/simple.frag", "c:/test/simple.frag");
  }

  lemma CombineFileShouldCombinePathsCase5()
    ensures CombineFileGives("c:/", "c:/test/simple.frag", "c:/test/simple.frag")
  {
    CombineFileCase("c:/", "c:/", "c:/test/simple.frag", "c:/test/simple.frag", "c:/test/simple.frag");
  }

  lemma CombineFileShouldCombinePathsCase6()
    ensures CombineFileGives("assets/shaders", "simple.frag", "assets/shaders/simple.frag")
  {
    CombineFileCase("assets/shaders", "assets/shaders", "simple.frag", "simple.frag", "assets/shaders/simple.frag");
  }

  lemma CombineFileShouldCombinePathsCase7()
    ensures CombineFileGives("assets/shaders/", "simple.frag", "assets/shaders/simple.frag")
  {
    CombineFileCase("assets/shaders/", "assets/shaders", "simple.frag", "simple.frag", "assets/shaders/simple.frag");
  }

  lemma CombineFileShouldCombinePathsCase8()
    ensures CombineFileGives("/assets/shaders/", "simple.frag", "/assets/shaders/simple.frag")
  {
    CombineFileCase("/assets/shaders/", "/assets/shaders", "simple.frag", "simple.frag", "/assets/shaders/simple.frag");
  }

  lemma CombineFileShouldCombinePathsCase9()
    ensures CombineFileGives("assets/shaders", "test/simple.frag", "assets/shaders/test/simple.frag")
  {
    CombineFileCase("assets/shaders", "assets/shaders", "test/simple.frag", "test/simple.frag", "assets/shaders/test/simple.frag");
  }

  lemma CombineFileShouldCombinePathsCase10()
    ensures CombineFileGives("assets/shaders/", "test/simple.frag", "assets/shaders/test/simple.frag")
  {
    CombineFileCase("assets/shaders/", "assets/shaders", "test/simple.frag", "test/simple.frag", "assets/shaders/test/simple.frag");
  }

  lemma CombineFileShouldCombinePathsCase11()
    ensures CombineFileGives("/assets/shaders/", "test/simple.frag", "/assets/shaders/test/simple.frag")
  {
    CombineFileCase("/assets/shaders/", "/assets/shaders", "test/simple.frag", "test/simple.frag", "/assets/shaders/test/simple.frag");
  }

  lemma CombineFileShouldCombinePathsCase12()
    ensures CombineFileGives("assets", "/other/asset.txt", "/other/asset.txt")
  {
    CombineFileCase("assets", "assets", "/other/asset.txt", "/other/asset.txt", "/other/asset.txt");
  }

  lemma CombineFileWithRelativePathKeepsFirstProviderCase1()
    ensures CombineFileProviderIs("c:/assets/shaders/", None, "simple.frag", Some("first"))
  {
    CombineFileProviderCase("c:/assets/shaders/", "c:/assets/shaders", None, "simple.frag", "simple.frag", Some("first"));
  }

  lemma CombineFileWithRelativePathKeepsFirstProviderCase2()
    ensures CombineFileProviderIs("/assets/shaders/", None, "simple.frag", Some("first"))
  {
    CombineFileProviderCase("/assets/shaders/", "/assets/shaders", None, "simple.frag", "simple.frag", Some("first"));
  }

  lemma CombineFileWithAbsolutePathKeepsSecondProviderCase1()
    ensures CombineFileProviderIs("c:/assets/shaders/", Some("second"), "c:/simple.frag", Some("second"))
  {
    CombineFileProviderCase("c:/assets/shaders/", "c:/assets/shaders", Some("second"), "c:/simple.frag", "c:/simple.frag", Some("second"));
  }

  lemma CombineFileWithAbsolutePathKeepsSecondProviderCase2()
    ensures CombineFileProviderIs("/assets/shaders/", Some("second"), "/simple.frag", Some("second"))
  {
    CombineFileProviderCase("/assets/shaders/", "/assets/shaders", Some("second"), "/simple.frag", "/simple.frag", Some("second"));
  }

  // ---------------------------------------------------------------------
  // Combine
  // ---------------------------------------------------------------------

  lemma CombineShouldCombinePathsCase1()
    ensures CombineGives("c:/assets/shaders/", "simple", "c:/assets/shaders/simple")
  {
    CombineCase("c:/assets/shaders/", "c:/assets/shaders", "simple", "simple", "c:/assets/shaders/simple");
  }

  lemma CombineShouldCombinePathsCase2()
    ensures CombineGives("c:/", "simple", "c:/simple")
  {
    CombineCase("c:/", "c:/", "simple", "simple", "c:/simple");
  }

  lemma CombineShouldCombinePathsCase3()
    ensures CombineGives("c:/assets/shaders/", "c:/simple", "c:/simple")
  {
    CombineCase("c:/assets/shaders/", "c:/assets/shaders", "c:/simple", "c:/simple", "c:/simple");
  }

  lemma CombineShouldCombinePathsCase4()
    ensures CombineGives("assets/shaders", "simple", "assets/shaders/simple")
  {
    CombineCase("assets/shaders", "assets/shaders", "simple", "simple", "assets/shaders/simple");
  }

  lemma CombineShouldCombinePathsCase5()
    ensures CombineGives("assets/shaders/", "simple", "assets/shaders/simple")
  {
    CombineCase("assets/shaders/", "assets/shaders", "simple", "simple", "assets/shaders/simple");
  }

  lemma CombineShouldCombinePathsCase6()
    ensures CombineGives("/assets/shaders/", "simple", "/assets/shaders/simple")
  {
    CombineCase("/assets/shaders/", "/assets/shaders", "simple", "simple", "/assets/shaders/simple");
  }

  lemma CombineShouldCombinePathsCase7()
    ensures CombineGives("assets", "/other/assets", "/other/assets")
  {
    CombineCase("assets", "assets", "/other/assets", "/other/assets", "/other/assets");
  }

  lemma CombineWithRelativePathKeepsFirstProviderCase1()
    ensures CombineProviderIs("c:/assets/shaders/", None, "simple", Some("first"))
  {
    CombineProviderCase("c:/assets/shaders/", "c:/assets/shaders", None, "simple", "simple", Some("first"));
  }

  lemma CombineWithRelativePathKeepsFirstProviderCase2()
    ensures CombineProviderIs("/assets/shaders/", None, "simple", Some("first"))
  {
    CombineProviderCase("/assets/shaders/", "/assets/shaders", None, "simple", "simple", Some("first"));
  }

  lemma CombineWithAbsolutePathKeepsSecondProviderCase1()
    ensures CombineProviderIs("c:/assets/shaders/", Some("second"), "c:/simple", Some("second"))
  {
    CombineProviderCase("c:/assets/shaders/", "c:/assets/shaders", Some("second"), "c:/simple", "c:/simple", Some("second"));
  }

  lemma CombineWithAbsolutePathKeepsSecondProviderCase2()
    ensures CombineProviderIs("/assets/shaders/", Some("second"), "/simpl", Some("second"))
  {
    CombineProviderCase("/assets/shaders/", "/assets/shaders", Some("second"), "/simpl", "/simpl", Some("second"));
  }

  lemma CombineShouldThrowIfPathIsNull()
    ensures NewDirectoryPath(None, Some("assets")).Ok?
    ensures Combine(NewDirectoryPath(None, Some("assets")).value, None) == Err(NullArgument)
  {
  }
}
