# Wyam path algebra: DirectoryPath and FilePath

A Dafny model of the path values of `Wyam.Common.IO`: a `DirectoryPath` or
`FilePath` is a normalized `FullPath` string together with an optional
`Provider` tag naming the backing source. The model covers how a path string is
normalized and classified as absolute or relative, and the three ways a directory
combines with another path:

- `GetFilePath` re-roots a file under the directory by its file name alone.
- `CombineFile` appends a relative file's whole chain; an absolute file replaces the base.
- `Combine` does the same for a directory operand.

It also covers which operand's provider the result carries, `GetDirectoryName`,
and the `ArgumentNullException` that each combining operation raises on a null
argument.

The implementation classes are not part of this model. The model is built from
what the NUnit fixture `src/Wyam.Common.Tests/IO/DirectoryPathTests.cs` asserts.
Where the fixture leaves the normal form open, the model fixes it as follows:
every `\\` becomes `/`, every run of `/` becomes a single `/`, and a trailing `/`
is dropped unless the path is a root (`/` or `<letter>:/`). Everything is pure:
values are immutable and every operation returns a new one.

Files:

- `wrappers.dfy`: `Option` (a reference that may be null) and `Result` (a value or a thrown error).
- `path_string.dfy` (module `PathString`): the string layer.
  - `Normalize` = `Unify` (`\\` becomes `/`), then `Collapse` (runs of `/` become one), then `StripTrailing` (a trailing `/` goes unless the path is the root `/` or `<letter>:/`).
  - `IsAbsolute`: a leading `/`, or a drive letter of either case followed by `:`.
  - `Segments`: the independent reading of a path as its list of non-empty segments; `CollapseKeepsSegments`, `NormalizeKeepsSegments` and `JoinKeepsSegments` state what each step does to it.
  - `LeafName`: the last segment.
  - `Join`: the reference definition of "base, one separator, operand", where a root base supplies its own separator.
- `io_paths.dfy` (module `IO`): the `DirectoryPath` and `FilePath` datatypes, their constructors, `GetDirectoryName`, `GetFileName`, `GetFilePath`, `CombineFile` and `Combine`, and lemmas relating them.
- `directory_path_tests.dfy` (module `DirectoryPathTests`): the fixture itself.
  - For each parameterized test method, its body is a predicate: construct, call, compare.
  - A general lemma states that method's assertion for every input shaped like its cases.
  - One lemma per `TestCase` row instantiates it. The rows inside `#if !UNIX` are included too.
  - The three `ShouldThrowIfPathIsNull` tests and `FileProviderFromDirectoryPathIsUsed` (all six of its rows in one lemma) are proved directly from the operations' contracts.

`GetFilePath` always builds `base + "/" + name` and applies `Normalize` to it;
`CombineFile` and `Combine` do the same for a relative operand and return an
absolute operand's path as it is. Their contracts state the result through `Join` instead.
`JoinNormalizes` proves the two agree. The null argument of the C# API is
`None`, and `ArgumentNullException` is `Err(NullArgument)`.

Decisions where the sources leave a choice:

- A null path string given to a constructor fails with `NullArgument`, the same error as a null argument to the combining operations. An empty path string fails with `InvalidPath`.
- A drive designator is always absolute. The fixture's Windows-only cases therefore hold in the model as well.
- `GetDirectoryName` on a root (`/`, `c:/`) gives the empty string, because the last segment of a root is empty. No lemma depends on this.

## Model

| member | source | states |
|---|---|---|
| `PathString.Segments` | src/Wyam.Common.Tests/IO/DirectoryPathTests.cs:19-21 | every segment is non-empty and free of separators |
| `PathString.Collapse` | src/Wyam.Common.Tests/IO/DirectoryPathTests.cs:53-55 | the result never holds two separators in a row, keeps the first and last character (and the second, unless it follows a leading separator), and keeps strings free of `\\` |
| `PathString.CollapseKeepsSegments` | src/Wyam.Common.Tests/IO/DirectoryPathTests.cs:53-55 | collapsing keeps every segment, in order: the non-separator content is untouched and only separators are dropped |
| `PathString.Normalize` | src/Wyam.Common.Tests/IO/DirectoryPathTests.cs:59-61 | every non-empty input gives a well-formed `FullPath`: non-empty, only `/` as separator, no `//`, and no trailing `/` except on a root |
| `PathString.NormalizeKeepsSegments` | src/Wyam.Common.Tests/IO/DirectoryPathTests.cs:59-61 | the normal form has the segments of the input read with `\\` as a separator, and the input's first character (so `\\` in front becomes a leading `/`) |
| `PathString.NormalizeFixesNormalized` | src/Wyam.Common.Tests/IO/DirectoryPathTests.cs:59 | a string already in normal form is left unchanged |
| `PathString.NormalizeIdempotent` | src/Wyam.Common.Tests/IO/DirectoryPathTests.cs:59-60 | normalizing twice is normalizing once |
| `PathString.NormalizeDropsTrailingSeparator` | src/Wyam.Common.Tests/IO/DirectoryPathTests.cs:59-60 | a normalized path with one extra trailing separator normalizes back to itself ("assets/shaders/" is "assets/shaders"), except where the extra separator turns a bare drive into its root |
| `PathString.NormalizeReadsAltSeparator` | src/Wyam.Common.Tests/IO/DirectoryPathTests.cs:59-61 | normalizing a string is normalizing it with every `\\` replaced by `/` |
| `PathString.NormalizeCollapsesRun` | src/Wyam.Common.Tests/IO/DirectoryPathTests.cs:53-55 | a `/` directly after another `/` does not change the normal form |
| `PathString.NormalizeDriveRoot` | src/Wyam.Common.Tests/IO/DirectoryPathTests.cs:59-61 | a drive root written `c:\\` or `c:/` normalizes to `c:/`, keeping its separator |
| `PathString.NormalizeKeepsAbsolute` | src/Wyam.Common.Tests/IO/DirectoryPathTests.cs:131 | normalization never changes whether a path is absolute, once `\\` is read as `/` |
| `PathString.LeafName` | src/Wyam.Common.Tests/IO/DirectoryPathTests.cs:19-21 | the result is the final segment: a separator-free tail that is the whole string or follows a separator |
| `PathString.LeafNameIsLastSegment` | src/Wyam.Common.Tests/IO/DirectoryPathTests.cs:19-21 | any final segment of a string is the one LeafName computes |
| `PathString.LeafIsJoinable` | src/Wyam.Common.Tests/IO/DirectoryPathTests.cs:52-57 | the leaf of a normalized path is empty exactly on a root; otherwise it can follow a separator |
| `PathString.SegmentsSplit` | src/Wyam.Common.Tests/IO/DirectoryPathTests.cs:53 | splitting a string at one separator splits its segments: those of the left part followed by those of the right |
| `PathString.JoinNormalizes` | src/Wyam.Common.Tests/IO/DirectoryPathTests.cs:53 | normalizing base + "/" + operand is `Join`: exactly one separator between them, no doubled separator after a root base, and the outcome is again normalized |
| `PathString.JoinKeepsSegments` | src/Wyam.Common.Tests/IO/DirectoryPathTests.cs:119-123 | the segments of a join are the base's followed by the operand's |
| `PathString.JoinKeepsLeaf` | src/Wyam.Common.Tests/IO/DirectoryPathTests.cs:121-130 | joining keeps the operand's last segment |
| `PathString.JoinKeepsAbsolute` | src/Wyam.Common.Tests/IO/DirectoryPathTests.cs:187-189 | appending a relative operand never changes whether the base is absolute |
| `PathString.JoinAssociative` | src/Wyam.Common.Tests/IO/DirectoryPathTests.cs:187-189 | joining relative operands one at a time equals joining their join |
| `IO.NewDirectoryPath` | src/Wyam.Common.Tests/IO/DirectoryPathTests.cs:92 | a null path fails with NullArgument and an empty one with InvalidPath; otherwise the path keeps the provider given and stores the normal form of the string |
| `IO.NewFilePath` | src/Wyam.Common.Tests/IO/DirectoryPathTests.cs:95 | the same for a file path |
| `IO.NewDirectoryPathRoundTrip` | src/Wyam.Common.Tests/IO/DirectoryPathTests.cs:25 | constructing from a directory's own FullPath and provider gives that directory back |
| `IO.NewFilePathRoundTrip` | src/Wyam.Common.Tests/IO/DirectoryPathTests.cs:74 | constructing from a file's own FullPath and provider gives that file back |
| `IO.GetDirectoryName` | src/Wyam.Common.Tests/IO/DirectoryPathTests.cs:19-31 | the result is the final segment of the FullPath, what follows the last separator, and it is non-empty unless the directory is a root |
| `IO.GetFileName` | src/Wyam.Common.Tests/IO/DirectoryPathTests.cs:52-67 | the result is the final segment of the file path, and on a non-root it can follow a separator |
| `IO.GetFilePath` | src/Wyam.Common.Tests/IO/DirectoryPathTests.cs:38-98 | null fails with NullArgument; the result's provider is always the directory's; for a non-root file the result is the directory joined by one separator with the file's name only; for a root file, whose name is empty, the result is the directory itself, with a `/` added only where that turns a bare drive `c:` into its root `c:/` |
| `IO.GetFilePathOfRoot` | src/Wyam.Common.Tests/IO/DirectoryPathTests.cs:38-98 | normalizing a directory followed by `/` gives the directory, or its root when it is a bare drive |
| `IO.CombineFile` | src/Wyam.Common.Tests/IO/DirectoryPathTests.cs:105-175 | null fails with NullArgument; a relative file gives the directory joined with the file's whole path, under the directory's provider; an absolute file gives the file's path unchanged, under the file's provider when it has one |
| `IO.Combine` | src/Wyam.Common.Tests/IO/DirectoryPathTests.cs:183-247 | null fails with NullArgument; a relative operand is joined after one separator under the base's provider; an absolute operand is the result's path, under its own provider when it has one |
| `IO.GetFilePathSeesOnlyFileName` | src/Wyam.Common.Tests/IO/DirectoryPathTests.cs:62-67 | two files with the same name give the same GetFilePath result, whatever their directories, absoluteness or providers |
| `IO.GetFilePathKeepsFileName` | src/Wyam.Common.Tests/IO/DirectoryPathTests.cs:52-67 | the result of GetFilePath has the file's name as its own |
| `IO.GetFilePathIsCombineFileIffNoDirectory` | src/Wyam.Common.Tests/IO/DirectoryPathTests.cs:119-130 | for a relative file, GetFilePath and CombineFile agree exactly when the file has no directory part |
| `IO.CombineFileKeepsChain` | src/Wyam.Common.Tests/IO/DirectoryPathTests.cs:128-130 | CombineFile with a relative file ends with the file's whole relative path and keeps its name |
| `IO.CombineAbsolute` | src/Wyam.Common.Tests/IO/DirectoryPathTests.cs:183-190 | a combined directory is absolute exactly when the base or the operand is |
| `IO.CombineAssociative` | src/Wyam.Common.Tests/IO/DirectoryPathTests.cs:187-189 | combining relative directories one after another equals combining the base with their combination |
| `DirectoryPathTests.DirectoryNameCase` | src/Wyam.Common.Tests/IO/DirectoryPathTests.cs:22-31 | for every normalized path whose last segment is `name`, the test body yields `name` |
| `DirectoryPathTests.GetFilePathCase` | src/Wyam.Common.Tests/IO/DirectoryPathTests.cs:68-77 | for every base and file written in normal form, possibly with one trailing separator, GetFilePath's FullPath is the base joined with the file's name |
| `DirectoryPathTests.CombineFileCase` | src/Wyam.Common.Tests/IO/DirectoryPathTests.cs:132-141 | for such inputs, CombineFile's FullPath is the file's path if absolute, else the base joined with it |
| `DirectoryPathTests.CombineFileProviderCase` | src/Wyam.Common.Tests/IO/DirectoryPathTests.cs:149-175 | for such inputs under a base with provider "first", CombineFile's provider is the file's own when the file is absolute and carries one, else "first" |
| `DirectoryPathTests.CombineCase` | src/Wyam.Common.Tests/IO/DirectoryPathTests.cs:191-201 | for such inputs, Combine's FullPath is the operand's path if absolute, else the base joined with it |
| `DirectoryPathTests.CombineProviderCase` | src/Wyam.Common.Tests/IO/DirectoryPathTests.cs:208-234 | for such inputs under a base with provider "first", Combine's provider is the operand's own when absolute with one, else "first" |
| `DirectoryPathTests.ShouldReturnDirectoryNameCase1` | src/Wyam.Common.Tests/IO/DirectoryPathTests.cs:19 | GetDirectoryName of "C:/Data" is "Data" |
| `DirectoryPathTests.ShouldReturnDirectoryNameCase2` | src/Wyam.Common.Tests/IO/DirectoryPathTests.cs:20 | GetDirectoryName of "C:/Data/Work" is "Work" |
| `DirectoryPathTests.ShouldReturnDirectoryNameCase3` | src/Wyam.Common.Tests/IO/DirectoryPathTests.cs:21 | GetDirectoryName of "C:/Data/Work/file.txt" is "file.txt" |
| `DirectoryPathTests.GetFilePathShouldThrowIfPathIsNull` | src/Wyam.Common.Tests/IO/DirectoryPathTests.cs:38-47 | GetFilePath(null) on "assets" fails with NullArgument |
| `DirectoryPathTests.GetFilePathShouldCombinePathsCase1` | src/Wyam.Common.Tests/IO/DirectoryPathTests.cs:52 | GetFilePath of "simple.frag" under "c:/assets/shaders/" has FullPath "c:/assets/shaders/simple.frag" |
| `DirectoryPathTests.GetFilePathShouldCombinePathsCase2` | src/Wyam.Common.Tests/IO/DirectoryPathTests.cs:53 | GetFilePath of "simple.frag" under "c:/" has FullPath "c:/simple.frag" |
| `DirectoryPathTests.GetFilePathShouldCombinePathsCase3` | src/Wyam.Common.Tests/IO/DirectoryPathTests.cs:54 | GetFilePath of "c:/simple.frag" under "c:/" has FullPath "c:/simple.frag" |
| `DirectoryPathTests.GetFilePathShouldCombinePathsCase4` | src/Wyam.Common.Tests/IO/DirectoryPathTests.cs:55 | GetFilePath of "c:/test/simple.frag" under "c:/" has FullPath "c:/simple.frag" |
| `DirectoryPathTests.GetFilePathShouldCombinePathsCase5` | src/Wyam.Common.Tests/IO/DirectoryPathTests.cs:56 | GetFilePath of "test/simple.frag" under "c:/assets/shaders/" has FullPath "c:/assets/shaders/simple.frag" |
| `DirectoryPathTests.GetFilePathShouldCombinePathsCase6` | src/Wyam.Common.Tests/IO/DirectoryPathTests.cs:57 | GetFilePath of "test/simple.frag" under "c:/" has FullPath "c:/simple.frag" |
| `DirectoryPathTests.GetFilePathShouldCombinePathsCase7` | src/Wyam.Common.Tests/IO/DirectoryPathTests.cs:59 | GetFilePath of "simple.frag" under "assets/shaders" has FullPath "assets/shaders/simple.frag" |
| `DirectoryPathTests.GetFilePathShouldCombinePathsCase8` | src/Wyam.Common.Tests/IO/DirectoryPathTests.cs:60 | GetFilePath of "simple.frag" under "assets/shaders/" has FullPath "assets/shaders/simple.frag" |
| `DirectoryPathTests.GetFilePathShouldCombinePathsCase9` | src/Wyam.Common.Tests/IO/DirectoryPathTests.cs:61 | GetFilePath of "simple.frag" under "/assets/shaders/" has FullPath "/assets/shaders/simple.frag" |
| `DirectoryPathTests.GetFilePathShouldCombinePathsCase10` | src/Wyam.Common.Tests/IO/DirectoryPathTests.cs:62 | GetFilePath of "test/simple.frag" under "assets/shaders" has FullPath "assets/shaders/simple.frag" |
| `DirectoryPathTests.GetFilePathShouldCombinePathsCase11` | src/Wyam.Common.Tests/IO/DirectoryPathTests.cs:63 | GetFilePath of "/test/simple.frag" under "assets/shaders" has FullPath "assets/shaders/simple.frag" |
| `DirectoryPathTests.GetFilePathShouldCombinePathsCase12` | src/Wyam.Common.Tests/IO/DirectoryPathTests.cs:64 | GetFilePath of "test/simple.frag" under "assets/shaders/" has FullPath "assets/shaders/simple.frag" |
| `DirectoryPathTests.GetFilePathShouldCombinePathsCase13` | src/Wyam.Common.Tests/IO/DirectoryPathTests.cs:65 | GetFilePath of "/test/simple.frag" under "assets/shaders/" has FullPath "assets/shaders/simple.frag" |
| `DirectoryPathTests.GetFilePathShouldCombinePathsCase14` | src/Wyam.Common.Tests/IO/DirectoryPathTests.cs:66 | GetFilePath of "test/simple.frag" under "/assets/shaders/" has FullPath "/assets/shaders/simple.frag" |
| `DirectoryPathTests.GetFilePathShouldCombinePathsCase15` | src/Wyam.Common.Tests/IO/DirectoryPathTests.cs:67 | GetFilePath of "/test/simple.frag" under "/assets/shaders/" has FullPath "/assets/shaders/simple.frag" |
| `DirectoryPathTests.FileProviderFromDirectoryPathIsUsed` | src/Wyam.Common.Tests/IO/DirectoryPathTests.cs:80-98 | in all six cases the result's provider is the directory's, null included, whatever the file's provider |
| `DirectoryPathTests.CombineFileShouldThrowIfPathIsNull` | src/Wyam.Common.Tests/IO/DirectoryPathTests.cs:105-114 | CombineFile(null) on "assets" fails with NullArgument |
| `DirectoryPathTests.CombineFileShouldCombinePathsCase1` | src/Wyam.Common.Tests/IO/DirectoryPathTests.cs:119 | CombineFile of "simple.frag" onto "c:/assets/shaders/" has FullPath "c:/assets/shaders/simple.frag" |
| `DirectoryPathTests.CombineFileShouldCombinePathsCase2` | src/Wyam.Common.Tests/IO/DirectoryPathTests.cs:120 | CombineFile of "simple.frag" onto "c:/" has FullPath "c:/simple.frag" |
| `DirectoryPathTests.CombineFileShouldCombinePathsCase3` | src/Wyam.Common.Tests/IO/DirectoryPathTests.cs:121 | CombineFile of "test/simple.frag" onto "c:/assets/shaders/" has FullPath "c:/assets/shaders/test/simple.frag" |
| `DirectoryPathTests.CombineFileShouldCombinePathsCase4` | src/Wyam.Common.Tests/IO/DirectoryPathTests.cs:122 | CombineFile of "test/simple.frag" onto "c:/" has FullPath "c:/test/simple.frag" |
| `DirectoryPathTests.CombineFileShouldCombinePathsCase5` | src/Wyam.Common.Tests/IO/DirectoryPathTests.cs:123 | CombineFile of "c:/test/simple.frag" onto "c:/" has FullPath "c:/test/simple.frag" |
| `DirectoryPathTests.CombineFileShouldCombinePathsCase6` | src/Wyam.Common.Tests/IO/DirectoryPathTests.cs:125 | CombineFile of "simple.frag" onto "assets/shaders" has FullPath "assets/shaders/simple.frag" |
| `DirectoryPathTests.CombineFileShouldCombinePathsCase7` | src/Wyam.Common.Tests/IO/DirectoryPathTests.cs:126 | CombineFile of "simple.frag" onto "assets/shaders/" has FullPath "assets/shaders/simple.frag" |
| `DirectoryPathTests.CombineFileShouldCombinePathsCase8` | src/Wyam.Common.Tests/IO/DirectoryPathTests.cs:127 | CombineFile of "simple.frag" onto "/assets/shaders/" has FullPath "/assets/shaders/simple.frag" |
| `DirectoryPathTests.CombineFileShouldCombinePathsCase9` | src/Wyam.Common.Tests/IO/DirectoryPathTests.cs:128 | CombineFile of "test/simple.frag" onto "assets/shaders" has FullPath "assets/shaders/test/simple.frag" |
| `DirectoryPathTests.CombineFileShouldCombinePathsCase10` | src/Wyam.Common.Tests/IO/DirectoryPathTests.cs:129 | CombineFile of "test/simple.frag" onto "assets/shaders/" has FullPath "assets/shaders/test/simple.frag" |
| `DirectoryPathTests.CombineFileShouldCombinePathsCase11` | src/Wyam.Common.Tests/IO/DirectoryPathTests.cs:130 | CombineFile of "test/simple.frag" onto "/assets/shaders/" has FullPath "/assets/shaders/test/simple.frag" |
| `DirectoryPathTests.CombineFileShouldCombinePathsCase12` | src/Wyam.Common.Tests/IO/DirectoryPathTests.cs:131 | CombineFile of "/other/asset.txt" onto "assets" has FullPath "/other/asset.txt" |
| `DirectoryPathTests.CombineFileWithRelativePathKeepsFirstProviderCase1` | src/Wyam.Common.Tests/IO/DirectoryPathTests.cs:146 | CombineFile of "simple.frag" (provider null) onto "c:/assets/shaders/" (provider "first") has provider "first" |
| `DirectoryPathTests.CombineFileWithRelativePathKeepsFirstProviderCase2` | src/Wyam.Common.Tests/IO/DirectoryPathTests.cs:148 | CombineFile of "simple.frag" (provider null) onto "/assets/shaders/" (provider "first") has provider "first" |
| `DirectoryPathTests.CombineFileWithAbsolutePathKeepsSecondProviderCase1` | src/Wyam.Common.Tests/IO/DirectoryPathTests.cs:163 | CombineFile of "c:/simple.frag" (provider "second") onto "c:/assets/shaders/" (provider "first") has provider "second" |
| `DirectoryPathTests.CombineFileWithAbsolutePathKeepsSecondProviderCase2` | src/Wyam.Common.Tests/IO/DirectoryPathTests.cs:165 | CombineFile of "/simple.frag" (provider "second") onto "/assets/shaders/" (provider "first") has provider "second" |
| `DirectoryPathTests.CombineShouldCombinePathsCase1` | src/Wyam.Common.Tests/IO/DirectoryPathTests.cs:183 | Combine of "simple" onto "c:/assets/shaders/" has FullPath "c:/assets/shaders/simple" |
| `DirectoryPathTests.CombineShouldCombinePathsCase2` | src/Wyam.Common.Tests/IO/DirectoryPathTests.cs:184 | Combine of "simple" onto "c:/" has FullPath "c:/simple" |
| `DirectoryPathTests.CombineShouldCombinePathsCase3` | src/Wyam.Common.Tests/IO/DirectoryPathTests.cs:185 | Combine of "c:/simple" onto "c:/assets/shaders/" has FullPath "c:/simple" |
| `DirectoryPathTests.CombineShouldCombinePathsCase4` | src/Wyam.Common.Tests/IO/DirectoryPathTests.cs:187 | Combine of "simple" onto "assets/shaders" has FullPath "assets/shaders/simple" |
| `DirectoryPathTests.CombineShouldCombinePathsCase5` | src/Wyam.Common.Tests/IO/DirectoryPathTests.cs:188 | Combine of "simple" onto "assets/shaders/" has FullPath "assets/shaders/simple" |
| `DirectoryPathTests.CombineShouldCombinePathsCase6` | src/Wyam.Common.Tests/IO/DirectoryPathTests.cs:189 | Combine of "simple" onto "/assets/shaders/" has FullPath "/assets/shaders/simple" |
| `DirectoryPathTests.CombineShouldCombinePathsCase7` | src/Wyam.Common.Tests/IO/DirectoryPathTests.cs:190 | Combine of "/other/assets" onto "assets" has FullPath "/other/assets" |
| `DirectoryPathTests.CombineWithRelativePathKeepsFirstProviderCase1` | src/Wyam.Common.Tests/IO/DirectoryPathTests.cs:205 | Combine of "simple" (provider null) onto "c:/assets/shaders/" (provider "first") has provider "first" |
| `DirectoryPathTests.CombineWithRelativePathKeepsFirstProviderCase2` | src/Wyam.Common.Tests/IO/DirectoryPathTests.cs:207 | Combine of "simple" (provider null) onto "/assets/shaders/" (provider "first") has provider "first" |
| `DirectoryPathTests.CombineWithAbsolutePathKeepsSecondProviderCase1` | src/Wyam.Common.Tests/IO/DirectoryPathTests.cs:222 | Combine of "c:/simple" (provider "second") onto "c:/assets/shaders/" (provider "first") has provider "second" |
| `DirectoryPathTests.CombineWithAbsolutePathKeepsSecondProviderCase2` | src/Wyam.Common.Tests/IO/DirectoryPathTests.cs:224 | Combine of "/simpl" (provider "second") onto "/assets/shaders/" (provider "first") has provider "second" |
| `DirectoryPathTests.CombineShouldThrowIfPathIsNull` | src/Wyam.Common.Tests/IO/DirectoryPathTests.cs:238-247 | Combine(null) on "assets" fails with NullArgument |

## Left out

- IO.Combine: promises no provider when the operand is absolute and carries none. The fixture never exercises that case. The model falls back to the base's provider, but no contract states it.
- IO.CombineFile: for the same reason, promises no provider for an absolute file that has none. The model falls back to the directory's provider.
- `FilePath` decomposition other than the file name (name without extension, extension, directory part) is not modelled, because the fixture does not exercise it.
- Path equality and hashing are Dafny's structural datatype equality: same FullPath and same provider.
- The absolute-path predicate is a single fixed predicate, not a pluggable strategy. Other root syntaxes (network shares, URI schemes) are not modelled.
- The separate UNIX build, under which the drive-letter cases are compiled out, is not modelled.
- Normalization steps the fixture does not exercise, such as trimming whitespace or removing a leading `./`, are not modelled.
- Whether a provider may be given together with a relative path is not modelled. The fixture never does it, and the constructors accept any provider.
- Wyam.Core/Modules/CopyFiles.cs is not part of this model. It enumerates directories, copies files and logs, and the helpers it calls (`System.IO.Path`, `PathHelper.GetRelativePath`) are outside this model.
- Glob and search-pattern matching and recursion over subdirectories are left out, because the file system performs them.
