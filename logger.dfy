/** `convertLoggerNameToBetterName` of `logger.ts`: turns a source file's path
    (`__filename`) into a log4js category. The working directory and the
    operating system's path separator are parameters; the number of pieces
    the working directory splits into is `currentWorkingDirectoryTreeSize`. */
module CategoryNamer {
  import opened Strings

  /** `path.sep`: `/` on POSIX systems, `\\` on Windows. */
  predicate IsOsSeparator(sep: char)
  {
    sep == '/' || sep == '\\'
  }

  /** `process.cwd().split(osSeparator).length`: never below one. */
  function CurrentWorkingDirectoryTreeSize(cwd: string, sep: char): (n: nat)
    ensures n >= 1
  {
    |Split(cwd, sep)|
  }

  /** Drops the text from the last `.` on, wherever that dot is; a name
      without a dot is returned as it is. */
  function RemoveFileExtensionIfHas(name: string): (r: string)
    ensures '.' !in name ==> r == name
    ensures '.' in name ==>
      |r| < |name| && name[..|r|] == r && name[|r|] == '.' && '.' !in name[|r| + 1..]
  {
    var f := Split(name, '.');
    if |f| > 1 then
      (JoinSplit(name, '.');
       JoinAppend(".", f[..|f| - 1], f[|f| - 1]);
       assert f[..|f| - 1] + [f[|f| - 1]] == f;
       Join(".", f[..|f| - 1]))
    else
      JoinSplit(name, '.');
      name
  }

  /** A path is under the application when it is as many leading pieces as
      the working directory has, whatever they are, followed by at least one
      more: only the counts are compared. */
  predicate IsFilePathUnderAppLocation(parts: seq<string>, treeSize: nat)
    ensures IsFilePathUnderAppLocation(parts, treeSize) <==>
      exists lead, rest :: |lead| == treeSize && rest != [] && parts == lead + rest
  {
    if |parts| > treeSize then
      assert parts == parts[..treeSize] + parts[treeSize..];
      true
    else
      false
  }

  /** An index file's last piece is `index`: its pieces are a directory's
      followed by `index`. */
  predicate IsIndexFile(parts: seq<string>)
    ensures IsIndexFile(parts) <==> exists dir :: parts == dir + ["index"]
  {
    if |parts| > 0 && parts[|parts| - 1] == "index" then
      assert parts == parts[..|parts| - 1] + ["index"];
      true
    else
      false
  }

  /** The pieces after the working directory's, without the last one when
      `takeFileName` is false, joined with `.`. With the file name taken
      exactly when the path is not an index file, these are the category's
      pieces; when none of the kept pieces holds a dot, splitting the result
      on `.` gives them back. */
  function ExtractRelativePathAndConvertSeparatorToDot(parts: seq<string>, treeSize: nat, takeFileName: bool): (r: string)
    requires treeSize < |parts|
    ensures takeFileName == !IsIndexFile(parts) ==> r == Join(".", RelativeParts(parts, treeSize))
    ensures var kept := if takeFileName then parts[treeSize..] else parts[treeSize..|parts| - 1];
      |kept| >= 1 && (forall i :: 0 <= i < |kept| ==> '.' !in kept[i]) ==> Split(r, '.') == kept
  {
    var offset := if takeFileName then 0 else 1;
    var kept := parts[treeSize..|parts| - offset];
    assert takeFileName ==> kept == parts[treeSize..];
    if |kept| >= 1 && (forall i :: 0 <= i < |kept| ==> '.' !in kept[i]) then
      SplitJoin(kept, '.');
      Join(".", kept)
    else
      Join(".", kept)
  }

  /** The path pieces of a logger name, once its extension is gone. */
  function PathParts(loggerName: string, sep: char): seq<string>
  {
    Split(RemoveFileExtensionIfHas(loggerName), sep)
  }

  /** The pieces a category is made of: those after the working directory's,
      without a final `index`; `ExtractRelativePathAndConvertSeparatorToDot`
      joins exactly these. */
  function RelativeParts(parts: seq<string>, treeSize: nat): seq<string>
    requires treeSize < |parts|
  {
    if IsIndexFile(parts) then parts[treeSize..|parts| - 1] else parts[treeSize..]
  }

  /** The category for a logger name: a path with no more pieces than the
      working directory is returned as given, extension included; a deeper
      one becomes its relative pieces joined with `.`. */
  function ConvertLoggerNameToBetterName(loggerName: string, cwd: string, sep: char): (r: string)
    ensures var n := CurrentWorkingDirectoryTreeSize(cwd, sep);
      |PathParts(loggerName, sep)| <= n ==> r == loggerName
    ensures var n := CurrentWorkingDirectoryTreeSize(cwd, sep);
      n < |PathParts(loggerName, sep)| ==> r == Join(".", RelativeParts(PathParts(loggerName, sep), n))
  {
    var treeSize := CurrentWorkingDirectoryTreeSize(cwd, sep);
    var parts := Split(RemoveFileExtensionIfHas(loggerName), sep);
    if IsFilePathUnderAppLocation(parts, treeSize) then
      if IsIndexFile(parts) then ExtractRelativePathAndConvertSeparatorToDot(parts, treeSize, false)
      else ExtractRelativePathAndConvertSeparatorToDot(parts, treeSize, true)
    else loggerName
  }

  /** A name with no separator (`'express'`, `'index'`) is its own category:
      the working directory always has at least one piece. */
  lemma NameWithoutSeparatorUnchanged(loggerName: string, cwd: string, sep: char)
    requires sep !in loggerName
    ensures ConvertLoggerNameToBetterName(loggerName, cwd, sep) == loggerName
  {
    var stripped := RemoveFileExtensionIfHas(loggerName);
    assert sep !in stripped;
    SplitWithoutSeparator(stripped, sep);
  }

  /** A deeper name becomes its relative pieces joined with `.`: the leading
      pieces are dropped by count, and re-splitting the category on `.` gives
      back exactly the relative pieces when none of them holds a dot. The
      category never holds the separator. */
  lemma DeepNameCategory(loggerName: string, cwd: string, sep: char)
    requires IsOsSeparator(sep)
    requires CurrentWorkingDirectoryTreeSize(cwd, sep) < |PathParts(loggerName, sep)|
    ensures var rel := RelativeParts(PathParts(loggerName, sep), CurrentWorkingDirectoryTreeSize(cwd, sep));
      var category := ConvertLoggerNameToBetterName(loggerName, cwd, sep);
      && sep !in category
      && category == Join(".", rel)
      && (|rel| >= 1 && (forall i :: 0 <= i < |rel| ==> '.' !in rel[i]) ==> Split(category, '.') == rel)
  {
    var parts := PathParts(loggerName, sep);
    var n := CurrentWorkingDirectoryTreeSize(cwd, sep);
    var rel := RelativeParts(parts, n);
    assert forall i :: 0 <= i < |rel| ==> sep !in rel[i];
    JoinAvoids(".", rel, sep);
    if |rel| >= 1 && (forall i :: 0 <= i < |rel| ==> '.' !in rel[i]) {
      SplitJoin(rel, '.');
    }
  }

  /** The leading pieces are never compared with the working directory: two
      names that differ only there get the same category. */
  lemma LeadingPiecesIgnored(a: string, b: string, cwd: string, sep: char)
    requires var n := CurrentWorkingDirectoryTreeSize(cwd, sep);
      |PathParts(a, sep)| == |PathParts(b, sep)| > n && PathParts(a, sep)[n..] == PathParts(b, sep)[n..]
    ensures ConvertLoggerNameToBetterName(a, cwd, sep) == ConvertLoggerNameToBetterName(b, cwd, sep)
  {
    var n := CurrentWorkingDirectoryTreeSize(cwd, sep);
    var pa, pb := PathParts(a, sep), PathParts(b, sep);
    assert pa[|pa| - 1] == pa[n..][|pa| - 1 - n] == pb[n..][|pb| - 1 - n] == pb[|pb| - 1];
    assert pa[n..|pa| - 1] == pa[n..][..|pa| - 1 - n];
    assert pb[n..|pb| - 1] == pb[n..][..|pb| - 1 - n];
    assert RelativeParts(pa, n) == RelativeParts(pb, n);
  }

  /** An index file is named after its directory: `<dir>/index.ts` gets the
      category of `<dir>.ts`. */
  lemma IndexNamedAfterDirectory(indexFile: string, dirFile: string, cwd: string, sep: char)
    requires IsOsSeparator(sep)
    requires RemoveFileExtensionIfHas(indexFile) == RemoveFileExtensionIfHas(dirFile) + [sep] + "index"
    requires CurrentWorkingDirectoryTreeSize(cwd, sep) < |PathParts(dirFile, sep)|
    requires !IsIndexFile(PathParts(dirFile, sep))
    ensures ConvertLoggerNameToBetterName(indexFile, cwd, sep) == ConvertLoggerNameToBetterName(dirFile, cwd, sep)
  {
    var n := CurrentWorkingDirectoryTreeSize(cwd, sep);
    var dirParts := PathParts(dirFile, sep);
    SplitAround(RemoveFileExtensionIfHas(dirFile), sep, "index");
    SplitWithoutSeparator("index", sep);
    var parts := PathParts(indexFile, sep);
    assert parts == dirParts + ["index"];
    assert parts[n..|parts| - 1] == dirParts[n..];
    assert RelativeParts(parts, n) == RelativeParts(dirParts, n);
  }
}
