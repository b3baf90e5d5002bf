/**
 * The decisions inside `ProjectService`'s analysis of a project directory:
 * the branch named by `.git/HEAD`, the origin URL found in `.git/config`,
 * the text-file test, the Node package manager, the extension rule, the
 * languages found, and the first-level listing with its order. What the
 * file system holds (existence, file contents, listings, attributes) is
 * given as parameters.
 */
module Projects {
  import opened Wrappers
  import opened JavaText
  import FileNames

  // ------------------------------------------------------------------ git

  const HEAD_PREFIX: string := "ref: refs/heads/"
  const ORIGIN_SECTION: string := "[remote \"origin\"]"
  const URL_PREFIX: string := "url = "

  /** What reading a file gives: no such file, an I/O failure, or its text. */
  datatype FileRead = Missing | ReadError | Text(content: string)

  /** The branch a trimmed HEAD text names, when it is a symbolic ref to a local branch. */
  function BranchOf(t: string): (r: Option<string>)
    ensures r.Some? <==> StartsWith(t, HEAD_PREFIX)
    ensures r.Some? ==> t == HEAD_PREFIX + r.value
  {
    if StartsWith(t, HEAD_PREFIX) then Some(t[|HEAD_PREFIX|..]) else None
  }

  /** The branch of a HEAD file, read from its trimmed text. */
  function GitBranch(head: string): Option<string> {
    BranchOf(Trim(head))
  }

  /** Line i opens the origin section and the next line, trimmed, gives its url. */
  predicate OriginAt(lines: seq<string>, i: nat) {
    i + 1 < |lines| && Contains(Trim(lines[i]), ORIGIN_SECTION) && StartsWith(Trim(lines[i + 1]), URL_PREFIX)
  }

  /** The first position in [i, n) where `p` holds, if any. */
  function FirstWhere(p: nat -> bool, i: nat, n: nat): (r: Option<nat>)
    ensures r.Some? ==> i <= r.value < n && p(r.value) && forall m :: i <= m < r.value ==> !p(m)
    ensures r.None? ==> forall m :: i <= m < n ==> !p(m)
    decreases n - i
  {
    if i >= n then None
    else if p(i) then Some(i)
    else FirstWhere(p, i + 1, n)
  }

  function OriginTest(lines: seq<string>): nat -> bool {
    (j: nat) => OriginAt(lines, j)
  }

  /** The first line of `lines` that opens the origin section with a url after it. */
  function OriginLine(lines: seq<string>): Option<nat> {
    FirstWhere(OriginTest(lines), 0, |lines|)
  }

  /** The remote url of a `.git/config` text, split into lines at '\n'. */
  function OriginUrl(config: string): Option<string> {
    var lines := Split(config, '\n');
    var k := OriginLine(lines);
    if k.None? then None else Some(Trim(lines[k.value + 1])[|URL_PREFIX|..])
  }


  /** The remote scan of `analyzeGitInfo`: stops at the first origin line followed by a url line. */
  method FindOriginUrl(config: string) returns (url: Option<string>)
    ensures url == OriginUrl(config)
  {
    var lines := Split(config, '\n');
    var i := 0;
    while i < |lines|
      invariant 0 <= i <= |lines|
      invariant FirstWhere(OriginTest(lines), i, |lines|) == OriginLine(lines)
    {
      if Contains(Trim(lines[i]), ORIGIN_SECTION) && i + 1 < |lines| {
        var urlLine := Trim(lines[i + 1]);
        if StartsWith(urlLine, URL_PREFIX) {
          return Some(urlLine[|URL_PREFIX|..]);
        }
      }
      i := i + 1;
    }
    return None;
  }

  datatype GitInfo = GitInfo(isGitRepo: bool, gitBranch: Option<string>, gitRemoteUrl: Option<string>)

  /**
   * `analyzeGitInfo`: a `.git` entry makes a repository; the branch comes
   * from HEAD and the url from config, and a failed read of HEAD ends the
   * analysis before config is read.
   */
  method AnalyzeGitInfo(gitDirExists: bool, head: FileRead, config: FileRead) returns (info: GitInfo)
    ensures info.isGitRepo == gitDirExists
    ensures info.gitBranch == (if gitDirExists && head.Text? then GitBranch(head.content) else None)
    ensures info.gitRemoteUrl ==
      (if gitDirExists && !head.ReadError? && config.Text? then OriginUrl(config.content) else None)
  {
    if !gitDirExists {
      return GitInfo(false, None, None);
    }
    info := GitInfo(true, None, None);
    match head {
      case ReadError => return;
      case Text(h) => info := info.(gitBranch := GitBranch(h));
      case Missing =>
    }
    if config.Text? {
      var url := FindOriginUrl(config.content);
      info := info.(gitRemoteUrl := url);
    }
  }

  /** A config text has a url exactly when some line opens the origin section
      with a url line after it, and then it is the url of the first such pair. */
  lemma OriginUrlFirst(config: string)
    ensures var lines := Split(config, '\n');
      && (OriginUrl(config).None? <==> forall i: nat :: i < |lines| ==> !OriginAt(lines, i))
      && (OriginUrl(config).Some? ==>
            exists i: nat :: OriginAt(lines, i) && (forall j: nat :: j < i ==> !OriginAt(lines, j))
              && OriginUrl(config).value == Trim(lines[i + 1])[|URL_PREFIX|..])
  {
    var lines := Split(config, '\n');
    var k := OriginLine(lines);
    if k.Some? {
      assert OriginTest(lines)(k.value);
      forall j: nat | j < k.value ensures !OriginAt(lines, j) {
        assert !OriginTest(lines)(j);
      }
    } else {
      forall i: nat | i < |lines| ensures !OriginAt(lines, i) {
        assert !OriginTest(lines)(i);
      }
    }
  }

  /** Git writes HEAD as the prefix, the branch and a newline; that branch is read back. */
  lemma BranchRoundTrip(branch: string)
    requires branch == [] || branch[|branch| - 1] > ' '
    ensures GitBranch(HEAD_PREFIX + branch + "\n") == Some(branch)
  {
    var line := HEAD_PREFIX + branch;
    assert line[0] == 'r' && line[|line| - 1] > ' ';
    TrimNewline(line);
    assert line[..|HEAD_PREFIX|] == HEAD_PREFIX;
    assert line[|HEAD_PREFIX|..] == branch;
  }

  /** A detached HEAD, holding a bare commit id, names no branch. */
  lemma DetachedHeadHasNoBranch(commit: string)
    requires |commit| > 0 && commit[0] != 'r' && forall k :: 0 <= k < |commit| ==> commit[k] > ' '
    ensures GitBranch(commit).None?
  {
    TrimUnchanged(commit);
    assert HEAD_PREFIX[0] == 'r';
  }

  // ------------------------------------------------------------ text files

  const TEXT_EXTENSIONS: seq<string> := [
    ".java", ".js", ".ts", ".vue", ".py", ".cpp", ".c", ".h",
    ".css", ".html", ".xml", ".json", ".yml", ".yaml", ".md",
    ".txt", ".properties", ".sql", ".sh", ".bat"]

  /** The lower-cased name ends with one of the listed suffixes. */
  predicate TextFile(fileName: string) {
    exists k :: 0 <= k < |TEXT_EXTENSIONS| && EndsWith(ToLower(fileName), TEXT_EXTENSIONS[k])
  }

  /** `isTextFile`: scans the suffix list in order. */
  method IsTextFile(fileName: string) returns (b: bool)
    ensures b <==> TextFile(fileName)
  {
    var lowerName := ToLower(fileName);
    var i := 0;
    while i < |TEXT_EXTENSIONS|
      invariant 0 <= i <= |TEXT_EXTENSIONS|
      invariant forall k :: 0 <= k < i ==> !EndsWith(lowerName, TEXT_EXTENSIONS[k])
    {
      if EndsWith(lowerName, TEXT_EXTENSIONS[i]) {
        return true;
      }
      i := i + 1;
    }
    return false;
  }

  /** The test ignores case. */
  lemma TextFileIgnoresCase(fileName: string)
    ensures TextFile(ToLower(fileName)) <==> TextFile(fileName)
  {
    ToLowerIdempotent(fileName);
  }

  /** A name whose lower-cased extension is listed is a text file. */
  lemma ListedExtensionIsText(base: string, ext: string)
    requires ToLower(ext) in TEXT_EXTENSIONS
    ensures TextFile(base + ext)
  {
    var k :| 0 <= k < |TEXT_EXTENSIONS| && TEXT_EXTENSIONS[k] == ToLower(ext);
    var lower := ToLower(base + ext);
    assert lower[|lower| - |ext|..] == ToLower(ext);
  }

  // ------------------------------------------------------------ extensions

  /** The extension rule of the analysis: from the last dot on, dot included,
      and only when that dot is not the first character. */
  function ExtensionOf(name: string): Option<string> {
    var lastDot := LastIndexOf(name, '.');
    if lastDot > 0 then Some(name[lastDot..]) else None
  }

  /** There is an extension exactly when a dot follows the first character; it
      is a proper suffix of the name that starts with its only dot. */
  lemma ExtensionOfShape(name: string)
    ensures ExtensionOf(name).Some? <==> exists i :: 0 < i < |name| && name[i] == '.'
    ensures ExtensionOf(name).Some? ==>
      var e := ExtensionOf(name).value;
      && 0 < |e| < |name| && e[0] == '.' && EndsWith(name, e)
      && forall k :: 0 < k < |e| ==> e[k] != '.'
  {
    var lastDot := LastIndexOf(name, '.');
    if lastDot > 0 {
      var e := name[lastDot..];
      forall k | 0 < k < |e| ensures e[k] != '.' {
        assert e[k] == name[lastDot + k];
      }
    }
  }

  /** A dot file such as ".gitignore" has no extension. */
  lemma DotFileHasNoExtension(rest: string)
    requires '.' !in rest
    ensures ExtensionOf("." + rest).None?
  {
    var name := "." + rest;
    forall i | 0 < i < |name| ensures name[i] != '.' {
      assert name[i] == rest[i - 1];
    }
    ExtensionOfShape(name);
  }

  /** Where both rules find an extension they agree up to the dot and the upload
      rule's lower-casing; on a dot file the upload rule still finds one. */
  lemma ExtensionRulesCompared(name: string)
    ensures ExtensionOf(name).Some? && |ExtensionOf(name).value| > 1 ==>
      FileNames.GetFileExtension(Some(name)) == ToLower(ExtensionOf(name).value[1..])
    ensures |name| > 1 && name[0] == '.' && '.' !in name[1..] ==>
      ExtensionOf(name).None? && FileNames.GetFileExtension(Some(name)) == ToLower(name[1..])
  {
    if |name| > 1 && name[0] == '.' && '.' !in name[1..] {
      assert name == "." + name[1..];
      DotFileHasNoExtension(name[1..]);
      assert LastIndexOf(name, '.') == 0 by {
        forall j | 0 < j < |name| ensures name[j] != '.' {
          assert name[j] == name[1..][j - 1];
        }
      }
    }
  }

  // ------------------------------------------------------ package manager

  /** `determineNodePackageManager`: yarn, then pnpm, else npm, whether or not a package-lock exists. */
  function DetermineNodePackageManager(present: string -> bool): (pm: string)
    ensures pm == "Yarn" <==> present("yarn.lock")
    ensures pm == "pnpm" <==> !present("yarn.lock") && present("pnpm-lock.yaml")
    ensures pm == "npm" <==> !present("yarn.lock") && !present("pnpm-lock.yaml")
  {
    if present("yarn.lock") then "Yarn"
    else if present("pnpm-lock.yaml") then "pnpm"
    else if present("package-lock.json") then "npm"
    else "npm"
  }

  // ------------------------------------------------------------ languages

  const CONFIG_FILES: map<string, string> := map[
    "package.json" := "Node.js", "pom.xml" := "Maven", "build.gradle" := "Gradle",
    "requirements.txt" := "Python", "Cargo.toml" := "Rust", "go.mod" := "Go",
    "composer.json" := "PHP"]

  const LANGUAGE_EXTENSIONS: map<string, string> := map[
    ".js" := "JavaScript", ".ts" := "TypeScript", ".vue" := "Vue", ".java" := "Java",
    ".py" := "Python", ".rs" := "Rust", ".go" := "Go", ".php" := "PHP",
    ".cpp" := "C++", ".c" := "C"]

  /** The package manager and the language the first detected config file
      implies; `composer.json` implies neither. */
  function ConfigImplies(key: string, present: string -> bool): (Option<string>, Option<string>) {
    if key == "package.json" then (Some(DetermineNodePackageManager(present)), Some("JavaScript"))
    else if key == "pom.xml" then (Some("Maven"), Some("Java"))
    else if key == "build.gradle" then (Some("Gradle"), Some("Java"))
    else if key == "requirements.txt" then (Some("pip"), Some("Python"))
    else if key == "Cargo.toml" then (Some("Cargo"), Some("Rust"))
    else if key == "go.mod" then (Some("Go Modules"), Some("Go"))
    else (None, None)
  }

  function AsSet(o: Option<string>): set<string> {
    if o.Some? then {o.value} else {}
  }

  /** The language a scanned file adds, by its case-sensitive extension. */
  function LanguageOfFile(name: string): set<string> {
    var e := ExtensionOf(name);
    if e.Some? && e.value in LANGUAGE_EXTENSIONS then {LANGUAGE_EXTENSIONS[e.value]} else {}
  }

  /** The languages the files of the walk add. */
  function FileLanguages(fileNames: seq<string>): set<string> {
    if fileNames == [] then {}
    else FileLanguages(fileNames[..|fileNames| - 1]) + LanguageOfFile(fileNames[|fileNames| - 1])
  }

  /** A scanned language is one a listed file's extension maps to, and only such. */
  lemma FileLanguagesMembers(fileNames: seq<string>, l: string)
    ensures l in FileLanguages(fileNames) <==> exists i :: 0 <= i < |fileNames| && l in LanguageOfFile(fileNames[i])
  {
    if l in FileLanguages(fileNames) {
      var i := FileLanguageSource(fileNames, l);
    }
    if exists i :: 0 <= i < |fileNames| && l in LanguageOfFile(fileNames[i]) {
      var i :| 0 <= i < |fileNames| && l in LanguageOfFile(fileNames[i]);
      FileLanguageCollected(fileNames, i, l);
    }
  }

  /** A language found in the walk comes from one of the files. */
  lemma {:induction false} FileLanguageSource(fileNames: seq<string>, l: string) returns (i: nat)
    requires l in FileLanguages(fileNames)
    ensures i < |fileNames| && l in LanguageOfFile(fileNames[i])
  {
    var init := fileNames[..|fileNames| - 1];
    if l in FileLanguages(init) {
      i := FileLanguageSource(init, l);
      assert fileNames[i] == init[i];
    } else {
      i := |fileNames| - 1;
    }
  }

  /** The language of every file is found in the walk. */
  lemma {:induction false} FileLanguageCollected(fileNames: seq<string>, i: nat, l: string)
    requires i < |fileNames| && l in LanguageOfFile(fileNames[i])
    ensures l in FileLanguages(fileNames)
  {
    var init := fileNames[..|fileNames| - 1];
    if i < |init| {
      assert init[i] == fileNames[i];
      FileLanguageCollected(init, i, l);
    }
  }


  /** The file walk's `forEach`: each regular file may add its language. */
  method ScanLanguages(fileNames: seq<string>, languages: set<string>) returns (r: set<string>)
    ensures r == languages + FileLanguages(fileNames)
  {
    r := languages;
    var i := 0;
    while i < |fileNames|
      invariant 0 <= i <= |fileNames|
      invariant r == languages + FileLanguages(fileNames[..i])
    {
      assert fileNames[..i + 1][..i] == fileNames[..i];
      var fileName := fileNames[i];
      var lastDot := LastIndexOf(fileName, '.');
      if lastDot > 0 {
        var extension := fileName[lastDot..];
        if extension in LANGUAGE_EXTENSIONS {
          r := r + {LANGUAGE_EXTENSIONS[extension]};
        }
      }
      i := i + 1;
    }
    assert fileNames[..|fileNames|] == fileNames;
  }

  datatype ProjectType = ProjectType(
    framework: Option<string>, packageManager: Option<string>, languages: set<string>, language: Option<string>)

  /**
   * `analyzeProjectType`. `order` is the iteration order of the config-file
   * table, listing each of its keys once, and `present` says which files exist at the top level; the first
   * present config file decides the framework, the package manager and a
   * language, and the walk adds the languages of `fileNames`.
   */
  method AnalyzeProjectType(order: seq<string>, present: string -> bool, fileNames: seq<string>) returns (t: ProjectType)
    requires forall k :: 0 <= k < |order| ==> order[k] in CONFIG_FILES
    requires forall key :: key in CONFIG_FILES ==> key in order
    requires forall j, k :: 0 <= j < k < |order| ==> order[j] != order[k]
    ensures t.framework.None? <==> forall j :: 0 <= j < |order| ==> !present(order[j])
    ensures t.framework.None? <==> forall key :: key in CONFIG_FILES ==> !present(key)
    ensures t.framework.None? ==> t.packageManager.None? && t.languages == FileLanguages(fileNames)
    ensures t.framework.Some? ==>
      exists i :: 0 <= i < |order| && present(order[i]) && (forall j :: 0 <= j < i ==> !present(order[j]))
        && t.framework.value == CONFIG_FILES[order[i]]
        && t.packageManager == ConfigImplies(order[i], present).0
        && t.languages == AsSet(ConfigImplies(order[i], present).1) + FileLanguages(fileNames)
    ensures t.language.None? <==> t.languages == {}
    ensures t.language.Some? ==> t.language.value in t.languages
  {
    var languages: set<string> := {};
    var primaryFramework: Option<string> := None;
    var packageManager: Option<string> := None;
    var i := 0;
    while i < |order|
      invariant 0 <= i <= |order|
      invariant forall j :: 0 <= j < i ==> !present(order[j])
      invariant primaryFramework.None? && packageManager.None? && languages == {}
    {
      if present(order[i]) {
        primaryFramework := Some(CONFIG_FILES[order[i]]);
        var implied := ConfigImplies(order[i], present);
        packageManager := implied.0;
        languages := AsSet(implied.1);
        break;
      }
      i := i + 1;
    }
    languages := ScanLanguages(fileNames, languages);
    var language: Option<string> := None;
    if languages != {} {
      var l :| l in languages;
      language := Some(l);
    }
    t := ProjectType(primaryFramework, packageManager, languages, language);
  }

  // ------------------------------------------------------------ structure

  /** An entry of the top-level listing; `attributes` (size, modification
      time) is None when reading them fails. */
  datatype Listed = Listed(name: string, path: string, isDirectory: bool, isRegularFile: bool, attributes: Option<(int, int)>)

  datatype FileInfo = FileInfo(
    name: string, path: string, isDirectory: bool, size: int, lastModified: int, extension: Option<string>)
  {
    /** The `type` field of the response. */
    function Type(): string {
      if isDirectory then "directory" else "file"
    }
  }

  function ToFileInfo(l: Listed): (f: FileInfo)
    requires l.attributes.Some?
    ensures f.name == l.name && f.isDirectory == l.isDirectory
    ensures f.extension.Some? ==> l.isRegularFile
  {
    FileInfo(l.name, l.path, l.isDirectory, l.attributes.value.0, l.attributes.value.1,
             if l.isRegularFile then ExtensionOf(l.name) else None)
  }

  /** The listing without excluded names and without entries whose attributes cannot be read. */
  function Included(listing: seq<Listed>, excluded: set<string>): seq<FileInfo> {
    if listing == [] then []
    else
      var rest := Included(listing[..|listing| - 1], excluded);
      var l := listing[|listing| - 1];
      if l.name in excluded || l.attributes.None? then rest else rest + [ToFileInfo(l)]
  }

  /** `compareTo` on strings: the first differing char decides, else the length. */
  function CompareStrings(s: string, t: string): int {
    if s == [] || t == [] then |s| - |t|
    else if s[0] != t[0] then s[0] as int - t[0] as int
    else CompareStrings(s[1..], t[1..])
  }

  /** `compareToIgnoreCase`. */
  function CompareIgnoreCase(s: string, t: string): int {
    CompareStrings(ToLower(s), ToLower(t))
  }

  /** The listing's comparator: directories first, then names ignoring case. */
  function CompareEntries(a: FileInfo, b: FileInfo): int {
    if a.Type() == b.Type() then CompareIgnoreCase(a.name, b.name)
    else if a.Type() == "directory" then -1 else 1
  }

  lemma {:induction false} CompareStringsAntisymmetric(s: string, t: string)
    ensures CompareStrings(s, t) == -CompareStrings(t, s)
  {
    if s != [] && t != [] && s[0] == t[0] {
      CompareStringsAntisymmetric(s[1..], t[1..]);
    }
  }

  lemma {:induction false} CompareStringsTransitive(s: string, t: string, u: string)
    requires CompareStrings(s, t) <= 0 && CompareStrings(t, u) <= 0
    ensures CompareStrings(s, u) <= 0
  {
    if s != [] && t != [] && u != [] && s[0] == t[0] && t[0] == u[0] {
      CompareStringsTransitive(s[1..], t[1..], u[1..]);
    }
  }

  lemma CompareEntriesAntisymmetric(a: FileInfo, b: FileInfo)
    ensures CompareEntries(a, b) > 0 ==> CompareEntries(b, a) < 0
  {
    CompareStringsAntisymmetric(ToLower(a.name), ToLower(b.name));
  }

  lemma CompareEntriesTransitive(a: FileInfo, b: FileInfo, c: FileInfo)
    requires CompareEntries(a, b) <= 0 && CompareEntries(b, c) <= 0
    ensures CompareEntries(a, c) <= 0
  {
    if a.isDirectory == b.isDirectory && b.isDirectory == c.isDirectory {
      CompareStringsTransitive(ToLower(a.name), ToLower(b.name), ToLower(c.name));
    }
  }

  predicate Sorted(s: seq<FileInfo>) {
    forall i, j :: 0 <= i < j < |s| ==> CompareEntries(s[i], s[j]) <= 0
  }

  /** Insertion ahead of the first entry not smaller. */
  function Insert(x: FileInfo, s: seq<FileInfo>): seq<FileInfo> {
    if s == [] || CompareEntries(x, s[0]) <= 0 then [x] + s else [s[0]] + Insert(x, s[1..])
  }

  /** The order `structure.sort` establishes. */
  function SortStructure(s: seq<FileInfo>): seq<FileInfo> {
    if s == [] then [] else Insert(s[0], SortStructure(s[1..]))
  }

  /** y is ordered before every entry of s. */
  predicate LowerBound(y: FileInfo, s: seq<FileInfo>) {
    forall k :: 0 <= k < |s| ==> CompareEntries(y, s[k]) <= 0
  }

  lemma {:induction false} InsertMultiset(x: FileInfo, s: seq<FileInfo>)
    ensures multiset(Insert(x, s)) == multiset(s) + multiset{x}
  {
    if s != [] && CompareEntries(x, s[0]) > 0 {
      InsertMultiset(x, s[1..]);
      assert s == [s[0]] + s[1..];
    }
  }

  lemma {:induction false} InsertKeepsLowerBound(y: FileInfo, x: FileInfo, s: seq<FileInfo>)
    requires LowerBound(y, s) && CompareEntries(y, x) <= 0
    ensures LowerBound(y, Insert(x, s))
  {
    if s != [] && CompareEntries(x, s[0]) > 0 {
      assert LowerBound(y, s[1..]) by {
        forall k | 0 <= k < |s[1..]| ensures CompareEntries(y, s[1..][k]) <= 0 {
          assert s[1..][k] == s[k + 1];
        }
      }
      InsertKeepsLowerBound(y, x, s[1..]);
    }
  }

  /** A bound in front of a sorted list keeps it sorted. */
  lemma SortedCons(y: FileInfo, s: seq<FileInfo>)
    requires LowerBound(y, s) && Sorted(s)
    ensures Sorted([y] + s)
  {
    var r := [y] + s;
    forall i, j | 0 <= i < j < |r| ensures CompareEntries(r[i], r[j]) <= 0 {
      assert r[j] == s[j - 1];
      if i > 0 {
        assert r[i] == s[i - 1];
      }
    }
  }

  lemma {:induction false} InsertSorted(x: FileInfo, s: seq<FileInfo>)
    requires Sorted(s)
    ensures Sorted(Insert(x, s))
  {
    if s == [] {
    } else if CompareEntries(x, s[0]) <= 0 {
      assert LowerBound(x, s) by {
        forall k | 0 <= k < |s| ensures CompareEntries(x, s[k]) <= 0 {
          if k > 0 {
            CompareEntriesTransitive(x, s[0], s[k]);
          }
        }
      }
      SortedCons(x, s);
    } else {
      var t := s[1..];
      assert Sorted(t) by {
        forall i, j | 0 <= i < j < |t| ensures CompareEntries(t[i], t[j]) <= 0 {
          assert t[i] == s[i + 1] && t[j] == s[j + 1];
        }
      }
      InsertSorted(x, t);
      CompareEntriesAntisymmetric(x, s[0]);
      assert LowerBound(s[0], t) by {
        forall k | 0 <= k < |t| ensures CompareEntries(s[0], t[k]) <= 0 {
          assert t[k] == s[k + 1];
        }
      }
      InsertKeepsLowerBound(s[0], x, t);
      SortedCons(s[0], Insert(x, t));
    }
  }

  /** The sorted listing is ordered by the comparator and holds exactly the entries given. */
  lemma {:induction false} SortStructurePermutes(s: seq<FileInfo>)
    ensures multiset(SortStructure(s)) == multiset(s)
  {
    if s != [] {
      SortStructurePermutes(s[1..]);
      InsertMultiset(s[0], SortStructure(s[1..]));
      assert s == [s[0]] + s[1..];
    }
  }

  lemma {:induction false} SortStructureSorted(s: seq<FileInfo>)
    ensures Sorted(SortStructure(s))
  {
    if s != [] {
      SortStructureSorted(s[1..]);
      InsertSorted(s[0], SortStructure(s[1..]));
    }
  }


  /** In a sorted listing every directory comes before every file. */
  lemma DirectoriesFirst(s: seq<FileInfo>, i: nat, j: nat)
    requires Sorted(s) && i < |s| && j < |s| && s[i].isDirectory && !s[j].isDirectory
    ensures i < j
  {
  }

  /**
   * `analyzeProjectStructure`: the listing without excluded or unreadable
   * entries, with an extension on regular files, ordered directories first
   * and then by name ignoring case.
   */
  method AnalyzeProjectStructure(listing: seq<Listed>, excluded: set<string>) returns (structure: seq<FileInfo>)
    ensures multiset(structure) == multiset(Included(listing, excluded))
    ensures Sorted(structure)
  {
    var entries: seq<FileInfo> := [];
    var i := 0;
    while i < |listing|
      invariant 0 <= i <= |listing|
      invariant entries == Included(listing[..i], excluded)
    {
      assert listing[..i + 1][..i] == listing[..i];
      var l := listing[i];
      if l.name !in excluded && l.attributes.Some? {
        var extension: Option<string> := None;
        if l.isRegularFile {
          var lastDot := LastIndexOf(l.name, '.');
          if lastDot > 0 {
            extension := Some(l.name[lastDot..]);
          }
        }
        entries := entries + [FileInfo(l.name, l.path, l.isDirectory, l.attributes.value.0, l.attributes.value.1, extension)];
      }
      i := i + 1;
    }
    assert listing[..|listing|] == listing;
    structure := SortStructure(entries);
    SortStructurePermutes(entries);
    SortStructureSorted(entries);
  }
}
