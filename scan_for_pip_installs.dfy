/** The utility that surveys the scripts tree for the Python packages it
    needs: the packages named on `pip install` lines of shell scripts and
    the modules named by `import`/`from` lines of Python files, found by a
    walk of the tree that prunes excluded folders. The tree is a value
    (folders, files and their lines); a file that cannot be read has no
    lines. Lines are taken without their terminating newline. */
module ScanForPipInstalls {
  import opened Strings

  /** `pip\s+install\s+(.+)` matching at `p`: the position just after
      `install`, from which the captured text (less leading whitespace)
      runs to the end of the line. */
  function PipMatchAt(s: string, p: nat): Option<nat>
    requires p <= |s|
  {
    if !StartsWith(s[p..], "pip") then None
    else
      var a := p + 3;
      var w := SpaceRun(s, a);
      if w == 0 || !StartsWith(s[a + w..], "install") then None
      else
        var c := a + w + 7;
        if SpaceRun(s, c) == 0 || c + 1 >= |s| then None else Some(c)
  }

  /** The leftmost match at or after `from`, as `re.search` finds it. */
  function FirstPipMatch(s: string, from: nat): (r: Option<nat>)
    requires from <= |s|
    ensures r.Some? ==> exists p :: from <= p <= |s| && PipMatchAt(s, p) == Some(r.value)
    ensures r.None? ==> forall p :: from <= p <= |s| ==> PipMatchAt(s, p).None?
    decreases |s| - from
  {
    match PipMatchAt(s, from)
    case Some(c) => Some(c)
    case None => if from == |s| then None else FirstPipMatch(s, from + 1)
  }

  /** `extract_pip_packages`: the whitespace-separated words after the first
      `pip install`, or none. */
  function ExtractPipPackages(line: string): seq<string> {
    match FirstPipMatch(line, 0)
    case None => []
    case Some(c) => if c <= |line| then Words(line[c..]) else []
  }

  /** A `pip install` command yields exactly the packages it names. */
  lemma PipCommandPackages(pkgs: seq<string>)
    requires pkgs != []
    requires forall i :: 0 <= i < |pkgs| ==> |pkgs[i]| > 0 && NoSpace(pkgs[i])
    ensures ExtractPipPackages("pip install " + Join(pkgs, " ")) == pkgs
  {
    var j := Join(pkgs, " ");
    assert |j| > 0 by {
      if |pkgs| == 1 {
        assert j == pkgs[0];
      } else {
        assert j == pkgs[0] + " " + Join(pkgs[1..], " ");
      }
    }
    var s := "pip install " + j;
    assert s[0..] == s;
    assert s[..3] == "pip";
    assert s[3] == ' ' && s[4] == 'i' && s[11] == ' ';
    assert SpaceRun(s, 5) == 0;
    assert SpaceRun(s, 4) == 0;
    assert s[4..][..7] == "install";
    assert PipMatchAt(s, 0) == Some(11);
    assert s[11..] == [] + [' '] + j;
    WordsSpaceConcat([], ' ', j);
    WordsJoin(pkgs);
  }

  /** A line with no `pip` names no packages. */
  lemma NoPipNoPackages(line: string)
    requires !Contains(line, "pip")
    ensures ExtractPipPackages(line) == []
  {
    forall p | 0 <= p <= |line| ensures PipMatchAt(line, p).None? {
      if StartsWith(line[p..], "pip") {
        ContainsAt(line, "pip", p);
      }
    }
  }

  /** `[\w.]` for ASCII text. */
  predicate IsNameChar(c: char) {
    ('a' <= c <= 'z') || ('A' <= c <= 'Z') || ('0' <= c <= '9') || c == '_' || c == '.'
  }

  function NameRun(s: string, i: nat): (n: nat)
    requires i <= |s|
    ensures i + n <= |s|
    ensures forall j :: i <= j < i + n ==> IsNameChar(s[j])
    ensures i + n < |s| ==> !IsNameChar(s[i + n])
    decreases |s| - i
  {
    if i < |s| && IsNameChar(s[i]) then 1 + NameRun(s, i + 1) else 0
  }

  /** The length of the keyword the line starts with: `from` is tried
      before `import`; 0 when neither. */
  function KeywordLength(line: string): (k: nat)
    ensures k == 0 || k == 4 || k == 6
    ensures k <= |line|
  {
    if StartsWith(line, "from") then 4 else if StartsWith(line, "import") then 6 else 0
  }

  /** `extract_imports`: `(?:from|import)\s+([\w\.]+)` anchored at the start
      of the line gives the dotted name; otherwise nothing. */
  function ExtractImports(line: string): seq<string> {
    var k := KeywordLength(line);
    if k == 0 then []
    else
      var w := SpaceRun(line, k);
      var n := NameRun(line, k + w);
      if w == 0 || n == 0 then [] else [line[k + w..k + w + n]]
  }

  /** `from x.y import z` and `import x.y, z` yield `x.y`: the first dotted
      name after the keyword. */
  lemma ImportStatementName(kw: string, name: string, rest: string)
    requires kw == "from" || kw == "import"
    requires name != [] && forall i :: 0 <= i < |name| ==> IsNameChar(name[i])
    requires rest == [] || !IsNameChar(rest[0])
    ensures ExtractImports(kw + " " + name + rest) == [name]
  {
    var s := kw + " " + name + rest;
    var k := |kw|;
    assert s[..k] == kw;
    KeywordLengthOf(kw, s);
    assert s[k] == ' ';
    assert s[k + 1] == name[0];
    assert !IsSpace(name[0]);
    assert SpaceRun(s, k) == 1;
    assert s[k + 1..] == name + rest;
    NameRunOf(s, k + 1, name, rest);
    assert s[k + 1..k + 1 + |name|] == name;
  }

  lemma KeywordLengthOf(kw: string, s: string)
    requires kw == "from" || kw == "import"
    requires |kw| <= |s| && s[..|kw|] == kw
    ensures KeywordLength(s) == |kw|
  {
    if kw == "import" {
      assert s[0] == 'i';
    }
  }

  lemma {:induction false} NameRunOf(s: string, i: nat, name: string, rest: string)
    requires i + |name| + |rest| == |s| && s[i..] == name + rest
    requires forall j :: 0 <= j < |name| ==> IsNameChar(name[j])
    requires rest == [] || !IsNameChar(rest[0])
    ensures NameRun(s, i) == |name|
    decreases |name|
  {
    if name != [] {
      assert s[i] == name[0];
      assert s[i + 1..] == name[1..] + rest;
      NameRunOf(s, i + 1, name[1..], rest);
    } else if rest != [] {
      assert s[i] == rest[0];
    }
  }

  /** What one line of a shell script contributes to `search_pip_installs`:
      only lines holding `pip install` are parsed. */
  function PipLineFinds(line: string): seq<string> {
    if Contains(line, "pip install") then ExtractPipPackages(line) else []
  }

  /** What one line of a Python file contributes to `search_python_imports`:
      only lines beginning with `import ` or `from ` are parsed. */
  function ImportLineFinds(line: string): seq<string> {
    if StartsWith(line, "import ") || StartsWith(line, "from ") then ExtractImports(line) else []
  }

  /** A `pip install` line of a script contributes exactly its packages. */
  lemma PipLineOfCommand(pkgs: seq<string>)
    requires pkgs != []
    requires forall i :: 0 <= i < |pkgs| ==> |pkgs[i]| > 0 && NoSpace(pkgs[i])
    ensures PipLineFinds("pip install " + Join(pkgs, " ")) == pkgs
  {
    var s := "pip install " + Join(pkgs, " ");
    assert s[..11] == "pip install";
    ContainsAt(s, "pip install", 0);
    PipCommandPackages(pkgs);
  }

  /** An import statement contributes its first dotted name. */
  lemma ImportLineOfStatement(kw: string, name: string, rest: string)
    requires kw == "from" || kw == "import"
    requires name != [] && forall i :: 0 <= i < |name| ==> IsNameChar(name[i])
    requires rest == [] || !IsNameChar(rest[0])
    ensures ImportLineFinds(kw + " " + name + rest) == [name]
  {
    var s := kw + " " + name + rest;
    assert s[..|kw| + 1] == kw + " ";
    ImportStatementName(kw, name, rest);
  }

  /** The elements of a list. */
  function AsSet(s: seq<string>): (r: set<string>)
    ensures forall x :: x in r <==> x in s
  {
    set x | x in s
  }

  /** Every find of `lines`, duplicates merged, `finds` giving what one line
      contributes. */
  function LinesFinds(finds: string -> seq<string>, lines: seq<string>): (r: set<string>)
    ensures forall x :: x in r <==> exists i :: 0 <= i < |lines| && x in finds(lines[i])
  {
    if lines == [] then {}
    else
      var init := lines[..|lines| - 1];
      assert forall i :: 0 <= i < |init| ==> init[i] == lines[i];
      LinesFinds(finds, init) + AsSet(finds(lines[|lines| - 1]))
  }

  datatype SourceFile = SourceFile(name: string, lines: Option<seq<string>>)

  datatype Folder = Folder(name: string, files: seq<SourceFile>, subfolders: seq<Folder>)

  /** `any(substring in name for substring in exclude_substrings)`. */
  predicate Excluded(name: string, substrings: seq<string>) {
    exists i :: 0 <= i < |substrings| && Contains(name, substrings[i])
  }

  /** A file is read when it has the survey's suffix and no excluded
      substring in its name. */
  predicate Scanned(suffix: string, f: SourceFile, substrings: seq<string>) {
    EndsWith(f.name, suffix) && !Excluded(f.name, substrings)
  }

  /** What one file contributes: a file that is not scanned, or cannot be
      read, contributes nothing. */
  function FileFinds(suffix: string, finds: string -> seq<string>, f: SourceFile, substrings: seq<string>): (r: set<string>)
    ensures !Scanned(suffix, f, substrings) || f.lines.None? ==> r == {}
    ensures Scanned(suffix, f, substrings) && f.lines.Some? ==>
      forall x :: x in r <==> exists j :: 0 <= j < |f.lines.value| && x in finds(f.lines.value[j])
  {
    if Scanned(suffix, f, substrings) && f.lines.Some? then LinesFinds(finds, f.lines.value) else {}
  }

  /** What the first `n` files contribute. */
  function FilesFinds(suffix: string, finds: string -> seq<string>, files: seq<SourceFile>, n: nat, substrings: seq<string>): set<string>
    requires n <= |files|
  {
    if n == 0 then {} else FilesFinds(suffix, finds, files, n - 1, substrings) + FileFinds(suffix, finds, files[n - 1], substrings)
  }

  /** The walk keeps a sub-folder unless its path is excluded or its name
      holds an excluded substring. */
  predicate Kept(path: string, d: Folder, excludeDirs: set<string>, substrings: seq<string>) {
    path + "/" + d.name !in excludeDirs && !Excluded(d.name, substrings)
  }

  /** Everything the survey finds in folder `d` at `path`. */
  function FolderFinds(suffix: string, finds: string -> seq<string>, path: string, d: Folder,
                       excludeDirs: set<string>, substrings: seq<string>): set<string>
    decreases d, |d.subfolders| + 1
  {
    FilesFinds(suffix, finds, d.files, |d.files|, substrings)
    + SubfoldersFinds(suffix, finds, path, d, |d.subfolders|, excludeDirs, substrings)
  }

  /** What the first `n` sub-folders of `d` contribute. */
  function SubfoldersFinds(suffix: string, finds: string -> seq<string>, path: string, d: Folder, n: nat,
                           excludeDirs: set<string>, substrings: seq<string>): set<string>
    requires n <= |d.subfolders|
    decreases d, n
  {
    if n == 0 then {}
    else
      var sub := d.subfolders[n - 1];
      SubfoldersFinds(suffix, finds, path, d, n - 1, excludeDirs, substrings)
      + (if Kept(path, sub, excludeDirs, substrings)
         then FolderFinds(suffix, finds, path + "/" + sub.name, sub, excludeDirs, substrings) else {})
  }

  /** A find of the folder's own files comes from some scanned, readable file. */
  lemma {:induction false} FilesFindsMeans(suffix: string, finds: string -> seq<string>, files: seq<SourceFile>, n: nat,
                                           substrings: seq<string>)
    requires n <= |files|
    ensures forall x :: x in FilesFinds(suffix, finds, files, n, substrings) <==>
      exists j :: 0 <= j < n && x in FileFinds(suffix, finds, files[j], substrings)
  {
    if n > 0 {
      FilesFindsMeans(suffix, finds, files, n - 1, substrings);
    }
  }

  /** A pruned folder's contents never matter: replacing it by any folder of
      the same name changes nothing. */
  lemma PrunedFolderIgnored(suffix: string, finds: string -> seq<string>, path: string, d: Folder, i: nat, other: Folder,
                            excludeDirs: set<string>, substrings: seq<string>)
    requires i < |d.subfolders| && other.name == d.subfolders[i].name
    requires !Kept(path, d.subfolders[i], excludeDirs, substrings)
    ensures FolderFinds(suffix, finds, path, d.(subfolders := d.subfolders[i := other]), excludeDirs, substrings)
         == FolderFinds(suffix, finds, path, d, excludeDirs, substrings)
  {
    var e := d.(subfolders := d.subfolders[i := other]);
    PrunedPrefix(suffix, finds, path, d, e, i, |d.subfolders|, excludeDirs, substrings);
  }

  lemma {:induction false} PrunedPrefix(suffix: string, finds: string -> seq<string>, path: string, d: Folder, e: Folder,
                                        i: nat, n: nat, excludeDirs: set<string>, substrings: seq<string>)
    requires i < |d.subfolders| == |e.subfolders| && n <= |d.subfolders|
    requires forall j :: 0 <= j < |d.subfolders| && j != i ==> e.subfolders[j] == d.subfolders[j]
    requires e.subfolders[i].name == d.subfolders[i].name
    requires !Kept(path, d.subfolders[i], excludeDirs, substrings)
    ensures SubfoldersFinds(suffix, finds, path, e, n, excludeDirs, substrings)
         == SubfoldersFinds(suffix, finds, path, d, n, excludeDirs, substrings)
  {
    if n > 0 {
      PrunedPrefix(suffix, finds, path, d, e, i, n - 1, excludeDirs, substrings);
      if n - 1 != i {
        assert e.subfolders[n - 1] == d.subfolders[n - 1];
      } else {
        assert !Kept(path, e.subfolders[i], excludeDirs, substrings);
      }
    }
  }

  /** The loop over one readable file's lines. */
  method ScanLines(finds: string -> seq<string>, lines: seq<string>) returns (found: set<string>)
    ensures found == LinesFinds(finds, lines)
  {
    found := {};
    for i := 0 to |lines|
      invariant found == LinesFinds(finds, lines[..i])
    {
      assert lines[..i + 1][..i] == lines[..i];
      found := found + AsSet(finds(lines[i]));
    }
    assert lines[..|lines|] == lines;
  }

  /** The walk from folder `d` at `path`: its files are scanned, then each
      kept sub-folder in turn. */
  method SearchFolder(suffix: string, finds: string -> seq<string>, path: string, d: Folder,
                      excludeDirs: set<string>, substrings: seq<string>)
    returns (found: set<string>)
    ensures found == FolderFinds(suffix, finds, path, d, excludeDirs, substrings)
    decreases d
  {
    var fromFiles: set<string> := {};
    for i := 0 to |d.files|
      invariant fromFiles == FilesFinds(suffix, finds, d.files, i, substrings)
    {
      var f := d.files[i];
      if Scanned(suffix, f, substrings) && f.lines.Some? {
        var more := ScanLines(finds, f.lines.value);
        fromFiles := fromFiles + more;
      }
    }
    var fromFolders: set<string> := {};
    for i := 0 to |d.subfolders|
      invariant fromFolders == SubfoldersFinds(suffix, finds, path, d, i, excludeDirs, substrings)
    {
      var sub := d.subfolders[i];
      if Kept(path, sub, excludeDirs, substrings) {
        var more := SearchFolder(suffix, finds, path + "/" + sub.name, sub, excludeDirs, substrings);
        fromFolders := fromFolders + more;
      }
    }
    found := fromFiles + fromFolders;
  }

  /** `search_pip_installs` over the tree `base` at `basePath`. */
  method SearchPipInstalls(basePath: string, base: Folder, excludeDirs: set<string>, substrings: seq<string>)
    returns (packages: set<string>)
    ensures packages == FolderFinds(".sh", PipLineFinds, basePath, base, excludeDirs, substrings)
  {
    packages := SearchFolder(".sh", PipLineFinds, basePath, base, excludeDirs, substrings);
  }

  /** `search_python_imports` over the tree `base` at `basePath`. */
  method SearchPythonImports(basePath: string, base: Folder, excludeDirs: set<string>, substrings: seq<string>)
    returns (imports: set<string>)
    ensures imports == FolderFinds(".py", ImportLineFinds, basePath, base, excludeDirs, substrings)
  {
    imports := SearchFolder(".py", ImportLineFinds, basePath, base, excludeDirs, substrings);
  }
}
