/** Parsers for msfconsole output (storage/scripts/nsatt_web/routes/metasploit_routes.py):
    the module table printed by `search` and the option table printed by
    `show options`. The RPC console, the wait for output and the session
    database are outside the model. */
module MetasploitRoutes {
  import opened Strings

  // ---------------------------------------------------------------------
  // ANSI colour codes: the pattern \x1B\[[0-9;]*[A-Za-z]

  predicate IsParam(c: char) { IsDigit(c) || c == ';' }

  predicate IsLetter(c: char) { 'A' <= c <= 'Z' || 'a' <= c <= 'z' }

  function ParamRun(s: string): (n: nat)
    ensures n <= |s|
    ensures forall i :: 0 <= i < n ==> IsParam(s[i])
    ensures n < |s| ==> !IsParam(s[n])
  {
    if s == [] || !IsParam(s[0]) then 0 else 1 + ParamRun(s[1..])
  }

  /** Length of the colour code the pattern matches at the start of `s`. */
  function CsiLength(s: string): (r: Option<nat>)
    ensures r.Some? ==> 3 <= r.value <= |s| && s[0] == Esc
  {
    if |s| >= 2 && s[0] == Esc && s[1] == '[' then
      var k := 2 + ParamRun(s[2..]);
      if k < |s| && IsLetter(s[k]) then Some(k + 1) else None
    else None
  }

  /** `re.sub(pattern, '', s)`. */
  function StripColours(s: string): (r: string)
    ensures |r| <= |s|
    ensures Esc !in s ==> r == s
    decreases |s|
  {
    if s == [] then []
    else match CsiLength(s)
      case Some(n) => StripColours(s[n..])
      case None => [s[0]] + StripColours(s[1..])
  }

  lemma {:induction false} ParamRunStops(p: string, c: char, rest: string)
    requires forall i :: 0 <= i < |p| ==> IsParam(p[i])
    requires !IsParam(c)
    ensures ParamRun(p + [c] + rest) == |p|
    decreases |p|
  {
    if p != [] {
      assert (p + [c] + rest)[1..] == p[1..] + [c] + rest;
      ParamRunStops(p[1..], c, rest);
    }
  }

  /** A colour code is removed whole. */
  lemma ColourRemoved(params: string, final: char, rest: string)
    requires forall i :: 0 <= i < |params| ==> IsParam(params[i])
    requires IsLetter(final)
    ensures StripColours([Esc, '['] + params + [final] + rest) == StripColours(rest)
  {
    var s := [Esc, '['] + params + [final] + rest;
    assert s[2..] == params + [final] + rest;
    ParamRunStops(params, final, rest);
    assert s[2 + |params|] == final;
    assert s[3 + |params|..] == rest;
  }

  // ---------------------------------------------------------------------
  // Columns: re.split(r'\s{2,}', text)

  /** Length of the whitespace run at the start of `s`. */
  function SpaceRun(s: string): (n: nat)
    ensures n <= |s|
    ensures forall i :: 0 <= i < n ==> IsSpace(s[i])
    ensures n < |s| ==> !IsSpace(s[n])
  {
    if s == [] || !IsSpace(s[0]) then 0 else 1 + SpaceRun(s[1..])
  }

  /** The pieces between runs of two or more whitespace characters. */
  function Columns(s: string): (r: seq<string>)
    ensures |r| >= 1
    ensures s != [] && !IsSpace(s[0]) ==> r[0] != []
    decreases |s|
  {
    if s == [] then [""]
    else if |s| >= 2 && IsSpace(s[0]) && IsSpace(s[1]) then
      var n := SpaceRun(s);
      [""] + Columns(s[n..])
    else
      var t := Columns(s[1..]);
      [[s[0]] + t[0]] + t[1..]
  }

  /** A column as msfconsole prints one: not empty, no whitespace at either
      end and never two whitespace characters in a row. */
  predicate Cell(a: string) {
    |a| > 0 && !IsSpace(a[0]) && !IsSpace(a[|a| - 1])
    && forall i :: 0 <= i < |a| - 1 ==> !(IsSpace(a[i]) && IsSpace(a[i + 1]))
  }

  /** Like Cell, but possibly starting with one whitespace character: what
      is left of a cell after its first characters. */
  predicate CellTail(a: string) {
    |a| > 0 && !IsSpace(a[|a| - 1])
    && forall i :: 0 <= i < |a| - 1 ==> !(IsSpace(a[i]) && IsSpace(a[i + 1]))
  }

  lemma {:induction false} ColumnsOfCell(a: string)
    requires CellTail(a)
    ensures Columns(a) == [a]
    decreases |a|
  {
    if |a| == 1 {
      assert a[1..] == [];
      assert [a[0]] + "" == a;
    } else {
      assert CellTail(a[1..]);
      ColumnsOfCell(a[1..]);
      assert [a[0]] + a[1..] == a;
    }
  }

  lemma {:induction false} ColumnsOfGap(a: string, b: string)
    requires CellTail(a) && b != [] && !IsSpace(b[0])
    ensures Columns(a + "  " + b) == [a] + Columns(b)
    decreases |a|
  {
    var s := a + "  " + b;
    if |a| == 1 {
      var g := "  " + b;
      assert s[1..] == g;
      assert g[1..][1..] == b;
      assert SpaceRun(g) == 2;
      assert g[2..] == b;
      assert [a[0]] + "" == a;
    } else {
      assert s[1..] == a[1..] + "  " + b;
      assert CellTail(a[1..]);
      ColumnsOfGap(a[1..], b);
      assert [a[0]] + a[1..] == a;
    }
  }

  /** Cells printed two spaces apart split back into the same cells. */
  lemma {:induction false} ColumnsOfTable(cells: seq<string>)
    requires cells != [] && forall i :: 0 <= i < |cells| ==> Cell(cells[i])
    ensures Columns(Join(cells, "  ")) == cells
    decreases |cells|
  {
    if |cells| == 1 {
      ColumnsOfCell(cells[0]);
    } else {
      ColumnsOfTable(cells[1..]);
      var rest := Join(cells[1..], "  ");
      assert rest != [] && !IsSpace(rest[0]) by {
        JoinStartsWithCell(cells[1..]);
      }
      ColumnsOfGap(cells[0], rest);
      assert [cells[0]] + cells[1..] == cells;
    }
  }

  lemma JoinStartsWithCell(cells: seq<string>)
    requires cells != [] && Cell(cells[0])
    ensures Join(cells, "  ") != [] && Join(cells, "  ")[0] == cells[0][0]
  {
  }

  // ---------------------------------------------------------------------
  // parse_search_results

  datatype Hit = Hit(moduleName: string, description: string)

  datatype Search = Search(inResults: bool, hits: seq<Hit>)

  const SearchStart: Search := Search(false, [])

  /** A result row: at least two columns, the first not starting with '_',
      the last not '.'; the description is the other columns joined by
      single spaces. */
  function RowHit(text: string): Option<Hit>
  {
    var parts := Columns(text);
    if RowFits(parts) then Some(Hit(parts[0], Join(parts[1..], " "))) else None
  }

  /** Table headings and the closing hint. */
  predicate IsHeading(text: string) {
    StartsWith(text, "#") || StartsWith(text, "Interact with a module")
  }

  predicate IsBanner(line: string) {
    Contains(line, "Matching Modules")
  }

  predicate RowFits(parts: seq<string>) {
    |parts| >= 2 && !StartsWith(parts[0], "_") && parts[|parts| - 1] != "."
  }

  /** One line of the search output. */
  function SearchStep(st: Search, line: string): Search
  {
    var t := Strip(line);
    if IsHeading(t) || t == "" then st
    else if !st.inResults && IsBanner(line) then st.(inResults := true)
    else if st.inResults then
      match RowHit(t)
        case Some(h) => st.(hits := st.hits + [h])
        case None => st
    else st
  }

  /** One line's effect, case by case. */
  lemma SearchStepCases(st: Search, line: string)
    ensures var t := Strip(line);
      SearchStep(st, line) ==
        if IsHeading(t) || t == "" then st
        else if !st.inResults && IsBanner(line) then Search(true, st.hits)
        else if st.inResults && RowFits(Columns(t)) then Search(st.inResults, st.hits + [Hit(Columns(t)[0], Join(Columns(t)[1..], " "))])
        else st
  {
  }

  function SearchFrom(st: Search, lines: seq<string>): Search
    decreases |lines|
  {
    if lines == [] then st else SearchStep(SearchFrom(st, lines[..|lines| - 1]), lines[|lines| - 1])
  }

  /** parse_search_results, with its in-section flag. */
  method ParseSearchResults(result: string) returns (hits: seq<Hit>)
    ensures hits == SearchFrom(SearchStart, SplitLines(StripColours(result))).hits
  {
    hits := SearchLines(SplitLines(StripColours(result)));
  }

  /** The loop over the output's lines, with its in-section flag. */
  method SearchLines(lines: seq<string>) returns (hits: seq<Hit>)
    ensures hits == SearchFrom(SearchStart, lines).hits
  {
    var inResults := false;
    hits := [];
    for i := 0 to |lines|
      invariant SearchFrom(SearchStart, lines[..i]) == Search(inResults, hits)
    {
      assert lines[..i + 1][..i] == lines[..i];
      var line := lines[i];
      var t := Strip(line);
      SearchStepCases(Search(inResults, hits), line);
      if IsHeading(t) {
        continue;
      }
      if t == "" {
        continue;
      }
      if !inResults && IsBanner(line) {
        inResults := true;
        continue;
      }
      if inResults {
        var parts := Columns(t);
        if RowFits(parts) {
          hits := hits + [Hit(parts[0], Join(parts[1..], " "))];
        }
      }
    }
    assert lines[..|lines|] == lines;
  }

  /** Lines before the "Matching Modules" banner produce nothing. */
  lemma {:induction false} NothingBeforeBanner(pre: seq<string>)
    requires forall i :: 0 <= i < |pre| ==> !IsBanner(pre[i])
    ensures SearchFrom(SearchStart, pre) == SearchStart
    decreases |pre|
  {
    if pre != [] {
      NothingBeforeBanner(pre[..|pre| - 1]);
    }
  }

  lemma {:induction false} SearchFromConcat(st: Search, a: seq<string>, b: seq<string>)
    ensures SearchFrom(st, a + b) == SearchFrom(SearchFrom(st, a), b)
    decreases |b|
  {
    if b == [] {
      assert a + b == a;
    } else {
      assert (a + b)[..|a + b| - 1] == a + b[..|b| - 1];
      SearchFromConcat(st, a, b[..|b| - 1]);
    }
  }

  /** So the hits of a whole output are those of the lines after the
      banner. */
  lemma HitsAfterBanner(pre: seq<string>, post: seq<string>)
    requires forall i :: 0 <= i < |pre| ==> !IsBanner(pre[i])
    ensures SearchFrom(SearchStart, pre + post) == SearchFrom(SearchStart, post)
  {
    SearchFromConcat(SearchStart, pre, post);
    NothingBeforeBanner(pre);
  }

  predicate NamedHits(hits: seq<Hit>) {
    forall i :: 0 <= i < |hits| ==> hits[i].moduleName != "" && !StartsWith(hits[i].moduleName, "_")
  }

  /** Every hit names a module: never empty and never starting with '_'. */
  lemma {:induction false} HitsNameModules(st: Search, lines: seq<string>)
    requires NamedHits(st.hits)
    ensures NamedHits(SearchFrom(st, lines).hits)
    decreases |lines|
  {
    if lines != [] {
      HitsNameModules(st, lines[..|lines| - 1]);
      StepNamesHits(SearchFrom(st, lines[..|lines| - 1]), lines[|lines| - 1]);
    }
  }

  lemma StepNamesHits(st: Search, line: string)
    requires NamedHits(st.hits)
    ensures NamedHits(SearchStep(st, line).hits)
  {
    var t := Strip(line);
    if t != [] && !IsHeading(t) && st.inResults && !(!st.inResults && IsBanner(line)) {
      RowHitNames(t);
      match RowHit(t)
        case Some(h) =>
          assert SearchStep(st, line).hits == st.hits + [h];
        case None =>
    }
  }

  lemma RowHitNames(t: string)
    requires t != [] && !IsSpace(t[0])
    ensures RowHit(t).Some? ==> RowHit(t).value.moduleName != "" && !StartsWith(RowHit(t).value.moduleName, "_")
  {
  }

  /** A row printed as cells two spaces apart is read back as its module
      and its remaining cells. */
  lemma RowHitOfTable(moduleName: string, rest: seq<string>)
    requires Cell(moduleName) && moduleName[0] != '_'
    requires rest != [] && forall i :: 0 <= i < |rest| ==> Cell(rest[i])
    requires rest[|rest| - 1] != "."
    ensures RowHit(Join([moduleName] + rest, "  ")) == Some(Hit(moduleName, Join(rest, " ")))
  {
    var cells := [moduleName] + rest;
    CellsCons(moduleName, rest);
    ColumnsOfTable(cells);
    assert cells[1..] == rest;
    assert cells[|cells| - 1] == rest[|rest| - 1];
    assert moduleName[..1] != "_" by {
      assert moduleName[..1][0] == moduleName[0];
    }
    assert RowFits(cells);
  }

  lemma CellsCons(a: string, rest: seq<string>)
    requires Cell(a) && forall i :: 0 <= i < |rest| ==> Cell(rest[i])
    ensures forall i :: 0 <= i < |[a] + rest| ==> Cell(([a] + rest)[i])
  {
    var cells := [a] + rest;
    forall i | 0 <= i < |cells|
      ensures Cell(cells[i])
    {
      if i > 0 {
        assert cells[i] == rest[i - 1];
      }
    }
  }

  // ---------------------------------------------------------------------
  // parse_module_options

  datatype ModuleOption = ModuleOption(name: string, required: bool, description: string)

  /** The options table header. */
  predicate IsOptionsHeader(line: string) {
    Contains(line, "Name") && Contains(line, "Current Setting") && Contains(line, "Required")
  }

  /** The row reading as written: name is column 0, required is column 2
      equal to 'yes', and the description is columns 4 onward. */
  function OptionRowAsWritten(text: string): Option<ModuleOption>
  {
    var parts := Columns(text);
    if |parts| > 2 then Some(ModuleOption(parts[0], parts[2] == "yes", Join(From(parts, 4), " "))) else None
  }

  /** Python's `parts[k:]`: empty when the list is shorter. */
  function From(parts: seq<string>, k: nat): seq<string>
  {
    if k <= |parts| then parts[k..] else []
  }

  /** With the four columns Name, Current Setting, Required, Description,
      the description column is dropped: it sits at index 3. */
  lemma DescriptionDropped(name: string, setting: string, required: string, description: string)
    requires Cell(name) && Cell(setting) && Cell(required) && Cell(description)
    ensures OptionRowAsWritten(Join([name, setting, required, description], "  "))
            == Some(ModuleOption(name, required == "yes", ""))
  {
    ColumnsOfTable([name, setting, required, description]);
  }

  /** An option with no current setting prints three columns; 'yes' then
      sits at index 1 and the description at index 2 is read as the
      Required column, so a required option is reported as optional. */
  lemma EmptySettingLosesRequired(name: string, description: string)
    requires Cell(name) && Cell(description) && description != "yes"
    ensures OptionRowAsWritten(Join([name, "yes", description], "  "))
            == Some(ModuleOption(name, false, ""))
  {
    assert Cell("yes");
    ColumnsOfTable([name, "yes", description]);
  }

  /** The row reading the table's columns intend: with four or more
      columns the description is columns 3 onward; with three the
      Current Setting column was empty. */
  function OptionRow(text: string): Option<ModuleOption>
  {
    var parts := Columns(text);
    if |parts| >= 4 then Some(ModuleOption(parts[0], parts[2] == "yes", Join(parts[3..], " ")))
    else if |parts| == 3 then Some(ModuleOption(parts[0], parts[1] == "yes", parts[2]))
    else None
  }

  /** The corrected reading keeps every column of a printed row. */
  lemma OptionRowReadsTable(name: string, setting: string, required: string, description: string)
    requires Cell(name) && Cell(setting) && Cell(required) && Cell(description)
    ensures OptionRow(Join([name, setting, required, description], "  "))
            == Some(ModuleOption(name, required == "yes", description))
    ensures OptionRow(Join([name, required, description], "  "))
            == Some(ModuleOption(name, required == "yes", description))
  {
    ColumnsOfTable([name, setting, required, description]);
    ColumnsOfTable([name, required, description]);
    assert [name, setting, required, description][3..] == [description];
  }

  datatype OptionScan = OptionScan(inOptions: bool, done: bool, options: seq<ModuleOption>)

  const OptionStart: OptionScan := OptionScan(false, false, [])

  /** One line: a header line opens the section, a blank line inside it
      ends the scan, and other lines inside it are rows. */
  function OptionStep(st: OptionScan, line: string): OptionScan
  {
    if st.done then st
    else if IsOptionsHeader(line) then st.(inOptions := true)
    else if st.inOptions && Strip(line) == "" then st.(done := true)
    else if st.inOptions then
      match OptionRowAsWritten(Strip(line))
        case Some(o) => st.(options := st.options + [o])
        case None => st
    else st
  }

  /** One line's effect while the scan goes on, case by case. */
  lemma OptionStepCases(st: OptionScan, line: string)
    requires !st.done
    ensures OptionStep(st, line) ==
      if IsOptionsHeader(line) then OptionScan(true, false, st.options)
      else if st.inOptions && Strip(line) == "" then OptionScan(true, true, st.options)
      else if st.inOptions && OptionRowAsWritten(Strip(line)).Some? then OptionScan(true, false, st.options + [OptionRowAsWritten(Strip(line)).value])
      else st
  {
  }

  function OptionsFrom(st: OptionScan, lines: seq<string>): OptionScan
    decreases |lines|
  {
    if lines == [] then st else OptionStep(OptionsFrom(st, lines[..|lines| - 1]), lines[|lines| - 1])
  }

  lemma OptionsFromNext(st: OptionScan, lines: seq<string>, i: nat)
    requires i < |lines|
    ensures OptionsFrom(st, lines[..i + 1]) == OptionStep(OptionsFrom(st, lines[..i]), lines[i])
  {
    assert lines[..i + 1][..i] == lines[..i];
  }

  /** Once the scan has ended, later lines change nothing. */
  lemma {:induction false} DoneStays(st: OptionScan, lines: seq<string>)
    requires st.done
    ensures OptionsFrom(st, lines) == st
    decreases |lines|
  {
    if lines != [] {
      DoneStays(st, lines[..|lines| - 1]);
    }
  }

  lemma {:induction false} OptionsFromConcat(st: OptionScan, a: seq<string>, b: seq<string>)
    ensures OptionsFrom(st, a + b) == OptionsFrom(OptionsFrom(st, a), b)
    decreases |b|
  {
    if b == [] {
      assert a + b == a;
    } else {
      assert (a + b)[..|a + b| - 1] == a + b[..|b| - 1];
      OptionsFromConcat(st, a, b[..|b| - 1]);
    }
  }

  /** Lines after the blank line that closes the table add no option. */
  lemma NothingAfterBlank(pre: seq<string>, post: seq<string>)
    requires OptionsFrom(OptionStart, pre).done
    ensures OptionsFrom(OptionStart, pre + post) == OptionsFrom(OptionStart, pre)
  {
    OptionsFromConcat(OptionStart, pre, post);
    DoneStays(OptionsFrom(OptionStart, pre), post);
  }

  lemma EndedAt(lines: seq<string>, n: nat)
    requires n <= |lines| && OptionsFrom(OptionStart, lines[..n]).done
    ensures OptionsFrom(OptionStart, lines) == OptionsFrom(OptionStart, lines[..n])
  {
    NothingAfterBlank(lines[..n], lines[n..]);
    assert lines[..n] + lines[n..] == lines;
  }

  /** Lines before the header add no option. */
  lemma {:induction false} NothingBeforeHeader(pre: seq<string>)
    requires forall i :: 0 <= i < |pre| ==> !IsOptionsHeader(pre[i])
    ensures OptionsFrom(OptionStart, pre) == OptionStart
    decreases |pre|
  {
    if pre != [] {
      NothingBeforeHeader(pre[..|pre| - 1]);
    }
  }

  /** parse_module_options, stopping at the first blank line of the
      section; rows are read as written (`OptionRowAsWritten`). */
  method ParseModuleOptions(result: string) returns (options: seq<ModuleOption>)
    ensures options == OptionsFrom(OptionStart, SplitLines(result)).options
  {
    options := OptionLines(SplitLines(result));
  }

  /** The loop over the output's lines, with its in-section flag. */
  method OptionLines(lines: seq<string>) returns (options: seq<ModuleOption>)
    ensures options == OptionsFrom(OptionStart, lines).options
  {
    var inOptions := false;
    options := [];
    var i := 0;
    while i < |lines|
      invariant 0 <= i <= |lines|
      invariant OptionsFrom(OptionStart, lines[..i]) == OptionScan(inOptions, false, options)
      decreases |lines| - i
    {
      var line := lines[i];
      OptionsFromNext(OptionStart, lines, i);
      OptionStepCases(OptionScan(inOptions, false, options), line);
      if IsOptionsHeader(line) {
        inOptions := true;
      } else if inOptions && Strip(line) == "" {
        EndedAt(lines, i + 1);
        return;
      } else if inOptions {
        var row := OptionRowAsWritten(Strip(line));
        if row.Some? {
          options := options + [row.value];
        }
      }
      i := i + 1;
    }
    assert lines[..|lines|] == lines;
  }
}
