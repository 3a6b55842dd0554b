/** The nmap plugin of the desktop application
    (storage/plugins/network/nmap_scanner.py): building the command line
    from the form, splitting nmap's report into one section per host, and
    filtering live progress lines. Running nmap and the Qt widgets are
    outside the model. */
module NmapScanner {
  import opened Strings

  // ---------------------------------------------------------------- command

  /** The scan-option check boxes, in the order the form creates them. */
  const ScanOptionNames: seq<string> := ["sS", "sU", "sV", "O", "A", "v", "vv", "oN", "oX", "oG"]

  /** A scan type is checked: SYN, UDP or version detection. */
  predicate HasScanType(checked: set<string>) {
    "sS" in checked || "sU" in checked || "sV" in checked
  }

  /** `-opt` for each checked option among `names`, in order. */
  function CheckedFlags(names: seq<string>, checked: set<string>): (r: seq<string>)
    ensures |r| <= |names|
    ensures forall f :: f in r <==> exists k :: 0 <= k < |names| && names[k] in checked && f == "-" + names[k]
    decreases |names|
  {
    if names == [] then []
    else
      var before := CheckedFlags(names[..|names| - 1], checked);
      var last := names[|names| - 1];
      assert forall k :: 0 <= k < |names| - 1 ==> names[..|names| - 1][k] == names[k];
      before + (if last in checked then ["-" + last] else [])
  }

  /** The options get_scan_command puts between `nmap` and the target. */
  function ScanOptions(checked: set<string>, port: string): seq<string> {
    CheckedFlags(ScanOptionNames, checked)
      + (if HasScanType(checked) then [] else ["-sn"])
      + (if port != "" then ["-p", port] else [])
  }

  /** A ping scan `-sn` is added exactly when no scan type is checked (or
      the port text itself is "-sn"); no check box produces it. The port
      text, when given, is the last option, after "-p". */
  lemma PingScanWhenNoScanType(checked: set<string>, port: string)
    ensures "-sn" in ScanOptions(checked, port) <==> !HasScanType(checked) || port == "-sn"
    ensures port != "" ==> ScanOptions(checked, port)[|ScanOptions(checked, port)| - 2..] == ["-p", port]
    ensures port == "" ==> "-p" !in ScanOptions(checked, port)
  {
    var flags := CheckedFlags(ScanOptionNames, checked);
    assert "-sn" !in flags && "-p" !in flags by {
      forall k | 0 <= k < |ScanOptionNames| ensures "-" + ScanOptionNames[k] != "-sn" && "-" + ScanOptionNames[k] != "-p" {
        assert ("-" + ScanOptionNames[k])[1..] == ScanOptionNames[k];
      }
    }
  }

  /** get_scan_command: custom arguments win outright; otherwise the
      checked options, `-sn` when no scan type is checked, `-p PORT` when a
      port is given, then the target, which must not be empty. */
  method ScanCommand(custom: string, checked: set<string>, port: string, target: string) returns (r: Result<string>)
    ensures custom != "" ==> r == Ok("nmap " + custom)
    ensures custom == "" && target == "" ==> r == Err("No target specified")
    ensures custom == "" && target != "" ==> r == Ok("nmap " + Join(ScanOptions(checked, port), " ") + " " + target)
  {
    if custom != "" {
      return Ok("nmap " + custom);
    }
    var options: seq<string> := [];
    var hasScanType := false;
    for i := 0 to |ScanOptionNames|
      invariant options == CheckedFlags(ScanOptionNames[..i], checked)
      invariant hasScanType <==> exists k :: 0 <= k < i && ScanOptionNames[k] in checked && ScanOptionNames[k] in ["sS", "sU", "sV"]
    {
      assert ScanOptionNames[..i + 1][..i] == ScanOptionNames[..i];
      var opt := ScanOptionNames[i];
      if opt in checked {
        if opt in ["sS", "sU", "sV"] {
          hasScanType := true;
        }
        options := options + ["-" + opt];
      }
    }
    assert ScanOptionNames[..|ScanOptionNames|] == ScanOptionNames;
    assert hasScanType <==> HasScanType(checked) by {
      assert ScanOptionNames[0] == "sS" && ScanOptionNames[1] == "sU" && ScanOptionNames[2] == "sV";
    }
    if !hasScanType {
      options := options + ["-sn"];
    }
    if port != "" {
      options := options + ["-p", port];
    }
    if target == "" {
      return Err("No target specified");
    }
    assert options == ScanOptions(checked, port) by {
      var flags := CheckedFlags(ScanOptionNames, checked);
      assert flags + [] == flags;
      assert flags + (if HasScanType(checked) then [] else ["-sn"]) + [] == flags + (if HasScanType(checked) then [] else ["-sn"]);
    }
    r := Ok("nmap " + Join(options, " ") + " " + target);
  }

  // ---------------------------------------------------------------- report sections

  const HostPrefix: string := "Nmap scan report for "

  /** `re.match(r'Nmap scan report for .*', line)` on a line without a
      line break. */
  predicate IsHostLine(line: string) {
    StartsWith(line, HostPrefix)
  }

  /** What parse_nmap_output holds after some lines: the devices already
      closed and the lines of the one in progress. */
  datatype Parse = Parse(closed: seq<seq<string>>, current: seq<string>)

  /** One line: a host line closes the device in progress, if any, and
      starts a new one; every other line joins the device in progress. */
  function Step(p: Parse, line: string): Parse {
    if IsHostLine(line) && p.current != [] then Parse(p.closed + [p.current], [line])
    else Parse(p.closed, p.current + [line])
  }

  function Run(lines: seq<string>): Parse
    decreases |lines|
  {
    if lines == [] then Parse([], []) else Step(Run(lines[..|lines| - 1]), lines[|lines| - 1])
  }

  /** The line groups of the devices, the last one included. */
  function Groups(lines: seq<string>): seq<seq<string>> {
    var p := Run(lines);
    if p.current != [] then p.closed + [p.current] else p.closed
  }

  function Flatten(groups: seq<seq<string>>): seq<string>
    decreases |groups|
  {
    if groups == [] then [] else Flatten(groups[..|groups| - 1]) + groups[|groups| - 1]
  }

  lemma FlattenSnoc(groups: seq<seq<string>>, g: seq<string>)
    ensures Flatten(groups + [g]) == Flatten(groups) + g
  {
    assert (groups + [g])[..|groups|] == groups;
  }

  /** The devices so far plus the one in progress hold every line once, in
      order. */
  lemma {:induction false} RunCovers(lines: seq<string>)
    ensures Flatten(Run(lines).closed) + Run(lines).current == lines
    decreases |lines|
  {
    if lines != [] {
      var init := lines[..|lines| - 1];
      var line := lines[|lines| - 1];
      RunCovers(init);
      var p := Run(init);
      assert Run(lines) == Step(p, line);
      if IsHostLine(line) && p.current != [] {
        FlattenSnoc(p.closed, p.current);
        assert Flatten(p.closed + [p.current]) + [line] == (Flatten(p.closed) + p.current) + [line];
      } else {
        assert Flatten(p.closed) + (p.current + [line]) == (Flatten(p.closed) + p.current) + [line];
      }
      assert init + [line] == lines;
    }
  }

  /** No closed device is empty, and the one in progress is empty only
      before the first line. */
  lemma {:induction false} RunNonEmpty(lines: seq<string>)
    ensures forall k :: 0 <= k < |Run(lines).closed| ==> Run(lines).closed[k] != []
    ensures Run(lines).current == [] <==> lines == []
    decreases |lines|
  {
    if lines != [] {
      var init := lines[..|lines| - 1];
      RunNonEmpty(init);
      assert Run(lines) == Step(Run(init), lines[|lines| - 1]);
    }
  }

  /** Every device after the first, and the one in progress when others
      are closed, starts with a host line. */
  lemma {:induction false} RunHeads(lines: seq<string>)
    ensures var p := Run(lines);
      (forall k :: 0 < k < |p.closed| ==> p.closed[k] != [] && IsHostLine(p.closed[k][0])) &&
      (p.closed != [] ==> p.current != [] && IsHostLine(p.current[0]))
    decreases |lines|
  {
    if lines != [] {
      var init := lines[..|lines| - 1];
      var line := lines[|lines| - 1];
      RunHeads(init);
      var p := Run(init);
      assert Run(lines) == Step(p, line);
      if IsHostLine(line) && p.current != [] {
        var c := p.closed + [p.current];
        assert forall k :: 0 <= k < |p.closed| ==> c[k] == p.closed[k];
      } else if p.closed != [] {
        assert (p.current + [line])[0] == p.current[0];
      }
    }
  }

  /** Inside a device, only the first line is a host line. */
  lemma {:induction false} RunInner(lines: seq<string>)
    ensures var p := Run(lines);
      (forall k, j :: 0 <= k < |p.closed| && 0 < j < |p.closed[k]| ==> !IsHostLine(p.closed[k][j])) &&
      (forall j :: 0 < j < |p.current| ==> !IsHostLine(p.current[j]))
    decreases |lines|
  {
    if lines != [] {
      var init := lines[..|lines| - 1];
      var line := lines[|lines| - 1];
      RunInner(init);
      var p := Run(init);
      assert Run(lines) == Step(p, line);
      if IsHostLine(line) && p.current != [] {
        var c := p.closed + [p.current];
        assert forall k :: 0 <= k < |p.closed| ==> c[k] == p.closed[k];
        assert c[|p.closed|] == p.current;
      } else {
        RunNonEmpty(init);
        var cur := p.current + [line];
        assert forall j :: 0 < j < |p.current| ==> cur[j] == p.current[j];
      }
    }
  }

  /** The groups hold every line once, in order, and none is empty. */
  lemma GroupsCover(lines: seq<string>)
    ensures Flatten(Groups(lines)) == lines
    ensures forall k :: 0 <= k < |Groups(lines)| ==> Groups(lines)[k] != []
    ensures Groups(lines) == [] <==> lines == []
  {
    RunCovers(lines);
    RunNonEmpty(lines);
    var p := Run(lines);
    if p.current != [] {
      FlattenSnoc(p.closed, p.current);
    }
  }

  /** Every group after the first starts with a host line, and no group
      holds a host line anywhere else. */
  lemma GroupsHeads(lines: seq<string>)
    ensures forall k :: 0 < k < |Groups(lines)| ==> Groups(lines)[k] != [] && IsHostLine(Groups(lines)[k][0])
    ensures forall k, j :: 0 <= k < |Groups(lines)| && 0 < j < |Groups(lines)[k]| ==> !IsHostLine(Groups(lines)[k][j])
  {
    RunHeads(lines);
    RunInner(lines);
    RunNonEmpty(lines);
  }

  function Texts(groups: seq<seq<string>>): (r: seq<string>)
    ensures |r| == |groups| && forall k :: 0 <= k < |groups| ==> r[k] == Join(groups[k], "\n")
  {
    seq(|groups|, k requires 0 <= k < |groups| => Join(groups[k], "\n"))
  }

  /** Joining the group texts is joining all their lines. */
  lemma {:induction false} TextsJoin(groups: seq<seq<string>>)
    requires forall k :: 0 <= k < |groups| ==> groups[k] != []
    ensures Join(Texts(groups), "\n") == Join(Flatten(groups), "\n")
    decreases |groups|
  {
    if |groups| > 1 {
      var init := groups[..|groups| - 1];
      var last := groups[|groups| - 1];
      TextsJoin(init);
      assert Texts(groups) == Texts(init) + [Join(last, "\n")];
      JoinConcat(Texts(init), [Join(last, "\n")], "\n");
      GroupsNonEmptyFlatten(init);
      JoinConcat(Flatten(init), last, "\n");
    } else if |groups| == 1 {
      assert groups[..0] == [];
      assert [] + groups[0] == groups[0];
      assert Flatten(groups) == Flatten([]) + groups[0];
      assert Texts(groups) == [Join(groups[0], "\n")];
    }
  }

  lemma {:induction false} GroupsNonEmptyFlatten(groups: seq<seq<string>>)
    requires groups != [] && forall k :: 0 <= k < |groups| ==> groups[k] != []
    ensures Flatten(groups) != []
    decreases |groups|
  {
  }

  /** parse_nmap_output: the report's lines in host groups, each group
      joined back with line breaks. */
  method ParseNmapOutput(output: string) returns (devices: seq<string>)
    ensures devices == Texts(Groups(SplitOn(output, '\n')))
  {
    var lines := SplitOn(output, '\n');
    devices := [];
    var current: seq<string> := [];
    ghost var closed: seq<seq<string>> := [];
    for i := 0 to |lines|
      invariant devices == Texts(closed)
      invariant Run(lines[..i]) == Parse(closed, current)
    {
      assert lines[..i + 1][..i] == lines[..i];
      var line := lines[i];
      if StartsWith(line, HostPrefix) {
        if current != [] {
          devices := devices + [Join(current, "\n")];
          closed := closed + [current];
          current := [];
        }
      }
      current := current + [line];
    }
    assert lines[..|lines|] == lines;
    if current != [] {
      devices := devices + [Join(current, "\n")];
      closed := closed + [current];
    }
  }

  /** Joining the devices with line breaks gives back the whole report,
      and every device after the first begins with a host line. */
  lemma DevicesRejoin(output: string)
    ensures Join(Texts(Groups(SplitOn(output, '\n'))), "\n") == output
  {
    var lines := SplitOn(output, '\n');
    GroupsCover(lines);
    TextsJoin(Groups(lines));
    JoinSplit(output, '\n');
    JoinOnIsJoin(lines, '\n');
  }

  /** A joined group starts with its first line. */
  lemma JoinStartsWithFirst(g: seq<string>, p: string)
    requires g != [] && StartsWith(g[0], p)
    ensures StartsWith(Join(g, "\n"), p)
  {
    if |g| > 1 {
      assert g == [g[0]] + g[1..];
      JoinConcat([g[0]], g[1..], "\n");
      assert Join(g, "\n") == g[0] + ("\n" + Join(g[1..], "\n"));
    }
  }

  /** There is at least one device, and every device after the first
      begins with a host line. */
  lemma DevicesStartWithHost(output: string)
    ensures var d := Texts(Groups(SplitOn(output, '\n')));
      d != [] && forall k :: 0 < k < |d| ==> StartsWith(d[k], HostPrefix)
  {
    var lines := SplitOn(output, '\n');
    var g := Groups(lines);
    GroupsCover(lines);
    GroupsHeads(lines);
    forall k | 0 < k < |g| ensures StartsWith(Join(g[k], "\n"), HostPrefix) {
      JoinStartsWithFirst(g[k], HostPrefix);
    }
  }

  /** A section's title: its first line without the host-line prefix. */
  function SectionTitle(device: string): string {
    ReplaceAll(SplitOn(device, '\n')[0], HostPrefix, "")
  }

  /** The title of a host's section is the host text after the prefix. */
  lemma SectionTitleOfHost(host: string, rest: string)
    requires '\n' !in host && !Contains(host, HostPrefix)
    ensures SectionTitle(HostPrefix + host) == host
    ensures SectionTitle(HostPrefix + host + "\n" + rest) == host
  {
    var line := HostPrefix + host;
    assert '\n' !in line;
    SplitNoSep(line, '\n');
    SplitAppendSep(line, '\n', rest);
    assert line + "\n" + rest == line + ['\n'] + rest;
    assert StartsWith(line, HostPrefix);
    assert line[|HostPrefix|..] == host;
  }

  datatype Section = Section(title: string, content: string)

  /** display_results: a report starting with "Error" is one Error
      section; otherwise one section per device, titled by its host. */
  function ResultSections(results: string): (r: seq<Section>)
    ensures StartsWith(results, "Error") ==> r == [Section("Error", results)]
    ensures !StartsWith(results, "Error") ==>
      var d := Texts(Groups(SplitOn(results, '\n')));
      |r| == |d| && forall k :: 0 <= k < |d| ==> r[k] == Section(SectionTitle(d[k]), d[k])
  {
    if StartsWith(results, "Error") then [Section("Error", results)]
    else
      var d := Texts(Groups(SplitOn(results, '\n')));
      seq(|d|, k requires 0 <= k < |d| => Section(SectionTitle(d[k]), d[k]))
  }

  // ---------------------------------------------------------------- progress

  /** scan_progress shows a line unless it is blank or a "Scanning ... in
      progress" line. */
  predicate ShownProgress(line: string) {
    Strip(line) != "" && !(Contains(line, "Scanning") && Contains(line, "in progress"))
  }

  /** The progress section's text after a stream of progress lines. */
  function ProgressLog(lines: seq<string>): (r: seq<string>)
    ensures |r| <= |lines|
    decreases |lines|
  {
    if lines == [] then []
    else ProgressLog(lines[..|lines| - 1]) + (if ShownProgress(lines[|lines| - 1]) then [lines[|lines| - 1]] else [])
  }

  /** The section shows exactly the non-blank lines that are not
      "Scanning ... in progress" notices. */
  lemma {:induction false} ProgressLogShows(lines: seq<string>)
    ensures forall x :: x in ProgressLog(lines) <==> x in lines && ShownProgress(x)
    decreases |lines|
  {
    if lines != [] {
      var init := lines[..|lines| - 1];
      var last := lines[|lines| - 1];
      ProgressLogShows(init);
      assert lines == init + [last];
      var shown := ShownProgress(last);
      assert ProgressLog(lines) == ProgressLog(init) + (if shown then [last] else []);
    }
  }
}
