/** Wireless scans (storage/scripts/nsatt_web/modules/wireless_scans.py):
    the command a scan runs and the capped output it yields, the parser for
    one airodump-ng access-point row, the HTML table of the networks seen
    so far, and the options offered per scan tool. Running the tool, the
    log file and the results database are outside the model. */
module WirelessScans {
  import opened Strings

  // ---------------------------------------------------------------------
  // ANSI escape sequences: the pattern \x1B[@-_][0-?]*[ -/]*[@-~]

  /** Length of the run of characters in [lo, hi] at the start of `s`. */
  function RunIn(s: string, lo: char, hi: char): (n: nat)
    ensures n <= |s|
    ensures forall i :: 0 <= i < n ==> lo <= s[i] <= hi
    ensures n < |s| ==> !(lo <= s[n] <= hi)
  {
    if s == [] || !(lo <= s[0] <= hi) then 0 else 1 + RunIn(s[1..], lo, hi)
  }

  lemma {:induction false} RunInStopsAt(p: string, c: char, rest: string, lo: char, hi: char)
    requires forall i :: 0 <= i < |p| ==> lo <= p[i] <= hi
    requires !(lo <= c <= hi)
    ensures RunIn(p + [c] + rest, lo, hi) == |p|
    decreases |p|
  {
    if p != [] {
      assert (p + [c] + rest)[1..] == p[1..] + [c] + rest;
      RunInStopsAt(p[1..], c, rest, lo, hi);
    }
  }

  /** Length of the escape sequence the pattern matches at the start of
      `s`, if any. The three character classes after the introducer are
      disjoint, so the greedy runs never give characters back. */
  function EscapeLength(s: string): (r: Option<nat>)
    ensures r.Some? ==> 3 <= r.value <= |s| && s[0] == Esc
  {
    if |s| >= 2 && s[0] == Esc && '@' <= s[1] <= '_' then
      var a := RunIn(s[2..], '0', '?');
      var b := RunIn(s[2 + a..], ' ', '/');
      var k := 2 + a + b;
      if k < |s| && '@' <= s[k] <= '~' then Some(k + 1) else None
    else None
  }

  /** `re.sub(pattern, '', s)`: every match removed, scanning left to right. */
  function StripAnsi(s: string): (r: string)
    ensures |r| <= |s|
    ensures Esc !in s ==> r == s
    decreases |s|
  {
    if s == [] then []
    else match EscapeLength(s)
      case Some(n) => StripAnsi(s[n..])
      case None => [s[0]] + StripAnsi(s[1..])
  }

  /** A colour code such as ESC [ 0 ; 3 1 m is removed entirely. */
  lemma ColourCodeRemoved(params: string, rest: string)
    requires forall i :: 0 <= i < |params| ==> IsDigit(params[i]) || params[i] == ';'
    ensures StripAnsi([Esc, '['] + params + ['m'] + rest) == StripAnsi(rest)
  {
    var s := [Esc, '['] + params + ['m'] + rest;
    ColourCodeLength(params, rest);
    assert s[3 + |params|..] == rest;
  }

  lemma ColourCodeLength(params: string, rest: string)
    requires forall i :: 0 <= i < |params| ==> IsDigit(params[i]) || params[i] == ';'
    ensures EscapeLength([Esc, '['] + params + ['m'] + rest) == Some(3 + |params|)
  {
    var s := [Esc, '['] + params + ['m'] + rest;
    assert s[2..] == params + ['m'] + rest;
    RunInStopsAt(params, 'm', rest, '0', '?');
    var k := 2 + |params|;
    assert s[k..] == [] + ['m'] + rest;
    RunInStopsAt([], 'm', rest, ' ', '/');
    assert s[k] == 'm';
  }

  // ---------------------------------------------------------------------
  // One airodump-ng row

  /** The words skipped at the start of the ESSID column. */
  const SecurityTags: seq<string> := ["PSK", "MGT", "SAE", "CCMP", "WPA2", "WPA", "WEP"]

  /** Number of leading words that are security tags. */
  function LeadingTags(ps: seq<string>): (n: nat)
    ensures n <= |ps|
    ensures forall i :: 0 <= i < n ==> ps[i] in SecurityTags
    ensures n < |ps| ==> ps[n] !in SecurityTags
  {
    if ps == [] || ps[0] !in SecurityTags then 0 else 1 + LeadingTags(ps[1..])
  }

  /** The ESSID from the words at index 9 onward: from the first word that
      is not a tag; when every word is a tag, `next(..., 0)` keeps them all. */
  function EssidOf(ps: seq<string>): string
  {
    var n := LeadingTags(ps);
    if n == |ps| then Join(ps, " ") else Join(ps[n..], " ")
  }

  lemma {:induction false} LeadingTagsOf(tags: seq<string>, rest: seq<string>)
    requires forall i :: 0 <= i < |tags| ==> tags[i] in SecurityTags
    requires rest != [] && rest[0] !in SecurityTags
    ensures LeadingTags(tags + rest) == |tags|
    decreases |tags|
  {
    if tags == [] {
      assert tags + rest == rest;
    } else {
      assert (tags + rest)[1..] == tags[1..] + rest;
      LeadingTagsOf(tags[1..], rest);
    }
  }

  /** Leading security tags are dropped from the ESSID. */
  lemma EssidSkipsTags(tags: seq<string>, rest: seq<string>)
    requires forall i :: 0 <= i < |tags| ==> tags[i] in SecurityTags
    requires rest != [] && rest[0] !in SecurityTags
    ensures EssidOf(tags + rest) == Join(rest, " ")
  {
    LeadingTagsOf(tags, rest);
    assert (tags + rest)[|tags|..] == rest;
  }

  /** When every word is a tag the whole tail is the ESSID. */
  lemma {:induction false} EssidAllTags(tags: seq<string>)
    requires forall i :: 0 <= i < |tags| ==> tags[i] in SecurityTags
    ensures EssidOf(tags) == Join(tags, " ")
    decreases |tags|
  {
    if tags != [] {
      EssidAllTags(tags[1..]);
    }
  }

  /** The dictionary parse_scan_output returns. */
  datatype Network = Network(bssid: string, power: int, channel: string, beacons: int, frames: int,
                             rate: string, cipher: string, auth: string, enc: string, essid: string)

  /** The words of a row after escape sequences are removed. Stripping
      before `split()` changes nothing, since `split()` drops surrounding
      whitespace itself. */
  function RowWords(line: string): seq<string>
  {
    Words(StripAnsi(line))
  }

  /** parse_scan_output: a row of at least ten words whose power, beacons
      and frames columns are integers; anything else gives None. */
  function ParseScanOutput(line: string): (r: Option<Network>)
    ensures |RowWords(line)| < 10 ==> r.None?
    ensures r.Some? <==> |RowWords(line)| >= 10 && ParseInt(RowWords(line)[1]).Some?
                         && ParseInt(RowWords(line)[3]).Some? && ParseInt(RowWords(line)[4]).Some?
  {
    var parts := RowWords(line);
    if |parts| >= 10 then
      match (ParseInt(parts[1]), ParseInt(parts[3]), ParseInt(parts[4]))
        case (Some(power), Some(beacons), Some(frames)) =>
          Some(Network(parts[0], power, parts[2], beacons, frames, parts[5], parts[6], parts[7], parts[8], EssidOf(parts[9..])))
        case _ => None
    else None
  }

  /** A column value as airodump prints it: one word without escape codes. */
  predicate Column(t: string) {
    |t| > 0 && NoSpace(t) && Esc !in t
  }

  predicate Columns(ps: seq<string>) {
    forall i :: 0 <= i < |ps| ==> Column(ps[i])
  }

  lemma ColumnsConcat(a: seq<string>, b: seq<string>)
    requires Columns(a) && Columns(b)
    ensures Columns(a + b)
  {
    forall i | 0 <= i < |a + b|
      ensures Column((a + b)[i])
    {
      if i >= |a| {
        assert (a + b)[i] == b[i - |a|];
      }
    }
  }

  /** The first nine columns of the row that shows network `n`. */
  function RowColumns(n: Network): (r: seq<string>)
    ensures |r| == 9
  {
    [n.bssid, IntToString(n.power), n.channel, IntToString(n.beacons), IntToString(n.frames), n.rate, n.cipher, n.auth, n.enc]
  }

  lemma IntColumn(x: int)
    ensures Column(IntToString(x))
  {
    IntToStringChars(x);
  }

  /** Columns joined by spaces split back into the same columns. */
  lemma RowWordsOfColumns(parts: seq<string>)
    requires Columns(parts)
    ensures RowWords(Join(parts, " ")) == parts
  {
    JoinAvoids(parts, " ", Esc);
    WordsJoin(parts);
  }

  lemma ColumnsOfRow(n: Network)
    requires Column(n.bssid) && Column(n.channel) && Column(n.rate) && Column(n.cipher) && Column(n.auth) && Column(n.enc)
    ensures Columns(RowColumns(n))
  {
    IntColumn(n.power);
    IntColumn(n.beacons);
    IntColumn(n.frames);
    var c := RowColumns(n);
    forall i | 0 <= i < 9
      ensures Column(c[i])
    {
      if i == 0 { } else if i == 1 { } else if i == 2 { } else if i == 3 { }
      else if i == 4 { } else if i == 5 { } else if i == 6 { } else if i == 7 { } else { }
    }
  }

  /** Parsing the row that shows a network gives the network back, provided
      its columns are single words and its ESSID does not start with a tag. */
  lemma ParseRow(n: Network, essidWords: seq<string>)
    requires Column(n.bssid) && Column(n.channel) && Column(n.rate) && Column(n.cipher) && Column(n.auth) && Column(n.enc)
    requires essidWords != [] && essidWords[0] !in SecurityTags
    requires Columns(essidWords)
    requires n.essid == Join(essidWords, " ")
    ensures ParseScanOutput(Join(RowColumns(n) + essidWords, " ")) == Some(n)
  {
    var cols := RowColumns(n);
    ColumnsOfRow(n);
    IntColumnsParse(n);
    EssidSkipsTags([], essidWords);
    assert [] + essidWords == essidWords;
    ParseJoined(cols, essidWords, n.power, n.beacons, n.frames);
    assert cols[0] == n.bssid && cols[2] == n.channel && cols[5] == n.rate;
    assert cols[6] == n.cipher && cols[7] == n.auth && cols[8] == n.enc;
  }

  lemma IntColumnsParse(n: Network)
    ensures ParseInt(RowColumns(n)[1]) == Some(n.power)
    ensures ParseInt(RowColumns(n)[3]) == Some(n.beacons)
    ensures ParseInt(RowColumns(n)[4]) == Some(n.frames)
  {
    var c := RowColumns(n);
    assert c[1] == IntToString(n.power) && c[3] == IntToString(n.beacons) && c[4] == IntToString(n.frames);
    IntToStringParses(n.power);
    IntToStringParses(n.beacons);
    IntToStringParses(n.frames);
  }

  /** A row of single-word columns parses column by column. */
  lemma ParseJoined(cols: seq<string>, essidWords: seq<string>, power: int, beacons: int, frames: int)
    requires Columns(cols) && |cols| == 9 && Columns(essidWords) && essidWords != []
    requires ParseInt(cols[1]) == Some(power) && ParseInt(cols[3]) == Some(beacons) && ParseInt(cols[4]) == Some(frames)
    ensures ParseScanOutput(Join(cols + essidWords, " "))
            == Some(Network(cols[0], power, cols[2], beacons, frames, cols[5], cols[6], cols[7], cols[8], EssidOf(essidWords)))
  {
    var parts := cols + essidWords;
    ColumnsConcat(cols, essidWords);
    RowWordsOfColumns(parts);
    assert parts[9..] == essidWords;
    assert parts[..9] == cols;
  }

  // ---------------------------------------------------------------------
  // The HTML table

  /** One entry of the networks dictionary: a BSSID and its field values,
      already rendered as text. */
  datatype Entry = Entry(bssid: string, data: map<string, string>)

  /** `data.get(key, 'N/A')`. */
  function Lookup(data: map<string, string>, key: string): (v: string)
    ensures key in data ==> v == data[key]
    ensures key !in data ==> v == "N/A"
  {
    if key in data then data[key] else "N/A"
  }

  function Cell(v: string): string { "<td>" + v + "</td>" }

  /** The cells after the BSSID, in the order the table prints them. */
  const CellOrder: seq<string> := ["power", "channel", "beacons", "frames", "rate", "essid", "cipher", "auth", "enc"]

  function Cells(data: map<string, string>, keys: seq<string>): string
  {
    if keys == [] then "" else Cell(Lookup(data, keys[0])) + Cells(data, keys[1..])
  }

  /** One table row per network. */
  function RowHtml(e: Entry): string
  {
    "<tr>" + Cell(e.bssid) + Cells(e.data, CellOrder) + "</tr>"
  }

  /** The rows of the networks in dictionary order. */
  function NetworksHtml(entries: seq<Entry>): string
    decreases |entries|
  {
    if entries == [] then "" else NetworksHtml(entries[..|entries| - 1]) + RowHtml(entries[|entries| - 1])
  }

  /** format_networks_as_html. */
  method FormatNetworks(entries: seq<Entry>) returns (html: string)
    ensures html == NetworksHtml(entries)
  {
    html := "";
    for i := 0 to |entries|
      invariant html == NetworksHtml(entries[..i])
    {
      var e := entries[i];
      ghost var before := html;
      var cells := Cells(e.data, CellOrder);
      html := html + "<tr>";
      html := html + Cell(e.bssid);
      html := html + cells;
      html := html + "</tr>";
      assert html == before + RowHtml(e);
      assert entries[..i + 1][..i] == entries[..i];
    }
    assert entries[..|entries|] == entries;
  }

  /** A row starts with `<tr>` and ends with `</tr>`. */
  lemma RowDelimited(e: Entry)
    ensures StartsWith(RowHtml(e), "<tr>") && EndsWith(RowHtml(e), "</tr>")
  {
    var r := RowHtml(e);
    assert r[..4] == "<tr>";
    assert r[|r| - 5..] == "</tr>";
  }

  /** A field the entry lacks renders as N/A. */
  lemma {:induction false} MissingFieldsShowNA(data: map<string, string>, keys: seq<string>)
    requires forall i :: 0 <= i < |keys| ==> keys[i] !in data
    ensures Cells(data, keys) == Cells(map[], keys)
    decreases |keys|
  {
    if keys != [] {
      MissingFieldsShowNA(data, keys[1..]);
    }
  }

  /** The field values of a parsed network, as the table prints them. */
  function FieldsOf(n: Network): (m: map<string, string>)
    ensures forall k :: k in CellOrder ==> k in m
  {
    map["bssid" := n.bssid, "power" := IntToString(n.power), "channel" := n.channel,
        "beacons" := IntToString(n.beacons), "frames" := IntToString(n.frames), "rate" := n.rate,
        "cipher" := n.cipher, "auth" := n.auth, "enc" := n.enc, "essid" := n.essid]
  }

  // ---------------------------------------------------------------------
  // Running a scan

  /** run_wireless_scan reads at most this many lines. */
  const MaxLines: nat := 100

  function StripAll(lines: seq<string>): (r: seq<string>)
    ensures |r| == |lines|
    decreases |lines|
  {
    if lines == [] then [] else StripAll(lines[..|lines| - 1]) + [Strip(lines[|lines| - 1])]
  }

  function Concat(lines: seq<string>): string
    decreases |lines|
  {
    if lines == [] then "" else Concat(lines[..|lines| - 1]) + lines[|lines| - 1]
  }

  /** The line yielded when the scan raised `e`. */
  function ScanFailed(e: string): string { "Error running wireless scan: " + e }

  /** The lines read before the cap. */
  function Capped(output: seq<string>): (r: seq<string>)
    ensures |r| <= MaxLines && |r| <= |output| && r == output[..|r|]
    ensures |output| <= MaxLines ==> r == output
  {
    if |output| < MaxLines then output else output[..MaxLines]
  }

  function ExitError(code: int): string
  {
    "Error: Scan command exited with code " + IntToString(code)
  }

  /** run_wireless_scan against the tool's output lines and exit code:
      the command `{type} {options} {target}`, split on whitespace into
      the argument vector; each of the first 100 lines is yielded stripped;
      a non-zero exit code adds an error line; the raw lines read are
      joined into the saved result. `failure` is the exception raised when
      the log file cannot be opened or the command cannot be started: then
      its error line is all that is yielded and nothing is saved. */
  method RunScan(target: string, scanType: string, options: seq<string>, failure: Option<string>,
                 output: seq<string>, returnCode: int)
    returns (argv: seq<string>, yielded: seq<string>, saved: Option<string>)
    ensures argv == Words(scanType + " " + Join(options, " ") + " " + target)
    ensures failure.Some? ==> yielded == [ScanFailed(failure.value)] && saved.None?
    ensures failure.None? ==>
      yielded == StripAll(Capped(output)) + (if returnCode != 0 then [ExitError(returnCode)] else [])
      && saved == Some(Concat(Capped(output)))
    ensures |yielded| <= MaxLines + 1
  {
    var command := scanType + " " + Join(options, " ") + " " + target;
    argv := Words(command);
    if failure.Some? {
      return argv, [ScanFailed(failure.value)], None;
    }
    var lines;
    lines, yielded := ReadLines(output);
    saved := Some(Concat(lines));
    if returnCode != 0 {
      yielded := yielded + [ExitError(returnCode)];
    }
  }

  /** The read loop: stop once 100 lines have been taken. */
  method ReadLines(output: seq<string>) returns (lines: seq<string>, yielded: seq<string>)
    ensures lines == Capped(output) && yielded == StripAll(lines)
  {
    lines := [];
    yielded := [];
    var count := 0;
    var i := 0;
    while i < |output|
      invariant 0 <= i <= |output| && count == i <= MaxLines
      invariant lines == output[..i] && yielded == StripAll(output[..i])
      decreases |output| - i
    {
      if count >= MaxLines {
        break;
      }
      StripAllSnoc(output, i);
      lines := lines + [output[i]];
      yielded := yielded + [Strip(output[i])];
      count := count + 1;
      i := i + 1;
    }
    assert lines == Capped(output);
  }

  lemma StripAllSnoc(output: seq<string>, i: nat)
    requires i < |output|
    ensures output[..i + 1] == output[..i] + [output[i]]
    ensures StripAll(output[..i + 1]) == StripAll(output[..i]) + [Strip(output[i])]
  {
    assert output[..i + 1][..i] == output[..i];
  }

  /** Every yielded line is the stripped output line. */
  lemma {:induction false} StripAllEach(lines: seq<string>, i: nat)
    requires i < |lines|
    ensures StripAll(lines)[i] == Strip(lines[i])
    decreases |lines|
  {
    if i < |lines| - 1 {
      StripAllEach(lines[..|lines| - 1], i);
    }
  }

  // ---------------------------------------------------------------------
  // Options offered per tool

  datatype OptionInfo = OptionInfo(flag: string, help: string)

  const BaseOptions: seq<OptionInfo> := [
    OptionInfo("--band", "Specify band (e.g., --band a for 5GHz)"),
    OptionInfo("--channel", "Specify channel (e.g., --channel 6)"),
    OptionInfo("--ignore-negative-one", "Ignore negative one channel")]

  /** The tools that add options of their own. */
  const ToolsWithExtras: seq<string> := ["airodump-ng", "wifite", "aireplay-ng", "aircrack-ng", "wash"]

  function ExtraOptions(scanType: Option<string>): seq<OptionInfo>
  {
    match scanType
      case Some("airodump-ng") => [
        OptionInfo("--write", "Write output to a file"),
        OptionInfo("--output-format", "Specify output format (e.g., pcap, ivs)"),
        OptionInfo("--bssid", "Specify the BSSID of the target AP")]
      case Some("wifite") => [
        OptionInfo("--kill", "Kill conflicting processes"),
        OptionInfo("--wep", "Only target WEP-encrypted networks"),
        OptionInfo("--wpa", "Only target WPA-encrypted networks")]
      case Some("aireplay-ng") => [
        OptionInfo("--deauth", "Send deauthentication packets to a network"),
        OptionInfo("--fakeauth", "Fake authentication with a network"),
        OptionInfo("--arpreplay", "ARP request replay attack")]
      case Some("aircrack-ng") => [
        OptionInfo("--bssid", "Specify the BSSID of the target AP"),
        OptionInfo("--key", "Specify the key to test"),
        OptionInfo("--ivs", "Use only IVs for cracking")]
      case Some("wash") => [
        OptionInfo("--interface", "Specify the interface to use"),
        OptionInfo("--ignore-fcs", "Ignore frame check sequence errors")]
      case _ => []
  }

  predicate DistinctFlags(opts: seq<OptionInfo>) {
    forall i, j :: 0 <= i < j < |opts| ==> opts[i].flag != opts[j].flag
  }

  /** get_wireless_options: the three base options, then the chosen tool's
      own. No tool's flag repeats a base flag, so `dict.update` only adds
      keys and the dictionary, in insertion order, is the concatenation. */
  function WirelessOptions(scanType: Option<string>): (r: seq<OptionInfo>)
    ensures |r| >= 3 && r[..3] == BaseOptions
    ensures (scanType.None? || scanType.value !in ToolsWithExtras) ==> r == BaseOptions
    ensures scanType.Some? && scanType.value in ToolsWithExtras ==> |r| > 3
  {
    BaseOptions + ExtraOptions(scanType)
  }
}
