/** The wireless-scan routes (storage/scripts/nsatt_web/routes/wireless_routes.py):
    the scan form turned into an option list and a redirect, the option list
    carried through the URL joined by commas, and the stream that merges
    parsed airodump rows into the networks table by BSSID. Templates, the
    subprocess and the stop flag's effect on a running stream are outside
    the model. */
module WirelessRoutes {
  import opened Strings
  import opened WirelessScans

  /** The fields of the scan form the route reads; `None` when absent. */
  datatype Form = Form(target: Option<string>, scanType: Option<string>,
                       showAck: Option<string>, ignoreNegative: Option<string>,
                       useBand: Option<string>, band: Option<string>,
                       useChannel: Option<string>, channel: Option<string>,
                       useBssid: Option<string>, bssid: Option<string>,
                       useEssid: Option<string>, essid: Option<string>,
                       useDeauth: Option<string>, deauth: Option<string>,
                       customCommand: Option<string>)

  /** `request.form.get(k)` is truthy: present and not empty. */
  predicate Given(v: Option<string>) {
    v.Some? && v.value != ""
  }

  /** `[item]` when the condition holds. */
  function When(cond: bool, item: string): seq<string> {
    if cond then [item] else []
  }

  /** A value option: its check box and its value must both be given. */
  function ValueOption(use: Option<string>, value: Option<string>, prefix: string): seq<string>
  {
    if Given(use) && Given(value) then [prefix + value.value] else []
  }

  /** The option list the scan form builds, in the order it appends. */
  function FormOptions(form: Form): (r: seq<string>)
    ensures forall i :: 0 <= i < |r| ==> r[i] != ""
  {
    When(Given(form.showAck), "--showack")
    + When(Given(form.ignoreNegative), "--ignore-negative-one")
    + ValueOption(form.useBand, form.band, "--band ")
    + ValueOption(form.useChannel, form.channel, "--channel ")
    + ValueOption(form.useBssid, form.bssid, "--bssid ")
    + ValueOption(form.useEssid, form.essid, "--essid ")
    + ValueOption(form.useDeauth, form.deauth, "--deauth=")
    + (if Given(form.customCommand) then [form.customCommand.value] else [])
  }

  /** Building the list option by option, as the route does. */
  method BuildOptions(form: Form) returns (options: seq<string>)
    ensures options == FormOptions(form)
  {
    options := When(Given(form.showAck), "--showack");
    options := options + When(Given(form.ignoreNegative), "--ignore-negative-one");
    options := options + ValueOption(form.useBand, form.band, "--band ");
    options := options + ValueOption(form.useChannel, form.channel, "--channel ");
    options := options + ValueOption(form.useBssid, form.bssid, "--bssid ");
    options := options + ValueOption(form.useEssid, form.essid, "--essid ");
    options := options + ValueOption(form.useDeauth, form.deauth, "--deauth=");
    if Given(form.customCommand) {
      options := options + [form.customCommand.value];
    } else {
      assert options + [] == options;
    }
  }

  /** A value option is added when its box and value are both given, and
      otherwise its value has no effect on the list. */
  lemma ValueOptionsNeedBoth(form: Form)
    ensures Given(form.useBand) && Given(form.band) ==> "--band " + form.band.value in FormOptions(form)
    ensures !(Given(form.useBand) && Given(form.band)) ==> FormOptions(form) == FormOptions(form.(band := None))
    ensures !(Given(form.useChannel) && Given(form.channel)) ==> FormOptions(form) == FormOptions(form.(channel := None))
    ensures !(Given(form.useBssid) && Given(form.bssid)) ==> FormOptions(form) == FormOptions(form.(bssid := None))
    ensures !(Given(form.useEssid) && Given(form.essid)) ==> FormOptions(form) == FormOptions(form.(essid := None))
    ensures !(Given(form.useDeauth) && Given(form.deauth)) ==> FormOptions(form) == FormOptions(form.(deauth := None))
  {
  }

  // ---------------------------------------------------------------------
  // The options in the results URL

  /** wireless_scan_results: a non-empty options segment split on commas;
      none gives the empty list. */
  function UrlOptions(segment: Option<string>): (r: seq<string>)
    ensures segment.None? || segment == Some("") ==> r == []
  {
    if segment.Some? && segment.value != "" then SplitOn(segment.value, ',') else []
  }

  lemma JoinOnStartsWithFirst(parts: seq<string>, sep: char)
    requires parts != []
    ensures |JoinOn(parts, sep)| >= |parts[0]|
  {
  }

  /** The form's options reach the results page unchanged when no option
      holds a comma. */
  lemma OptionsRoundTrip(options: seq<string>)
    requires forall i :: 0 <= i < |options| ==> options[i] != "" && ',' !in options[i]
    ensures UrlOptions(Some(JoinOn(options, ','))) == options
  {
    if options != [] {
      JoinOnStartsWithFirst(options, ',');
      SplitJoin(options, ',');
    }
  }

  /** A value holding a comma comes back as two options: an ESSID `a,b`
      arrives as `--essid a` and `b`. */
  lemma CommaSplitsOption(a: string, b: string)
    requires ',' !in a && ',' !in b
    ensures UrlOptions(Some(JoinOn(["--essid " + a + "," + b], ','))) == ["--essid " + a, b]
  {
    var s := "--essid " + a + "," + b;
    assert ',' !in "--essid " + a;
    assert s == ("--essid " + a) + [','] + b;
    SplitAppendSep("--essid " + a, ',', b);
    SplitNoSep(b, ',');
  }

  // ---------------------------------------------------------------------
  // The scan form

  datatype Reply = Redirect(target: string, scanType: string, options: string) | BadRequest(message: string)

  /** `request.form.get('target', '')`. */
  function TargetText(form: Form): string {
    if form.target.Some? then form.target.value else ""
  }

  const MissingTarget: string := "Error: Target interface or scan type not specified."

  class ScanForm {
    var scanning: bool
    var scanResults: string

    constructor ()
      ensures !scanning && scanResults == ""
    {
      scanning := false;
      scanResults := "";
    }

    /** POST /wireless: a blank target (after stripping) or a missing scan
        type gives 400 and changes nothing; otherwise scanning starts with
        empty results and the browser is sent to the results page with the
        options joined by commas. */
    method Submit(form: Form) returns (r: Reply)
      modifies this
      ensures (Strip(TargetText(form)) == "" || !Given(form.scanType)) ==>
                r == BadRequest(MissingTarget) && scanning == old(scanning) && scanResults == old(scanResults)
      ensures Strip(TargetText(form)) != "" && Given(form.scanType) ==>
                r == Redirect(Strip(TargetText(form)), form.scanType.value, JoinOn(FormOptions(form), ','))
                && scanning && scanResults == ""
    {
      var target := Strip(TargetText(form));
      var options := BuildOptions(form);
      if target == "" || !Given(form.scanType) {
        r := BadRequest(MissingTarget);
        return;
      }
      scanning := true;
      scanResults := "";
      r := Redirect(target, form.scanType.value, JoinOn(options, ','));
    }
  }

  // ---------------------------------------------------------------------
  // Merging parsed rows by BSSID

  predicate UniqueBssids(networks: seq<Entry>) {
    forall i, j :: 0 <= i < j < |networks| ==> networks[i].bssid != networks[j].bssid
  }

  function IndexOfBssid(networks: seq<Entry>, bssid: string): (r: Option<nat>)
    ensures r.Some? ==> r.value < |networks| && networks[r.value].bssid == bssid
    ensures r.None? ==> forall i :: 0 <= i < |networks| ==> networks[i].bssid != bssid
    decreases |networks|
  {
    if networks == [] then None
    else if networks[0].bssid == bssid then Some(0)
    else match IndexOfBssid(networks[1..], bssid)
      case None => None
      case Some(k) => Some(k + 1)
  }

  /** `networks[bssid].update(parsed)` for a known BSSID, otherwise a new
      entry at the end of the dictionary. */
  function Merge(networks: seq<Entry>, n: Network): seq<Entry>
  {
    match IndexOfBssid(networks, n.bssid)
      case Some(i) => networks[i := Entry(n.bssid, networks[i].data + FieldsOf(n))]
      case None => networks + [Entry(n.bssid, FieldsOf(n))]
  }

  /** Merging never duplicates a BSSID, keeps every other entry where it
      was, and leaves the merged network showing the parsed values. */
  lemma MergeKeepsUnique(networks: seq<Entry>, n: Network)
    requires UniqueBssids(networks)
    ensures UniqueBssids(Merge(networks, n))
    ensures |Merge(networks, n)| == |networks| + (if IndexOfBssid(networks, n.bssid).Some? then 0 else 1)
    ensures forall i :: 0 <= i < |networks| && networks[i].bssid != n.bssid ==> Merge(networks, n)[i] == networks[i]
  {
  }

  lemma MergeShowsParsed(networks: seq<Entry>, n: Network)
    ensures exists i :: 0 <= i < |Merge(networks, n)| && Merge(networks, n)[i].bssid == n.bssid
              && forall k :: k in FieldsOf(n) ==> k in Merge(networks, n)[i].data && Merge(networks, n)[i].data[k] == FieldsOf(n)[k]
  {
    var m := Merge(networks, n);
    match IndexOfBssid(networks, n.bssid)
      case Some(i) => assert m[i].bssid == n.bssid;
      case None => assert m[|networks|].bssid == n.bssid;
  }

  /** The networks after feeding the given lines one by one. */
  function MergeLines(networks: seq<Entry>, lines: seq<string>): seq<Entry>
    decreases |lines|
  {
    if lines == [] then networks
    else
      var before := MergeLines(networks, lines[..|lines| - 1]);
      match ParseScanOutput(lines[|lines| - 1])
        case Some(n) => Merge(before, n)
        case None => before
  }

  lemma {:induction false} MergeLinesUnique(networks: seq<Entry>, lines: seq<string>)
    requires UniqueBssids(networks)
    ensures UniqueBssids(MergeLines(networks, lines))
    decreases |lines|
  {
    if lines != [] {
      MergeLinesUnique(networks, lines[..|lines| - 1]);
      var before := MergeLines(networks, lines[..|lines| - 1]);
      match ParseScanOutput(lines[|lines| - 1])
        case Some(n) => MergeKeepsUnique(before, n);
        case None =>
    }
  }

  /** The event a line sends: the whole table after it was merged. */
  function Event(html: string): string {
    "data: " + html + "\n\n"
  }

  /** The events a run of lines sends: one per parsed line, each carrying
      the table as it stood right after that line was merged. */
  function EventsOf(networks: seq<Entry>, lines: seq<string>): seq<string>
    decreases |lines|
  {
    if lines == [] then []
    else
      var earlier := EventsOf(networks, lines[..|lines| - 1]);
      match ParseScanOutput(lines[|lines| - 1])
        case Some(n) => earlier + [Event(NetworksHtml(MergeLines(networks, lines)))]
        case None => earlier
  }

  /** A run never sends more events than it read lines. */
  lemma {:induction false} EventsOfBounded(networks: seq<Entry>, lines: seq<string>)
    ensures |EventsOf(networks, lines)| <= |lines|
    decreases |lines|
  {
    if lines != [] {
      EventsOfBounded(networks, lines[..|lines| - 1]);
    }
  }

  class ScanStream {
    var networks: seq<Entry>
    var scanResults: string

    constructor ()
      ensures networks == [] && scanResults == ""
    {
      networks := [];
      scanResults := "";
    }

    /** One line of scan output: a parsed row is merged and the refreshed
        table is both stored and sent; any other line sends nothing. */
    method Feed(line: string) returns (event: Option<string>)
      modifies this
      ensures ParseScanOutput(line).None? ==> event.None? && networks == old(networks) && scanResults == old(scanResults)
      ensures ParseScanOutput(line).Some? ==>
                networks == Merge(old(networks), ParseScanOutput(line).value)
                && scanResults == NetworksHtml(networks) && event == Some(Event(scanResults))
    {
      event := None;
      var parsed := ParseScanOutput(line);
      if parsed.Some? {
        networks := Merge(networks, parsed.value);
        scanResults := FormatNetworks(networks);
        event := Some(Event(scanResults));
      }
    }

    /** The stream's loop over the scan's lines. */
    method Run(lines: seq<string>) returns (events: seq<string>)
      modifies this
      ensures networks == MergeLines(old(networks), lines)
      ensures UniqueBssids(old(networks)) ==> UniqueBssids(networks)
      ensures events == EventsOf(old(networks), lines)
      ensures |events| <= |lines|
    {
      events := [];
      for i := 0 to |lines|
        invariant networks == MergeLines(old(networks), lines[..i])
        invariant events == EventsOf(old(networks), lines[..i])
      {
        assert lines[..i + 1][..i] == lines[..i];
        var e := Feed(lines[i]);
        if e.Some? {
          events := events + [e.value];
        }
      }
      assert lines[..|lines|] == lines;
      EventsOfBounded(old(networks), lines);
      if UniqueBssids(old(networks)) {
        MergeLinesUnique(old(networks), lines);
      }
    }
  }
}
