/** The interface helpers of storage/scripts/nsatt_web/modules/network_adapters.py:
    the adapter list with up/down status, the adapter toggle, and the
    iwconfig-based mode switch and listing. Command outputs are inputs;
    `subprocess.getoutput` reports failures in its output, so the exception
    handlers around it are not modelled. */
module NetworkAdapters {
  import opened Strings
  import WM = WirelessModes

  /** One `{'name': ..., 'status': ...}` dictionary. */
  datatype Adapter = Adapter(name: string, status: string)

  /** One `{'interface': ..., 'status': ...}` dictionary; the interface is
      None when a "Mode:" line comes before any interface line. */
  datatype ModeEntry = ModeEntry(iface: Option<string>, status: string)

  /** get_adapter_status: "up" exactly when the name occurs anywhere in the
      ifconfig output, "down" otherwise. */
  function AdapterStatus(name: string, ifconfig: string): (s: string)
    ensures s == "up" <==> Contains(ifconfig, name)
    ensures s == "up" || s == "down"
  {
    if Contains(ifconfig, name) then "up" else "down"
  }

  /** The adapter names: every non-empty line of the `ip link` output, stripped. */
  function AdapterNames(lines: seq<string>): (names: seq<string>)
    decreases |lines|
  {
    if lines == [] then []
    else AdapterNames(lines[..|lines| - 1]) + (if lines[|lines| - 1] != "" then [Strip(lines[|lines| - 1])] else [])
  }

  /** get_network_adapters: one entry per adapter name, in order, each with
      its status. */
  function GetNetworkAdapters(linkOutput: string, ifconfig: string): (r: seq<Adapter>)
    ensures |r| == |AdapterNames(SplitOn(linkOutput, '\n'))|
    ensures forall k :: 0 <= k < |r| ==>
      r[k].name == AdapterNames(SplitOn(linkOutput, '\n'))[k] && (r[k].status == "up" <==> Contains(ifconfig, r[k].name))
  {
    var names := AdapterNames(SplitOn(linkOutput, '\n'));
    seq(|names|, k requires 0 <= k < |names| => Adapter(names[k], AdapterStatus(names[k], ifconfig)))
  }

  /** Every name comes from a non-empty line and carries no surrounding space. */
  lemma {:induction false} AdapterNamesStripped(lines: seq<string>)
    ensures |AdapterNames(lines)| <= |lines|
    ensures forall k :: 0 <= k < |AdapterNames(lines)| ==> AdapterNames(lines)[k] == Strip(AdapterNames(lines)[k])
    decreases |lines|
  {
    if lines != [] {
      AdapterNamesStripped(lines[..|lines| - 1]);
      var l := lines[|lines| - 1];
      if l != "" {
        StripIdempotent(l);
      }
    }
  }

  lemma StripIdempotent(s: string)
    ensures Strip(Strip(s)) == Strip(s)
  {
    var t := Strip(s);
    if t != [] {
      assert !IsSpace(t[0]);
      assert !IsSpace(t[|t| - 1]);
    }
  }

  /** The action the toggle takes: down exactly when the adapter is up. */
  function ToggleAction(status: string): (a: string)
    ensures a == "down" <==> status == "up"
    ensures a == "down" || a == "up"
  {
    if status == "up" then "down" else "up"
  }

  /** toggle_network_adapter: one `ip link set` command and the sentence
      naming the action taken. */
  function ToggleNetworkAdapter(name: string, ifconfig: string): (r: (string, string))
    ensures r.1 == "sudo ip link set " + name + " " + ToggleAction(AdapterStatus(name, ifconfig))
    ensures Contains(ifconfig, name) ==> r.0 == "Adapter " + name + " turned down."
    ensures !Contains(ifconfig, name) ==> r.0 == "Adapter " + name + " turned up."
  {
    var action := ToggleAction(AdapterStatus(name, ifconfig));
    ("Adapter " + name + " turned " + action + ".", "sudo ip link set " + name + " " + action)
  }

  /** The mode the iwconfig report asks for: a monitor interface goes to
      managed, a managed one to monitor; a report naming neither gives no
      mode (Monitor is tested first). */
  function TargetMode(config: string): (m: Option<string>)
    ensures Contains(config, "Mode:Monitor") ==> m == Some("managed")
    ensures !Contains(config, "Mode:Monitor") && Contains(config, "Mode:Managed") ==> m == Some("monitor")
    ensures m.None? <==> !Contains(config, "Mode:Monitor") && !Contains(config, "Mode:Managed")
  {
    if Contains(config, "Mode:Monitor") then Some("managed")
    else if Contains(config, "Mode:Managed") then Some("monitor")
    else None
  }

  /** toggle_wireless_mode(interface, _): reads the current mode itself
      (ignoring the mode the caller sent); an undeterminable mode returns
      an error and runs no command; otherwise three commands run and the
      switch counts as done when the new mode's name occurs in the lower-cased
      verification output. */
  function ToggleWirelessMode(iface: string, config: string, verification: string): (r: (string, seq<string>))
    ensures TargetMode(config).None? ==> r == ("Error: Could not determine current mode for " + iface + ".", [])
    ensures TargetMode(config).Some? ==> r.1 == WM.ToggleCommands(iface, TargetMode(config).value)
    ensures TargetMode(config).Some? ==>
      (StartsWith(r.0, "Interface ") <==> Contains(Lower(verification), TargetMode(config).value))
  {
    match TargetMode(config)
      case None => ("Error: Could not determine current mode for " + iface + ".", [])
      case Some(m) =>
        var msg := if Contains(Lower(verification), m)
          then "Interface " + iface + " successfully switched to " + m + " mode."
          else "Failed to switch " + iface + " to " + m + " mode. Current mode: " + verification;
        assert !Contains(Lower(verification), m) ==> msg[0] == 'F';
        (msg, WM.ToggleCommands(iface, m))
  }

  /** The loop's variables: the interface last named and the entries so far. */
  datatype ScanState = ScanState(iface: Option<string>, modes: seq<ModeEntry>)

  /** One iteration of get_wireless_modes' loop: blank lines are skipped; a
      line not starting with a space names the interface; a "Mode:" line adds
      an entry for the current interface. */
  function Step(st: ScanState, line: string): Result<ScanState>
  {
    if Strip(line) == [] then Ok(st)
    else
      var header := !StartsWith(line, " ");
      var iface := if header then WM.FirstWord(line) else st.iface;
      if header && iface.None? then Err(WM.IndexErrorText)
      else if !WM.HasMode(line) then Ok(ScanState(iface, st.modes))
      else match WM.ModeToken(line)
        case None => Err(WM.IndexErrorText)
        case Some(t) => Ok(ScanState(iface, st.modes + [ModeEntry(iface, t)]))
  }

  /** The loop run over `lines`, front to back. */
  function Scan(lines: seq<string>): Result<ScanState>
    decreases |lines|
  {
    if lines == [] then Ok(ScanState(None, []))
    else match Scan(lines[..|lines| - 1])
      case Err(e) => Err(e)
      case Ok(st) => Step(st, lines[|lines| - 1])
  }

  /** get_wireless_modes: the entries, `{'error': 'No wireless interfaces found'}`
      when there are none, or the exception text when the loop raised. */
  method GetWirelessModes(output: string) returns (r: Result<seq<ModeEntry>>)
    ensures var s := Scan(SplitOn(output, '\n'));
      r == if s.Err? then Err(s.error) else if s.value.modes == [] then Err("No wireless interfaces found") else Ok(s.value.modes)
  {
    var lines := SplitOn(output, '\n');
    var modes: seq<ModeEntry> := [];
    var iface: Option<string> := None;
    var i := 0;
    while i < |lines|
      invariant 0 <= i <= |lines|
      invariant Scan(lines[..i]) == Ok(ScanState(iface, modes))
    {
      var line := lines[i];
      assert lines[..i + 1][..i] == lines[..i];
      var next := Step(ScanState(iface, modes), line);
      if next.Err? {
        ScanStaysFailed(lines, i + 1);
        return Err(next.error);
      }
      StepShape(ScanState(iface, modes), line);
      if Strip(line) != [] {
        if !StartsWith(line, " ") {
          iface := WM.FirstWord(line);
        }
        if WM.HasMode(line) {
          var mode := WM.ModeToken(line).value;
          modes := modes + [ModeEntry(iface, mode)];
        }
      }
      i := i + 1;
    }
    assert lines[..i] == lines;
    if modes == [] {
      return Err("No wireless interfaces found");
    }
    return Ok(modes);
  }

  /** A step that does not fail: the interface from a header line, and one
      more entry for a "Mode:" line. */
  lemma StepShape(st: ScanState, line: string)
    requires Step(st, line).Ok?
    ensures var header := Strip(line) != [] && !StartsWith(line, " ");
      Step(st, line).value.iface == (if header then WM.FirstWord(line) else st.iface)
    ensures Strip(line) != [] && WM.HasMode(line) ==>
      WM.ModeToken(line).Some? && Step(st, line).value.modes == st.modes + [ModeEntry(Step(st, line).value.iface, WM.ModeToken(line).value)]
    ensures !(Strip(line) != [] && WM.HasMode(line)) ==> Step(st, line).value.modes == st.modes
  {
  }

  lemma {:induction false} ScanStaysFailed(lines: seq<string>, n: nat)
    requires 0 < n <= |lines| && Scan(lines[..n]).Err?
    ensures Scan(lines).Err? && Scan(lines).error == WM.IndexErrorText
    decreases |lines| - n
  {
    if n < |lines| {
      assert lines[..n + 1][..n] == lines[..n];
      ScanStaysFailed(lines, n + 1);
    } else {
      assert lines[..n] == lines;
      ScanErrIsIndexError(lines);
    }
  }

  lemma {:induction false} ScanErrIsIndexError(lines: seq<string>)
    ensures Scan(lines).Err? ==> Scan(lines).error == WM.IndexErrorText
    decreases |lines|
  {
    if lines != [] {
      ScanErrIsIndexError(lines[..|lines| - 1]);
    }
  }

  /** The entries are exactly one per "Mode:" line; with no such line the
      listing reports that no wireless interface was found. */
  lemma {:induction false} ScanCountsModeLines(lines: seq<string>)
    ensures Scan(lines).Ok? ==> |Scan(lines).value.modes| == |WM.ModeLines(lines)|
    ensures Scan(lines).Ok? ==> forall k :: 0 <= k < |Scan(lines).value.modes| ==>
      Some(Scan(lines).value.modes[k].status) == WM.ModeToken(WM.ModeLines(lines)[k])
    decreases |lines|
  {
    if lines != [] {
      var init := lines[..|lines| - 1];
      var line := lines[|lines| - 1];
      ScanCountsModeLines(init);
      if Scan(lines).Ok? {
        var st := Scan(init).value;
        assert Scan(lines) == Step(st, line);
        StepShape(st, line);
        if WM.HasMode(line) {
          assert WM.ModeLines(lines) == WM.ModeLines(init) + [line];
          ModeLineNotBlank(line);
          var e := ModeEntry(Scan(lines).value.iface, WM.ModeToken(line).value);
          TokensAppend(st.modes, WM.ModeLines(init), e, line);
        } else {
          assert WM.ModeLines(lines) == WM.ModeLines(init);
        }
      }
    }
  }

  lemma TokensAppend(ms: seq<ModeEntry>, ml: seq<string>, e: ModeEntry, line: string)
    requires |ms| == |ml| && forall k :: 0 <= k < |ms| ==> Some(ms[k].status) == WM.ModeToken(ml[k])
    requires Some(e.status) == WM.ModeToken(line)
    ensures |ms + [e]| == |ml + [line]|
    ensures forall k :: 0 <= k < |ms + [e]| ==> Some((ms + [e])[k].status) == WM.ModeToken((ml + [line])[k])
  {
    assert forall k :: 0 <= k < |ms| ==> (ms + [e])[k] == ms[k] && (ml + [line])[k] == ml[k];
  }

  lemma NonSpaceNotBlank(s: string, i: nat)
    requires i < |s| && !IsSpace(s[i])
    ensures Strip(s) != []
  {
  }

  /** The interface an entry is filed under: the first word of the last
      non-blank line that does not start with a space. */
  function LastHeader(lines: seq<string>): Option<string>
    decreases |lines|
  {
    if lines == [] then None
    else
      var line := lines[|lines| - 1];
      if Strip(line) != [] && !StartsWith(line, " ") then WM.FirstWord(line) else LastHeader(lines[..|lines| - 1])
  }

  /** The loop's current interface is always the last interface line's name,
      and every entry is filed under the interface current at its line. */
  lemma {:induction false} ScanTracksHeader(lines: seq<string>)
    ensures Scan(lines).Ok? ==> Scan(lines).value.iface == LastHeader(lines)
    ensures Scan(lines).Ok? && lines != [] && WM.HasMode(lines[|lines| - 1]) ==>
      var ms := Scan(lines).value.modes; |ms| > 0 && ms[|ms| - 1].iface == LastHeader(lines)
    decreases |lines|
  {
    if lines != [] {
      var init := lines[..|lines| - 1];
      var line := lines[|lines| - 1];
      ScanTracksHeader(init);
      if Scan(init).Ok? {
        StepTracksHeader(Scan(init).value, line);
      }
    }
  }

  /** One step sets the interface from a header line, keeps it otherwise,
      and files a "Mode:" line's entry under it. */
  lemma StepTracksHeader(st: ScanState, line: string)
    ensures Step(st, line).Ok? ==>
      Step(st, line).value.iface == if Strip(line) != [] && !StartsWith(line, " ") then WM.FirstWord(line) else st.iface
    ensures Step(st, line).Ok? && WM.HasMode(line) ==>
      var ms := Step(st, line).value.modes; |ms| > 0 && ms[|ms| - 1].iface == Step(st, line).value.iface
  {
    if WM.HasMode(line) {
      ModeLineNotBlank(line);
    }
  }

  /** A "Mode:" line is never blank. */
  lemma ModeLineNotBlank(line: string)
    requires WM.HasMode(line)
    ensures Strip(line) != []
  {
    var c := ContainsWitness(line, "Mode:");
    assert line[c..c + 5] == "Mode:" && line[c] == line[c..c + 5][0];
    NonSpaceNotBlank(line, c);
  }
}
