/** The network HTTP routes (storage/scripts/nsatt_web/routes/network_routes.py):
    the iwconfig mode listing and switch, the wired settings, the nmcli
    wireless scan and the hotspot switch. Every command's ending is an input. */
module NetworkRoutes {
  import opened Strings
  import opened Shell
  import WM = WirelessModes

  /** One `{'ssid', 'signal_strength', 'security'}` dictionary. */
  datatype Network = Network(ssid: string, signal: int, security: string)

  /** The JSON body of a reply. */
  datatype Body =
    | Message(message: string)
    | Error(error: string)
    | Modes(modes: seq<WM.ModeEntry>)
    | Wired(ip: string, subnetMask: string, gateway: string, rawData: string)
    | WiredError(wiredError: string, rawIpInfo: string)
    | Networks(networks: seq<Network>)
    | Running(isRunning: bool)

  /** An HTTP reply; `Crash` is an exception escaping the route, which Flask
      answers with its own 500 page. */
  datatype Reply = Reply(code: int, body: Body) | Crash

  /** run_command: stripped standard output when the command exits with 0,
      otherwise a RuntimeError naming the command. The stripped error text
      goes into CalledProcessError's third argument, which is `output`, so
      the `e.stderr` the message quotes is always None. */
  function RunCommand(argv: seq<string>, c: Completion): (r: Result<string>)
    ensures Succeeded(c) <==> r.Ok?
    ensures r.Ok? ==> r.value == Strip(c.stdout)
    ensures c.Exited? && c.code != 0 ==> r == Err("Command '" + Join(argv, " ") + "' failed: None")
  {
    match c
      case Exited(code, out, err) =>
        if code == 0 then Ok(Strip(out)) else Err("Command '" + Join(argv, " ") + "' failed: None")
      case NotStarted(e) => Err("Unexpected error running command '" + Join(argv, " ") + "': " + e)
  }

  /** As written, the failure message of a command that exited with a
      non-zero status does not depend on what it printed to stderr. */
  lemma RunCommandIgnoresStderr(argv: seq<string>, code: int, out: string, err1: string, err2: string)
    requires code != 0
    ensures RunCommand(argv, Exited(code, out, err1)) == RunCommand(argv, Exited(code, out, err2))
    ensures RunCommand(argv, Exited(code, out, err1)).Err?
  {
  }

  /** run_command as evidently intended: the stripped stderr is passed as
      CalledProcessError's `stderr`, so the message quotes it. */
  function RunCommandFixed(argv: seq<string>, c: Completion): (r: Result<string>)
    ensures Succeeded(c) <==> r.Ok?
    ensures r.Ok? ==> r.value == Strip(c.stdout)
    ensures c.Exited? && c.code != 0 ==> r == Err("Command '" + Join(argv, " ") + "' failed: " + Strip(c.stderr))
  {
    match c
      case Exited(code, out, err) =>
        if code == 0 then Ok(Strip(out)) else Err("Command '" + Join(argv, " ") + "' failed: " + Strip(err))
      case NotStarted(e) => Err("Unexpected error running command '" + Join(argv, " ") + "': " + e)
  }

  /** The corrected messages of two failures tell their stripped stderr apart. */
  lemma RunCommandFixedQuotesStderr(argv: seq<string>, code: int, out: string, err1: string, err2: string)
    requires code != 0 && Strip(err1) != Strip(err2)
    ensures RunCommandFixed(argv, Exited(code, out, err1)) != RunCommandFixed(argv, Exited(code, out, err2))
  {
    var prefix := "Command '" + Join(argv, " ") + "' failed: ";
    var m1, m2 := prefix + Strip(err1), prefix + Strip(err2);
    assert m1[|prefix|..] == Strip(err1);
    assert m2[|prefix|..] == Strip(err2);
  }

  // ---------------------------------------------------------------- modes

  /** What get_wireless_modes' loop holds: the current interface and the entries. */
  datatype ModeScan = ModeScan(current: Option<string>, entries: seq<WM.ModeEntry>)

  /** One iteration: a non-empty line that does not start with a space names
      the interface; a "Mode:" line adds an entry when an interface is known. */
  function ModeStep(st: ModeScan, line: string): Result<ModeScan>
  {
    var current := if line != "" && !StartsWith(line, " ") then WM.FirstWord(line) else st.current;
    if line != "" && !StartsWith(line, " ") && current.None? then Err(WM.IndexErrorText)
    else if WM.HasMode(line) && current.Some? then
      match WM.ModeToken(line)
        case None => Err(WM.IndexErrorText)
        case Some(mode) => Ok(ModeScan(current, st.entries + [WM.ModeEntry(current.value, mode)]))
    else Ok(ModeScan(current, st.entries))
  }

  /** A step that does not fail: the interface from an interface line, and
      one more entry for a "Mode:" line once an interface is known. */
  lemma ModeStepShape(st: ModeScan, line: string)
    requires ModeStep(st, line).Ok?
    ensures var c := if line != "" && !StartsWith(line, " ") then WM.FirstWord(line) else st.current;
      ModeStep(st, line).value.current == c
      && (WM.HasMode(line) && c.Some? ==>
            WM.ModeToken(line).Some? && ModeStep(st, line).value.entries == st.entries + [WM.ModeEntry(c.value, WM.ModeToken(line).value)])
      && (!(WM.HasMode(line) && c.Some?) ==> ModeStep(st, line).value.entries == st.entries)
  {
  }

  function ModeScanOf(lines: seq<string>): Result<ModeScan>
    decreases |lines|
  {
    if lines == [] then Ok(ModeScan(None, []))
    else match ModeScanOf(lines[..|lines| - 1])
      case Err(e) => Err(e)
      case Ok(st) => ModeStep(st, lines[|lines| - 1])
  }

  /** The interface named by the last line that does not start with a space. */
  function LastInterface(lines: seq<string>): Option<string>
    decreases |lines|
  {
    if lines == [] then None
    else
      var line := lines[|lines| - 1];
      if line != "" && !StartsWith(line, " ") then WM.FirstWord(line) else LastInterface(lines[..|lines| - 1])
  }

  /** The current interface is the one the last interface line named; a
      "Mode:" line adds at most one entry, filed under that interface and
      carrying the word after "Mode:". */
  lemma {:induction false} ModeScanTracksInterface(lines: seq<string>)
    ensures ModeScanOf(lines).Ok? ==> ModeScanOf(lines).value.current == LastInterface(lines)
    ensures lines != [] && ModeScanOf(lines).Ok? && ModeScanOf(lines[..|lines| - 1]).Ok? ==>
      var before := ModeScanOf(lines[..|lines| - 1]).value.entries;
      var after := ModeScanOf(lines).value.entries;
      var line := lines[|lines| - 1];
      if WM.HasMode(line) && LastInterface(lines).Some? then
        after == before + [WM.ModeEntry(LastInterface(lines).value, WM.ModeToken(line).value)]
      else after == before
    decreases |lines|
  {
    if lines != [] {
      ModeScanTracksInterface(lines[..|lines| - 1]);
    }
  }

  /** Without any interface line no entry is produced. */
  lemma {:induction false} NoInterfaceNoModes(lines: seq<string>)
    requires forall k :: 0 <= k < |lines| ==> lines[k] == "" || StartsWith(lines[k], " ")
    ensures ModeScanOf(lines) == Ok(ModeScan(None, []))
    decreases |lines|
  {
    if lines != [] {
      NoInterfaceNoModes(lines[..|lines| - 1]);
    }
  }

  /** get_wireless_modes (the inner helper): `{'modes': [...]}`, or 500 with
      the failure text when iwconfig fails or a line cannot be read. */
  method GetWirelessModes(iwconfig: Completion) returns (r: Reply)
    ensures RunCommand(["iwconfig"], iwconfig).Err? ==>
      r == Reply(500, Error("Failed to fetch wireless modes: " + RunCommand(["iwconfig"], iwconfig).error))
    ensures RunCommand(["iwconfig"], iwconfig).Ok? ==>
      var s := ModeScanOf(SplitOn(RunCommand(["iwconfig"], iwconfig).value, '\n'));
      r == if s.Ok? then Reply(200, Modes(s.value.entries)) else Reply(500, Error("Failed to fetch wireless modes: " + s.error))
  {
    var out := RunCommand(["iwconfig"], iwconfig);
    if out.Err? {
      return Reply(500, Error("Failed to fetch wireless modes: " + out.error));
    }
    var scan := ScanModes(SplitOn(out.value, '\n'));
    if scan.Err? {
      return Reply(500, Error("Failed to fetch wireless modes: " + scan.error));
    }
    return Reply(200, Modes(scan.value.entries));
  }

  /** The loop over iwconfig's lines: the current interface and the entries. */
  method ScanModes(lines: seq<string>) returns (r: Result<ModeScan>)
    ensures r == ModeScanOf(lines)
  {
    var interfaces: seq<WM.ModeEntry> := [];
    var current: Option<string> := None;
    var i := 0;
    while i < |lines|
      invariant 0 <= i <= |lines|
      invariant ModeScanOf(lines[..i]) == Ok(ModeScan(current, interfaces))
    {
      var line := lines[i];
      assert lines[..i + 1][..i] == lines[..i];
      var next := ModeStep(ModeScan(current, interfaces), line);
      if next.Err? {
        ModeScanStaysFailed(lines, i + 1);
        return Err(next.error);
      }
      ModeStepShape(ModeScan(current, interfaces), line);
      if line != "" && !StartsWith(line, " ") {
        current := WM.FirstWord(line);
      }
      if WM.HasMode(line) && current.Some? {
        var mode := WM.ModeToken(line).value;
        interfaces := interfaces + [WM.ModeEntry(current.value, mode)];
      }
      i := i + 1;
    }
    assert lines[..i] == lines;
    return Ok(ModeScan(current, interfaces));
  }

  lemma {:induction false} ModeScanStaysFailed(lines: seq<string>, n: nat)
    requires 0 < n <= |lines| && ModeScanOf(lines[..n]).Err?
    ensures ModeScanOf(lines).Err? && ModeScanOf(lines).error == WM.IndexErrorText
    decreases |lines| - n
  {
    if n < |lines| {
      assert lines[..n + 1][..n] == lines[..n];
      ModeScanStaysFailed(lines, n + 1);
    } else {
      assert lines[..n] == lines;
      ModeScanErr(lines);
    }
  }

  lemma {:induction false} ModeScanErr(lines: seq<string>)
    ensures ModeScanOf(lines).Err? ==> ModeScanOf(lines).error == WM.IndexErrorText
    decreases |lines|
  {
    if lines != [] {
      ModeScanErr(lines[..|lines| - 1]);
    }
  }

  /** The /network/wireless_modes route as written: the helper's reply is
      unwrapped with `.get_json()`, which works on a plain response but not
      on the `(response, 500)` pair of the failure path, so the helper's
      error text is replaced by the AttributeError the unwrapping raises. */
  function NetworkWirelessModes(inner: Reply): (r: Reply)
    ensures inner.Reply? && inner.code == 200 && inner.body.Modes? ==> r == inner
    ensures inner.Reply? && inner.code != 200 ==>
      r == Reply(200, Error("Error fetching wireless modes: 'tuple' object has no attribute 'get_json'"))
  {
    match inner
      case Crash => Crash
      case Reply(code, body) =>
        if code != 200 then Reply(200, Error("Error fetching wireless modes: 'tuple' object has no attribute 'get_json'"))
        else match body
          case Error(e) => Reply(200, Error(e))
          case _ => Reply(200, body)
  }

  /** The route as evidently intended: the helper's own error text is passed on. */
  function NetworkWirelessModesFixed(inner: Reply): (r: Reply)
    ensures inner.Reply? && inner.body.Error? ==> r == Reply(200, Error(inner.body.error))
    ensures inner.Reply? && inner.body.Modes? ==> r == Reply(200, inner.body)
  {
    match inner
      case Crash => Crash
      case Reply(_, body) => Reply(200, body)
  }

  /** A failed iwconfig call: the route as written loses its error text,
      the corrected route keeps it. */
  lemma WirelessModesErrorLost()
    ensures var inner := Reply(500, Error("Failed to fetch wireless modes: Command 'iwconfig' failed: None"));
      NetworkWirelessModes(inner).body.error != inner.body.error
      && NetworkWirelessModesFixed(inner).body.error == inner.body.error
  {
  }

  // -------------------------------------------------------------- toggle

  /** The mode the route switches to: managed exactly when the caller said
      the interface is in monitor mode. */
  function NewMode(currentMode: string): (m: string)
    ensures m == "managed" <==> currentMode == "monitor"
    ensures m == "managed" || m == "monitor"
  {
    WM.NewMode(currentMode)
  }

  /** The text the verification output must contain: "Mode:Managed" or "Mode:Monitor". */
  function ExpectedMode(newMode: string): string {
    "Mode:" + Capitalize(newMode)
  }

  lemma ExpectedModes()
    ensures ExpectedMode("managed") == "Mode:Managed" && ExpectedMode("monitor") == "Mode:Monitor"
  {
    CapitalizeLowerWord("managed", "Managed");
    CapitalizeLowerWord("monitor", "Monitor");
  }

  /** Capitalizing a lower-case word only raises its first letter. */
  lemma CapitalizeLowerWord(w: string, c: string)
    requires |w| > 0 && forall i :: 0 <= i < |w| ==> 'a' <= w[i] <= 'z'
    requires c == [UpperChar(w[0])] + w[1..]
    ensures Capitalize(w) == c
  {
    LowerOfLowerCase(w[1..]);
  }

  /** toggle_wireless_mode: down, mode change, up, then a verification
      read; the first failing command ends the route with 500, and success
      needs the verification to contain "Mode:" followed by the capitalised
      new mode. */
  function ToggleWirelessMode(iface: string, currentMode: string, down: Completion, setMode: Completion, up: Completion, verify: Completion): (r: Reply)
    ensures r.Reply?
    ensures r.code == 200 <==>
      Succeeded(down) && Succeeded(setMode) && Succeeded(up) && Succeeded(verify)
      && Contains(Strip(verify.stdout), ExpectedMode(NewMode(currentMode)))
    ensures r.code == 200 ==> r.body == Message("Interface " + iface + " successfully switched to " + NewMode(currentMode) + " mode.")
    ensures r.code != 200 ==> r.code == 500 && r.body.Error? && StartsWith(r.body.error, "Error toggling wireless mode for " + iface + ": ")
  {
    var m := NewMode(currentMode);
    var steps := [(["sudo", "ifconfig", iface, "down"], down), (["sudo", "iwconfig", iface, "mode", m], setMode),
                  (["sudo", "ifconfig", iface, "up"], up), (["iwconfig", iface], verify)];
    assert steps[0].1 == down && steps[1].1 == setMode && steps[2].1 == up && steps[3].1 == verify;
    var failure := FirstFailure(steps);
    if failure.None? && Contains(Strip(verify.stdout), ExpectedMode(m)) then
      Reply(200, Message("Interface " + iface + " successfully switched to " + m + " mode."))
    else
      var e := if failure.Some? then failure.value else "Failed to switch " + iface + " to " + m + " mode.";
      ToggleError(iface, e)
  }

  function ToggleError(iface: string, e: string): (r: Reply)
    ensures r.Reply? && r.code == 500 && r.body.Error? && StartsWith(r.body.error, "Error toggling wireless mode for " + iface + ": ")
  {
    var prefix := "Error toggling wireless mode for " + iface + ": ";
    assert (prefix + e)[..|prefix|] == prefix;
    Reply(500, Error(prefix + e))
  }

  /** The error of the first command that fails, running them in order. */
  function FirstFailure(steps: seq<(seq<string>, Completion)>): (e: Option<string>)
    ensures e.None? <==> forall k :: 0 <= k < |steps| ==> Succeeded(steps[k].1)
  {
    if steps == [] then None
    else if !Succeeded(steps[0].1) then Some(RunCommand(steps[0].0, steps[0].1).error)
    else
      var rest := FirstFailure(steps[1..]);
      assert forall k :: 1 <= k < |steps| ==> steps[k] == steps[1..][k - 1];
      rest
  }

  // --------------------------------------------------------------- wired

  /** The first line containing "inet", if any (the loop breaks there). */
  function FirstInetLine(lines: seq<string>): (r: Option<nat>)
    ensures r.Some? ==> r.value < |lines| && Contains(lines[r.value], "inet")
    ensures r.Some? ==> forall k :: 0 <= k < r.value ==> !Contains(lines[k], "inet")
    ensures r.None? ==> forall k :: 0 <= k < |lines| ==> !Contains(lines[k], "inet")
  {
    if lines == [] then None
    else if Contains(lines[0], "inet") then Some(0)
    else match FirstInetLine(lines[1..])
      case None => None
      case Some(k) => Some(k + 1)
  }

  const Unavailable: string := "Unavailable"

  /** The address and subnet mask one inet line gives: the second word is
      `ip/len`; when a non-empty length follows the '/', the mask is what
      follows the '=' of the ipcalc output. None stands for the IndexError. */
  function InetFields(line: string, ipcalc: string): Option<(string, string)>
  {
    var ws := Words(line);
    if |ws| < 2 then None
    else
      var cidr := ws[1];
      var pieces := SplitOn(cidr, '/');
      if |pieces| >= 2 && pieces[1] != "" then
        var eq := SplitOn(ipcalc, '=');
        if |eq| < 2 then None else Some((pieces[0], Strip(eq[1])))
      else Some((pieces[0], Unavailable))
  }

  /** get_wired_settings as written. When the first `ip` command fails,
      the error handler itself names `ip_info`, which was never assigned:
      the UnboundLocalError escapes and the route crashes. */
  method GetWiredSettings(ipCmd: Completion, routeCmd: Completion, ipcalcCmd: Completion) returns (r: Reply)
    ensures RunCommand(["ip", "-4", "addr", "show", "eth0"], ipCmd).Err? ==> r == Crash
    ensures RunCommand(["ip", "-4", "addr", "show", "eth0"], ipCmd).Ok? ==>
      r == WiredFromInfo(RunCommand(["ip", "-4", "addr", "show", "eth0"], ipCmd).value, routeCmd, ipcalcCmd)
  {
    var ipInfo := RunCommand(["ip", "-4", "addr", "show", "eth0"], ipCmd);
    if ipInfo.Err? {
      return Crash;
    }
    r := WiredFromInfo(ipInfo.value, routeCmd, ipcalcCmd);
  }

  /** The reply once `ip_info` is known: address and mask from the first
      inet line, gateway from the third word of "default via ...", each
      "Unavailable" when absent; a malformed line gives the data-format error. */
  function WiredFromInfo(ipInfo: string, routeCmd: Completion, ipcalcCmd: Completion): (r: Reply)
    ensures r.Reply? && (r.code == 200 || r.code == 500)
    ensures r.code == 200 ==> r.body.Wired? && r.body.rawData == ipInfo
    ensures r.code == 200 && FirstInetLine(SplitLines(ipInfo)).None? ==>
      r.body.ip == Unavailable && r.body.subnetMask == Unavailable
    ensures r.code == 500 ==> r.body.WiredError? && r.body.rawIpInfo == ipInfo
  {
    var routeOut := RunCommand(["ip", "route", "show", "default"], routeCmd);
    if routeOut.Err? then
      Reply(500, WiredError("Failed to fetch wired settings: " + routeOut.error + " - Data: " + ipInfo, ipInfo))
    else
      match InetResult(ipInfo, ipcalcCmd)
        case Err(e) =>
          if e == "index" then
            Reply(500, WiredError("Failed to fetch wired settings: Incorrect data format - Data: " + ipInfo, ipInfo))
          else
            Reply(500, WiredError("Failed to fetch wired settings: " + e[4..] + " - Data: " + ipInfo, ipInfo))
        case Ok((ip, mask)) =>
          match GatewayOf(routeOut.value)
            case None =>
              Reply(500, WiredError("Failed to fetch wired settings: Incorrect data format - Data: " + ipInfo, ipInfo))
            case Some(gateway) =>
              Reply(200, Wired(ip, mask, gateway, ipInfo))
  }

  /** Address and mask from the first inet line, running ipcalc only when the
      address carries a non-empty prefix length; Err("index") is the
      IndexError, Err("run:" + e) the failing ipcalc. */
  function InetResult(ipInfo: string, ipcalcCmd: Completion): (r: Result<(string, string)>)
    ensures FirstInetLine(SplitLines(ipInfo)).None? ==> r == Ok((Unavailable, Unavailable))
  {
    var lines := SplitLines(ipInfo);
    match FirstInetLine(lines)
      case None => Ok((Unavailable, Unavailable))
      case Some(k) =>
        var ws := Words(lines[k]);
        if |ws| < 2 then Err("index")
        else
          var pieces := SplitOn(ws[1], '/');
          if |pieces| >= 2 && pieces[1] != "" then
            match RunCommand(["ipcalc", "-m", ws[1]], ipcalcCmd)
              case Err(e) => Err("run:" + e)
              case Ok(out) =>
                var eq := SplitOn(out, '=');
                if |eq| < 2 then Err("index") else Ok((pieces[0], Strip(eq[1])))
          else Ok((pieces[0], Unavailable))
  }
  /** With `ipcalc` succeeding, the fields are those of the first inet line,
      and an error exactly when that line is malformed. */
  lemma InetResultAgrees(ipInfo: string, ipcalcCmd: Completion)
    requires Succeeded(ipcalcCmd)
    ensures var r := InetResult(ipInfo, ipcalcCmd);
      (r.Ok? <==> InetOf(ipInfo, Strip(ipcalcCmd.stdout)).Some?) &&
      (r.Ok? ==> r.value == InetOf(ipInfo, Strip(ipcalcCmd.stdout)).value)
  {
    var lines := SplitLines(ipInfo);
    match FirstInetLine(lines)
      case None =>
      case Some(k) =>
        var ws := Words(lines[k]);
        if |ws| >= 2 {
          var pieces := SplitOn(ws[1], '/');
          if |pieces| >= 2 && pieces[1] != "" {
            var out := RunCommand(["ipcalc", "-m", ws[1]], ipcalcCmd);
            assert out == Ok(Strip(ipcalcCmd.stdout));
            assert InetOf(ipInfo, Strip(ipcalcCmd.stdout)) == InetFields(lines[k], Strip(ipcalcCmd.stdout));
          }
        }
  }


  /** When `ip route` and `ipcalc` both succeed, the reply is 200 exactly
      when the first inet line and the route are well formed, and then it
      carries the address before the '/', the mask after ipcalc's '=' and
      the word after "default via". */
  lemma WiredFromInfoValues(ipInfo: string, routeCmd: Completion, ipcalcCmd: Completion)
    requires Succeeded(routeCmd) && Succeeded(ipcalcCmd)
    ensures var r := WiredFromInfo(ipInfo, routeCmd, ipcalcCmd);
      var f := InetOf(ipInfo, Strip(ipcalcCmd.stdout));
      var g := GatewayOf(Strip(routeCmd.stdout));
      (r.code == 200 <==> f.Some? && g.Some?) &&
      (f.Some? && g.Some? ==> r == Reply(200, Wired(f.value.0, f.value.1, g.value, ipInfo)))
  {
    InetResultAgrees(ipInfo, ipcalcCmd);
    var routeOut := RunCommand(["ip", "route", "show", "default"], routeCmd);
    assert routeOut == Ok(Strip(routeCmd.stdout));
    match InetResult(ipInfo, ipcalcCmd)
      case Err(e) =>
      case Ok((ip, mask)) =>
        match GatewayOf(routeOut.value)
          case None =>
          case Some(gateway) =>
            assert WiredFromInfo(ipInfo, routeCmd, ipcalcCmd) == Reply(200, Wired(ip, mask, gateway, ipInfo));
  }

  /** get_wired_settings as evidently intended: a failing `ip` command is
      reported as a JSON error with empty raw data instead of crashing. */
  method GetWiredSettingsFixed(ipCmd: Completion, routeCmd: Completion, ipcalcCmd: Completion) returns (r: Reply)
    ensures r.Reply? && (r.code == 200 || r.code == 500)
    ensures RunCommand(["ip", "-4", "addr", "show", "eth0"], ipCmd).Err? ==>
      r == Reply(500, WiredError("Failed to fetch wired settings: " + RunCommand(["ip", "-4", "addr", "show", "eth0"], ipCmd).error, ""))
    ensures RunCommand(["ip", "-4", "addr", "show", "eth0"], ipCmd).Ok? ==>
      r == WiredFromInfo(RunCommand(["ip", "-4", "addr", "show", "eth0"], ipCmd).value, routeCmd, ipcalcCmd)
  {
    var ipInfo := RunCommand(["ip", "-4", "addr", "show", "eth0"], ipCmd);
    if ipInfo.Err? {
      return Reply(500, WiredError("Failed to fetch wired settings: " + ipInfo.error, ""));
    }
    r := WiredFromInfo(ipInfo.value, routeCmd, ipcalcCmd);
  }

  /** The gateway of the `ip route show default` output: the third word when
      it mentions "default via", "Unavailable" when it does not; None stands
      for the IndexError of a too-short line. */
  function GatewayOf(route: string): Option<string>
  {
    var ws := Words(route);
    if !Contains(route, "default via") then Some(Unavailable)
    else if |ws| < 3 then None
    else Some(ws[2])
  }

  /** Address and mask of the `ip addr` output: those of its first inet line,
      or both "Unavailable" when no line has "inet". */
  function InetOf(ipInfo: string, ipcalc: string): Option<(string, string)>
  {
    match FirstInetLine(SplitLines(ipInfo))
      case None => Some((Unavailable, Unavailable))
      case Some(k) => InetFields(SplitLines(ipInfo)[k], ipcalc)
  }

  /** A machine without eth0: `ip` exits with status 1. */
  lemma WiredSettingsCrashWithoutEth0()
    ensures var noEth0 := Exited(1, "", "Device \"eth0\" does not exist.");
      RunCommand(["ip", "-4", "addr", "show", "eth0"], noEth0).Err?
      && RunCommand(["ip", "-4", "addr", "show", "eth0"], noEth0).error != ""
  {
  }

  // ---------------------------------------------------------------- scan

  /** The network one `SSID:SIGNAL:SECURITY` line describes: an empty SSID
      is a hidden network, a missing signal is 0 and missing security
      'None'; a signal that is not an integer is None (int() raises). */
  function NetworkOf(line: string): Option<Network>
  {
    var parts := SplitOn(line, ':');
    var ssid := if parts[0] != "" then parts[0] else "Hidden Network";
    var security := if |parts| > 2 then parts[2] else "None";
    if |parts| > 1 then
      match ParseInt(parts[1])
        case None => None
        case Some(v) => Some(Network(ssid, v, security))
    else Some(Network(ssid, 0, security))
  }

  /** The defaults a line gets: 'Hidden Network' for an empty SSID, signal 0
      when the line has no second field, security 'None' when it has no
      third; the line yields nothing exactly when its signal is not an
      integer. */
  lemma NetworkOfDefaults(line: string)
    ensures var parts := SplitOn(line, ':');
      NetworkOf(line).Some? ==> NetworkOf(line).value.ssid == (if parts[0] == "" then "Hidden Network" else parts[0])
    ensures NetworkOf(line).Some? && |SplitOn(line, ':')| == 1 ==> NetworkOf(line).value.signal == 0
    ensures var parts := SplitOn(line, ':');
      NetworkOf(line).Some? ==> NetworkOf(line).value.security == (if |parts| > 2 then parts[2] else "None")
    ensures var parts := SplitOn(line, ':');
      NetworkOf(line).None? <==> |parts| > 1 && ParseInt(parts[1]).None?
  {
  }

  /** The networks of the first `lines`, or the first line whose signal failed. */
  function ScanOf(lines: seq<string>): Result<seq<Network>>
    decreases |lines|
  {
    if lines == [] then Ok([])
    else match ScanOf(lines[..|lines| - 1])
      case Err(e) => Err(e)
      case Ok(ns) =>
        match NetworkOf(lines[|lines| - 1])
          case None => Err(SplitOn(lines[|lines| - 1], ':')[1])
          case Some(n) => Ok(ns + [n])
  }

  /** One network per output line, in order, when every signal parses. */
  lemma {:induction false} ScanOneNetworkPerLine(lines: seq<string>)
    ensures ScanOf(lines).Ok? <==> forall k :: 0 <= k < |lines| ==> NetworkOf(lines[k]).Some?
    ensures ScanOf(lines).Ok? ==> |ScanOf(lines).value| == |lines|
  {
    ScanLength(lines);
    if ScanOf(lines).Ok? {
      forall k | 0 <= k < |lines| ensures NetworkOf(lines[k]).Some? {
        ScanNetworkAt(lines, k);
      }
    } else {
      var k := ScanFailsAt(lines);
    }
  }

  lemma {:induction false} ScanLength(lines: seq<string>)
    ensures ScanOf(lines).Ok? ==> |ScanOf(lines).value| == |lines|
    decreases |lines|
  {
    if lines != [] {
      ScanLength(lines[..|lines| - 1]);
    }
  }

  /** A failed scan has a line whose signal does not parse. */
  lemma {:induction false} ScanFailsAt(lines: seq<string>) returns (k: nat)
    requires ScanOf(lines).Err?
    ensures k < |lines| && NetworkOf(lines[k]).None?
    decreases |lines|
  {
    var init := lines[..|lines| - 1];
    if ScanOf(init).Err? {
      k := ScanFailsAt(init);
      assert lines[k] == init[k];
    } else {
      k := |lines| - 1;
    }
  }

  /** The k-th network listed is the one the k-th line yields. */
  lemma {:induction false} ScanNetworkAt(lines: seq<string>, k: nat)
    requires ScanOf(lines).Ok? && k < |lines|
    ensures |ScanOf(lines).value| == |lines| && NetworkOf(lines[k]) == Some(ScanOf(lines).value[k])
    decreases |lines|
  {
    var init := lines[..|lines| - 1];
    ScanLength(init);
    var ns := ScanOf(init).value;
    assert ScanOf(lines).value == ns + [NetworkOf(lines[|lines| - 1]).value];
    if k < |init| {
      ScanNetworkAt(init, k);
      assert lines[k] == init[k];
    }
  }

  /** scan_wireless: 400 without an adapter; otherwise one entry per line of
      the nmcli output, or 500 when a signal is not an integer or nmcli
      cannot be started. */
  method ScanWireless(adapter: string, nmcli: Completion) returns (r: Reply)
    ensures adapter == "" ==> r == Reply(400, Error("No network adapter specified"))
    ensures adapter != "" && nmcli.NotStarted? ==> r == Reply(500, Error("Failed to scan wireless networks: " + nmcli.reason))
    ensures adapter != "" && nmcli.Exited? ==>
      var s := ScanOf(SplitLines(nmcli.stdout));
      r == if s.Ok? then Reply(200, Networks(s.value))
           else Reply(500, Error("Failed to scan wireless networks: invalid literal for int() with base 10: '" + s.error + "'"))
  {
    if adapter == "" {
      return Reply(400, Error("No network adapter specified"));
    }
    if nmcli.NotStarted? {
      return Reply(500, Error("Failed to scan wireless networks: " + nmcli.reason));
    }
    var scan := ParseNetworks(SplitLines(nmcli.stdout));
    if scan.Err? {
      return Reply(500, Error("Failed to scan wireless networks: invalid literal for int() with base 10: '" + scan.error + "'"));
    }
    return Reply(200, Networks(scan.value));
  }

  /** The loop over nmcli's lines; the first unreadable signal ends it with
      that signal's text. */
  method ParseNetworks(lines: seq<string>) returns (r: Result<seq<Network>>)
    ensures r == ScanOf(lines)
  {
    var networks: seq<Network> := [];
    var i := 0;
    while i < |lines|
      invariant 0 <= i <= |lines|
      invariant ScanOf(lines[..i]) == Ok(networks)
    {
      assert lines[..i + 1][..i] == lines[..i];
      var n := NetworkOf(lines[i]);
      if n.None? {
        ScanStaysFailed(lines, i + 1);
        return Err(SplitOn(lines[i], ':')[1]);
      }
      networks := networks + [n.value];
      i := i + 1;
    }
    assert lines[..i] == lines;
    return Ok(networks);
  }

  lemma {:induction false} ScanStaysFailed(lines: seq<string>, n: nat)
    requires 0 < n <= |lines| && ScanOf(lines[..n]).Err?
    ensures ScanOf(lines) == ScanOf(lines[..n])
    decreases |lines| - n
  {
    if n < |lines| {
      assert lines[..n + 1][..n] == lines[..n];
      ScanStaysFailed(lines, n + 1);
    } else {
      assert lines[..n] == lines;
    }
  }

  // ------------------------------------------------------------- hotspot

  /** hostapd counts as running only when `systemctl is-active` exits with 0
      and prints exactly "active". */
  predicate HostapdActive(status: Completion) {
    status.Exited? && status.code == 0 && Strip(status.stdout) == "active"
  }

  /** toggle_hotspot: stop hostapd and the DHCP server when hostapd is
      active, start both otherwise; both commands always run, and the reply
      is 200 only when both exit with 0. */
  function ToggleHotspot(status: Completion, hostapd: Completion, dhcp: Completion): (r: (Reply, seq<string>))
    ensures status.Exited? && hostapd.Exited? ==> r.1 == (if HostapdActive(status)
      then ["sudo systemctl stop hostapd", "sudo systemctl stop isc-dhcp-server"]
      else ["sudo systemctl start hostapd", "sudo systemctl start isc-dhcp-server"])
    ensures r.0.Reply? && (r.0.code == 200 <==> status.Exited? && Succeeded(hostapd) && Succeeded(dhcp))
    ensures r.0.code == 200 ==> r.0.body == Message(if HostapdActive(status)
      then "Hotspot and DHCP server stopped successfully" else "Hotspot and DHCP server started successfully")
    ensures r.0.code != 200 ==> r.0.code == 500 && r.0.body.Error?
  {
    match status
      case NotStarted(e) => (Reply(500, Error("Error toggling hotspot: " + e)), [])
      case Exited(_, _, _) =>
        var stop := HostapdActive(status);
        var verb := if stop then "stop" else "start";
        var cmds := if stop then ["sudo systemctl stop hostapd", "sudo systemctl stop isc-dhcp-server"]
          else ["sudo systemctl start hostapd", "sudo systemctl start isc-dhcp-server"];
        if hostapd.NotStarted? then (Reply(500, Error("Error toggling hotspot: " + hostapd.reason)), cmds[..1])
        else if dhcp.NotStarted? then (Reply(500, Error("Error toggling hotspot: " + dhcp.reason)), cmds)
        else if hostapd.code == 0 && dhcp.code == 0 then
          (Reply(200, Message(if stop then "Hotspot and DHCP server stopped successfully" else "Hotspot and DHCP server started successfully")), cmds)
        else
          (Reply(500, Error("Error toggling hotspot: Failed to " + verb + " hotspot or DHCP server: " + Strip(hostapd.stderr) + " " + Strip(dhcp.stderr))), cmds)
  }

  /** hotspot_status: `is_running` is true exactly when hostapd is active. */
  function HotspotStatus(status: Completion): (r: Reply)
    ensures status.Exited? ==> r == Reply(200, Running(HostapdActive(status)))
    ensures status.NotStarted? ==> r.Reply? && r.code == 500
  {
    match status
      case Exited(code, out, _) => Reply(200, Running(code == 0 && Strip(out) == "active"))
      case NotStarted(e) => Reply(500, Error("Error fetching hotspot status: " + e))
  }
}
