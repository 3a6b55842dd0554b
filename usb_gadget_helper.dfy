/** The USB gadget helper: the check of the boot and module configuration
    that USB gadget mode needs, and the parse of `lsusb -v` into device
    records. File contents and command results are inputs. */
module UsbGadgetHelper {
  import opened Strings

  /** Reading a file: its text, or the error it raised. */
  datatype FileRead = Read(text: string) | ReadFailed(reason: string)

  /** `modprobe -n m`: its exit code, or the error running it raised. */
  datatype Probe = Exited(code: int) | Raised(reason: string)

  const RequiredModules: seq<string> := ["dwc2", "libcomposite", "g_mass_storage", "g_ether"]

  /** The issues found in `/boot/config.txt`. */
  function ConfigTxtIssues(config: FileRead): seq<string> {
    match config
    case ReadFailed(e) => ["Failed to check config.txt: " + e]
    case Read(t) => if Contains(t, "dtoverlay=dwc2") then [] else ["dtoverlay=dwc2 missing from /boot/config.txt"]
  }

  /** The issues found in `/etc/modules`. */
  function ModulesIssues(modules: FileRead): seq<string> {
    match modules
    case ReadFailed(e) => ["Failed to check /etc/modules: " + e]
    case Read(t) =>
      (if Contains(t, "dwc2") then [] else ["dwc2 module not loaded in /etc/modules"])
      + (if Contains(t, "libcomposite") then [] else ["libcomposite module not loaded in /etc/modules"])
  }

  /** The issues found in `/boot/cmdline.txt`. */
  function CmdlineIssues(cmdline: FileRead): seq<string> {
    match cmdline
    case ReadFailed(e) => ["Failed to check cmdline.txt: " + e]
    case Read(t) =>
      if Contains(t, "modules-load=dwc2,libcomposite") then [] else ["modules-load=dwc2,libcomposite missing from cmdline.txt"]
  }

  /** The issue, if any, for one required kernel module. */
  function ModuleIssue(m: string, p: Probe): seq<string> {
    match p
    case Raised(e) => ["Failed to check module " + m + ": " + e]
    case Exited(code) => if code != 0 then ["Module " + m + " not available"] else []
  }

  /** The issues for the first `n` required modules, in order. */
  function ModuleIssues(n: nat, probe: string -> Probe): seq<string>
    requires n <= |RequiredModules|
  {
    if n == 0 then [] else ModuleIssues(n - 1, probe) + ModuleIssue(RequiredModules[n - 1], probe(RequiredModules[n - 1]))
  }

  /** Every issue `check_system_config` reports, in the order of its checks. */
  function SystemIssues(config: FileRead, modules: FileRead, cmdline: FileRead, probe: string -> Probe): seq<string> {
    ConfigTxtIssues(config) + ModulesIssues(modules) + CmdlineIssues(cmdline) + ModuleIssues(|RequiredModules|, probe)
  }

  predicate ModuleOk(p: Probe) {
    p.Exited? && p.code == 0
  }

  lemma {:induction false} ModuleIssuesEmpty(n: nat, probe: string -> Probe)
    requires n <= |RequiredModules|
    ensures ModuleIssues(n, probe) == [] <==> forall k :: 0 <= k < n ==> ModuleOk(probe(RequiredModules[k]))
  {
    if n > 0 {
      ModuleIssuesEmpty(n - 1, probe);
      assert ModuleIssue(RequiredModules[n - 1], probe(RequiredModules[n - 1])) == [] <==> ModuleOk(probe(RequiredModules[n - 1]));
    }
  }

  /** A read failure gives exactly one issue for that file and raises nothing;
      a missing entry gives an issue naming it. */
  lemma FileIssuesMeans(config: FileRead, modules: FileRead, cmdline: FileRead)
    ensures config.ReadFailed? ==> ConfigTxtIssues(config) == ["Failed to check config.txt: " + config.reason]
    ensures modules.ReadFailed? ==> ModulesIssues(modules) == ["Failed to check /etc/modules: " + modules.reason]
    ensures cmdline.ReadFailed? ==> CmdlineIssues(cmdline) == ["Failed to check cmdline.txt: " + cmdline.reason]
    ensures config.Read? ==> (ConfigTxtIssues(config) == [] <==> Contains(config.text, "dtoverlay=dwc2"))
    ensures modules.Read? ==> (ModulesIssues(modules) == [] <==>
                               Contains(modules.text, "dwc2") && Contains(modules.text, "libcomposite"))
    ensures cmdline.Read? ==> (CmdlineIssues(cmdline) == [] <==> Contains(cmdline.text, "modules-load=dwc2,libcomposite"))
  {
  }

  /** No issue is reported exactly when the three files were read and carry
      their entries, and every required module is available. */
  lemma NoIssuesMeans(config: FileRead, modules: FileRead, cmdline: FileRead, probe: string -> Probe)
    ensures SystemIssues(config, modules, cmdline, probe) == [] <==>
      config.Read? && Contains(config.text, "dtoverlay=dwc2")
      && modules.Read? && Contains(modules.text, "dwc2") && Contains(modules.text, "libcomposite")
      && cmdline.Read? && Contains(cmdline.text, "modules-load=dwc2,libcomposite")
      && forall m :: m in RequiredModules ==> ModuleOk(probe(m))
  {
    ModuleIssuesEmpty(|RequiredModules|, probe);
    FileIssuesMeans(config, modules, cmdline);
  }

  /** `check_system_config`: the issues list is built check by check. */
  method CheckSystemConfig(config: FileRead, modules: FileRead, cmdline: FileRead, probe: string -> Probe)
    returns (issues: seq<string>)
    ensures issues == SystemIssues(config, modules, cmdline, probe)
  {
    issues := ConfigTxtIssues(config) + ModulesIssues(modules) + CmdlineIssues(cmdline);
    ghost var fileIssues := issues;
    for i := 0 to |RequiredModules|
      invariant issues == fileIssues + ModuleIssues(i, probe)
    {
      var m := RequiredModules[i];
      match probe(m) {
        case Raised(e) => issues := issues + ["Failed to check module " + m + ": " + e];
        case Exited(code) =>
          if code != 0 {
            issues := issues + ["Module " + m + " not available"];
          }
      }
    }
  }

  /** One device record; a field is absent until a line sets it. */
  datatype Device = Device(busInfo: Option<string>, manufacturer: Option<string>,
                           product: Option<string>, serial: Option<string>)

  /** The empty dictionary a parse starts from. */
  const Blank: Device := Device(None, None, None, None)

  /** A `Bus` line starts a record with `Unknown` details. */
  function NewRecord(line: string): Device {
    Device(Some(Strip(line)), Some("Unknown"), Some("Unknown"), Some("Unknown"))
  }

  /** A detail line: the text after the last occurrence of its keyword. */
  function Update(d: Device, line: string): (r: Device)
    ensures r.busInfo == d.busInfo
  {
    if Contains(line, "iManufacturer") then d.(manufacturer := Some(Strip(LastPiece(line, "iManufacturer"))))
    else if Contains(line, "iProduct") then d.(product := Some(Strip(LastPiece(line, "iProduct"))))
    else if Contains(line, "iSerial") then d.(serial := Some(Strip(LastPiece(line, "iSerial"))))
    else d
  }

  predicate IsBusLine(line: string) {
    StartsWith(line, "Bus")
  }

  /** The records completed so far and the one being filled. */
  datatype Scan = Scan(done: seq<Device>, current: Device)

  /** The parse state after `lines`. */
  function ScanLines(lines: seq<string>): Scan {
    if lines == [] then Scan([], Blank)
    else
      var s := ScanLines(lines[..|lines| - 1]);
      var line := lines[|lines| - 1];
      if IsBusLine(line) then Scan(s.done + (if s.current != Blank then [s.current] else []), NewRecord(line))
      else Scan(s.done, Update(s.current, line))
  }

  /** `get_connected_devices` on the output of `lsusb -v`. */
  function DevicesOf(output: string): seq<Device> {
    var s := ScanLines(SplitOn(output, '\n'));
    s.done + (if s.current != Blank then [s.current] else [])
  }

  function BusLines(lines: seq<string>): nat {
    if lines == [] then 0
    else BusLines(lines[..|lines| - 1]) + (if IsBusLine(lines[|lines| - 1]) then 1 else 0)
  }

  /** From the first `Bus` line on, there is one record per `Bus` line and
      every record carries its bus line. */
  lemma {:induction false} ScanFromBus(lines: seq<string>)
    requires lines != [] && IsBusLine(lines[0])
    ensures ScanLines(lines).current.busInfo.Some?
    ensures |ScanLines(lines).done| + 1 == BusLines(lines)
    ensures forall d :: d in ScanLines(lines).done ==> d.busInfo.Some?
    decreases |lines|
  {
    if |lines| > 1 {
      var init := lines[..|lines| - 1];
      assert init[0] == lines[0];
      ScanFromBus(init);
    } else {
      assert lines[..0] == [];
    }
  }

  /** Output whose first line is a `Bus` line gives one device per `Bus`
      line, each with its bus information. */
  lemma DevicesPerBusLine(output: string)
    requires IsBusLine(SplitOn(output, '\n')[0])
    ensures |DevicesOf(output)| == BusLines(SplitOn(output, '\n'))
    ensures forall d :: d in DevicesOf(output) ==> d.busInfo.Some?
  {
    ScanFromBus(SplitOn(output, '\n'));
  }

  /** A `Bus` line followed by lines without keywords gives one record with
      `Unknown` details. */
  lemma {:induction false} BusLineDefaults(bus: string, rest: seq<string>)
    requires IsBusLine(bus)
    requires forall l :: l in rest ==>
      !IsBusLine(l) && !Contains(l, "iManufacturer") && !Contains(l, "iProduct") && !Contains(l, "iSerial")
    ensures ScanLines([bus] + rest) == Scan([], NewRecord(bus))
    decreases |rest|
  {
    if rest == [] {
      assert ([bus] + rest)[..0] == [];
    } else {
      var init := rest[..|rest| - 1];
      assert ([bus] + rest)[..|[bus] + rest| - 1] == [bus] + init;
      BusLineDefaults(bus, init);
    }
  }

  /** `get_connected_devices`: the records are collected line by line; a
      failed `lsusb` gives none. */
  method GetConnectedDevices(output: Option<string>) returns (devices: seq<Device>)
    ensures output.None? ==> devices == []
    ensures output.Some? ==> devices == DevicesOf(output.value)
  {
    if output.None? {
      return [];
    }
    var lines := SplitOn(output.value, '\n');
    devices := [];
    var current := Blank;
    for i := 0 to |lines|
      invariant ScanLines(lines[..i]) == Scan(devices, current)
    {
      var line := lines[i];
      assert lines[..i + 1][..i] == lines[..i];
      if IsBusLine(line) {
        if current != Blank {
          devices := devices + [current];
        }
        current := NewRecord(line);
      } else {
        current := Update(current, line);
      }
    }
    assert lines[..|lines|] == lines;
    if current != Blank {
      devices := devices + [current];
    }
  }
}
