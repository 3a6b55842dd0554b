/** The command-line tool that sets how the Raspberry Pi presents itself on
    its USB port: the model check, the table of gadget modes per model, and
    the edits to `/boot/config.txt` and `/boot/cmdline.txt`. The two files'
    contents and the typed choice are inputs; the reboot question is left
    out. */
module SetGadgetMode {
  import opened Strings

  /** `determine_model`, on the text of `/proc/device-tree/model`. */
  function DetermineModel(info: string): (m: string)
    ensures m == "Zero 2 W" || m == "4 B" || m == "Unknown"
    ensures m == "Zero 2 W" <==> Contains(info, "Raspberry Pi Zero 2")
    ensures m == "4 B" <==> !Contains(info, "Raspberry Pi Zero 2") && Contains(info, "Raspberry Pi 4")
  {
    if Contains(info, "Raspberry Pi Zero 2") then "Zero 2 W"
    else if Contains(info, "Raspberry Pi 4") then "4 B"
    else "Unknown"
  }

  datatype UsbMode = UsbMode(name: string, gadget: string)

  /** The settings of a supported model. */
  datatype ModelSetup = ModelSetup(overlay: string, cmdModules: string, modes: map<string, UsbMode>)

  /** The supported models; `None` for any other. */
  function SetupOf(model: string): (s: Option<ModelSetup>)
    ensures s.Some? <==> model == "Zero 2 W" || model == "4 B"
    ensures s.Some? ==> s.value.overlay == "dtoverlay=dwc2" && "R" !in s.value.modes
  {
    var common := map["1" := UsbMode("Ethernet Gadget", "g_ether"), "2" := UsbMode("Serial Gadget", "g_serial"),
                      "3" := UsbMode("Mass Storage", "g_mass_storage"),
                      "4" := UsbMode("Multi-function (CDC + Mass Storage)", "g_multi")];
    if model == "Zero 2 W" then Some(ModelSetup("dtoverlay=dwc2", "rootwait modules-load=dwc2,g_ether", common))
    else if model == "4 B" then
      Some(ModelSetup("dtoverlay=dwc2", "rootwait modules-load=dwc2,g_multi", common["5" := UsbMode("RNDIS Ethernet", "g_rndis")]))
    else None
  }

  /** The Pi 4 offers RNDIS as a fifth mode; the Zero 2 W does not. */
  lemma ModeTables()
    ensures SetupOf("4 B").value.modes.Keys == {"1", "2", "3", "4", "5"}
    ensures SetupOf("Zero 2 W").value.modes.Keys == {"1", "2", "3", "4"}
    ensures SetupOf("4 B").value.modes["5"].gadget == "g_rndis"
  {
  }

  /** `readlines`: the pieces of `s` each ending after a newline, then the
      rest if it is not empty. */
  function LinesOf(s: string): (lines: seq<string>)
    decreases |s|
  {
    if s == [] then []
    else if '\n' !in s then [s]
    else
      var n := LineEnd(s);
      [s[..n]] + LinesOf(s[n..])
  }

  /** The length of the first line of `s` with its newline. */
  function LineEnd(s: string): (n: nat)
    requires '\n' in s
    ensures 0 < n <= |s| && s[n - 1] == '\n' && '\n' !in s[..n - 1]
  {
    if s[0] == '\n' then 1
    else
      assert s == [s[0]] + s[1..];
      var k := LineEnd(s[1..]);
      assert s[..k] == [s[0]] + s[1..][..k - 1];
      k + 1
  }

  function Concat(lines: seq<string>): string {
    if lines == [] then "" else lines[0] + Concat(lines[1..])
  }

  /** The lines of a file join back into the file. */
  lemma {:induction false} ConcatLines(s: string)
    ensures Concat(LinesOf(s)) == s
    decreases |s|
  {
    if s != [] && '\n' in s {
      var n := LineEnd(s);
      ConcatLines(s[n..]);
      assert s == s[..n] + s[n..];
    }
  }

  /** The lines waiting to be written back, filtered with the overlay. */
  function Without(lines: seq<string>, overlay: string): (r: seq<string>)
    decreases |lines|
  {
    if lines == [] then []
    else
      var last := lines[|lines| - 1];
      Without(lines[..|lines| - 1], overlay) + (if Contains(last, overlay) then [] else [last])
  }

  /** The lines written back are those without the overlay, each of them. */
  lemma {:induction false} WithoutKeeps(lines: seq<string>, overlay: string)
    ensures forall l :: l in Without(lines, overlay) <==> l in lines && !Contains(l, overlay)
    decreases |lines|
  {
    if lines != [] {
      var init := lines[..|lines| - 1];
      var last := lines[|lines| - 1];
      WithoutKeeps(init, overlay);
      assert lines == init + [last];
    }
  }

  /** `R` on `/boot/cmdline.txt`: the model's gadget entry removed. */
  function RemovedCmdline(cmdline: string, setup: ModelSetup): string {
    if |setup.cmdModules| == 0 then cmdline
    else Strip(ReplaceAll(cmdline, setup.cmdModules, ""))
  }

  /** The appended overlay line, when `config.txt` lacks it. */
  function ConfigForMode(config: string, overlay: string): (r: string)
    ensures Contains(r, overlay)
    ensures Contains(config, overlay) ==> r == config
  {
    if Contains(config, overlay) then config
    else
      ContainsMiddle(config + "\n", overlay, "\n");
      config + "\n" + overlay + "\n"
  }

  /** `rootwait modules-load=dwc2,<gadget>`. */
  function EntryFor(gadget: string): string {
    EntryPrefix + gadget
  }

  const EntryPrefix: string := "rootwait modules-load=dwc2,"

  lemma EntryChar(gadget: string, i: nat)
    requires |EntryPrefix| <= i < |EntryPrefix| + |gadget|
    ensures |EntryFor(gadget)| == 27 + |gadget| && EntryFor(gadget)[i] == gadget[i - 27]
  {
  }

  /** The mode choice on `/boot/cmdline.txt`, as written: an existing
      `modules-load=dwc2` is edited by replacing the model's default entry. */
  function CmdlineForModeAsWritten(cmdline: string, setup: ModelSetup, gadget: string): string {
    if Contains(cmdline, "modules-load=dwc2") then
      if |setup.cmdModules| == 0 then cmdline else ReplaceAll(cmdline, setup.cmdModules, EntryFor(gadget))
    else Strip(cmdline) + " " + EntryFor(gadget)
  }

  lemma EndsWithTail(a: string, b: string)
    ensures EndsWith(a + b, b)
  {
    assert (a + b)[|a + b| - |b|..] == b;
  }

  lemma {:induction false} ContainsShorter(s: string, sub: string)
    requires |s| < |sub|
    ensures !Contains(s, sub)
    decreases |s|
  {
    if s != [] {
      ContainsShorter(s[1..], sub);
    }
  }

  /** A text one character longer than `sub` contains it only as its
      first or last `|sub|` characters. */
  lemma ContainsOneLonger(s: string, sub: string)
    requires |s| == |sub| + 1
    ensures Contains(s, sub) ==> s[..|sub|] == sub || s[1..] == sub
  {
    var t := s[1..];
    assert t[..|sub|] == t;
    if |t| > 0 {
      ContainsShorter(t[1..], sub);
    }
    assert Contains(t, sub) ==> StartsWith(t, sub);
  }

  /** Switching a Zero 2 W from the serial gadget to mass storage leaves
      `cmdline.txt` as it was: the edit looks for the Ethernet entry only. */
  lemma ModeSwitchNotApplied()
    ensures CmdlineForModeAsWritten(EntryFor("g_serial"), SetupOf("Zero 2 W").value, "g_mass_storage") == EntryFor("g_serial")
    ensures !Contains(EntryFor("g_serial"), EntryFor("g_mass_storage"))
  {
    var c := EntryFor("g_serial");
    var setup := SetupOf("Zero 2 W").value;
    assert setup.cmdModules == EntryFor("g_ether");
    SerialEntryLacksEther();
    ContainsShorter(c, EntryFor("g_mass_storage"));
  }

  /** The serial gadget's entry names dwc2 but is not the Ethernet entry. */
  lemma SerialEntryLacksEther()
    ensures Contains(EntryFor("g_serial"), "modules-load=dwc2")
    ensures !Contains(EntryFor("g_serial"), EntryFor("g_ether"))
  {
    var c := EntryFor("g_serial");
    var e := EntryFor("g_ether");
    assert EntryPrefix == "rootwait " + "modules-load=dwc2" + ",";
    assert c == "rootwait " + "modules-load=dwc2" + ("," + "g_serial");
    ContainsPiece(c, "rootwait ", "modules-load=dwc2", "," + "g_serial");
    ContainsOneLonger(c, e);
    EntryChar("g_serial", 29);
    EntryChar("g_ether", 29);
    assert c[1] == 'o' && e[0] == 'r';
    assert c[..|e|] != e by {
      assert c[..|e|][29] == 's';
    }
    assert c[1..] != e by {
      assert c[1..][0] == 'o';
    }
  }

  /** The first of `entries` that occurs in `s`. */
  function FirstPresent(s: string, entries: seq<string>): (r: Option<string>)
    ensures r.Some? ==> r.value in entries && |r.value| > 0 && Contains(s, r.value)
    ensures r.None? ==> forall e :: e in entries && |e| > 0 ==> !Contains(s, e)
    decreases |entries|
  {
    if entries == [] then None
    else if |entries[0]| > 0 && Contains(s, entries[0]) then Some(entries[0])
    else FirstPresent(s, entries[1..])
  }

  /** The mode choice as evidently intended: whichever of the model's mode
      entries is present is replaced in place by the new one; without a
      `modules-load=dwc2` the new entry is appended. */
  function CmdlineForMode(cmdline: string, entries: seq<string>, gadget: string): string {
    if Contains(cmdline, "modules-load=dwc2") then
      match FirstPresent(cmdline, entries)
        case None => cmdline
        case Some(e) => ReplaceAll(cmdline, e, EntryFor(gadget))
    else Strip(cmdline) + " " + EntryFor(gadget)
  }

  /** Whenever one of the mode entries is present, or none of
      `modules-load=dwc2` is, the corrected edit leaves the chosen entry in
      the command line. */
  lemma CmdlineForModeSets(cmdline: string, entries: seq<string>, gadget: string)
    requires (exists e :: e in entries && |e| > 0 && Contains(cmdline, e)) || !Contains(cmdline, "modules-load=dwc2")
    ensures Contains(CmdlineForMode(cmdline, entries, gadget), EntryFor(gadget))
  {
    if Contains(cmdline, "modules-load=dwc2") {
      var e := FirstPresent(cmdline, entries).value;
      assert CmdlineForMode(cmdline, entries, gadget) == ReplaceAll(cmdline, e, EntryFor(gadget));
    } else {
      AppendedEndsWith(Strip(cmdline) + " ", EntryFor(gadget));
    }
  }

  /** Text appended to a line occurs in the result. */
  lemma AppendedEndsWith(head: string, g: string)
    ensures Contains(head + g, g)
  {
    var r := head + g;
    assert r[|r| - |g|..] == g;
    ContainsAt(r, g, |r| - |g|);
  }

  /** From any mode of the model, the corrected edit leaves the chosen
      mode's entry in the command line, where the edit as written
      (`ModeSwitchNotApplied`) leaves a Zero 2 W's serial entry in place. */
  lemma ModeSwitchApplied(cmdline: string, setup: ModelSetup, k: string, gadget: string)
    requires k in ModeKeys && k in setup.modes && Contains(cmdline, EntryFor(setup.modes[k].gadget))
    ensures Contains(CmdlineForMode(cmdline, ModeEntryList(setup), gadget), EntryFor(gadget))
  {
    var e := EntryFor(setup.modes[k].gadget);
    assert e in ModeEntryList(setup);
    CmdlineForModeSets(cmdline, ModeEntryList(setup), gadget);
  }

  /** The outcome of `configure_usb_mode`: its return value and the two
      files afterwards (`None` for a file that could not be read and so was
      not written). */
  datatype Outcome = Outcome(changed: bool, config: Option<string>, cmdline: Option<string>)

  /** The typed choice, stripped and upper-cased. */
  function Choice(raw: string): string {
    Upper(Strip(raw))
  }

  /** The `R` branch's rewrite of `config.txt`: every line is written back
      unless it holds the overlay. */
  method FilterConfig(lines: seq<string>, overlay: string) returns (kept: seq<string>)
    ensures kept == Without(lines, overlay)
  {
    kept := [];
    for i := 0 to |lines|
      invariant kept == Without(lines[..i], overlay)
    {
      assert lines[..i + 1][..i] == lines[..i];
      if !Contains(lines[i], overlay) {
        kept := kept + [lines[i]];
      }
    }
    assert lines[..|lines|] == lines;
  }

  /** The rewrite of `config.txt` for a valid choice. */
  method NewConfig(setup: ModelSetup, choice: string, config: string) returns (c: string)
    requires choice == "R" || choice in setup.modes
    ensures choice == "R" ==> c == Concat(Without(LinesOf(config), setup.overlay))
    ensures choice != "R" ==> c == ConfigForMode(config, setup.overlay)
  {
    if choice == "R" {
      var kept := FilterConfig(LinesOf(config), setup.overlay);
      c := Concat(kept);
    } else {
      c := ConfigForMode(config, setup.overlay);
    }
  }

  /** The rewrite of `cmdline.txt` for a valid choice, as written. */
  function NewCmdline(setup: ModelSetup, choice: string, cmdline: string): string
    requires choice == "R" || choice in setup.modes
  {
    if choice == "R" then RemovedCmdline(cmdline, setup)
    else CmdlineForModeAsWritten(cmdline, setup, setup.modes[choice].gadget)
  }

  /** `configure_usb_mode`: an unknown model or an invalid choice returns
      false and touches no file; a valid choice rewrites `config.txt` first,
      so a `cmdline.txt` that cannot be read leaves `config.txt` rewritten
      and returns false. */
  method ConfigureUsbMode(model: string, rawChoice: string, config: Option<string>, cmdline: Option<string>)
    returns (o: Outcome)
    ensures o.changed <==> SetupOf(model).Some? && config.Some? && cmdline.Some?
                           && (Choice(rawChoice) == "R" || Choice(rawChoice) in SetupOf(model).value.modes)
    ensures o.cmdline.Some? <==> cmdline.Some?
    ensures o.config.Some? <==> config.Some?
    ensures SetupOf(model).None? || config.None?
            || !(Choice(rawChoice) == "R" || Choice(rawChoice) in SetupOf(model).value.modes) ==>
      o.config == config && o.cmdline == cmdline
    ensures SetupOf(model).Some? && config.Some? && Choice(rawChoice) == "R" ==>
      o.config == Some(Concat(Without(LinesOf(config.value), SetupOf(model).value.overlay)))
    ensures SetupOf(model).Some? && config.Some? && Choice(rawChoice) in SetupOf(model).value.modes && Choice(rawChoice) != "R" ==>
      o.config == Some(ConfigForMode(config.value, SetupOf(model).value.overlay))
    ensures o.changed ==>
      o.cmdline == Some(NewCmdline(SetupOf(model).value, Choice(rawChoice), cmdline.value))
  {
    var setup := SetupOf(model);
    var choice := Choice(rawChoice);
    if setup.None? || !(choice == "R" || choice in setup.value.modes) || config.None? {
      o := Outcome(false, config, cmdline);
      return;
    }
    var c := NewConfig(setup.value, choice, config.value);
    if cmdline.None? {
      o := Outcome(false, Some(c), None);
      return;
    }
    o := Outcome(true, Some(c), Some(NewCmdline(setup.value, choice, cmdline.value)));
  }

  const ModeKeys: seq<string> := ["1", "2", "3", "4", "5"]

  /** The model's mode entries in the order of their keys. */
  function ModeEntryList(setup: ModelSetup): seq<string> {
    EntriesOf(ModeKeys, setup.modes)
  }

  function EntriesOf(keys: seq<string>, modes: map<string, UsbMode>): (r: seq<string>)
    ensures forall k :: k in keys && k in modes ==> EntryFor(modes[k].gadget) in r
  {
    if keys == [] then []
    else (if keys[0] in modes then [EntryFor(modes[keys[0]].gadget)] else []) + EntriesOf(keys[1..], modes)
  }
}
