/** The iwconfig helpers of the web panel
    (storage/scripts/nsatt_web/modules/wireless_modes.py): listing the
    wireless interfaces with their modes, and flipping one interface
    between monitor and managed. */
module WirelessModes {
  import opened Strings
  import opened Shell

  /** One `{'interface': ..., 'status': ...}` dictionary. */
  datatype ModeEntry = ModeEntry(iface: string, status: string)

  /** The message Python's IndexError carries. */
  const IndexErrorText: string := "list index out of range"

  predicate HasMode(line: string) {
    Contains(line, "Mode:")
  }

  /** `line.split()[0]`, absent when the line holds no word. */
  function FirstWord(line: string): (w: Option<string>)
    ensures w.None? <==> Words(line) == []
    ensures w.Some? ==> |w.value| > 0 && NoSpace(w.value) && w.value == Words(line)[0]
  {
    var ws := Words(line);
    if ws == [] then None else Some(ws[0])
  }

  /** `line.split("Mode:")[1].split()[0]`: the first word after the first
      "Mode:", absent when there is none (the source raises IndexError). */
  function ModeToken(line: string): (t: Option<string>)
    ensures t.Some? ==> HasMode(line) && |t.value| > 0 && NoSpace(t.value)
  {
    match SecondPiece(line, "Mode:")
      case None => None
      case Some(p) => FirstWord(p)
  }

  /** The entry one "Mode:" line yields, or None where the source raises. */
  function EntryOf(line: string): Option<ModeEntry>
  {
    match (FirstWord(line), ModeToken(line))
      case (Some(iface), Some(mode)) => Some(ModeEntry(iface, mode))
      case _ => None
  }

  /** What the loop has produced after reading `lines`, front to back. */
  function Modes(lines: seq<string>): Result<seq<ModeEntry>>
    decreases |lines|
  {
    if lines == [] then Ok([])
    else
      var line := lines[|lines| - 1];
      match Modes(lines[..|lines| - 1])
        case Err(e) => Err(e)
        case Ok(es) =>
          if !HasMode(line) then Ok(es)
          else match EntryOf(line)
            case None => Err(IndexErrorText)
            case Some(m) => Ok(es + [m])
  }

  /** The lines that contain "Mode:", in order. */
  function ModeLines(lines: seq<string>): (r: seq<string>)
    ensures forall k :: 0 <= k < |r| ==> HasMode(r[k])
    decreases |lines|
  {
    if lines == [] then []
    else ModeLines(lines[..|lines| - 1]) + (if HasMode(lines[|lines| - 1]) then [lines[|lines| - 1]] else [])
  }

  /** Only lines containing "Mode:" produce entries, one each, in order:
      the interface is the line's first word and the status the word after
      "Mode:". The listing fails exactly when some such line has no word
      after its "Mode:". */
  lemma {:induction false} ModesAreModeLines(lines: seq<string>)
    ensures Modes(lines).Err? <==> exists k :: 0 <= k < |ModeLines(lines)| && ModeToken(ModeLines(lines)[k]).None?
    ensures Modes(lines).Ok? ==>
      var es := Modes(lines).value;
      |es| == |ModeLines(lines)| &&
      forall k :: 0 <= k < |es| ==>
        Some(es[k].iface) == FirstWord(ModeLines(lines)[k]) && Some(es[k].status) == ModeToken(ModeLines(lines)[k])
    decreases |lines|
  {
    if lines != [] {
      var init := lines[..|lines| - 1];
      var line := lines[|lines| - 1];
      ModesAreModeLines(init);
      var ml := ModeLines(init);
      if HasMode(line) {
        assert ModeLines(lines) == ml + [line];
        var c := ContainsWitness(line, "Mode:");
        assert line[c..c + 5] == "Mode:" && line[c] == line[c..c + 5][0];
        WordsHasNonSpace(line, c);
        var all := ml + [line];
        assert all[|ml|] == line;
        assert forall k :: 0 <= k < |ml| ==> all[k] == ml[k];
        if Modes(init).Err? {
          var k :| 0 <= k < |ml| && ModeToken(ml[k]).None?;
          assert ModeToken(all[k]).None?;
        } else if ModeToken(line).None? {
          assert ModeToken(all[|ml|]).None?;
        }
      } else {
        assert ModeLines(lines) == ml;
      }
    }
  }

  /** A text with a non-space character has a first word. */
  lemma {:induction false} WordsHasNonSpace(s: string, i: nat)
    requires i < |s| && !IsSpace(s[i])
    ensures Words(s) != []
    decreases |s|
  {
    if IsSpace(s[0]) {
      WordsHasNonSpace(s[1..], i - 1);
    }
  }

  /** get_wireless_modes: the listing, or `{'error': ...}` if the loop raised. */
  method GetWirelessModes(output: string) returns (r: Result<seq<ModeEntry>>)
    ensures r == Modes(SplitOn(output, '\n'))
  {
    var lines := SplitOn(output, '\n');
    var interfaces: seq<ModeEntry> := [];
    var i := 0;
    while i < |lines|
      invariant 0 <= i <= |lines|
      invariant Modes(lines[..i]) == Ok(interfaces)
    {
      var line := lines[i];
      assert lines[..i + 1][..i] == lines[..i];
      if HasMode(line) {
        var e := EntryOf(line);
        if e.None? {
          assert lines[..i + 1] == lines[..i] + [line];
          MissingTokenFails(lines, i + 1);
          return Err(IndexErrorText);
        }
        interfaces := interfaces + [e.value];
      }
      i := i + 1;
    }
    assert lines[..i] == lines;
    return Ok(interfaces);
  }

  /** Once the listing has failed, more lines do not repair it. */
  lemma {:induction false} MissingTokenFails(lines: seq<string>, n: nat)
    requires 0 < n <= |lines| && Modes(lines[..n]).Err?
    ensures Modes(lines).Err? && Modes(lines).error == IndexErrorText
    decreases |lines| - n
  {
    if n < |lines| {
      assert lines[..n + 1][..n] == lines[..n];
      MissingTokenFails(lines, n + 1);
    } else {
      assert lines[..n] == lines;
      ErrIsIndexError(lines);
    }
  }

  lemma {:induction false} ErrIsIndexError(lines: seq<string>)
    ensures Modes(lines).Err? ==> Modes(lines).error == IndexErrorText
    decreases |lines|
  {
    if lines != [] {
      ErrIsIndexError(lines[..|lines| - 1]);
    }
  }

  /** The mode the interface is switched to: managed exactly when it was
      reported as monitor, monitor otherwise. */
  function NewMode(currentMode: string): (m: string)
    ensures m == "managed" <==> currentMode == "monitor"
    ensures m == "managed" || m == "monitor"
  {
    if currentMode == "monitor" then "managed" else "monitor"
  }

  /** The shell commands toggle_wireless_mode issues, in order. */
  function ToggleCommands(iface: string, newMode: string): seq<string>
  {
    ["sudo ifconfig " + iface + " down", "sudo iwconfig " + iface + " mode " + newMode, "sudo ifconfig " + iface + " up"]
  }

  /** toggle_wireless_mode: three commands, then a sentence naming the
      interface and the new mode (or the exception text). */
  function ToggleWirelessMode(iface: string, currentMode: string, run: Outcome): (r: (string, seq<string>))
    ensures run.Completed? ==> Contains(r.0, NewMode(currentMode)) && Contains(r.0, iface)
    ensures run.Completed? ==> StartsWith(r.0, "Interface ") && r.1 == ToggleCommands(iface, NewMode(currentMode))
    ensures run.Raised? ==> StartsWith(r.0, "Error toggling wireless mode for ") && Contains(r.0, run.reason)
  {
    var m := NewMode(currentMode);
    match run
      case Completed =>
        var msg := "Interface " + iface + " switched to " + m + " mode.";
        ContainsPiece(msg, "Interface " + iface + " switched to ", m, " mode.");
        ContainsPiece(msg, "Interface ", iface, " switched to " + m + " mode.");
        (msg, ToggleCommands(iface, m))
      case Raised(e) =>
        var msg := "Error toggling wireless mode for " + iface + ": " + e;
        ContainsPiece(msg, "Error toggling wireless mode for " + iface + ": ", e, "");
        (msg, [])
  }
}
