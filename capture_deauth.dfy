/** The handshake-capture and deauthentication plugin: how the selected
    target text is turned into a BSSID, the input check before a capture
    or a deauthentication starts, the list of discovered clients and the
    handshake counter. The capture, deauthentication and scanner threads
    are reduced to whether each one is running. */
module CaptureDeauth {
  import opened Strings

  /** `[0-9A-F]` under `re.I`. */
  predicate IsHexDigit(c: char) {
    ('0' <= c <= '9') || ('A' <= c <= 'F') || ('a' <= c <= 'f')
  }

  predicate IsOctet(t: string) {
    |t| == 2 && IsHexDigit(t[0]) && IsHexDigit(t[1])
  }

  /** `([0-9A-F]{2}:){n}`, matching the whole of `t`. */
  predicate ColonGroups(t: string, n: nat)
    decreases n
  {
    if n == 0 then t == []
    else |t| >= 3 && IsOctet(t[..2]) && t[2] == ':' && ColonGroups(t[3..], n - 1)
  }

  /** `([0-9A-F]{2}:){5}[0-9A-F]{2}` (case-insensitive) matching the whole of `t`. */
  predicate IsMac(t: string) {
    |t| == 17 && ColonGroups(t[..15], 5) && IsOctet(t[15..])
  }

  lemma {:induction false} ColonGroupsLength(t: string, n: nat)
    requires ColonGroups(t, n)
    ensures |t| == 3 * n
    decreases n
  {
    if n > 0 {
      ColonGroupsLength(t[3..], n - 1);
    }
  }

  /** No character of colon-separated octets is an opening parenthesis. */
  lemma {:induction false} ColonGroupsNoParen(t: string, n: nat)
    requires ColonGroups(t, n)
    ensures '(' !in t
    decreases n
  {
    if n > 0 {
      ColonGroupsNoParen(t[3..], n - 1);
      assert t == t[..2] + [t[2]] + t[3..];
    }
  }

  lemma MacNoParen(t: string)
    requires IsMac(t)
    ensures '(' !in t
  {
    ColonGroupsNoParen(t[..15], 5);
    assert t == t[..15] + t[15..];
  }

  /** `re.match` of the MAC pattern: it is anchored at the start of the text
      only, so any text that merely begins with a MAC passes. */
  predicate MacPrefix(s: string) {
    17 <= |s| && IsMac(s[..17])
  }

  /** `\((([0-9A-F]{2}:){5}[0-9A-F]{2})\)` matches at position `i` of `s`. */
  predicate ParenMacAt(s: string, i: nat) {
    i + 19 <= |s| && s[i] == '(' && IsMac(s[i + 1..i + 18]) && s[i + 18] == ')'
  }

  /** The leftmost position at or after `from` where the parenthesised MAC
      pattern matches: what `re.search` finds. */
  function FirstParenMacFrom(s: string, from: nat): (r: Option<nat>)
    ensures r.Some? ==> from <= r.value && ParenMacAt(s, r.value)
                        && forall k: nat :: from <= k < r.value ==> !ParenMacAt(s, k)
    ensures r.None? ==> forall k: nat :: from <= k ==> !ParenMacAt(s, k)
    decreases |s| - from
  {
    if from + 19 > |s| then None
    else if ParenMacAt(s, from) then Some(from)
    else FirstParenMacFrom(s, from + 1)
  }

  function FirstParenMac(s: string): Option<nat> {
    FirstParenMacFrom(s, 0)
  }

  /** `get_selected_bssid` (and the same extraction at the start of
      `validate_inputs`): the MAC inside the first parenthesised MAC of the
      combo-box text, else the text itself. */
  function SelectedBssid(text: string): (r: string)
    ensures r == text || IsMac(r)
  {
    if '(' in text then
      match FirstParenMac(text)
      case Some(i) => text[i + 1..i + 18]
      case None => text
    else text
  }

  /** The extraction takes the leftmost parenthesised MAC. */
  lemma SelectedBssidLeftmost(text: string, i: nat)
    requires ParenMacAt(text, i)
    requires forall k: nat :: k < i ==> !ParenMacAt(text, k)
    ensures SelectedBssid(text) == text[i + 1..i + 18]
  {
    assert text[i] in text;
    assert FirstParenMac(text) == Some(i);
  }

  /** A text with no parenthesised MAC is returned as it is. */
  lemma SelectedBssidPlain(text: string)
    requires forall k: nat :: !ParenMacAt(text, k)
    ensures SelectedBssid(text) == text
  {
    assert FirstParenMac(text).None?;
  }

  /** The text a scanned access point is listed under: `ssid (bssid)`, or the
      bare BSSID when the SSID is missing, empty or `<length: 0>`. */
  function DisplayText(ssid: Option<string>, bssid: string): (d: string)
    ensures ssid.None? || ssid.value == "" || ssid.value == "<length: 0>" ==> d == bssid
    ensures ssid.Some? && ssid.value != "" && ssid.value != "<length: 0>" ==>
      d == ssid.value + " (" + bssid + ")"
  {
    if ssid.Some? && ssid.value != "" && ssid.value != "<length: 0>" then ssid.value + " (" + bssid + ")"
    else bssid
  }

  /** Selecting a listed access point gives back its BSSID, provided its SSID
      holds no opening parenthesis. */
  lemma DisplaySelectsBssid(ssid: Option<string>, bssid: string)
    requires IsMac(bssid)
    requires ssid.Some? ==> '(' !in ssid.value
    ensures SelectedBssid(DisplayText(ssid, bssid)) == bssid
  {
    MacNoParen(bssid);
    var d := DisplayText(ssid, bssid);
    if d == bssid {
      assert forall k: nat :: k < |d| ==> d[k] != '(';
      SelectedBssidPlain(d);
    } else {
      var s := ssid.value;
      var i := |s| + 1;
      assert d == s + " (" + bssid + ")";
      assert d[i + 1..i + 18] == bssid;
      assert d[i] == '(' && d[i + 18] == ')';
      forall k: nat | k < i ensures !ParenMacAt(d, k) {
        if k < |s| {
          assert d[k] == s[k];
        } else {
          assert d[k] == ' ';
        }
      }
      SelectedBssidLeftmost(d, i);
    }
  }

  /** The outcome of `validate_inputs`: true, or which error it logs. */
  datatype Validation = Passed | NoAdapter | NoBssid | InvalidFormat

  function ErrorText(v: Validation): string {
    match v
    case Passed => ""
    case NoAdapter => "No monitor mode adapter selected"
    case NoBssid => "No target BSSID specified"
    case InvalidFormat => "Invalid BSSID format"
  }

  /** `validate_inputs` as written, with the format test of `re.match`. */
  function ValidateAsWritten(adapter: string, text: string): Validation {
    var b := SelectedBssid(text);
    if adapter == "" then NoAdapter
    else if b == "" then NoBssid
    else if !MacPrefix(b) then InvalidFormat
    else Passed
  }

  /** As written, the inputs pass exactly when an adapter is chosen and the
      selected BSSID begins with a MAC; every whole MAC passes. */
  lemma ValidateAsWrittenMeans(adapter: string, text: string)
    ensures ValidateAsWritten(adapter, text) == Passed <==> adapter != "" && MacPrefix(SelectedBssid(text))
    ensures ValidateAsWritten(adapter, text) == NoAdapter <==> adapter == ""
    ensures ValidateAsWritten(adapter, text) == NoBssid <==> adapter != "" && SelectedBssid(text) == ""
    ensures adapter != "" && IsMac(SelectedBssid(text)) ==> ValidateAsWritten(adapter, text) == Passed
  {
    var b := SelectedBssid(text);
    if IsMac(b) {
      assert b[..17] == b;
    }
  }

  /** A BSSID with trailing characters passes the format test as written. */
  lemma TrailingTextPassesFormat()
    ensures ValidateAsWritten("wlan0mon", "AA:BB:CC:DD:EE:FF:00") == Passed
    ensures !IsMac("AA:BB:CC:DD:EE:FF:00")
  {
    var b := "AA:BB:CC:DD:EE:FF:00";
    assert '(' !in b;
    assert SelectedBssid(b) == b;
    assert b[..17] == "AA:BB:CC:DD:EE:FF";
    SampleMac();
  }

  /** Five colon-terminated octets followed by one more octet match the MAC
      pattern: the groups take exactly the first 15 characters. */
  lemma MacOfParts(g: string, o: string)
    requires ColonGroups(g, 5) && IsOctet(o)
    ensures IsMac(g + o)
  {
    ColonGroupsLength(g, 5);
    assert (g + o)[..15] == g && (g + o)[15..] == o;
  }

  lemma SampleMac()
    ensures IsMac("AA:BB:CC:DD:EE:FF")
  {
    var m := "AA:BB:CC:DD:EE:FF";
    var g := "AA:BB:CC:DD:EE:";
    assert m == g + "FF";
    assert g[3..] == "BB:CC:DD:EE:";
    assert g[3..][3..] == "CC:DD:EE:";
    assert g[3..][3..][3..] == "DD:EE:";
    assert g[3..][3..][3..][3..] == "EE:";
    assert ColonGroups("EE:", 1) by {
      assert "EE:"[3..] == [];
    }
    MacOfParts(g, "FF");
  }

  /** `validate_inputs` with the whole text required to be a MAC. */
  function ValidateInputs(adapter: string, text: string): (v: Validation)
    ensures v == NoAdapter <==> adapter == ""
  {
    var b := SelectedBssid(text);
    if adapter == "" then NoAdapter
    else if b == "" then NoBssid
    else if !IsMac(b) then InvalidFormat
    else Passed
  }

  /** The inputs pass exactly when an adapter is chosen and the selected
      BSSID is a whole MAC; a failure names the first missing input. */
  lemma ValidateInputsMeans(adapter: string, text: string)
    ensures ValidateInputs(adapter, text) == Passed <==> adapter != "" && IsMac(SelectedBssid(text))
    ensures ValidateInputs(adapter, text) == NoBssid <==> adapter != "" && SelectedBssid(text) == ""
    ensures ValidateInputs(adapter, text) == InvalidFormat ==> text != "" && !IsMac(text)
  {
  }

  /** Every listed access point with a present adapter passes. */
  lemma ListedTargetValid(adapter: string, ssid: Option<string>, bssid: string)
    requires adapter != "" && IsMac(bssid)
    requires ssid.Some? ==> '(' !in ssid.value
    ensures ValidateInputs(adapter, DisplayText(ssid, bssid)) == Passed
    ensures ValidateAsWritten(adapter, DisplayText(ssid, bssid)) == Passed
  {
    DisplaySelectsBssid(ssid, bssid);
    ValidateAsWrittenMeans(adapter, DisplayText(ssid, bssid));
  }

  /** What the plugin appends to its console. */
  datatype LogLine = NewClient(mac: string) | HandshakeSaved(captureFile: string) | Error(message: string)

  function LogText(l: LogLine): string {
    match l
    case NewClient(mac) => "[INFO] New client detected: " + mac
    case HandshakeSaved(f) => "[INFO] Successfully captured handshake: " + f
    case Error(m) => "[ERROR] " + m
  }

  predicate Distinct(s: seq<string>) {
    forall i, j :: 0 <= i < j < |s| ==> s[i] != s[j]
  }

  /** The plugin once its widget is built: the clients drop-down, the
      console, the handshake counter and the two worker threads. */
  class Plugin {
    var clients: seq<string>
    var console: seq<LogLine>
    var handshakeCount: nat
    var handshakeCaptured: bool
    var deauthRunning: bool
    var captureRunning: bool
    var deauthButton: string
    var captureButton: string

    /** The clients drop-down never lists a MAC twice nor an empty one. */
    predicate Valid()
      reads this
    {
      Distinct(clients) && "" !in clients
    }

    constructor()
      ensures Valid() && clients == [] && console == []
      ensures handshakeCount == 0 && !handshakeCaptured && !deauthRunning && !captureRunning
    {
      clients := [];
      console := [];
      handshakeCount := 0;
      handshakeCaptured := false;
      deauthRunning := false;
      captureRunning := false;
      deauthButton := "Start Deauth";
      captureButton := "Start Capture";
    }

    /** `validate_inputs` as written: the error is logged on the console. */
    method Validate(adapter: string, text: string) returns (ok: bool)
      modifies this
      ensures ok <==> ValidateAsWritten(adapter, text) == Passed
      ensures console == old(console) + (if ok then [] else [Error(ErrorText(ValidateAsWritten(adapter, text)))])
      ensures clients == old(clients) && handshakeCount == old(handshakeCount)
      ensures handshakeCaptured == old(handshakeCaptured)
      ensures deauthRunning == old(deauthRunning) && captureRunning == old(captureRunning)
      ensures deauthButton == old(deauthButton) && captureButton == old(captureButton)
    {
      var v := ValidateAsWritten(adapter, text);
      ok := v == Passed;
      if !ok {
        console := console + [Error(ErrorText(v))];
      }
    }

    /** `add_client`: a new, non-empty MAC is appended and logged; a known
        or empty one changes nothing. */
    method AddClient(mac: string)
      requires Valid()
      modifies this
      ensures Valid()
      ensures mac != "" && mac !in old(clients) ==>
        clients == old(clients) + [mac] && console == old(console) + [NewClient(mac)]
      ensures mac == "" || mac in old(clients) ==> clients == old(clients) && console == old(console)
      ensures handshakeCount == old(handshakeCount) && handshakeCaptured == old(handshakeCaptured)
      ensures deauthRunning == old(deauthRunning) && captureRunning == old(captureRunning)
      ensures deauthButton == old(deauthButton) && captureButton == old(captureButton)
    {
      if mac != "" && mac !in clients {
        clients := clients + [mac];
        console := console + [NewClient(mac)];
      }
    }

    /** `handle_handshake_captured`: one more handshake, the capture flag
        set, the file logged, and both threads stopped. */
    method HandshakeCaptured(captureFile: string)
      requires Valid()
      modifies this
      ensures Valid()
      ensures handshakeCount == old(handshakeCount) + 1 && handshakeCaptured
      ensures console == old(console) + [HandshakeSaved(captureFile)]
      ensures !deauthRunning && !captureRunning
      ensures deauthButton == (if old(deauthRunning) then "Start Deauth" else old(deauthButton))
      ensures captureButton == (if old(captureRunning) then "Start Capture" else old(captureButton))
      ensures clients == old(clients)
    {
      handshakeCount := handshakeCount + 1;
      handshakeCaptured := true;
      console := console + [HandshakeSaved(captureFile)];
      if deauthRunning {
        deauthRunning := false;
        deauthButton := "Start Deauth";
      }
      if captureRunning {
        captureRunning := false;
        captureButton := "Start Capture";
      }
    }
  }

  /** Adding the same client twice lists it once. */
  method AddClientTwice(p: Plugin, mac: string)
    requires p.Valid() && mac != "" && mac !in p.clients
    modifies p
    ensures p.clients == old(p.clients) + [mac] && p.console == old(p.console) + [NewClient(mac)]
  {
    p.AddClient(mac);
    p.AddClient(mac);
  }
}
