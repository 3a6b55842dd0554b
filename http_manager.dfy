/** The HTTP manager panel: the settings it reads from `apache2.conf` and
    the start/stop toggle of `apache2`. The file's text is an input (`None`
    when it cannot be read); `systemctl` is a result passed in. */
module HttpManager {
  import opened Strings
  import opened ConfigSearch
  import opened ServicePanel

  datatype HttpConfig = HttpConfig(
    port: nat, serverTokens: string, serverSignature: bool, traceEnable: bool,
    timeout: nat, keepAlive: bool, maxKeepAlive: nat, keepAliveTimeout: nat, serverRoot: string)

  /** The dictionary returned when the file cannot be read. */
  const Unreadable := HttpConfig(80, "Full", true, true, 300, true, 100, 5, "/var/www/html")

  /** `int(m.group(1)) if m else default` for an unanchored `Key\s+(\d+)`. */
  function Number(content: string, anchor: Anchor, key: string, default: nat): nat {
    match Search(content, anchor, key, Digits)
    case None => default
    case Some(v) => DigitsValue(v)
  }

  /** `m.group(1).lower() == 'on' if m else True` for `Key\s+(\w+)`. */
  function Switch(content: string, key: string): bool {
    match Search(content, Anywhere, key, Word)
    case None => true
    case Some(v) => Lower(v) == "on"
  }

  function Text(content: string, key: string, cls: Capture, default: string): string {
    match Search(content, Anywhere, key, cls)
    case None => default
    case Some(v) => v
  }

  /** The settings as `get_current_config` reads them, with `Timeout`
      found wherever the word occurs, inside `KeepAliveTimeout` too. */
  function ConfigAsWritten(content: Option<string>): HttpConfig {
    match content
    case None => Unreadable
    case Some(c) => ConfigOf(content).(timeout := Number(c, Anywhere, "Timeout", 300))
  }

  /** The settings `get_current_config` is meant to read: as written,
      except that `Timeout` must begin a word, so it is never read out of
      `KeepAliveTimeout`. */
  function ConfigOf(content: Option<string>): HttpConfig {
    match content
    case None => Unreadable
    case Some(c) =>
      HttpConfig(
        Number(c, Anywhere, "Listen", 80), Text(c, "ServerTokens", Word, "Full"),
        Switch(c, "ServerSignature"), Switch(c, "TraceEnable"),
        Number(c, WordStart, "Timeout", 300), Switch(c, "KeepAlive"),
        Number(c, Anywhere, "MaxKeepAliveRequests", 100), Number(c, Anywhere, "KeepAliveTimeout", 5),
        Text(c, "DocumentRoot", Quoted, "/var/www/html"))
  }

  /** `get_current_config` as written: the settings are read one directive
      after the other; an unreadable file gives the fixed defaults. */
  method GetCurrentConfig(content: Option<string>) returns (config: HttpConfig)
    ensures config == ConfigAsWritten(content)
  {
    if content.None? {
      return Unreadable;
    }
    var c := content.value;
    var port := Number(c, Anywhere, "Listen", 80);
    var tokens := Text(c, "ServerTokens", Word, "Full");
    var signature := Switch(c, "ServerSignature");
    var trace := Switch(c, "TraceEnable");
    var timeout := Number(c, Anywhere, "Timeout", 300);
    var keepAlive := Switch(c, "KeepAlive");
    var maxKeepAlive := Number(c, Anywhere, "MaxKeepAliveRequests", 100);
    var keepAliveTimeout := Number(c, Anywhere, "KeepAliveTimeout", 5);
    var root := Text(c, "DocumentRoot", Quoted, "/var/www/html");
    config := HttpConfig(port, tokens, signature, trace, timeout, keepAlive, maxKeepAlive, keepAliveTimeout, root);
  }

  /** The two readings differ only in `timeout`. */
  lemma OnlyTimeoutDiffers(content: Option<string>)
    ensures ConfigAsWritten(content).(timeout := 0) == ConfigOf(content).(timeout := 0)
  {
  }

  /** With `KeepAliveTimeout` first, the code as written reports the
      keep-alive timeout as the request timeout, whatever `Timeout` line
      follows. */
  lemma KeepAliveTimeoutReadAsTimeout(v: string, rest: string)
    requires AllDigits(v)
    requires rest == [] || !IsDigit(rest[0])
    ensures ConfigAsWritten(Some("KeepAliveTimeout " + v + rest)).timeout == DigitsValue(v)
  {
    var a := "KeepAliveTimeout ";
    var s := a + v + rest;
    assert forall q :: 0 <= q < 9 ==> s[q] == a[q];
    assert forall q :: 0 <= q < 9 ==> a[q] != 'T';
    NoMatchWithoutKey(s, Anywhere, "Timeout", Digits, 0, 9);
    assert s == "KeepAlive" + "Timeout" + " " + v + rest;
    FoundAt(s, "KeepAlive", Anywhere, "Timeout", Digits, v, rest);
    SearchFindsLeftmost(s, Anywhere, "Timeout", Digits, 9);
    assert Number(s, Anywhere, "Timeout", 300) == DigitsValue(v);
  }

  /** Read as intended, the `Timeout` line after a `KeepAliveTimeout` line
      gives its own value. */
  lemma TimeoutReadFromItsDirective(k: string, v: string)
    requires AllDigits(k) && AllDigits(v)
    ensures ConfigOf(Some("KeepAliveTimeout " + k + "\n" + "Timeout" + " " + v)).timeout == DigitsValue(v)
  {
    var pre := "KeepAliveTimeout " + k + "\n";
    var s := pre + "Timeout" + " " + v;
    NoWordTimeoutBefore(s, k, "Timeout" + " " + v);
    assert s == pre + "Timeout" + " " + v + [];
    assert AnchorOk(s, |pre|, WordStart);
    FoundAt(s, pre, WordStart, "Timeout", Digits, v, []);
    SearchFindsLeftmost(s, WordStart, "Timeout", Digits, |pre|);
    assert Number(s, WordStart, "Timeout", 300) == DigitsValue(v);
  }

  /** Inside a `KeepAliveTimeout` line, `Timeout` never begins a word. */
  lemma NoWordTimeoutBefore(s: string, k: string, tail: string)
    requires AllDigits(k)
    requires s == "KeepAliveTimeout " + k + "\n" + tail
    ensures forall q :: 0 <= q < 18 + |k| ==> MatchAt(s, WordStart, "Timeout", Digits, q).None?
  {
    var a := "KeepAliveTimeout ";
    assert forall q :: 0 <= q < |a| ==> s[q] == a[q];
    assert forall q :: 0 <= q < |a| && q != 9 ==> a[q] != 'T';
    assert forall q :: |a| <= q < |a| + |k| ==> s[q] == k[q - |a|];
    assert s[|a| + |k|] == '\n';
    NoMatchWithoutKey(s, WordStart, "Timeout", Digits, 0, 9);
    NoMatchWithoutKey(s, WordStart, "Timeout", Digits, 10, 18 + |k|);
    assert s[8] == 'e';
    assert !AnchorOk(s, 9, WordStart);
  }

  /** On/off settings are on when the directive says `on` in any case, and
      when it is missing. */
  lemma LowerIsOn(v: string)
    ensures Lower(v) == "on" <==> |v| == 2 && LowerChar(v[0]) == 'o' && LowerChar(v[1]) == 'n'
  {
    if |v| == 2 {
      assert Lower(v) == [LowerChar(v[0]), LowerChar(v[1])];
    }
  }

  lemma SwitchMeans(content: string, key: string)
    ensures Search(content, Anywhere, key, Word).None? ==> Switch(content, key)
    ensures Search(content, Anywhere, key, Word).Some? ==>
      var v := Search(content, Anywhere, key, Word).value;
      (Switch(content, key) <==> |v| == 2 && LowerChar(v[0]) == 'o' && LowerChar(v[1]) == 'n')
  {
    if Search(content, Anywhere, key, Word).Some? {
      LowerIsOn(Search(content, Anywhere, key, Word).value);
    }
  }

  /** The document root is the text between the quotes after
      `DocumentRoot`; `/var/www/html` when there is none. */
  lemma DocumentRootRead(root: string, rest: string)
    requires root != [] && '"' !in root
    ensures ConfigOf(Some("DocumentRoot" + " \"" + root + "\"" + rest)).serverRoot == root
  {
    RootValue(root, rest);
  }

  lemma RootValue(root: string, rest: string)
    requires root != [] && '"' !in root
    ensures Text("DocumentRoot" + " \"" + root + "\"" + rest, "DocumentRoot", Quoted, "/var/www/html") == root
  {
    QuotedAtStart(Anywhere, "DocumentRoot", root, rest);
  }

  lemma DocumentRootDefault(content: string)
    requires Search(content, Anywhere, "DocumentRoot", Quoted).None?
    ensures ConfigOf(Some(content)).serverRoot == "/var/www/html"
  {
  }

  /** An unreadable file gives the defaults: port 80, timeout 300, 100
      keep-alive requests, a keep-alive timeout of 5 and `/var/www/html`;
      empty text gives the same. */
  lemma EmptyGivesDefaults()
    ensures ConfigOf(None) == Unreadable
    ensures Unreadable.port == 80 && Unreadable.timeout == 300 && Unreadable.maxKeepAlive == 100
      && Unreadable.keepAliveTimeout == 5 && Unreadable.serverRoot == "/var/www/html"
    ensures ConfigOf(Some("")) == Unreadable
  {
    assert MatchAt("", Anywhere, "Listen", Digits, 0).None?;
    assert MatchAt("", Anywhere, "ServerTokens", Word, 0).None?;
    assert MatchAt("", Anywhere, "ServerSignature", Word, 0).None?;
    assert MatchAt("", Anywhere, "TraceEnable", Word, 0).None?;
    assert MatchAt("", WordStart, "Timeout", Digits, 0).None?;
    assert MatchAt("", Anywhere, "KeepAlive", Word, 0).None?;
    assert MatchAt("", Anywhere, "MaxKeepAliveRequests", Digits, 0).None?;
    assert MatchAt("", Anywhere, "KeepAliveTimeout", Digits, 0).None?;
    assert MatchAt("", Anywhere, "DocumentRoot", Quoted, 0).None?;
  }

  /** The panel's start/stop button. */
  class HttpPanel {
    var startLabel: string

    constructor()
      ensures startLabel == StartLabel
    {
      startLabel := StartLabel;
    }

    /** `toggle_service`: `systemctl` runs with `check`, so the label flips
        only when it exits with 0; otherwise an error is shown and the label
        stays. */
    method ToggleService(run: RunResult) returns (command: seq<string>, errorShown: bool)
      modifies this
      ensures command == ["systemctl", Verb(old(startLabel)), "apache2"]
      ensures errorShown <==> run != Completed(0)
      ensures startLabel == if run == Completed(0) then Flipped(old(startLabel)) else old(startLabel)
    {
      command := ["systemctl", Verb(startLabel), "apache2"];
      if run == Completed(0) {
        startLabel := Flipped(startLabel);
        errorShown := false;
      } else {
        errorShown := true;
      }
    }
  }
}
