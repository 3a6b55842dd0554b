/** The SSH manager panel: the settings it reads from `sshd_config` and
    the start/stop toggle of `sshd`. The file's text is an input (`None`
    when it cannot be read); `systemctl` is a result passed in. */
module SshManager {
  import opened Strings
  import opened ConfigSearch
  import opened ServicePanel

  datatype SshConfig = SshConfig(
    port: nat, permitRootLogin: bool, passwordAuth: bool, pubkeyAuth: bool,
    x11Forwarding: bool, tcpForwarding: bool, maxAuthTries: nat, maxSessions: nat,
    logLevel: string, bannerPath: string, sftpEnable: bool, sftpChroot: string)

  /** The dictionary returned when the file cannot be read. */
  const Unreadable := SshConfig(22, false, true, true, false, true, 6, 10,
                                "INFO", "/etc/ssh/banner", true, "/srv/sftp")

  /** `int(m.group(1)) if m else default` for `^Key\s+(\d+)`. */
  function Number(content: string, key: string, default: nat): nat {
    match Search(content, LineStart, key, Digits)
    case None => default
    case Some(v) => DigitsValue(v)
  }

  /** `m.group(1).lower() == 'yes' if m else default` for `^Key\s+(\w+)`. */
  function Flag(content: string, key: string, default: bool): bool {
    match Search(content, LineStart, key, Word)
    case None => default
    case Some(v) => Lower(v) == "yes"
  }

  /** `m.group(1) if m else default`. */
  function Text(content: string, key: string, cls: Capture, default: string): string {
    match Search(content, LineStart, key, cls)
    case None => default
    case Some(v) => v
  }

  /** `bool(re.search(r'^Subsystem\s+sftp', ...))`. */
  predicate HasSftp(content: string) {
    Search(content, LineStart, "Subsystem", Fixed("sftp")).Some?
  }

  /** `get_current_config`: each setting from its directive, or its default. */
  function ConfigOf(content: Option<string>): SshConfig {
    match content
    case None => Unreadable
    case Some(c) =>
      SshConfig(
        Number(c, "Port", 22), Flag(c, "PermitRootLogin", false),
        Flag(c, "PasswordAuthentication", true), Flag(c, "PubkeyAuthentication", true),
        Flag(c, "X11Forwarding", false), Flag(c, "AllowTcpForwarding", true),
        Number(c, "MaxAuthTries", 6), Number(c, "MaxSessions", 10),
        Text(c, "LogLevel", Word, "INFO"), Text(c, "Banner", RestOfLine, "/etc/ssh/banner"),
        HasSftp(c), Text(c, "ChrootDirectory", RestOfLine, "/srv/sftp"))
  }

  /** `get_current_config`: the settings are read one directive after the
      other; an unreadable file gives the fixed defaults. */
  method GetCurrentConfig(content: Option<string>) returns (config: SshConfig)
    ensures config == ConfigOf(content)
  {
    if content.None? {
      return Unreadable;
    }
    var c := content.value;
    var port := Number(c, "Port", 22);
    var permitRoot := Flag(c, "PermitRootLogin", false);
    var passAuth := Flag(c, "PasswordAuthentication", true);
    var pubkeyAuth := Flag(c, "PubkeyAuthentication", true);
    var x11 := Flag(c, "X11Forwarding", false);
    var tcp := Flag(c, "AllowTcpForwarding", true);
    var maxAuth := Number(c, "MaxAuthTries", 6);
    var maxSessions := Number(c, "MaxSessions", 10);
    var logLevel := Text(c, "LogLevel", Word, "INFO");
    var banner := Text(c, "Banner", RestOfLine, "/etc/ssh/banner");
    var sftp := HasSftp(c);
    var chroot := Text(c, "ChrootDirectory", RestOfLine, "/srv/sftp");
    config := SshConfig(port, permitRoot, passAuth, pubkeyAuth, x11, tcp, maxAuth, maxSessions,
                        logLevel, banner, sftp, chroot);
  }

  lemma LowerIsYes(v: string)
    ensures Lower(v) == "yes" <==>
      |v| == 3 && LowerChar(v[0]) == 'y' && LowerChar(v[1]) == 'e' && LowerChar(v[2]) == 's'
  {
    if |v| == 3 {
      assert Lower(v) == [LowerChar(v[0]), LowerChar(v[1]), LowerChar(v[2])];
    }
  }

  /** A flag is on exactly when its directive's value is `yes` in any case;
      without the directive it keeps its default. */
  lemma FlagMeans(content: string, key: string, default: bool)
    ensures Search(content, LineStart, key, Word).None? ==> Flag(content, key, default) == default
    ensures Search(content, LineStart, key, Word).Some? ==>
      var v := Search(content, LineStart, key, Word).value;
      (Flag(content, key, default) <==>
         |v| == 3 && LowerChar(v[0]) == 'y' && LowerChar(v[1]) == 'e' && LowerChar(v[2]) == 's')
  {
    if Search(content, LineStart, key, Word).Some? {
      LowerIsYes(Search(content, LineStart, key, Word).value);
    }
  }

  /** The port written on the first line is the one read, `22` when there is
      no `Port` directive at the start of a line. */
  lemma PortRead(n: nat, rest: string)
    requires rest == [] || !IsDigit(rest[0])
    ensures ConfigOf(Some("Port " + NatToString(n) + rest)).port == n
  {
    PortValue(NatToString(n), rest);
    DigitsOfNat(n);
  }

  lemma PortValue(v: string, rest: string)
    requires AllDigits(v)
    requires rest == [] || !IsDigit(rest[0])
    ensures Number("Port " + v + rest, "Port", 22) == DigitsValue(v)
  {
    assert "Port " + v + rest == "Port" + " " + v + rest;
    FoundAtStart(LineStart, "Port", Digits, v, rest);
  }

  lemma PortDefault(content: string)
    requires Search(content, LineStart, "Port", Digits).None?
    ensures ConfigOf(Some(content)).port == 22
  {
  }

  /** Directives are read only at the start of a line: a file whose every
      line is a comment gives every default, except that SFTP is then off,
      where an unreadable file reports it on. */
  lemma CommentedOutIgnored(content: string)
    requires content == [] || content[0] == '#'
    requires forall i :: 0 < i < |content| && content[i - 1] == '\n' ==> content[i] == '#'
    ensures ConfigOf(Some(content)) == Unreadable.(sftpEnable := false)
  {
    LineStartNeedsKeyAtLineStart(content, "Port", Digits);
    LineStartNeedsKeyAtLineStart(content, "PermitRootLogin", Word);
    LineStartNeedsKeyAtLineStart(content, "PasswordAuthentication", Word);
    LineStartNeedsKeyAtLineStart(content, "PubkeyAuthentication", Word);
    LineStartNeedsKeyAtLineStart(content, "X11Forwarding", Word);
    LineStartNeedsKeyAtLineStart(content, "AllowTcpForwarding", Word);
    LineStartNeedsKeyAtLineStart(content, "MaxAuthTries", Digits);
    LineStartNeedsKeyAtLineStart(content, "MaxSessions", Digits);
    LineStartNeedsKeyAtLineStart(content, "LogLevel", Word);
    LineStartNeedsKeyAtLineStart(content, "Banner", RestOfLine);
    LineStartNeedsKeyAtLineStart(content, "Subsystem", Fixed("sftp"));
    LineStartNeedsKeyAtLineStart(content, "ChrootDirectory", RestOfLine);
  }

  /** SFTP is reported on exactly when some line starts with `Subsystem`,
      whitespace and `sftp`. */
  lemma SftpMeans(content: string)
    ensures ConfigOf(Some(content)).sftpEnable <==>
      exists p :: 0 <= p <= |content| && MatchAt(content, LineStart, "Subsystem", Fixed("sftp"), p).Some?
  {
  }

  /** The stock `Subsystem sftp <server>` line turns SFTP on. */
  lemma SftpLine(rest: string)
    ensures ConfigOf(Some("Subsystem sftp" + rest)).sftpEnable
  {
    var s := "Subsystem sftp" + rest;
    assert s[0..] == s && s[..9] == "Subsystem";
    assert s[9] == ' ' && s[10] == 's';
    assert SpaceRun(s, 10) == 0;
    assert s[10..][..4] == "sftp";
    assert MatchAt(s, LineStart, "Subsystem", Fixed("sftp"), 0).Some?;
  }

  /** The panel's start/stop button. */
  class SshPanel {
    var startLabel: string

    constructor()
      ensures startLabel == StartLabel
    {
      startLabel := StartLabel;
    }

    /** `toggle_service`: `systemctl` runs without `check`, so the label
        flips whatever the exit code; only a failure to run it leaves the
        label as it was. */
    method ToggleService(run: RunResult) returns (command: seq<string>)
      modifies this
      ensures command == ["systemctl", Verb(old(startLabel)), "sshd"]
      ensures startLabel == if run.Raised? then old(startLabel) else Flipped(old(startLabel))
    {
      command := ["systemctl", Verb(startLabel), "sshd"];
      if run.Completed? {
        startLabel := Flipped(startLabel);
      }
    }
  }
}
