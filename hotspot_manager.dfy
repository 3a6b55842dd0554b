/** The Wi-Fi hotspot plugin: the address given to the hotspot interface,
    the DHCP range handed to dnsmasq, the hostapd configuration with its
    default password, the connected-clients table filled from the dnsmasq
    lease file, and the start/stop toggle. Commands run and their success
    are inputs. */
module HotspotManager {
  import opened Strings

  /** `setup_interface`: an address without a prefix length gets `/24`. */
  function InterfaceAddress(ip: string): (a: string)
    ensures '/' in a
    ensures '/' in ip ==> a == ip
    ensures '/' !in ip ==> a == ip + "/24"
  {
    if '/' in ip then ip else ip + "/24"
  }

  lemma InterfaceAddressIdempotent(ip: string)
    ensures InterfaceAddress(InterfaceAddress(ip)) == InterfaceAddress(ip)
  {
  }

  datatype DhcpRange = DhcpRange(first: string, last: string)

  /** `setup_dnsmasq`: hosts `.100` to `.200` within the first three dotted
      parts of the address; fewer than three dotted parts raise. */
  function DhcpRangeOf(ip: string): Option<DhcpRange> {
    var p := SplitOn(ip, '.');
    if |p| < 3 then None
    else Some(DhcpRange(p[0] + "." + p[1] + "." + p[2] + ".100", p[0] + "." + p[1] + "." + p[2] + ".200"))
  }

  /** For `a.b.c.d` (with or without a prefix length on `d`) the range is
      `a.b.c.100`–`a.b.c.200`. */
  lemma DhcpRangeOfAddress(a: string, b: string, c: string, d: string)
    requires '.' !in a && '.' !in b && '.' !in c && '.' !in d
    ensures DhcpRangeOf(a + "." + b + "." + c + "." + d) == Some(DhcpRange(a + "." + b + "." + c + ".100", a + "." + b + "." + c + ".200"))
  {
    var ip := a + "." + b + "." + c + "." + d;
    assert ip == a + ['.'] + (b + ['.'] + (c + ['.'] + d));
    SplitAppendSep(a, '.', b + ['.'] + (c + ['.'] + d));
    SplitAppendSep(b, '.', c + ['.'] + d);
    SplitAppendSep(c, '.', d);
    SplitNoSep(d, '.');
  }

  /** An address with fewer than three dotted parts (at most one dot) gets
      no range. */
  lemma DhcpRangeNeedsThreeParts(a: string, b: string)
    requires '.' !in a && '.' !in b
    ensures DhcpRangeOf(a) == None && DhcpRangeOf(a + "." + b) == None
  {
    SplitNoSep(a, '.');
    SplitNoSep(b, '.');
    SplitAppendSep(a, '.', b);
    assert a + "." + b == a + ['.'] + b;
  }

  /** The lines of the dnsmasq configuration; the gateway is the address
      before any `/`. */
  function DnsmasqConfig(iface: string, ip: string): (lines: Option<seq<string>>)
    ensures lines.Some? <==> DhcpRangeOf(ip).Some?
    ensures lines.Some? ==> |lines.value| == 12 && lines.value[1] == "interface=" + iface
    ensures lines.Some? ==>
      lines.value[3] == "dhcp-range=" + DhcpRangeOf(ip).value.first + "," + DhcpRangeOf(ip).value.last + ",12h"
  {
    match DhcpRangeOf(ip)
    case None => None
    case Some(r) =>
      Some(["", "interface=" + iface, "bind-interfaces",
            "dhcp-range=" + r.first + "," + r.last + ",12h",
            "dhcp-option=3," + SplitOn(ip, '/')[0],
            "dhcp-option=6,8.8.8.8,8.8.4.4", "no-hosts", "no-resolv", "log-queries", "log-dhcp",
            "dhcp-authoritative", "dhcp-leasefile=/tmp/dnsmasq.leases"])
  }

  /** The gateway handed out is the address without its prefix length. */
  lemma DnsmasqGateway(iface: string, addr: string, len: string)
    requires '/' !in addr && DhcpRangeOf(addr + "/" + len).Some?
    ensures DnsmasqConfig(iface, addr + "/" + len).value[4] == "dhcp-option=3," + addr
  {
    assert addr + "/" + len == addr + ['/'] + len;
    SplitAppendSep(addr, '/', len);
  }

  /** The fields of the hotspot form. */
  datatype HotspotForm = HotspotForm(iface: string, ssid: string, password: string, channel: nat,
                                     hwMode: string, hidden: bool, country: string)

  const DefaultPassword: string := "nsatt-admin"

  /** `generate_hostapd_config`'s settings, in the order they are written. */
  function HostapdSettings(f: HotspotForm): seq<(string, string)> {
    [("interface", f.iface), ("driver", "nl80211"), ("ssid", f.ssid), ("wpa_passphrase", f.password),
     ("channel", NatToString(f.channel)), ("hw_mode", f.hwMode),
     ("ignore_broadcast_ssid", if f.hidden then "1" else "0"), ("country_code", f.country),
     ("auth_algs", "1"), ("wpa", "2"), ("wpa_key_mgmt", "WPA-PSK"), ("rsn_pairwise", "CCMP")]
  }

  /** The configuration file: one `key=value` line per setting. */
  function ConfigText(settings: seq<(string, string)>): (t: string)
    ensures settings == [] ==> t == ""
  {
    if settings == [] then ""
    else settings[0].0 + "=" + settings[0].1 + "\n" + ConfigText(settings[1..])
  }

  /** The configuration writes each key once, WPA2 with a pre-shared key,
      and the form's passphrase. */
  lemma HostapdSettingsMeans(f: HotspotForm)
    ensures var s := HostapdSettings(f);
      (forall i, j :: 0 <= i < j < |s| ==> s[i].0 != s[j].0)
      && s[3] == ("wpa_passphrase", f.password) && s[9] == ("wpa", "2")
      && s[10] == ("wpa_key_mgmt", "WPA-PSK")
  {
  }

  /** The written file holds the passphrase line. */
  lemma ConfigHasPassphrase(f: HotspotForm)
    ensures Contains(ConfigText(HostapdSettings(f)), "wpa_passphrase=" + f.password + "\n")
  {
    var s := HostapdSettings(f);
    var line := "wpa_passphrase=" + f.password + "\n";
    assert s == s[..3] + s[3..];
    ConfigTextAppend(s[..3], s[3..]);
    var tail := s[3..];
    assert tail[0] == ("wpa_passphrase", f.password);
    assert "wpa_passphrase" + "=" == "wpa_passphrase=";
    assert ConfigText(tail) == line + ConfigText(tail[1..]);
    ContainsPiece(ConfigText(s), ConfigText(s[..3]), line, ConfigText(tail[1..]));
  }

  lemma {:induction false} ConfigTextAppend(a: seq<(string, string)>, b: seq<(string, string)>)
    ensures ConfigText(a + b) == ConfigText(a) + ConfigText(b)
    decreases |a|
  {
    if a == [] {
      assert a + b == b;
    } else {
      assert (a + b)[0] == a[0] && (a + b)[1..] == a[1..] + b;
      ConfigTextAppend(a[1..], b);
    }
  }

  /** What the plugin appends to its console (the timestamp is left out). */
  datatype LogLine = Info(message: string) | Error(message: string)

  /** One row of the connected-clients table. */
  datatype ClientRow = ClientRow(mac: string, ip: string, hostname: string)

  const EmptyRow: ClientRow := ClientRow("", "", "")

  /** `setRowCount(n)`: rows past `n` go, new rows are empty. */
  function Resize(rows: seq<ClientRow>, n: nat): (r: seq<ClientRow>)
    ensures |r| == n
    ensures forall i :: 0 <= i < n && i < |rows| ==> r[i] == rows[i]
    ensures forall i :: |rows| <= i < n ==> r[i] == EmptyRow
    decreases n
  {
    if n <= |rows| then rows[..n]
    else Resize(rows, n - 1) + [EmptyRow]
  }

  /** A lease line is `timestamp mac ip hostname client-id`. */
  predicate IsLease(line: string) {
    |Words(line)| == 5
  }

  function RowOf(line: string): ClientRow
    requires IsLease(line)
  {
    var w := Words(line);
    ClientRow(w[1], w[2], w[3])
  }

  /** The number of leading lines that are well-formed leases. */
  function GoodPrefix(lines: seq<string>): (n: nat)
    ensures n <= |lines|
    ensures forall i :: 0 <= i < n ==> IsLease(lines[i])
    ensures n < |lines| ==> !IsLease(lines[n])
  {
    if lines == [] || !IsLease(lines[0]) then 0 else 1 + GoodPrefix(lines[1..])
  }

  /** A lease line written from its five fields gives the row of its MAC,
      address and host name. */
  lemma LeaseRow(stamp: string, mac: string, ip: string, host: string, id: string)
    requires forall w :: w in [stamp, mac, ip, host, id] ==> |w| > 0 && NoSpace(w)
    ensures IsLease(Join([stamp, mac, ip, host, id], " "))
    ensures RowOf(Join([stamp, mac, ip, host, id], " ")) == ClientRow(mac, ip, host)
  {
    WordsJoin([stamp, mac, ip, host, id]);
  }

  /** The entry logged when the password field is empty and the default
      is used. */
  function DefaultNote(password: string): (r: seq<LogLine>)
  {
    if password == "" then [Info("No password set, using default: nsatt-admin")] else []
  }

  /** The text of the IndexError `ip_parts[2]` raises. */
  const IndexErrorText: string := "list index out of range"

  /** The ValueError text of unpacking a line of `n` words into five names
      (CPython 3.8 to 3.13). */
  function UnpackError(n: nat): (e: string)
    requires n != 5
    ensures n < 5 ==> e == "not enough values to unpack (expected 5, got " + NatToString(n) + ")"
    ensures n > 5 ==> e == "too many values to unpack (expected 5)"
  {
    if n < 5 then "not enough values to unpack (expected 5, got " + NatToString(n) + ")"
    else "too many values to unpack (expected 5)"
  }

  /** The error logged for a lease-file line that does not split into five
      words: the unpacking's ValueError text. */
  function ClientsError(line: string): LogLine
    requires !IsLease(line)
  {
    Error("Error updating client list: " + UnpackError(|Words(line)|))
  }

  class Hotspot {
    var active: bool
    var ipText: string
    var passwordText: string
    var buttonText: string
    var clients: seq<ClientRow>
    var console: seq<LogLine>
    /** The settings of the last hostapd configuration written. */
    var written: seq<(string, string)>

    constructor(ip: string)
      ensures !active && ipText == ip && passwordText == "" && clients == [] && console == []
      ensures buttonText == "Start Hotspot" && written == []
    {
      active := false;
      ipText := ip;
      passwordText := "";
      buttonText := "Start Hotspot";
      clients := [];
      console := [];
      written := [];
    }

    /** `generate_hostapd_config`: an empty password field is set to the
        default first; the configuration carries the field's password.
        `writeError` is the exception raised by writing the polkit rule,
        restarting polkit or writing `/tmp/hostapd.conf`: it is logged, no
        configuration is recorded and it is passed on (`raised`). */
    method GenerateConfig(f: HotspotForm, writeError: Option<string>) returns (raised: Option<string>)
      modifies this
      ensures raised == writeError
      ensures passwordText == (if old(passwordText) == "" then DefaultPassword else old(passwordText))
      ensures writeError.None? ==> written == HostapdSettings(f.(password := passwordText)) && written[3].1 != ""
      ensures writeError.Some? ==> written == old(written)
      ensures console == old(console) + DefaultNote(old(passwordText))
                        + (if writeError.Some? then [Error("Error generating config: " + writeError.value)] else [])
      ensures active == old(active) && ipText == old(ipText) && clients == old(clients) && buttonText == old(buttonText)
    {
      if passwordText == "" {
        passwordText := DefaultPassword;
        console := console + [Info("No password set, using default: nsatt-admin")];
      }
      if writeError.Some? {
        console := console + [Error("Error generating config: " + writeError.value)];
        return writeError;
      }
      written := HostapdSettings(f.(password := passwordText));
      return None;
    }

    /** `update_connected_clients`: nothing while the hotspot is off or the
        lease file is absent; otherwise the table gets one row per lease
        line, filled in order until a line that is not a lease. */
    method UpdateConnectedClients(leases: Option<seq<string>>)
      modifies this
      ensures !old(active) || leases.None? ==> clients == old(clients) && console == old(console)
      ensures old(active) && leases.Some? ==>
        var ls := leases.value;
        var n := GoodPrefix(ls);
        |clients| == |ls|
        && (forall i :: 0 <= i < n ==> clients[i] == RowOf(ls[i]))
        && (forall i :: n <= i < |ls| ==> clients[i] == Resize(old(clients), |ls|)[i])
        && console == old(console) + (if n < |ls| then [ClientsError(ls[n])] else [])
      ensures active == old(active) && ipText == old(ipText) && passwordText == old(passwordText)
      ensures buttonText == old(buttonText) && written == old(written)
    {
      if !active || leases.None? {
        return;
      }
      var ls := leases.value;
      var rows, n := FillRows(ls, Resize(clients, |ls|));
      clients := rows;
      if n < |ls| {
        console := console + [ClientsError(ls[n])];
      }
    }

    /** The loop over the lease lines: row `i` is filled from line `i` until
        the first line that is not a lease; the other rows stay as they were. */
    static method FillRows(ls: seq<string>, start: seq<ClientRow>) returns (rows: seq<ClientRow>, n: nat)
      requires |start| == |ls|
      ensures n == GoodPrefix(ls) && |rows| == |ls|
      ensures forall j :: 0 <= j < n ==> rows[j] == RowOf(ls[j])
      ensures forall j :: n <= j < |ls| ==> rows[j] == start[j]
    {
      rows := start;
      n := 0;
      while n < |ls| && IsLease(ls[n])
        invariant 0 <= n <= GoodPrefix(ls)
        invariant |rows| == |ls|
        invariant forall j :: 0 <= j < n ==> rows[j] == RowOf(ls[j])
        invariant forall j :: n <= j < |ls| ==> rows[j] == start[j]
      {
        rows := rows[n := RowOf(ls[n])];
        n := n + 1;
      }
    }

    /** `toggle_hotspot`. Starting needs an interface, the configuration
        written (`writeError` none), hostapd reported active, then
        `setup_interface` (`interfaceError` none), an address with a DHCP
        range for `setup_dnsmasq`, and `setup_forwarding` (`forwardingError`
        none); the first failure is logged by the step that raised it and
        again as "Failed to start hotspot: ...". Stopping always turns the
        hotspot off. */
    method Toggle(f: HotspotForm, writeError: Option<string>, hostapdActive: bool,
                  interfaceError: Option<string>, forwardingError: Option<string>)
      modifies this
      ensures old(active) ==> !active && buttonText == "Start Hotspot" && console == old(console) + [Info("Hotspot stopped")]
      ensures !old(active) ==>
        (active <==> f.iface != "" && writeError.None? && hostapdActive && interfaceError.None?
                     && DhcpRangeOf(ipText).Some? && forwardingError.None?)
      ensures !old(active) && active ==>
        buttonText == "Stop Hotspot"
        && console == old(console) + DefaultNote(old(passwordText)) + [Info("Hotspot started successfully")]
      ensures !old(active) && !active ==> buttonText == old(buttonText)
      ensures !old(active) && f.iface == "" ==>
        console == old(console) + [Error("Failed to start hotspot: No interface selected")] && written == old(written)
      ensures !old(active) && f.iface != "" && writeError.Some? ==>
        written == old(written)
        && console == old(console) + DefaultNote(old(passwordText))
                      + [Error("Error generating config: " + writeError.value), Error("Failed to start hotspot: " + writeError.value)]
      ensures !old(active) && f.iface != "" && writeError.None? && !hostapdActive ==>
        console == old(console) + DefaultNote(old(passwordText)) + [Error("Failed to start hotspot: Failed to start hostapd")]
      ensures !old(active) && f.iface != "" && writeError.None? ==> written == HostapdSettings(f.(password := passwordText))
      ensures !old(active) && f.iface != "" && writeError.None? && hostapdActive && interfaceError.Some? ==>
        console == old(console) + DefaultNote(old(passwordText)) + [Error("Failed to setup interface: " + interfaceError.value),
                                     Error("Failed to start hotspot: " + interfaceError.value)]
      ensures !old(active) && f.iface != "" && writeError.None? && hostapdActive && interfaceError.None?
              && DhcpRangeOf(ipText).None? ==>
        console == old(console) + DefaultNote(old(passwordText)) + [Error("Failed to setup DHCP: " + IndexErrorText),
                                     Error("Failed to start hotspot: " + IndexErrorText)]
      ensures !old(active) && f.iface != "" && writeError.None? && hostapdActive && interfaceError.None?
              && DhcpRangeOf(ipText).Some? && forwardingError.Some? ==>
        console == old(console) + DefaultNote(old(passwordText)) + [Error("Failed to setup forwarding: " + forwardingError.value),
                                     Error("Failed to start hotspot: " + forwardingError.value)]
      ensures ipText == old(ipText) && clients == old(clients)
    {
      if active {
        active := false;
        buttonText := "Start Hotspot";
        console := console + [Info("Hotspot stopped")];
        return;
      }
      if f.iface == "" {
        console := console + [Error("Failed to start hotspot: No interface selected")];
        return;
      }
      var raised := GenerateConfig(f, writeError);
      if raised.Some? {
        console := console + [Error("Failed to start hotspot: " + raised.value)];
      } else if !hostapdActive {
        console := console + [Error("Failed to start hotspot: Failed to start hostapd")];
      } else if interfaceError.Some? {
        console := console + [Error("Failed to setup interface: " + interfaceError.value),
                              Error("Failed to start hotspot: " + interfaceError.value)];
      } else if DhcpRangeOf(ipText).None? {
        console := console + [Error("Failed to setup DHCP: " + IndexErrorText),
                              Error("Failed to start hotspot: " + IndexErrorText)];
      } else if forwardingError.Some? {
        console := console + [Error("Failed to setup forwarding: " + forwardingError.value),
                              Error("Failed to start hotspot: " + forwardingError.value)];
      } else {
        active := true;
        buttonText := "Stop Hotspot";
        console := console + [Info("Hotspot started successfully")];
      }
    }
  }
}
