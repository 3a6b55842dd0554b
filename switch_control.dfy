/** The web interface's switch port-light control: the command lists sent
    to a switch for each device type and action, the credentials tried, and
    the order in which device types and credentials are tried. Opening a
    session to a switch is an input predicate. */
module SwitchControl {
  import opened Strings

  datatype Credential = Credential(username: string, password: string)

  /** `get_credentials`, in the order they are tried. */
  const Credentials: seq<Credential> := [
    Credential("", ""), Credential("admin", ""), Credential("admin", "admin"),
    Credential("admin", "password"), Credential("cisco", "cisco"), Credential("manager", "manager")
  ]

  /** The first credential tried is no username and no password. */
  lemma FirstCredentialEmpty()
    ensures |Credentials| == 6 && Credentials[0] == Credential("", "")
  {
  }

  /** `common_commands[action]`; `None` is the `KeyError` for any other action. */
  function CommonCommands(action: string, port: string): Option<seq<string>> {
    if action == "on" then Some(["interface " + port, "beacon on"])
    else if action == "off" then Some(["interface " + port, "beacon off"])
    else if action == "blink" then Some(["interface " + port, "beacon off", "beacon on"])
    else None
  }

  /** `device_specific_commands[device_type][action]`, where present. */
  function DeviceCommands(deviceType: string, action: string, port: string): Option<seq<string>> {
    if deviceType == "hp_procurve" then
      if action == "on" || action == "blink" then Some(["interface " + port, "led-mode on"])
      else if action == "off" then Some(["interface " + port, "led-mode off"])
      else None
    else if deviceType == "juniper" then
      if action == "on" || action == "blink" then Some(["set interfaces " + port + " led-mode on"])
      else if action == "off" then Some(["set interfaces " + port + " led-mode off"])
      else None
    else None
  }

  /** `get_commands`. Without a port every port of the range is addressed;
      with one, the device's own table wins over the common one. The common
      entry is the default argument of `.get` and so is looked up first:
      an action outside the table raises (`None`) for every device type. */
  function GetCommands(deviceType: string, action: string, port: string): Option<seq<string>> {
    if port == "" then
      Some(["interface range Gi1/0/1 - 48", if action == "on" || action == "blink" then "beacon on" else "beacon off"])
    else
      match CommonCommands(action, port)
      case None => None
      case Some(common) =>
        match DeviceCommands(deviceType, action, port)
        case Some(own) => Some(own)
        case None => Some(common)
  }

  /** Without a port the beacon is on for `on` and `blink` and off for
      anything else, whatever the device. */
  lemma NoPortRange(deviceType: string, action: string)
    ensures action == "on" || action == "blink" ==>
      GetCommands(deviceType, action, "") == Some(["interface range Gi1/0/1 - 48", "beacon on"])
    ensures action != "on" && action != "blink" ==>
      GetCommands(deviceType, action, "") == Some(["interface range Gi1/0/1 - 48", "beacon off"])
  {
  }

  /** HP ProCurve and Juniper switches get their own LED commands; every
      other device type gets the common table, where blinking is the beacon
      switched off and then on. */
  lemma CommandTables(deviceType: string, port: string)
    requires port != ""
    ensures GetCommands("hp_procurve", "blink", port) == Some(["interface " + port, "led-mode on"])
    ensures GetCommands("hp_procurve", "off", port) == Some(["interface " + port, "led-mode off"])
    ensures GetCommands("juniper", "on", port) == Some(["set interfaces " + port + " led-mode on"])
    ensures GetCommands("juniper", "off", port) == Some(["set interfaces " + port + " led-mode off"])
    ensures deviceType != "hp_procurve" && deviceType != "juniper" ==>
      GetCommands(deviceType, "blink", port) == Some(["interface " + port, "beacon off", "beacon on"])
      && GetCommands(deviceType, "on", port) == Some(["interface " + port, "beacon on"])
      && GetCommands(deviceType, "off", port) == Some(["interface " + port, "beacon off"])
  {
  }

  /** With a port, an unknown action gives no commands for any device type. */
  lemma UnknownActionRaises(deviceType: string, action: string, port: string)
    requires port != "" && action != "on" && action != "off" && action != "blink"
    ensures GetCommands(deviceType, action, port).None?
  {
  }

  /** The device types `try_connect` tries, in order. */
  const DeviceTypes: seq<string> := ["cisco_ios", "hp_procurve", "juniper", "arista_eos"]

  /** A device type works when a session opens with it and its commands can
      be built and sent. */
  predicate Works(connects: (string, Credential) -> bool, deviceType: string, c: Credential, action: string, port: string) {
    connects(deviceType, c) && GetCommands(deviceType, action, port).Some?
  }

  /** `try_connect`: the device types are tried in order; true at the first
      that works. */
  method TryConnect(connects: (string, Credential) -> bool, c: Credential, action: string, port: string)
    returns (ok: bool, used: Option<string>)
    ensures ok <==> exists d :: d in DeviceTypes && Works(connects, d, c, action, port)
    ensures ok ==> used.Some? && used.value in DeviceTypes && Works(connects, used.value, c, action, port)
    ensures ok ==> exists j :: (0 <= j < |DeviceTypes| && DeviceTypes[j] == used.value
                               && forall k :: 0 <= k < j ==> !Works(connects, DeviceTypes[k], c, action, port))
    ensures !ok ==> used.None?
  {
    var i := 0;
    while i < |DeviceTypes|
      invariant 0 <= i <= |DeviceTypes|
      invariant forall k :: 0 <= k < i ==> !Works(connects, DeviceTypes[k], c, action, port)
    {
      var d := DeviceTypes[i];
      if connects(d, c) && GetCommands(d, action, port).Some? {
        ok, used := true, Some(d);
        assert d in DeviceTypes && Works(connects, d, c, action, port);
        return;
      }
      i := i + 1;
    }
    ok, used := false, None;
  }

  /** The credential loop of `change_port_light` for one managed switch:
      the credentials are tried in order; the result is the first that
      works with some device type. */
  method TryCredentials(connects: (string, Credential) -> bool, action: string, port: string)
    returns (found: Option<Credential>)
    ensures found.Some? ==>
      found.value in Credentials && exists d :: d in DeviceTypes && Works(connects, d, found.value, action, port)
    ensures found.None? ==> forall c, d :: c in Credentials && d in DeviceTypes ==> !Works(connects, d, c, action, port)
  {
    for i := 0 to |Credentials|
      invariant forall k, d :: 0 <= k < i && d in DeviceTypes ==> !Works(connects, d, Credentials[k], action, port)
    {
      var ok, _ := TryConnect(connects, Credentials[i], action, port);
      if ok {
        return Some(Credentials[i]);
      }
    }
    return None;
  }

  /** A discovered switch: its address and whether it is managed. Unmanaged
      devices are only logged. */
  datatype Switch = Switch(ip: string, managed: bool)

  const FailedText: string := "Failed to change port light" + " on any discovered switch or device"

  /** Some credential and device type open a session to the switch at `ip`
      (`connects(ip, deviceType, credential)`) and can send the commands. */
  predicate Reachable(connects: (string, string, Credential) -> bool, ip: string, action: string, port: string) {
    exists c, d :: c in Credentials && d in DeviceTypes && connects(ip, d, c) && GetCommands(d, action, port).Some?
  }

  /** `change_port_light` over the discovered switches (none found gives
      the failure message): the first managed switch that some credential
      reaches is reported; otherwise the failure message. */
  method ChangePortLight(switches: seq<Switch>, connects: (string, string, Credential) -> bool, action: string, port: string)
    returns (message: string)
    ensures message == FailedText <==>
      forall i :: 0 <= i < |switches| && switches[i].managed ==> !Reachable(connects, switches[i].ip, action, port)
    ensures message != FailedText ==>
      exists i :: 0 <= i < |switches| && switches[i].managed && Reachable(connects, switches[i].ip, action, port)
        && message == "Successfully changed port light on " + switches[i].ip
        && forall k :: 0 <= k < i && switches[k].managed ==> !Reachable(connects, switches[k].ip, action, port)
  {
    for i := 0 to |switches|
      invariant forall k :: 0 <= k < i && switches[k].managed ==> !Reachable(connects, switches[k].ip, action, port)
    {
      if switches[i].managed {
        var ip := switches[i].ip;
        var f := (d: string, c: Credential) => connects(ip, d, c);
        var found := TryCredentials(f, action, port);
        if found.Some? {
          var d :| d in DeviceTypes && Works(f, d, found.value, action, port);
          assert connects(ip, d, found.value);
          message := "Successfully changed port light on " + ip;
          assert message[0] == 'S';
          assert FailedText[0] == 'F';
          return;
        }
        forall c, d | c in Credentials && d in DeviceTypes
          ensures !(connects(ip, d, c) && GetCommands(d, action, port).Some?)
        {
          assert !Works(f, d, c, action, port);
        }
      }
    }
    return FailedText;
  }
}
