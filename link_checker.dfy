/** The wired-link plugin: the three managed network services and their
    buttons, the decision `toggle_service` takes for a service, the network
    a scan covers, and the port-LED blink that tries two commands in turn.
    Package checks, `systemctl` and `ethtool` runs are inputs: a probe
    function for a service's state, and a predicate telling which command
    succeeds. */
module LinkChecker {
  import opened Strings

  datatype ServiceStatus = ServiceStatus(installed: bool, active: bool)

  /** The services the plugin manages, in the order of its buttons. */
  const ManagedServices: seq<string> := ["network-manager", "dhcpcd", "resolved"]

  /** `REQUIRED_PACKAGES` for the managed services. */
  function PackageOf(service: string): string
    requires service in ManagedServices
  {
    if service == "resolved" then "systemd-resolved" else service
  }

  /** The systemd unit behind each managed service. */
  function UnitOf(service: string): string
    requires service in ManagedServices
  {
    if service == "network-manager" then "NetworkManager"
    else if service == "dhcpcd" then "dhcpcd"
    else "systemd-resolved"
  }

  datatype Action = Start | Stop

  function ActionWord(a: Action): string {
    match a
    case Start => "start"
    case Stop => "stop"
  }

  /** `SERVICE_COMMANDS[service][action]`. */
  function ServiceCommand(service: string, a: Action): (cmd: seq<string>)
    requires service in ManagedServices
    ensures cmd == ["sudo", "systemctl", ActionWord(a), UnitOf(service)]
  {
    ["sudo", "systemctl", ActionWord(a), UnitOf(service)]
  }

  /** What `toggle_service` goes on to do. */
  datatype ToggleStep =
    | StartInstall(package: string)
    | InstallDeclined
    | RunCommand(command: seq<string>)
    | UnknownService

  /** `toggle_service`: an installed service is stopped when active and
      started when not; an uninstalled one is offered for installation,
      and `installYes` is the answer to that question. */
  function ToggleDecision(status: map<string, ServiceStatus>, service: string, installYes: bool): ToggleStep {
    if service !in status || service !in ManagedServices then UnknownService
    else if !status[service].installed then
      if installYes then StartInstall(PackageOf(service)) else InstallDeclined
    else RunCommand(ServiceCommand(service, if status[service].active then Stop else Start))
  }

  /** Installed and active gives stop, installed and inactive gives start,
      and a service that is not installed never runs a start or stop. */
  lemma ToggleDecisionMeans(status: map<string, ServiceStatus>, service: string, installYes: bool)
    requires service in status && service in ManagedServices
    ensures status[service].installed && status[service].active ==>
      ToggleDecision(status, service, installYes) == RunCommand(["sudo", "systemctl", "stop", UnitOf(service)])
    ensures status[service].installed && !status[service].active ==>
      ToggleDecision(status, service, installYes) == RunCommand(["sudo", "systemctl", "start", UnitOf(service)])
    ensures !status[service].installed ==> !ToggleDecision(status, service, installYes).RunCommand?
    ensures !status[service].installed && installYes ==>
      ToggleDecision(status, service, installYes) == StartInstall(PackageOf(service))
  {
  }

  /** The button colours, as their style sheets. */
  datatype Colour = Red | Yellow | Green

  function StyleSheet(c: Colour): string {
    match c
    case Red => "background-color: #f44336;"
    case Yellow => "background-color: #ffeb3b;"
    case Green => "background-color: #4CAF50;"
  }

  function ColourOf(s: ServiceStatus): (c: Colour)
    ensures c == Red <==> !s.installed
    ensures c == Yellow <==> s.installed && !s.active
    ensures c == Green <==> s.installed && s.active
  {
    if !s.installed then Red else if !s.active then Yellow else Green
  }

  /** `start_network_scan`: the address with its last dotted part dropped,
      followed by `.0/24`. */
  function ScanNetwork(ip: string): string {
    var parts := SplitOn(ip, '.');
    JoinOn(parts[..|parts| - 1], '.') + ".0/24"
  }

  /** For an IPv4 address `a.b.c.d` the scan covers `a.b.c.0/24`. */
  lemma ScanNetworkOfAddress(a: string, b: string, c: string, d: string)
    requires '.' !in a && '.' !in b && '.' !in c && '.' !in d
    ensures ScanNetwork(a + "." + b + "." + c + "." + d) == a + "." + b + "." + c + ".0/24"
  {
    var ip := a + "." + b + "." + c + "." + d;
    assert ip == a + ['.'] + (b + ['.'] + (c + ['.'] + d));
    SplitAddress(a, b, c, d);
    var parts := SplitOn(ip, '.');
    assert parts[..3] == [a, b, c];
    JoinThree(a, b, c);
  }

  lemma SplitAddress(a: string, b: string, c: string, d: string)
    requires '.' !in a && '.' !in b && '.' !in c && '.' !in d
    ensures SplitOn(a + ['.'] + (b + ['.'] + (c + ['.'] + d)), '.') == [a, b, c, d]
  {
    SplitLastThree(b, c, d);
    SplitAppendSep(a, '.', b + ['.'] + (c + ['.'] + d));
  }

  lemma SplitLastThree(b: string, c: string, d: string)
    requires '.' !in b && '.' !in c && '.' !in d
    ensures SplitOn(b + ['.'] + (c + ['.'] + d), '.') == [b, c, d]
  {
    SplitNoSep(d, '.');
    SplitAppendSep(c, '.', d);
    SplitAppendSep(b, '.', c + ['.'] + d);
  }

  lemma JoinThree(a: string, b: string, c: string)
    ensures JoinOn([a, b, c], '.') == a + "." + b + "." + c
  {
    assert [a, b, c][1..] == [b, c] && [b, c][1..] == [c];
    assert JoinOn([b, c], '.') == b + ['.'] + c;
  }

  /** The first of `commands` that succeeds, if any does. */
  function FirstSuccess(commands: seq<seq<string>>, succeeds: seq<string> -> bool): (r: Option<nat>)
    ensures r.Some? ==> r.value < |commands| && succeeds(commands[r.value])
                        && forall j :: 0 <= j < r.value ==> !succeeds(commands[j])
    ensures r.None? ==> forall j :: 0 <= j < |commands| ==> !succeeds(commands[j])
  {
    if commands == [] then None
    else if succeeds(commands[0]) then Some(0)
    else match FirstSuccess(commands[1..], succeeds)
      case None => None
      case Some(k) => Some(k + 1)
  }

  /** The two ways `toggle_port_led` asks the port to blink. */
  const LedCommands: seq<seq<string>> := [
    ["sudo", "ethtool", "--identify", "eth0", "5"],
    ["sudo", "ethtool", "-p", "eth0", "5"]
  ]

  class LinkPlugin {
    /** `services_status`: the state last seen for each managed service. */
    var servicesStatus: map<string, ServiceStatus>
    /** The colour of each service's button. */
    var buttonColour: map<string, Colour>

    predicate Valid()
      reads this
    {
      servicesStatus.Keys == set s | s in ManagedServices
    }

    constructor()
      ensures Valid()
      ensures forall s :: s in ManagedServices ==> servicesStatus[s] == ServiceStatus(false, false)
      ensures buttonColour == map[]
    {
      servicesStatus := map["network-manager" := ServiceStatus(false, false),
                            "dhcpcd" := ServiceStatus(false, false),
                            "resolved" := ServiceStatus(false, false)];
      buttonColour := map[];
    }

    /** `update_service_buttons`: each managed service is probed, its state
        cached, and its button coloured red, yellow or green. */
    method UpdateServiceButtons(probe: string -> ServiceStatus)
      requires Valid()
      modifies this
      ensures Valid()
      ensures forall s :: s in ManagedServices ==> servicesStatus[s] == probe(s)
      ensures forall s :: s in ManagedServices ==> s in buttonColour && buttonColour[s] == ColourOf(probe(s))
      ensures forall s :: s in old(buttonColour) && s !in ManagedServices ==> s in buttonColour && buttonColour[s] == old(buttonColour)[s]
      ensures buttonColour.Keys == old(buttonColour).Keys + set s | s in ManagedServices
    {
      var status := servicesStatus;
      var colours := buttonColour;
      for i := 0 to |ManagedServices|
        invariant status.Keys == servicesStatus.Keys
        invariant forall j :: 0 <= j < i ==> status[ManagedServices[j]] == probe(ManagedServices[j])
        invariant forall j :: 0 <= j < i ==>
          ManagedServices[j] in colours && colours[ManagedServices[j]] == ColourOf(probe(ManagedServices[j]))
        invariant forall s :: s in colours <==> s in buttonColour || s in ManagedServices[..i]
        invariant forall s :: s in buttonColour && s !in ManagedServices[..i] ==> s in colours && colours[s] == buttonColour[s]
      {
        var service := ManagedServices[i];
        var st := probe(service);
        status := status[service := st];
        colours := colours[service := ColourOf(st)];
        assert ManagedServices[..i + 1] == ManagedServices[..i] + [service];
      }
      assert ManagedServices[..3] == ManagedServices;
      servicesStatus := status;
      buttonColour := colours;
    }

    /** `toggle_service`: the chosen step, after which (unless an
        installation was started or the service is unknown) the buttons are
        refreshed from a new probe. */
    method ToggleService(service: string, installYes: bool, probe: string -> ServiceStatus) returns (step: ToggleStep)
      requires Valid()
      modifies this
      ensures Valid()
      ensures step == ToggleDecision(old(servicesStatus), service, installYes)
      ensures step.RunCommand? || step.InstallDeclined? ==>
        forall s :: s in ManagedServices ==> servicesStatus[s] == probe(s)
      ensures step.StartInstall? || step.UnknownService? ==>
        servicesStatus == old(servicesStatus) && buttonColour == old(buttonColour)
    {
      step := ToggleDecision(servicesStatus, service, installYes);
      if step.RunCommand? || step.InstallDeclined? {
        UpdateServiceButtons(probe);
      }
    }

    /** `toggle_port_led`: the blink commands are tried in order until one
        succeeds; `tried` is every command run. */
    method ToggleLed(succeeds: seq<string> -> bool) returns (success: bool, tried: seq<seq<string>>)
      ensures success <==> FirstSuccess(LedCommands, succeeds).Some?
      ensures success ==> tried == LedCommands[..FirstSuccess(LedCommands, succeeds).value + 1]
      ensures !success ==> tried == LedCommands
    {
      success := false;
      tried := [];
      var i := 0;
      while i < |LedCommands|
        invariant 0 <= i <= |LedCommands|
        invariant tried == LedCommands[..i]
        invariant forall j :: 0 <= j < i ==> !succeeds(LedCommands[j])
        invariant !success
      {
        var command := LedCommands[i];
        tried := tried + [command];
        if succeeds(command) {
          success := true;
          assert FirstSuccess(LedCommands, succeeds) == Some(i);
          assert tried == LedCommands[..i + 1];
          return;
        }
        i := i + 1;
      }
    }
  }
}
