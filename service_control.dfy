/** The systemd helpers of the web control panel
    (storage/scripts/nsatt_web/modules/service_control.py). The shell calls
    themselves are outside the model: each operation receives how its
    command ended. */
module ServiceControl {
  import opened Strings
  import opened Shell

  /** The dictionary get_service_status returns. */
  datatype StatusReport = Status(service: string, status: string) | Failure(error: string)

  /** The shell command control_service runs. */
  function ControlCommand(service: string, action: string): (cmd: string)
    ensures StartsWith(cmd, "sudo systemctl ")
    ensures Contains(cmd, action) && Contains(cmd, service)
  {
    var cmd := "sudo systemctl " + action + " " + service;
    ContainsPiece(cmd, "sudo systemctl ", action, " " + service);
    ContainsPiece(cmd, "sudo systemctl " + action + " ", service, "");
    cmd
  }

  /** control_service: a success sentence naming the action and the service,
      or an "Error ..." sentence carrying the exception text. */
  function ControlService(service: string, action: string, run: Outcome): (message: string)
    ensures Contains(message, action) && Contains(message, service)
    ensures run.Raised? ==> Contains(message, run.reason)
    ensures StartsWith(message, "Error ") <==> run.Raised?
  {
    match run
      case Completed =>
        var m := "The " + action + " action for service " + service + " has been completed successfully.";
        ContainsPiece(m, "The ", action, " action for service " + service + " has been completed successfully.");
        ContainsPiece(m, "The " + action + " action for service ", service, " has been completed successfully.");
        assert m[0] == 'T';
        m
      case Raised(e) =>
        var m := "Error " + action + "ing " + service + ": " + e;
        ContainsPiece(m, "Error ", action, "ing " + service + ": " + e);
        ContainsPiece(m, "Error " + action + "ing ", service, ": " + e);
        ContainsPiece(m, "Error " + action + "ing " + service + ": ", e, "");
        m
  }

  /** get_service_status: "active" exactly when the probe printed "active",
      "inactive" for every other output, and the name echoed back. */
  function GetServiceStatus(service: string, probe: Probe): (r: StatusReport)
    ensures probe.Output? ==> r.Status? && r.service == service
    ensures probe.Output? ==> (r.status == "active" <==> probe.text == "active")
    ensures r.Status? ==> r.status == "active" || r.status == "inactive"
    ensures probe.ProbeRaised? ==> r == Failure(probe.reason)
  {
    match probe
      case Output(text) => Status(service, if text == "active" then "active" else "inactive")
      case ProbeRaised(e) => Failure(e)
  }

  /** restart_device: the fixed reply unless the reboot command raised. */
  function RestartDevice(run: Outcome): (message: string)
    ensures run.Completed? ==> message == "Device is restarting."
    ensures run.Raised? ==> StartsWith(message, "Error restarting device: ") && Contains(message, run.reason)
  {
    match run
      case Completed => "Device is restarting."
      case Raised(e) =>
        ContainsPiece("Error restarting device: " + e, "Error restarting device: ", e, "");
        "Error restarting device: " + e
  }

  /** stop_script: the fixed reply unless one of its commands raised. */
  function StopScript(run: Outcome): (message: string)
    ensures run.Completed? ==> message == "Script stopped successfully."
    ensures run.Raised? ==> StartsWith(message, "Error stopping script: ") && Contains(message, run.reason)
  {
    match run
      case Completed => "Script stopped successfully."
      case Raised(e) =>
        ContainsPiece("Error stopping script: " + e, "Error stopping script: ", e, "");
        "Error stopping script: " + e
  }
}
