/** The service-control HTTP routes
    (storage/scripts/nsatt_web/routes/control_routes.py): request
    validation in front of the helpers of ServiceControl. */
module ControlRoutes {
  import opened Strings
  import SC = ServiceControl
  import Shell

  const ValidServices: seq<string> := ["vsftpd", "lldpd", "ssh", "apache2", "postgresql"]
  const ValidActions: seq<string> := ["start", "stop", "restart"]
  const RestartScriptPath: string := "/usr/local/bin/restart_app.sh"

  /** A JSON body. */
  datatype Body = Message(message: string) | Error(error: string) | Report(report: SC.StatusReport)

  /** An HTTP reply, with the shell commands the request caused. */
  datatype Reply = Reply(code: int, body: Body, issued: seq<string>)

  /** /control/<service>/<action>: a service outside the whitelist or an
      action other than start/stop/restart is refused with 400 and runs
      nothing; anything else runs one systemctl command and replies 200 with
      its message. */
  function ControlServices(service: string, action: string, run: Shell.Outcome): (r: Reply)
    ensures r.code == 400 <==> service !in ValidServices || action !in ValidActions
    ensures r.code == 400 ==> r.body == Error("Invalid service or action.") && r.issued == []
    ensures r.code != 400 ==> r.code == 200 && r.issued == [SC.ControlCommand(service, action)]
    ensures r.code == 200 ==> r.body.Message? && Contains(r.body.message, action) && Contains(r.body.message, service)
  {
    if service !in ValidServices || action !in ValidActions then
      Reply(400, Error("Invalid service or action."), [])
    else
      Reply(200, Message(SC.ControlService(service, action, run)), [SC.ControlCommand(service, action)])
  }

  /** /control/<service>/status: the status dictionary, unchanged, with 200. */
  function ControlServicesStatus(service: string, probe: Shell.Probe): (r: Reply)
    ensures r.code == 200 && r.body.Report?
    ensures probe.Output? ==> r.body.report.Status? && r.body.report.service == service
    ensures probe.Output? ==> (r.body.report.status == "active" <==> probe.text == "active")
  {
    Reply(200, Report(SC.GetServiceStatus(service, probe)), ["systemctl is-active " + service])
  }

  /** /restart: the launcher script must exist and be executable, else 500
      and nothing is launched. */
  function RestartScriptRoute(present: bool, executable: bool, launch: Shell.Outcome): (r: Reply)
    ensures r.code == 200 <==> present && executable && launch.Completed?
    ensures r.code == 200 ==> r.body == Message("Script is restarting...") && r.issued == [RestartScriptPath]
    ensures r.code != 200 ==> r.code == 500 && r.body.Error?
    ensures !present ==> r.body == Error("Script " + RestartScriptPath + " not found.") && r.issued == []
    ensures present && !executable ==> r.body == Error("Script " + RestartScriptPath + " is not executable.") && r.issued == []
  {
    if !present then Reply(500, Error("Script " + RestartScriptPath + " not found."), [])
    else if !executable then Reply(500, Error("Script " + RestartScriptPath + " is not executable."), [])
    else match launch
      case Completed => Reply(200, Message("Script is restarting..."), [RestartScriptPath])
      case Raised(e) => Reply(500, Error(e), [RestartScriptPath])
  }
}
