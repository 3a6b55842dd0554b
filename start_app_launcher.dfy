/** The launcher web service that starts and stops the main application: the
    flag files under the settings directory, the index page's bookkeeping
    (the application's start time and a short debug log), the start route
    that runs the launch script, starts the services whose autostart flags
    exist and polls for readiness, and the stop route. Processes, the clock,
    the port probe and the launch script's outcome are inputs; the commands
    the launcher issues are recorded in order. */
module StartAppLauncher {
  import opened Strings

  /** The flag files of the settings directory. */
  datatype Flag = AutostartApp | StartApp | FtpAutostart | SshAutostart
                | LldpdAutostart | PostgresqlAutostart | Apache2Autostart

  function FlagPath(f: Flag): string {
    match f
    case AutostartApp => "/nsatt/storage/settings/autostart_app.nsatt"
    case StartApp => "/nsatt/storage/settings/start_app.nsatt"
    case FtpAutostart => "/nsatt/storage/settings/autostart_ftp.nsatt"
    case SshAutostart => "/nsatt/storage/settings/autostart_ssh.nsatt"
    case LldpdAutostart => "/nsatt/storage/settings/autostart_lldpd.nsatt"
    case PostgresqlAutostart => "/nsatt/storage/settings/autostart_postgresql.nsatt"
    case Apache2Autostart => "/nsatt/storage/settings/autostart_apache2.nsatt"
  }

  /** A command the launcher issues. */
  datatype Command = RunLaunchScript | StartService(unit: string) | StopService(unit: string)
                   | Terminate(pid: int)

  /** The services started and stopped with the application, in the order
      both routes handle them. */
  const ServiceFlags: seq<Flag> := [SshAutostart, FtpAutostart, LldpdAutostart, PostgresqlAutostart, Apache2Autostart]

  function Unit(f: Flag): string {
    match f
    case SshAutostart => "ssh.service"
    case FtpAutostart => "vsftpd.service"
    case LldpdAutostart => "lldpd.service"
    case PostgresqlAutostart => "postgresql.service"
    case Apache2Autostart => "apache2.service"
    case _ => ""
  }

  /** Flipping a flag file: an existing one is removed, a missing one made. */
  function Toggled(flags: set<Flag>, f: Flag): (r: set<Flag>)
    ensures f in r <==> f !in flags
    ensures forall g :: g != f ==> (g in r <==> g in flags)
  {
    if f in flags then flags - {f} else flags + {f}
  }

  /** The services of `fs` whose flag is (when `present`) or is not in `flags`. */
  function ServicesWhere(fs: seq<Flag>, flags: set<Flag>, present: bool): seq<string> {
    if fs == [] then []
    else (if (fs[0] in flags) == present then [Unit(fs[0])] else []) + ServicesWhere(fs[1..], flags, present)
  }

  /** A service is selected exactly when one of its flags is (or is not)
      present. */
  lemma {:induction false} ServicesWhereMembers(fs: seq<Flag>, flags: set<Flag>, present: bool)
    ensures forall i :: 0 <= i < |fs| && (fs[i] in flags) == present ==> Unit(fs[i]) in ServicesWhere(fs, flags, present)
    ensures forall u :: u in ServicesWhere(fs, flags, present) ==>
      exists i :: 0 <= i < |fs| && Unit(fs[i]) == u && (fs[i] in flags) == present
    decreases |fs|
  {
    if fs != [] {
      ServicesWhereMembers(fs[1..], flags, present);
      assert forall i :: 1 <= i < |fs| ==> fs[1..][i - 1] == fs[i];
    }
  }

  function Starts(units: seq<string>): (r: seq<Command>)
    ensures |r| == |units| && forall i :: 0 <= i < |units| ==> r[i] == StartService(units[i])
  {
    if units == [] then [] else [StartService(units[0])] + Starts(units[1..])
  }

  function Stops(units: seq<string>): (r: seq<Command>)
    ensures |r| == |units| && forall i :: 0 <= i < |units| ==> r[i] == StopService(units[i])
  {
    if units == [] then [] else [StopService(units[0])] + Stops(units[1..])
  }

  /** No two flags of `fs` name the same service. */
  predicate DistinctUnits(fs: seq<Flag>) {
    forall i, j :: 0 <= i < |fs| && 0 <= j < |fs| && Unit(fs[i]) == Unit(fs[j]) ==> i == j
  }

  lemma ServiceUnitsDistinct()
    ensures DistinctUnits(ServiceFlags)
  {
    forall i, j | 0 <= i < |ServiceFlags| && 0 <= j < |ServiceFlags| && Unit(ServiceFlags[i]) == Unit(ServiceFlags[j])
      ensures i == j
    {
      assert ServiceFlags[i] == ServiceFlags[j];
    }
  }

  /** With distinct services, a flag's service is selected exactly when the
      flag is (or is not) present. */
  lemma ServicesWhereSelects(fs: seq<Flag>, flags: set<Flag>, present: bool, i: nat)
    requires DistinctUnits(fs) && i < |fs|
    ensures Unit(fs[i]) in ServicesWhere(fs, flags, present) <==> (fs[i] in flags) == present
  {
    ServicesWhereMembers(fs, flags, present);
    var r := ServicesWhere(fs, flags, present);
    if Unit(fs[i]) in r {
      assert exists j :: 0 <= j < |fs| && Unit(fs[j]) == Unit(fs[i]) && (fs[j] in flags) == present;
      var j :| 0 <= j < |fs| && Unit(fs[j]) == Unit(fs[i]) && (fs[j] in flags) == present;
    }
  }

  /** The start route starts exactly the services whose autostart flag exists. */
  lemma StartsPresentServices(flags: set<Flag>, i: nat)
    requires i < |ServiceFlags|
    ensures StartService(Unit(ServiceFlags[i])) in Starts(ServicesWhere(ServiceFlags, flags, true))
            <==> ServiceFlags[i] in flags
  {
    ServiceUnitsDistinct();
    ServicesWhereSelects(ServiceFlags, flags, true, i);
    var units := ServicesWhere(ServiceFlags, flags, true);
    if StartService(Unit(ServiceFlags[i])) in Starts(units) {
      var k :| 0 <= k < |units| && Starts(units)[k] == StartService(Unit(ServiceFlags[i]));
    }
  }

  /** The stop route stops exactly the services whose autostart flag is
      missing. */
  lemma StopsAbsentServices(flags: set<Flag>, i: nat)
    requires i < |ServiceFlags|
    ensures StopService(Unit(ServiceFlags[i])) in Stops(ServicesWhere(ServiceFlags, flags, false))
            <==> ServiceFlags[i] !in flags
  {
    ServiceUnitsDistinct();
    ServicesWhereSelects(ServiceFlags, flags, false, i);
    var units := ServicesWhere(ServiceFlags, flags, false);
    if StopService(Unit(ServiceFlags[i])) in Stops(units) {
      var k :| 0 <= k < |units| && Stops(units)[k] == StopService(Unit(ServiceFlags[i]));
    }
  }

  // ---------------------------------------------------------------------
  // The start route

  /** What the launch script did: it ran out of its 15 seconds, it
      finished with a return code and its output, or it never ran because
      starting the shell raised `error`. */
  datatype Launch =
    | TimedOut(error: string)
    | Finished(returnCode: int, stdout: string, stderr: string)
    | Raised(error: string)

  /** One readiness probe: whether port 8080 is in use, and whether the
      application answers over HTTP there. */
  datatype Probe = Probe(portInUse: bool, httpResponding: bool)

  /** The number of readiness probes. */
  const PollLimit: nat := 15

  predicate Ready(p: Probe) { p.portInUse && p.httpResponding }

  /** The first of the first `n` probes that finds the application ready. */
  function FirstReady(probe: nat -> Probe, n: nat): (r: Option<nat>)
    ensures r.Some? ==> r.value < n
  {
    if n == 0 then None
    else
      var r := FirstReady(probe, n - 1);
      if r.Some? then r else if Ready(probe(n - 1)) then Some(n - 1) else None
  }

  /** The probe found is ready and every earlier one was not; when none is
      found, none of the `n` was ready. */
  lemma {:induction false} FirstReadyIsFirst(probe: nat -> Probe, n: nat)
    ensures var r := FirstReady(probe, n);
      (r.Some? ==> Ready(probe(r.value)) && forall j :: 0 <= j < r.value ==> !Ready(probe(j)))
      && (r.None? ==> forall j :: 0 <= j < n ==> !Ready(probe(j)))
    decreases n
  {
    if n > 0 {
      FirstReadyIsFirst(probe, n - 1);
    }
  }

  /** An entry of the launcher's debug log. */
  datatype LogLine =
    | AttemptingStart
    | ScriptTimedOut(error: string)
    | StartError(error: string)
    | ScriptFailed(returnCode: int)
    | ScriptStdout(stdout: string)
    | ScriptStderr(stderr: string)
    | ScriptSucceeded(stdout: string)
    | PortBusy
    | Responding
    | NotReady(attempt: nat)
    | NotStartedInTime
    | AppStatus(now: string, running: bool)
    | ServiceStatus(now: string, running: bool)
    | Stopped(now: string)
    | NothingToStop(now: string)
    | StopError(now: string, error: string)

  /** Python's `str` of a boolean. */
  function BoolText(b: bool): string { if b then "True" else "False" }

  /** The text the launcher writes for each entry. */
  function LineText(l: LogLine): string {
    match l
    case AttemptingStart => "Attempting to start application..."
    case ScriptTimedOut(e) => "Launch script timed out after 15 seconds: " + e
    case StartError(e) => "Error starting application: " + e
    case ScriptFailed(rc) => "Launch script failed with return code " + IntToString(rc)
    case ScriptStdout(out) => "STDOUT: " + out
    case ScriptStderr(err) => "STDERR: " + err
    case ScriptSucceeded(out) => "Launch script executed successfully. STDOUT: " + out
    case PortBusy => "Port 8080 is in use. Verifying HTTP response..."
    case Responding => "Application is responding on port 8080."
    case NotReady(attempt) => "Attempt " + NatToString(attempt) + ": Port 8080 not ready. Retrying in 2 seconds..."
    case NotStartedInTime => NotStartedText
    case AppStatus(now, running) => now + ": Checked app status. Running: " + BoolText(running)
    case ServiceStatus(now, running) => now + ": Checked service status. Running: " + BoolText(running)
    case Stopped(now) => now + ": Application stopped successfully"
    case NothingToStop(now) => now + ": No running application found to stop"
    case StopError(now, e) => now + ": Error stopping application: " + e
  }

  const NotStartedText: string := "Application did not start within the expected time. Please check the logs."

  /** The start route's reply message. */
  datatype StartReply = StartedOk | LaunchTimedOut | LaunchFailed(stderr: string) | NotStarted | Unexpected(error: string)

  function StartReplyText(r: StartReply): string {
    match r
    case StartedOk => "NSATT Application has been started successfully."
    case LaunchTimedOut => "Launch script timed out. Please check the logs and try again."
    case LaunchFailed(err) => "Failed to start NSATT Application. Error: " + err
    case NotStarted => NotStartedText
    case Unexpected(e) => "An unexpected error occurred: " + e
  }

  function StatusOf(r: StartReply): nat {
    if r == StartedOk then 200 else 500
  }

  /** The log entries of one probe that did not find the application ready
      (attempts are counted from 1 in the text). */
  function MissedProbe(p: Probe, attempt: nat): seq<LogLine> {
    (if p.portInUse then [PortBusy] else []) + [NotReady(attempt + 1)]
  }

  /** The log entries of the first `n` probes, none of which was ready. */
  function MissedProbes(probe: nat -> Probe, n: nat): seq<LogLine> {
    if n == 0 then [] else MissedProbes(probe, n - 1) + MissedProbe(probe(n - 1), n - 1)
  }

  /** The outcome of the start route: its reply, the log entries it adds,
      whether it sets the start time, and how many probes it makes. */
  datatype StartOutcome = StartOutcome(reply: StartReply, log: seq<LogLine>, setsStartTime: bool, probes: nat)

  function StartResult(launch: Launch, probe: nat -> Probe, limit: nat): StartOutcome {
    match launch
    case TimedOut(e) => StartOutcome(LaunchTimedOut, [AttemptingStart, ScriptTimedOut(e)], false, 0)
    case Raised(e) => StartOutcome(Unexpected(e), [AttemptingStart, StartError(e)], false, 0)
    case Finished(rc, out, err) =>
      var o := FinishedResult(rc, out, err, probe, limit);
      o.(log := [AttemptingStart] + o.log)
  }

  /** The start route after the launch script finished. */
  function FinishedResult(rc: int, out: string, err: string, probe: nat -> Probe, limit: nat): StartOutcome {
    if rc != 0 then StartOutcome(LaunchFailed(err), [ScriptFailed(rc), ScriptStdout(out), ScriptStderr(err)], false, 0)
    else ProbeResult(out, probe, limit)
  }

  /** The start route after the launch script succeeded: the readiness probes. */
  function ProbeResult(out: string, probe: nat -> Probe, limit: nat): StartOutcome {
    match FirstReady(probe, limit)
    case Some(i) => StartOutcome(StartedOk, [ScriptSucceeded(out)] + MissedProbes(probe, i) + [PortBusy, Responding], true, i + 1)
    case None => StartOutcome(NotStarted, [ScriptSucceeded(out)] + MissedProbes(probe, limit) + [NotStartedInTime], true, limit)
  }

  /** The start route succeeds exactly when the launch script finished with
      0 and one of the `limit` probes found the application ready; it probes at most
      `limit` times, stopping at the first ready probe, and sets the start time
      exactly when the script succeeded. */
  lemma StartResultMeans(launch: Launch, probe: nat -> Probe, limit: nat)
    ensures var r := StartResult(launch, probe, limit);
      r.probes <= limit
      && (r.reply == StartedOk <==>
            (launch.Finished? && launch.returnCode == 0 && exists j :: 0 <= j < limit && Ready(probe(j))))
      && (r.setsStartTime <==> launch.Finished? && launch.returnCode == 0)
      && (r.reply == StartedOk ==> Ready(probe(r.probes - 1)) && forall j :: 0 <= j < r.probes - 1 ==> !Ready(probe(j)))
      && (launch.Finished? && launch.returnCode == 0 && r.reply != StartedOk ==> r.probes == limit)
      && (r.reply.Unexpected? <==> launch.Raised?) && (launch.Raised? ==> r.reply.error == launch.error)
  {
    FirstReadyIsFirst(probe, limit);
  }

  /** The commands of one start: the launch script, then, once it has
      finished, a start of every service whose autostart flag exists; none
      when the launch raised before the script ran. */
  function StartCommands(flags: set<Flag>, launch: Launch): seq<Command> {
    match launch
    case Raised(_) => []
    case TimedOut(_) => [RunLaunchScript]
    case Finished(_, _, _) => [RunLaunchScript] + Starts(ServicesWhere(ServiceFlags, flags, true))
  }

  /** The log of one start, or nothing when its flag is absent. */
  function AttemptLog(ran: bool, launch: Launch, probe: nat -> Probe, limit: nat): seq<LogLine> {
    if ran then StartResult(launch, probe, limit).log else []
  }

  /** The commands of one start, or none when its flag is absent. */
  function AttemptCommands(ran: bool, flags: set<Flag>, launch: Launch): seq<Command> {
    if ran then StartCommands(flags, launch) else []
  }

  /** `debug_log[-10:]`. */
  function LastTen<T>(log: seq<T>): seq<T> {
    if |log| <= 10 then log else log[|log| - 10..]
  }

  /** The trimmed log is the newest ten entries, or all when there are fewer. */
  lemma LastTenNewest<T>(log: seq<T>)
    ensures var r := LastTen(log);
      |r| == (if |log| <= 10 then |log| else 10) && r == log[|log| - |r|..]
  {
  }

  /** The launcher's state: the flag files, the module's start time and debug
      log, and the commands issued so far. */
  class Launcher {
    var flags: set<Flag>
    var startTime: Option<string>
    var debugLog: seq<LogLine>
    var commands: seq<Command>
    /** The number of readiness probes of the start route. */
    const pollLimit: nat

    constructor(flags: set<Flag>)
      ensures this.flags == flags && startTime.None? && debugLog == [] && commands == []
      ensures pollLimit == PollLimit
    {
      pollLimit := PollLimit;
      this.flags := flags;
      startTime := None;
      debugLog := [];
      commands := [];
    }

    /** The seven toggle routes: the flag is flipped and the reply reports
        whether the file exists afterwards. */
    method ToggleRoute(f: Flag) returns (exists_: bool)
      modifies this
      ensures flags == Toggled(old(flags), f) && exists_ == (f in flags) && exists_ == (f !in old(flags))
      ensures startTime == old(startTime) && debugLog == old(debugLog) && commands == old(commands)
    {
      if f in flags {
        flags := flags - {f};
      } else {
        flags := flags + {f};
      }
      exists_ := f in flags;
    }

    /** The readiness loop of the start route. */
    method Poll(probe: nat -> Probe) returns (ready: bool, probes: nat)
      modifies this
      ensures match FirstReady(probe, pollLimit)
        case Some(i) => ready && probes == i + 1 && debugLog == old(debugLog) + MissedProbes(probe, i) + [PortBusy, Responding]
        case None => !ready && probes == pollLimit && debugLog == old(debugLog) + MissedProbes(probe, pollLimit)
      ensures flags == old(flags) && startTime == old(startTime) && commands == old(commands)
    {
      var attempt := 0;
      while attempt < pollLimit
        invariant 0 <= attempt <= pollLimit && FirstReady(probe, attempt).None?
        invariant debugLog == old(debugLog) + MissedProbes(probe, attempt)
        invariant flags == old(flags) && startTime == old(startTime) && commands == old(commands)
      {
        var p := probe(attempt);
        if p.portInUse {
          debugLog := debugLog + [PortBusy];
          if p.httpResponding {
            debugLog := debugLog + [Responding];
            FirstReadyFrom(probe, attempt, pollLimit);
            return true, attempt + 1;
          }
        }
        debugLog := debugLog + [NotReady(attempt + 1)];
        attempt := attempt + 1;
      }
      return false, pollLimit;
    }

    /** The start route. `now` is the clock's reading. */
    method Start(launch: Launch, probe: nat -> Probe, now: string) returns (reply: StartReply, probes: nat)
      modifies this
      ensures var r := StartResult(launch, probe, pollLimit);
        reply == r.reply && probes == r.probes && debugLog == old(debugLog) + r.log
        && startTime == (if r.setsStartTime then Some(now) else old(startTime))
      ensures commands == old(commands) + StartCommands(flags, launch) && flags == old(flags)
    {
      debugLog := debugLog + [AttemptingStart];
      if launch.Raised? {
        debugLog := debugLog + [StartError(launch.error)];
        return Unexpected(launch.error), 0;
      }
      commands := commands + [RunLaunchScript];
      if launch.TimedOut? {
        debugLog := debugLog + [ScriptTimedOut(launch.error)];
        return LaunchTimedOut, 0;
      }
      commands := commands + Starts(ServicesWhere(ServiceFlags, flags, true));
      ghost var logged := debugLog;
      reply, probes := Finished(launch.returnCode, launch.stdout, launch.stderr, probe, now);
      assert debugLog == old(debugLog) + ([AttemptingStart] + FinishedResult(launch.returnCode, launch.stdout, launch.stderr, probe, pollLimit).log);
    }

    /** The start route once the launch script has finished. */
    method Finished(rc: int, out: string, err: string, probe: nat -> Probe, now: string)
      returns (reply: StartReply, probes: nat)
      modifies this
      ensures var r := FinishedResult(rc, out, err, probe, pollLimit);
        reply == r.reply && probes == r.probes && debugLog == old(debugLog) + r.log
        && startTime == (if r.setsStartTime then Some(now) else old(startTime))
      ensures commands == old(commands) && flags == old(flags)
    {
      if rc != 0 {
        debugLog := debugLog + [ScriptFailed(rc), ScriptStdout(out), ScriptStderr(err)];
        return LaunchFailed(err), 0;
      }
      reply, probes := AwaitReady(out, probe, now);
    }

    /** The start route once the launch script has succeeded. */
    method AwaitReady(out: string, probe: nat -> Probe, now: string) returns (reply: StartReply, probes: nat)
      modifies this
      ensures var r := ProbeResult(out, probe, pollLimit);
        reply == r.reply && probes == r.probes && debugLog == old(debugLog) + r.log && startTime == Some(now)
      ensures commands == old(commands) && flags == old(flags)
    {
      debugLog := debugLog + [ScriptSucceeded(out)];
      startTime := Some(now);
      var ready;
      ready, probes := Poll(probe);
      if ready {
        return StartedOk, probes;
      }
      debugLog := debugLog + [NotStartedInTime];
      return NotStarted, probes;
    }

    /** The status part of the index page: the start time is set when the
        application is first seen running and cleared when it is not, two
        entries are logged and only the last ten entries are kept. */
    method Observe(now: string, appRunning: bool, serviceRunning: bool)
      modifies this
      ensures startTime == (if !appRunning then None else if old(startTime).None? then Some(now) else old(startTime))
      ensures debugLog == LastTen(old(debugLog) + [AppStatus(now, appRunning), ServiceStatus(now, serviceRunning)])
      ensures flags == old(flags) && commands == old(commands)
    {
      if appRunning && startTime.None? {
        startTime := Some(now);
      } else if !appRunning {
        startTime := None;
      }
      debugLog := debugLog + [AppStatus(now, appRunning)];
      debugLog := debugLog + [ServiceStatus(now, serviceRunning)];
      debugLog := LastTen(debugLog);
    }

    /** The start part of the index page: with port 8080 free, each of the
        start-app and autostart flags that exists triggers one start; the
        start-app flag is removed first, the autostart flag is kept. The
        start for the start-app flag sees `first` and its probes, the one
        for the autostart flag `second` and its probes. */
    method TriggerStarts(portInUse: bool, first: Launch, firstProbe: nat -> Probe,
                         second: Launch, secondProbe: nat -> Probe, now: string)
      returns (starts: nat)
      modifies this
      ensures var runA, runB := !portInUse && StartApp in old(flags), !portInUse && AutostartApp in old(flags);
        && starts == (if runA then 1 else 0) + (if runB then 1 else 0)
        && flags == (if portInUse then old(flags) else old(flags) - {StartApp})
        && debugLog == old(debugLog) + AttemptLog(runA, first, firstProbe, pollLimit) + AttemptLog(runB, second, secondProbe, pollLimit)
        && commands == old(commands) + AttemptCommands(runA, flags, first) + AttemptCommands(runB, flags, second)
        && startTime == (if (runA && StartResult(first, firstProbe, pollLimit).setsStartTime)
                            || (runB && StartResult(second, secondProbe, pollLimit).setsStartTime)
                         then Some(now) else old(startTime))
    {
      starts := 0;
      if portInUse {
        return;
      }
      var runA := StartApp in flags;
      if runA {
        flags := flags - {StartApp};
      }
      var a := Attempt(runA, first, firstProbe, now);
      var b := Attempt(AutostartApp in flags, second, secondProbe, now);
      starts := a + b;
    }

    /** One start when its flag was present (`ran`), nothing otherwise. */
    method Attempt(ran: bool, launch: Launch, probe: nat -> Probe, now: string) returns (n: nat)
      modifies this
      ensures n == (if ran then 1 else 0) && flags == old(flags)
      ensures debugLog == old(debugLog) + AttemptLog(ran, launch, probe, pollLimit)
      ensures commands == old(commands) + AttemptCommands(ran, flags, launch)
      ensures startTime == (if ran && StartResult(launch, probe, pollLimit).setsStartTime then Some(now) else old(startTime))
    {
      if !ran {
        return 0;
      }
      var reply, probes := Start(launch, probe, now);
      return 1;
    }

    /** The index page: the status part, then the start part. */
    method Index(now: string, appRunning: bool, serviceRunning: bool, portInUse: bool,
                 first: Launch, firstProbe: nat -> Probe,
                 second: Launch, secondProbe: nat -> Probe) returns (starts: nat)
      modifies this
      ensures flags == (if portInUse then old(flags) else old(flags) - {StartApp})
      ensures AutostartApp in flags <==> AutostartApp in old(flags)
      ensures starts <= 2 && (portInUse ==> starts == 0)
      ensures !portInUse && AutostartApp in old(flags) ==> starts >= 1
      ensures var runA, runB := !portInUse && StartApp in old(flags), !portInUse && AutostartApp in old(flags);
        var seen := if !appRunning then None else if old(startTime).None? then Some(now) else old(startTime);
        && starts == (if runA then 1 else 0) + (if runB then 1 else 0)
        && debugLog == LastTen(old(debugLog) + [AppStatus(now, appRunning), ServiceStatus(now, serviceRunning)])
                       + AttemptLog(runA, first, firstProbe, pollLimit) + AttemptLog(runB, second, secondProbe, pollLimit)
        && commands == old(commands) + AttemptCommands(runA, flags, first) + AttemptCommands(runB, flags, second)
        && startTime == (if (runA && StartResult(first, firstProbe, pollLimit).setsStartTime)
                            || (runB && StartResult(second, secondProbe, pollLimit).setsStartTime)
                         then Some(now) else seen)
    {
      Observe(now, appRunning, serviceRunning);
      starts := TriggerStarts(portInUse, first, firstProbe, second, secondProbe, now);
    }

    /** The stop route. `pids` are the application's processes, `None` when
        none is running (the process search then fails); `kill(p)` is the
        error raised by signalling `p`, `None` when the signal is delivered.
        The first refused signal ends the route, after the earlier ones. */
    method Stop(pids: Option<seq<int>>, kill: int -> Option<string>, now: string) returns (message: string)
      modifies this
      ensures pids.None? ==>
        (message == "No running NSATT Application found to stop."
         && debugLog == old(debugLog) + [NothingToStop(now)]
         && commands == old(commands) && startTime == old(startTime))
      ensures pids.Some? && FirstRefused(pids.value, kill).Some? ==>
        var i := FirstRefused(pids.value, kill).value;
        var e := kill(pids.value[i]).value;
        (message == "An error occurred while stopping the application: " + e
         && debugLog == old(debugLog) + [StopError(now, e)]
         && commands == old(commands) + Terminations(pids.value[..i]) && startTime == old(startTime))
      ensures pids.Some? && FirstRefused(pids.value, kill).None? ==>
        (message == "NSATT Application has been stopped successfully."
         && debugLog == old(debugLog) + [Stopped(now)]
         && commands == old(commands) + Terminations(pids.value) + Stops(ServicesWhere(ServiceFlags, flags, false))
         && startTime.None?)
      ensures flags == old(flags)
    {
      if pids.None? {
        debugLog := debugLog + [NothingToStop(now)];
        return "No running NSATT Application found to stop.";
      }
      var ps := pids.value;
      for i := 0 to |ps|
        invariant commands == old(commands) + Terminations(ps[..i])
        invariant forall j :: 0 <= j < i ==> kill(ps[j]).None?
        invariant flags == old(flags) && debugLog == old(debugLog) && startTime == old(startTime)
      {
        if kill(ps[i]).Some? {
          var e := kill(ps[i]).value;
          debugLog := debugLog + [StopError(now, e)];
          return "An error occurred while stopping the application: " + e;
        }
        assert ps[..i + 1][..i] == ps[..i];
        commands := commands + [Terminate(ps[i])];
      }
      assert ps[..|ps|] == ps;
      commands := commands + Stops(ServicesWhere(ServiceFlags, flags, false));
      startTime := None;
      debugLog := debugLog + [Stopped(now)];
      return "NSATT Application has been stopped successfully.";
    }
  }

  /** The first process whose signal is refused, if any. */
  function FirstRefused(pids: seq<int>, kill: int -> Option<string>): (r: Option<nat>)
    ensures r.Some? ==> r.value < |pids| && kill(pids[r.value]).Some?
    ensures r.Some? ==> forall j :: 0 <= j < r.value ==> kill(pids[j]).None?
    ensures r.None? ==> forall j :: 0 <= j < |pids| ==> kill(pids[j]).None?
  {
    if pids == [] then None
    else if kill(pids[0]).Some? then Some(0)
    else match FirstRefused(pids[1..], kill)
      case None => None
      case Some(k) => Some(k + 1)
  }

  function Terminations(pids: seq<int>): (r: seq<Command>)
    ensures |r| == |pids| && forall i :: 0 <= i < |pids| ==> r[i] == Terminate(pids[i])
  {
    if pids == [] then [] else Terminations(pids[..|pids| - 1]) + [Terminate(pids[|pids| - 1])]
  }

  lemma {:induction false} FirstReadyFrom(probe: nat -> Probe, attempt: nat, n: nat)
    requires attempt < n && FirstReady(probe, attempt).None? && Ready(probe(attempt))
    ensures FirstReady(probe, n) == Some(attempt)
    decreases n
  {
    if n > attempt + 1 {
      FirstReadyFrom(probe, attempt, n - 1);
    }
  }
}
