/** The VNC session table of the web interface
    (storage/scripts/nsatt_web/routes/vnc_routes.py): display allocation,
    port arithmetic, start/stop/restart/list of sessions, bulk stop, and the
    screenshot validation and renaming rules. The processes themselves
    (tightvncserver, websockify, xwd, convert) are outside the model; each
    operation that starts or stops one receives how that ended. */
module VncRoutes {
  import opened Strings

  const VncBasePort: int := 5900
  const WebsockifyBasePort: int := 6080

  /** The X display text `:n`. */
  function DisplayName(n: nat): string {
    ":" + NatToString(n)
  }

  /** Different display numbers have different display texts. */
  lemma DisplayNameInjective(a: nat, b: nat)
    requires DisplayName(a) == DisplayName(b)
    ensures a == b
  {
    assert DisplayName(a)[1..] == NatToString(a);
    assert DisplayName(b)[1..] == NatToString(b);
    DigitsOfNat(a);
    DigitsOfNat(b);
  }

  function VncPort(display: int): int {
    VncBasePort + display
  }

  function WebsockifyPort(display: int): int {
    WebsockifyBasePort + (display - 1)
  }

  /** Display 1 gets websockify port 6080 and VNC port 5901; distinct
      displays get distinct ports of each kind, and up to display 179 no
      websockify port is also some display's VNC port. Display 180 is the
      first whose VNC port is display 1's websockify port. */
  lemma PortsApart(a: int, b: int)
    requires 1 <= a && 1 <= b
    ensures WebsockifyPort(1) == 6080 && VncPort(1) == 5901
    ensures a != b ==> WebsockifyPort(a) != WebsockifyPort(b) && VncPort(a) != VncPort(b)
    ensures a <= 179 && b <= 179 ==> WebsockifyPort(a) != VncPort(b)
    ensures WebsockifyPort(1) == VncPort(180)
  {
  }

  /** One entry of the sessions dict: display `:number` and its websockify
      port. The dict keeps insertion order, so the table is a sequence. */
  datatype Session = Session(number: nat, websockifyPort: int)

  function DisplayOf(s: Session): string {
    DisplayName(s.number)
  }

  /** `display in sessions` */
  predicate HasDisplay(sessions: seq<Session>, display: string) {
    exists k :: 0 <= k < |sessions| && DisplayOf(sessions[k]) == display
  }

  /** Each display appears once and is numbered from 1. */
  predicate WellFormed(sessions: seq<Session>) {
    (forall x :: x in sessions ==> x.number >= 1) &&
    (forall i, j :: 0 <= i < j < |sessions| ==> sessions[i].number != sessions[j].number)
  }

  /** `sessions[display]` */
  function FindSession(sessions: seq<Session>, display: string): (r: Option<Session>)
    ensures r.Some? <==> HasDisplay(sessions, display)
    ensures r.Some? ==> r.value in sessions && DisplayOf(r.value) == display
    decreases |sessions|
  {
    if sessions == [] then None
    else if DisplayOf(sessions[|sessions| - 1]) == display then Some(sessions[|sessions| - 1])
    else
      var r := FindSession(sessions[..|sessions| - 1], display);
      assert HasDisplay(sessions, display) ==> HasDisplay(sessions[..|sessions| - 1], display) by {
        if HasDisplay(sessions, display) {
          var k :| 0 <= k < |sessions| && DisplayOf(sessions[k]) == display;
          assert k < |sessions| - 1 && sessions[..|sessions| - 1][k] == sessions[k];
        }
      }
      r
  }

  /** `del sessions[display]`: every other session stays, in order. */
  function Remove(sessions: seq<Session>, display: string): (r: seq<Session>)
    ensures forall x :: x in r <==> x in sessions && DisplayOf(x) != display
    ensures |r| <= |sessions|
    decreases |sessions|
  {
    if sessions == [] then []
    else
      var last := sessions[|sessions| - 1];
      Remove(sessions[..|sessions| - 1], display) + (if DisplayOf(last) == display then [] else [last])
  }

  /** Removing a display that is not there changes nothing. */
  lemma {:induction false} RemoveAbsent(sessions: seq<Session>, display: string)
    requires !HasDisplay(sessions, display)
    ensures Remove(sessions, display) == sessions
    decreases |sessions|
  {
    if sessions != [] {
      var init := sessions[..|sessions| - 1];
      assert !HasDisplay(init, display);
      RemoveAbsent(init, display);
      assert DisplayOf(sessions[|sessions| - 1]) != display;
      assert init + [sessions[|sessions| - 1]] == sessions;
    }
  }

  /** Removing sessions keeps the table well formed. */
  lemma {:induction false} RemoveWellFormed(sessions: seq<Session>, display: string)
    requires WellFormed(sessions)
    ensures WellFormed(Remove(sessions, display))
    decreases |sessions|
  {
    if sessions != [] {
      var init := sessions[..|sessions| - 1];
      var last := sessions[|sessions| - 1];
      RemoveWellFormed(init, display);
      var r0 := Remove(init, display);
      if DisplayOf(last) != display {
        var r := r0 + [last];
        forall i, j | 0 <= i < j < |r| ensures r[i].number != r[j].number {
          if j == |r| - 1 {
            assert r[i] in init;
            var k :| 0 <= k < |init| && init[k] == r[i];
            assert sessions[k] == r[i];
          } else {
            assert r[i] == r0[i] && r[j] == r0[j];
          }
        }
      }
    }
  }

  ghost function Numbers(sessions: seq<Session>): set<nat> {
    set k | 0 <= k < |sessions| :: sessions[k].number
  }

  lemma {:induction false} NumbersBound(sessions: seq<Session>)
    ensures |Numbers(sessions)| <= |sessions|
    decreases |sessions|
  {
    if sessions != [] {
      var init := sessions[..|sessions| - 1];
      NumbersBound(init);
      assert Numbers(sessions) == Numbers(init) + {sessions[|sessions| - 1].number} by {
        forall n | n in Numbers(sessions) ensures n in Numbers(init) + {sessions[|sessions| - 1].number} {
          var k :| 0 <= k < |sessions| && sessions[k].number == n;
          if k < |init| {
            assert init[k] == sessions[k];
          }
        }
        forall n | n in Numbers(init) ensures n in Numbers(sessions) {
          var k :| 0 <= k < |init| && init[k].number == n;
          assert sessions[k] == init[k];
        }
      }
    }
  }

  ghost function Range(d: nat): set<nat>
    decreases d
  {
    if d == 0 then {} else Range(d - 1) + {d}
  }

  lemma {:induction false} RangeSize(d: nat)
    ensures |Range(d)| == d
    ensures forall n :: n in Range(d) <==> 1 <= n <= d
    decreases d
  {
    if d > 0 {
      RangeSize(d - 1);
    }
  }

  lemma SubsetSize(a: set<nat>, b: set<nat>)
    requires a <= b
    ensures |a| <= |b|
  {
    assert b == a + (b - a);
  }

  /** If displays 1..d are all taken, there are at least d sessions. */
  lemma TakenDisplays(sessions: seq<Session>, d: nat)
    requires forall k :: 1 <= k <= d ==> HasDisplay(sessions, DisplayName(k))
    ensures d <= |sessions|
  {
    RangeSize(d);
    forall n | n in Range(d) ensures n in Numbers(sessions) {
      var j :| 0 <= j < |sessions| && DisplayOf(sessions[j]) == DisplayName(n);
      DisplayNameInjective(sessions[j].number, n);
    }
    RangeSize(d);
    NumbersBound(sessions);
    SubsetSize(Range(d), Numbers(sessions));
  }

  /** The JSON body of a reply. */
  datatype Body =
    | VncStarted(display: string, websockifyPort: int)
    | VncStopped(display: string)
    | VncRestarted(display: string, websockifyPort: int)
    | Listing(sessions: seq<Listed>)
    | AllStopped
    | SelectedStopped
    | ScreenshotSaved(filename: string)
    | Success
    | Failure(message: string)

  datatype Reply = Reply(code: int, body: Body)

  /** How terminating a session's two process groups ended. */
  datatype StopOutcome = Terminated | TimedOut | StopRaised

  /** One row of /list. */
  datatype Listed = Listed(display: string, vncPort: int, websockifyPort: int, connectUrl: string)

  /** A row of /list: the VNC port is computed back from the display text
      (`int(display[1:])`), which gives the session's own VNC port. */
  function ListedOf(s: Session, host: string): (r: Listed)
    ensures r.display == DisplayOf(s) && r.vncPort == VncPort(s.number) && r.websockifyPort == s.websockifyPort
  {
    var display := DisplayOf(s);
    assert display[1..] == NatToString(s.number);
    DigitsOfNat(s.number);
    var port := IntToString(s.websockifyPort);
    Listed(display, VncBasePort + DigitsValue(display[1..]), s.websockifyPort,
      "http://" + SplitOn(host, ':')[0] + ":" + port + "/vnc.html?host=localhost&port=" + port + "&path=/websockify")
  }

  /** The sessions left after stopping each of `targets` in turn, where a
      stop of a display in `stuck` fails and one of an absent display does
      nothing. */
  function StopMany(sessions: seq<Session>, targets: seq<string>, stuck: set<string>): (r: seq<Session>)
    decreases |targets|
  {
    if targets == [] then sessions
    else
      var before := StopMany(sessions, targets[..|targets| - 1], stuck);
      var last := targets[|targets| - 1];
      if last in stuck then before else Remove(before, last)
  }

  /** Exactly the sessions named in `targets` and not stuck are gone. */
  lemma {:induction false} StopManyKeeps(sessions: seq<Session>, targets: seq<string>, stuck: set<string>)
    ensures forall x :: x in StopMany(sessions, targets, stuck) <==>
      x in sessions && (DisplayOf(x) !in targets || DisplayOf(x) in stuck)
    decreases |targets|
  {
    if targets != [] {
      var init := targets[..|targets| - 1];
      StopManyKeeps(sessions, init, stuck);
      forall x ensures DisplayOf(x) in targets <==> DisplayOf(x) in init || DisplayOf(x) == targets[|targets| - 1] {
        assert targets == init + [targets[|targets| - 1]];
      }
    }
  }

  lemma {:induction false} StopManyWellFormed(sessions: seq<Session>, targets: seq<string>, stuck: set<string>)
    requires WellFormed(sessions)
    ensures WellFormed(StopMany(sessions, targets, stuck))
    decreases |targets|
  {
    if targets != [] {
      StopManyWellFormed(sessions, targets[..|targets| - 1], stuck);
      RemoveWellFormed(StopMany(sessions, targets[..|targets| - 1], stuck), targets[|targets| - 1]);
    }
  }

  function Displays(sessions: seq<Session>): (r: seq<string>)
    ensures |r| == |sessions| && forall k :: 0 <= k < |r| ==> r[k] == DisplayOf(sessions[k])
  {
    seq(|sessions|, k requires 0 <= k < |sessions| => DisplayOf(sessions[k]))
  }

  /** The module-level `sessions` dict. */
  class VncServer {
    var sessions: seq<Session>

    ghost predicate Valid()
      reads this
    {
      WellFormed(sessions)
    }

    constructor ()
      ensures Valid() && sessions == []
    {
      sessions := [];
    }

    /** get_next_display_number: the smallest n >= 1 whose `:n` is not
        in use. */
    method NextDisplay() returns (d: nat)
      requires Valid()
      ensures d >= 1 && !HasDisplay(sessions, DisplayName(d))
      ensures forall k :: 1 <= k < d ==> HasDisplay(sessions, DisplayName(k))
      ensures d <= |sessions| + 1
    {
      d := 1;
      while HasDisplay(sessions, DisplayName(d))
        invariant 1 <= d <= |sessions| + 1
        invariant forall k :: 1 <= k < d ==> HasDisplay(sessions, DisplayName(k))
        decreases |sessions| + 1 - d
      {
        TakenDisplays(sessions, d);
        d := d + 1;
      }
    }

    /** start_vnc: a new session on the next free display, with websockify
        on 6080 + d - 1; when a process cannot be launched nothing is
        recorded. */
    method Start(launched: bool) returns (reply: Reply)
      requires Valid()
      modifies this
      ensures Valid()
      ensures !launched ==> sessions == old(sessions) && reply == Reply(500, Failure("Failed to start VNC session."))
      ensures launched ==> exists d: nat ::
        d >= 1 && !HasDisplay(old(sessions), DisplayName(d)) &&
        (forall k :: 1 <= k < d ==> HasDisplay(old(sessions), DisplayName(k))) &&
        sessions == old(sessions) + [Session(d, WebsockifyPort(d))] &&
        reply == Reply(200, VncStarted(DisplayName(d), WebsockifyPort(d)))
    {
      var d := NextDisplay();
      if !launched {
        return Reply(500, Failure("Failed to start VNC session."));
      }
      forall k | 0 <= k < |sessions| ensures sessions[k].number != d {
        assert DisplayOf(sessions[k]) != DisplayName(d);
      }
      sessions := sessions + [Session(d, WebsockifyPort(d))];
      reply := Reply(200, VncStarted(DisplayName(d), WebsockifyPort(d)));
    }

    /** stop_vnc: an unknown display is a 404; a session whose processes
        do not end stays recorded; otherwise exactly that display goes. */
    method Stop(display: string, outcome: StopOutcome) returns (reply: Reply)
      requires Valid()
      modifies this
      ensures Valid()
      ensures !HasDisplay(old(sessions), display) ==>
        sessions == old(sessions) && reply == Reply(404, Failure("VNC session does not exist."))
      ensures HasDisplay(old(sessions), display) && outcome == TimedOut ==>
        sessions == old(sessions) && reply == Reply(500, Failure("Failed to terminate processes in time."))
      ensures HasDisplay(old(sessions), display) && outcome == StopRaised ==>
        sessions == old(sessions) && reply == Reply(500, Failure("Failed to stop VNC session."))
      ensures HasDisplay(old(sessions), display) && outcome == Terminated ==>
        sessions == Remove(old(sessions), display) && reply == Reply(200, VncStopped(display))
      ensures reply.code == 200 <==> HasDisplay(old(sessions), display) && outcome == Terminated
    {
      if !HasDisplay(sessions, display) {
        return Reply(404, Failure("VNC session does not exist."));
      }
      match outcome {
        case TimedOut =>
          reply := Reply(500, Failure("Failed to terminate processes in time."));
        case StopRaised =>
          reply := Reply(500, Failure("Failed to stop VNC session."));
        case Terminated =>
          RemoveWellFormed(sessions, display);
          sessions := Remove(sessions, display);
          reply := Reply(200, VncStopped(display));
      }
    }

    /** restart_vnc: stop, then start the same display again on the port it
        had. The restarted session is re-inserted, so it moves to the end of
        the table; if the new processes cannot be launched the stopped
        session is gone. */
    method Restart(display: string, outcome: StopOutcome, launched: bool) returns (reply: Reply)
      requires Valid()
      modifies this
      ensures Valid()
      ensures !HasDisplay(old(sessions), display) ==>
        sessions == old(sessions) && reply == Reply(404, Failure("VNC session does not exist."))
      ensures HasDisplay(old(sessions), display) && outcome != Terminated ==> sessions == old(sessions) && reply.code == 500
      ensures HasDisplay(old(sessions), display) && outcome == Terminated && !launched ==>
        sessions == Remove(old(sessions), display) && reply == Reply(500, Failure("Failed to restart VNC session."))
      ensures HasDisplay(old(sessions), display) && outcome == Terminated && launched ==>
        var s := FindSession(old(sessions), display).value;
        sessions == Remove(old(sessions), display) + [s] &&
        reply == Reply(200, VncRestarted(display, s.websockifyPort))
    {
      var found := FindSession(sessions, display);
      if found.None? {
        return Reply(404, Failure("VNC session does not exist."));
      }
      var s := found.value;
      var stopped := Stop(display, outcome);
      if stopped.code != 200 {
        return stopped;
      }
      if !launched {
        return Reply(500, Failure("Failed to restart VNC session."));
      }
      forall k | 0 <= k < |sessions| ensures sessions[k].number != s.number {
        assert sessions[k] in old(sessions) && DisplayOf(sessions[k]) != display;
        assert s in old(sessions);
      }
      sessions := sessions + [Session(s.number, s.websockifyPort)];
      reply := Reply(200, VncRestarted(display, s.websockifyPort));
    }

    /** list_sessions: one row per session, in table order. */
    method List(host: string) returns (reply: Reply)
      ensures reply.code == 200 && reply.body.Listing?
      ensures |reply.body.sessions| == |sessions|
      ensures forall k :: 0 <= k < |sessions| ==> reply.body.sessions[k] == ListedOf(sessions[k], host)
    {
      var rows: seq<Listed> := [];
      for i := 0 to |sessions|
        invariant |rows| == i
        invariant forall k :: 0 <= k < i ==> rows[k] == ListedOf(sessions[k], host)
      {
        rows := rows + [ListedOf(sessions[i], host)];
      }
      reply := Reply(200, Listing(rows));
    }

    /** Calls stop_vnc for each display in turn; a display in `stuck` is
        one whose processes do not end. */
    method StopEach(targets: seq<string>, stuck: set<string>)
      requires Valid()
      modifies this
      ensures Valid()
      ensures sessions == StopMany(old(sessions), targets, stuck)
    {
      for i := 0 to |targets|
        invariant Valid()
        invariant sessions == StopMany(old(sessions), targets[..i], stuck)
      {
        assert targets[..i + 1][..i] == targets[..i];
        if !HasDisplay(sessions, targets[i]) {
          RemoveAbsent(sessions, targets[i]);
        }
        var _ := Stop(targets[i], if targets[i] in stuck then TimedOut else Terminated);
      }
      assert targets[..|targets|] == targets;
    }

    /** stop_all_vnc: every session whose processes end is gone. */
    method StopAll(stuck: set<string>) returns (reply: Reply)
      requires Valid()
      modifies this
      ensures Valid()
      ensures forall x :: x in sessions <==> x in old(sessions) && DisplayOf(x) in stuck
      ensures reply == Reply(200, AllStopped)
    {
      var targets := Displays(sessions);
      StopManyKeeps(sessions, targets, stuck);
      StopEach(targets, stuck);
      reply := Reply(200, AllStopped);
    }

    /** bulk_stop_vnc: an empty list stops everything; otherwise only the
        listed displays that exist are stopped. */
    method BulkStop(displays: seq<string>, stuck: set<string>) returns (reply: Reply)
      requires Valid()
      modifies this
      ensures Valid()
      ensures displays == [] ==>
        reply == Reply(200, AllStopped) &&
        forall x :: x in sessions <==> x in old(sessions) && DisplayOf(x) in stuck
      ensures displays != [] ==>
        reply == Reply(200, SelectedStopped) &&
        forall x :: x in sessions <==> x in old(sessions) && (DisplayOf(x) !in displays || DisplayOf(x) in stuck)
    {
      if displays == [] {
        reply := StopAll(stuck);
        return;
      }
      StopManyKeeps(sessions, displays, stuck);
      StopEach(displays, stuck);
      reply := Reply(200, SelectedStopped);
    }
  }

  // ---------------------------------------------------------------- screenshots

  /** take_screenshot's display check: ':' followed by one or more digits. */
  predicate ValidScreenshotDisplay(display: string) {
    StartsWith(display, ":") && AllDigits(display[1..])
  }

  /** Every display the table hands out passes the check. */
  lemma SessionDisplaysValid(n: nat)
    ensures ValidScreenshotDisplay(DisplayName(n))
  {
    assert DisplayName(n)[1..] == NatToString(n);
  }

  /** `s.strip(':')` */
  function StripColons(s: string): (r: string)
    ensures |r| <= |s|
    ensures r != [] ==> r[0] != ':' && r[|r| - 1] != ':'
    decreases |s|
  {
    if s == [] then []
    else if s[0] == ':' then StripColons(s[1..])
    else if s[|s| - 1] == ':' then StripColons(s[..|s| - 1])
    else s
  }

  /** How xwd piped into convert ended: timed out, or both finished with
      these exit codes and error texts. */
  datatype Capture = CaptureTimedOut | Finished(xwdCode: int, xwdStderr: string, convertCode: int, convertStderr: string)

  /** take_screenshot_vnc as written. Only convert is waited on, so xwd's
      `returncode` is still None when it is tested, `None != 0` holds, and
      every capture that did not time out is answered as an xwd failure. */
  function TakeScreenshot(display: string, timestamp: string, capture: Capture): (r: Reply)
    ensures !ValidScreenshotDisplay(display) ==> r == Reply(400, Failure("Invalid display format."))
    ensures ValidScreenshotDisplay(display) && capture.CaptureTimedOut? ==>
      r == Reply(500, Failure("Screenshot capture timed out."))
    ensures ValidScreenshotDisplay(display) && capture.Finished? ==>
      r == Reply(500, Failure("xwd command failed: " + Strip(capture.xwdStderr)))
  {
    if !ValidScreenshotDisplay(display) then Reply(400, Failure("Invalid display format."))
    else
      match capture
        case CaptureTimedOut => Reply(500, Failure("Screenshot capture timed out."))
        case Finished(_, xwdErr, _, _) =>
          // xwd_proc.returncode is None here: never 0.
          Reply(500, Failure("xwd command failed: " + Strip(xwdErr)))
  }

  /** As written, no screenshot is ever reported saved. */
  lemma ScreenshotNeverSaved(display: string, timestamp: string, capture: Capture)
    ensures TakeScreenshot(display, timestamp, capture).code != 200
  {
  }

  /** take_screenshot_vnc as evidently intended, xwd waited on before its
      exit code is read: the file name carries the display number and the
      formatted time `timestamp`. */
  function TakeScreenshotFixed(display: string, timestamp: string, capture: Capture): (r: Reply)
    ensures !ValidScreenshotDisplay(display) ==> r == Reply(400, Failure("Invalid display format."))
    ensures ValidScreenshotDisplay(display) && capture.Finished? && capture.xwdCode == 0 && capture.convertCode == 0 ==>
      r == Reply(200, ScreenshotSaved("vnc_screenshot_" + display[1..] + "_" + timestamp + ".png"))
    ensures ValidScreenshotDisplay(display) && capture.Finished? && capture.xwdCode != 0 ==>
      r == Reply(500, Failure("xwd command failed: " + Strip(capture.xwdStderr)))
    ensures ValidScreenshotDisplay(display) && capture.Finished? && capture.xwdCode == 0 && capture.convertCode != 0 ==>
      r == Reply(500, Failure("convert command failed: " + Strip(capture.convertStderr)))
    ensures ValidScreenshotDisplay(display) && capture.CaptureTimedOut? ==>
      r == Reply(500, Failure("Screenshot capture timed out."))
  {
    if !ValidScreenshotDisplay(display) then Reply(400, Failure("Invalid display format."))
    else
      assert StripColons(display) == display[1..] by {
        assert StripColons(display) == StripColons(display[1..]);
      }
      match capture
        case CaptureTimedOut => Reply(500, Failure("Screenshot capture timed out."))
        case Finished(xwdCode, xwdErr, convertCode, convertErr) =>
          if xwdCode != 0 then Reply(500, Failure("xwd command failed: " + Strip(xwdErr)))
          else if convertCode != 0 then Reply(500, Failure("convert command failed: " + Strip(convertErr)))
          else Reply(200, ScreenshotSaved("vnc_screenshot_" + StripColons(display) + "_" + timestamp + ".png"))
  }

  /** The target name of a rename: `.png` is appended unless the name
      already ends with it in any case. */
  function PngName(name: string): (r: string)
    ensures EndsWith(Lower(r), ".png")
    ensures EndsWith(Lower(name), ".png") ==> r == name
    ensures !EndsWith(Lower(name), ".png") ==> r == name + ".png"
  {
    if EndsWith(Lower(name), ".png") then name
    else
      assert Lower(name + ".png") == Lower(name) + ".png";
      name + ".png"
  }

  /** rename_screenshot_vnc over the names in the screenshots directory;
      an empty or missing name is `""`. */
  function RenameScreenshot(files: set<string>, oldName: string, newName: string): (r: (Reply, set<string>))
    ensures r.0.code == 200 <==> oldName != "" && newName != "" && oldName in files && PngName(newName) !in files
    ensures r.0.code == 200 ==> r.1 == files - {oldName} + {PngName(newName)} && r.0 == Reply(200, Success)
    ensures r.0.code != 200 ==> r.1 == files
    ensures oldName != "" && newName != "" && oldName in files && PngName(newName) in files ==>
      r.0 == Reply(400, Failure("New filename already exists."))
  {
    if oldName == "" || newName == "" then (Reply(400, Failure("Old and new filenames are required.")), files)
    else
      var target := PngName(newName);
      if oldName !in files then (Reply(404, Failure("Original file does not exist.")), files)
      else if target in files then (Reply(400, Failure("New filename already exists.")), files)
      else (Reply(200, Success), files - {oldName} + {target})
  }

  /** delete_screenshot_vnc. */
  function DeleteScreenshot(files: set<string>, name: string): (r: (Reply, set<string>))
    ensures name == "" ==> r == (Reply(400, Failure("No filename provided.")), files)
    ensures name != "" && name !in files ==> r == (Reply(404, Failure("File does not exist.")), files)
    ensures name != "" && name in files ==> r.0 == Reply(200, Success) && r.1 == files - {name} && name !in r.1
  {
    if name == "" then (Reply(400, Failure("No filename provided.")), files)
    else if name !in files then (Reply(404, Failure("File does not exist.")), files)
    else (Reply(200, Success), files - {name})
  }
}
