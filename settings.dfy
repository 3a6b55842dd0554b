/** The settings page script of the web panel
    (storage/scripts/nsatt_web/static/js/settings.js): the fetch handlers
    that toggle services, adapters, wireless modes, the hotspot and the
    Tailscale VPN, and that redraw the page from the server's answers.

    Every handler receives the answers to its own fetches as inputs and
    yields the list of effects it performs in order (requests, messages,
    alerts, console lines, calls of other handlers, timers). The two button
    containers the page rebuilds live in the class `Page`. */
module Settings {
  import opened Strings
  import NR = NetworkRoutes
  import NA = NetworkAdapters
  import Shell

  /** A decoded JSON value as a page script sees it. `Undefined` is what a
      property lookup yields for a missing key. */
  datatype Json =
    | Undefined
    | Null
    | Bool(b: bool)
    | Num(n: int)
    | Str(s: string)
    | Arr(items: seq<Json>)
    | Obj(fields: seq<(string, Json)>)

  /** The value stored under `key`; a later duplicate wins, as in JSON.parse. */
  function Lookup(fields: seq<(string, Json)>, key: string): Json
    decreases |fields|
  {
    if fields == [] then Undefined
    else if fields[|fields| - 1].0 == key then fields[|fields| - 1].1
    else Lookup(fields[..|fields| - 1], key)
  }

  /** A lookup finds the last field with the key, and nothing when no
      field has it. */
  lemma {:induction false} LookupFinds(fields: seq<(string, Json)>, key: string)
    ensures (forall k :: 0 <= k < |fields| ==> fields[k].0 != key) ==> Lookup(fields, key) == Undefined
    ensures forall k :: 0 <= k < |fields| && fields[k].0 == key && (forall k' :: k < k' < |fields| ==> fields[k'].0 != key) ==>
      Lookup(fields, key) == fields[k].1
    decreases |fields|
  {
    if fields != [] {
      var init := fields[..|fields| - 1];
      LookupFinds(init, key);
      forall k | 0 <= k < |init| ensures init[k] == fields[k] { }
    }
  }

  /** `j.key`: reading a property of undefined or null throws a TypeError
      (its text as V8 words it); other non-objects have none of the
      properties the page reads. */
  function Prop(j: Json, key: string): (r: Result<Json>)
    ensures r.Err? <==> j == Undefined || j == Null
    ensures j.Obj? ==> r == Ok(Lookup(j.fields, key))
  {
    match j
      case Undefined => Err("Cannot read properties of undefined (reading '" + key + "')")
      case Null => Err("Cannot read properties of null (reading '" + key + "')")
      case Obj(fs) => Ok(Lookup(fs, key))
      case _ => Ok(Undefined)
  }

  /** JavaScript truthiness. */
  predicate Truthy(j: Json) {
    match j
      case Undefined => false
      case Null => false
      case Bool(b) => b
      case Num(n) => n != 0
      case Str(s) => s != ""
      case _ => true
  }

  /** `a || b` */
  function Or(a: Json, b: Json): (r: Json)
    ensures Truthy(a) ==> r == a
    ensures !Truthy(a) ==> r == b
  {
    if Truthy(a) then a else b
  }

  /** `String(j)`, as a template literal or `innerText` assignment converts it. */
  function JsText(j: Json): string
    decreases j, 1
  {
    match j
      case Undefined => "undefined"
      case Null => "null"
      case Bool(b) => if b then "true" else "false"
      case Num(n) => IntToString(n)
      case Str(s) => s
      case Arr(items) => JoinTexts(items)
      case Obj(_) => "[object Object]"
  }

  /** The elements of an array joined with ",", null and undefined as "". */
  function JoinTexts(items: seq<Json>): string
    decreases items, 0
  {
    if items == [] then ""
    else
      var last := items[|items| - 1];
      var t := if last == Undefined || last == Null then "" else JsText(last);
      if |items| == 1 then t else JoinTexts(items[..|items| - 1]) + "," + t
  }

  /** What response.json() makes of a body: a value, or the SyntaxError's text. */
  datatype Parsed = Parsed(value: Json) | NotJson(reason: string)

  /** What a fetch delivers: a response (its `ok` flag, its body text and
      that body parsed), or a rejection with its error's message. */
  datatype Fetched = Responded(ok: bool, text: string, json: Parsed) | FetchFailed(reason: string)

  /** The handlers one handler calls or schedules. */
  datatype Call =
    | UpdateServiceStatus(service: string, fromToggle: bool)
    | FetchNetworkAdapters
    | FetchWirelessModes
    | UpdateHotspotStatus
    | CheckTailscaleStatus

  /** One observable thing a handler does. A request without a body has
      `Undefined` as its body. */
  datatype Effect =
    | Request(url: string, verb: string, body: Json)
    | Show(text: string)
    | Alert(text: string)
    | ConsoleError(heading: string, detail: string)
    | Invoke(call: Call)
    | Timer(delayMs: nat, call: Call)

  function Get(url: string): Effect { Request(url, "GET", Undefined) }

  /** The text an `Error` built from `text || 'Unknown error occurred'` carries. */
  function FailureText(text: string): (r: string)
    ensures text != "" ==> r == text
    ensures r != ""
  {
    if text == "" then "Unknown error occurred" else text
  }

  /** response.json() */
  function Body(f: Fetched): (r: Result<Json>)
    ensures r.Ok? <==> f.Responded? && f.json.Parsed?
  {
    match f
      case FetchFailed(m) => Err(m)
      case Responded(_, _, NotJson(m)) => Err(m)
      case Responded(_, _, Parsed(v)) => Ok(v)
  }

  /** The service handlers' first step: a response that is not OK becomes
      an error carrying its body text, or 'Unknown error occurred' when the
      body is empty; otherwise the parsed body. */
  function TextChecked(f: Fetched): (r: Result<Json>)
    ensures f.Responded? && !f.ok ==> r == Err(FailureText(f.text))
    ensures f.Responded? && f.ok ==> r == Body(f)
  {
    if f.Responded? && !f.ok then Err(FailureText(f.text)) else Body(f)
  }

  /** The hotspot handlers' first step: a response that is not OK becomes
      an error carrying its JSON `error` field, or 'Unknown error occurred'. */
  function JsonChecked(f: Fetched): (r: Result<Json>)
    ensures f.Responded? && f.ok ==> r == Body(f)
    ensures f.Responded? && !f.ok && f.json.Parsed? && f.json.value.Obj? ==>
      var e := Lookup(f.json.value.fields, "error");
      r == Err(if Truthy(e) then JsText(e) else "Unknown error occurred")
    ensures !(f.Responded? && f.ok) ==> r.Err?
  {
    if f.Responded? && !f.ok then
      match Body(f)
        case Err(m) => Err(m)
        case Ok(data) =>
          match Prop(data, "error")
            case Err(m) => Err(m)
            case Ok(e) => Err(if Truthy(e) then JsText(e) else "Unknown error occurred")
    else Body(f)
  }

  // ---------------------------------------------------------------- services

  function StatusUrl(service: string): string { "/control/" + service + "/status" }

  /** The action toggleService requests for a status answer. */
  function ServiceAction(status: Json): (a: string)
    ensures a == "stop" <==> status == Str("active")
    ensures a == "start" <==> status != Str("active")
  {
    if status == Str("active") then "stop" else "start"
  }

  /** toggleService(service): ask for the status, request the opposite
      action, show its message and refresh the button. */
  function ToggleService(service: string, status: Fetched, control: Fetched): (es: seq<Effect>)
    ensures |es| >= 2 && es[0] == Get(StatusUrl(service))
    // A failed status query shows its error and issues no command.
    ensures TextChecked(status).Err? ==>
      es == [Get(StatusUrl(service)), Show("Error toggling service: " + TextChecked(status).error)]
    // Otherwise the second request is the action that flips the reported status.
    ensures TextChecked(status).Ok? && Prop(TextChecked(status).value, "status").Ok? ==>
      es[1] == Get("/control/" + service + "/" + ServiceAction(Prop(TextChecked(status).value, "status").value))
    // The button is refreshed, as a toggle-originated update, exactly when both answers were usable.
    ensures Invoke(UpdateServiceStatus(service, true)) in es <==>
      TextChecked(status).Ok? && Prop(TextChecked(status).value, "status").Ok? &&
      TextChecked(control).Ok? && Prop(TextChecked(control).value, "message").Ok?
  {
    var first := Get(StatusUrl(service));
    var failed := (m: string) => Show("Error toggling service: " + m);
    match TextChecked(status)
      case Err(m) => [first, failed(m)]
      case Ok(data) =>
        match Prop(data, "status")
          case Err(m) => [first, failed(m)]
          case Ok(s) =>
            var second := Get("/control/" + service + "/" + ServiceAction(s));
            match TextChecked(control)
              case Err(m) => [first, second, failed(m)]
              case Ok(reply) =>
                match Prop(reply, "message")
                  case Err(m) => [first, second, failed(m)]
                  case Ok(msg) => [first, second, Show(JsText(msg)), Invoke(UpdateServiceStatus(service, true))]
  }

  /** A `button[data-service=...]`: its class list and its text. */
  datatype ServiceButton = ServiceButton(classes: set<string>, text: string)

  function Timers(es: seq<Effect>): (n: nat)
    ensures n <= |es|
  {
    if es == [] then 0 else Timers(es[..|es| - 1]) + (if es[|es| - 1].Timer? then 1 else 0)
  }

  /** updateServiceStatus(service, fromToggle) against the button the page
      holds for the service (if any): the new button and the effects. */
  function ServiceStatusUpdate(service: string, fromToggle: bool, status: Fetched, button: Option<ServiceButton>)
    : (r: (Option<ServiceButton>, seq<Effect>))
    ensures |r.1| >= 1 && r.1[0] == Get(StatusUrl(service))
    // A missing button is only logged; nothing else happens.
    ensures button.None? ==> r.0 == None
    ensures button.None? && TextChecked(status).Ok? ==>
      r.1 == [Get(StatusUrl(service)), ConsoleError("Button for service " + service + " not found.", "")]
    // On a present button 'green' and 'red' are removed before `data.status`
    // is read, so an answer without a status still strips them.
    ensures button.Some? && TextChecked(status).Ok? && Prop(TextChecked(status).value, "status").Err? ==>
      r.0 == Some(ServiceButton(button.value.classes - {"green", "red"}, button.value.text)) &&
      r.1 == [Get(StatusUrl(service)), Show("Error updating service status: " + Prop(TextChecked(status).value, "status").error)]
    // A usable answer on a present button: green and Running iff active, red and Stopped otherwise.
    ensures button.Some? && TextChecked(status).Ok? && Prop(TextChecked(status).value, "status").Ok? ==>
      var active := Prop(TextChecked(status).value, "status").value == Str("active");
      r.0.Some? &&
      r.0.value.classes == (button.value.classes - {"green", "red"}) + {if active then "green" else "red"} &&
      r.0.value.text == Upper(service) + (if active then " (Running)" else " (Stopped)")
    // Exactly one re-poll, 5000 ms later and not toggle-originated, after a toggle-originated update of a present button.
    ensures Timers(r.1) == (if fromToggle && button.Some? && TextChecked(status).Ok? && Prop(TextChecked(status).value, "status").Ok? then 1 else 0)
    ensures Timers(r.1) == 1 ==> Timer(5000, UpdateServiceStatus(service, false)) in r.1
    // A failed answer leaves the button as it was.
    ensures TextChecked(status).Err? ==> r.0 == button
  {
    var first := Get(StatusUrl(service));
    match TextChecked(status)
      case Err(m) => (button, [first, Show("Error updating service status: " + m)])
      case Ok(data) =>
        match button
          case None => (None, [first, ConsoleError("Button for service " + service + " not found.", "")])
          case Some(b) =>
            var stripped := b.classes - {"green", "red"};
            match Prop(data, "status")
              case Err(m) => (Some(ServiceButton(stripped, b.text)), [first, Show("Error updating service status: " + m)])
              case Ok(s) =>
                var active := s == Str("active");
                var nb := ServiceButton(stripped + {if active then "green" else "red"},
                                        Upper(service) + (if active then " (Running)" else " (Stopped)"));
                if fromToggle then
                  var es := [first, Show("Service " + service + " status updated successfully."), Timer(5000, UpdateServiceStatus(service, false))];
                  assert es[..2][..1] == [first];
                  (Some(nb), es)
                else (Some(nb), [first])
  }

  // ---------------------------------------------------------------- adapters

  /** What clicking a button the page built does. */
  datatype Click = ToggleAdapter(name: string) | ToggleMode(iface: string, mode: string)

  /** A button the page builds: its class name, its text and its click. */
  datatype Button = Button(className: string, text: string, onclick: Click)

  /** An `<option>` of the adapter dropdown. */
  datatype Choice = Choice(value: string, text: string)

  const Placeholder: Choice := Choice("", "-- Select Adapter --")

  /** What an `innerText`, `textContent` or `value` assignment stores: null
      becomes the empty string, anything else its string form. */
  function DomText(j: Json): (r: string)
    ensures j.Str? ==> r == j.s
  {
    if j == Null then "" else JsText(j)
  }

  predicate Usable(item: Json) { item != Undefined && item != Null }

  /** The button one adapter yields: green exactly when its status is 'up',
      labelled with its name, and toggling it when clicked. */
  function AdapterButton(adapter: Json): (b: Button)
    requires Usable(adapter)
    ensures b.className == "button green" <==> Prop(adapter, "status").value == Str("up")
    ensures b.className == "button red" <==> Prop(adapter, "status").value != Str("up")
  {
    var name := Prop(adapter, "name").value;
    Button(if Prop(adapter, "status").value == Str("up") then "button green" else "button red",
           DomText(name), ToggleAdapter(JsText(name)))
  }

  /** The dropdown choice one adapter yields. */
  function AdapterChoice(adapter: Json): Choice
    requires Usable(adapter)
  {
    var name := Prop(adapter, "name").value;
    Choice(JsText(name), DomText(name))
  }

  /** What a rebuild loop has produced: the widgets appended so far, and the
      error that stopped it, if one did. */
  datatype Listing = Listing(buttons: seq<Button>, choices: seq<Choice>, failure: Option<string>)

  /** `data.adapters.forEach(...)` over `items`, front to back. */
  function AdapterListing(items: seq<Json>): (r: Listing)
    ensures |r.buttons| == |r.choices| <= |items|
    decreases |items|
  {
    if items == [] then Listing([], [], None)
    else
      var prev := AdapterListing(items[..|items| - 1]);
      var last := items[|items| - 1];
      if prev.failure.Some? then prev
      else if !Usable(last) then Listing(prev.buttons, prev.choices, Some(Prop(last, "status").error))
      else Listing(prev.buttons + [AdapterButton(last)], prev.choices + [AdapterChoice(last)], None)
  }

  /** The k-th button and choice built come from the k-th adapter. */
  lemma {:induction false} AdapterListingAt(items: seq<Json>, k: nat)
    requires k < |AdapterListing(items).buttons|
    ensures Usable(items[k]) && AdapterListing(items).buttons[k] == AdapterButton(items[k])
    ensures AdapterListing(items).choices[k] == AdapterChoice(items[k])
    decreases |items|
  {
    if items != [] {
      var init := items[..|items| - 1];
      var prev := AdapterListing(init);
      var last := items[|items| - 1];
      var r := AdapterListing(items);
      if prev.failure.Some? || !Usable(last) {
        assert r.buttons == prev.buttons;
        AdapterListingAt(init, k);
        assert items[k] == init[k];
      } else {
        assert r.buttons == prev.buttons + [AdapterButton(last)];
        AdapterListingFailure(init);
        if k < |prev.buttons| {
          AdapterListingAt(init, k);
          assert items[k] == init[k];
        }
      }
    }
  }

  /** Every adapter yields a button, unless one of them is null or undefined:
      then the loop stops at the first such adapter with its TypeError. */
  lemma {:induction false} AdapterListingFailure(items: seq<Json>)
    ensures AdapterListing(items).failure.None? <==> forall k :: 0 <= k < |items| ==> Usable(items[k])
    ensures AdapterListing(items).failure.None? ==> |AdapterListing(items).buttons| == |items|
    ensures AdapterListing(items).failure.Some? ==>
      |AdapterListing(items).buttons| < |items| && !Usable(items[|AdapterListing(items).buttons|])
    decreases |items|
  {
    if items != [] {
      var init := items[..|items| - 1];
      var last := items[|items| - 1];
      AdapterListingFailure(init);
      var prev := AdapterListing(init);
      forall k | 0 <= k < |init| ensures init[k] == items[k] { }
      if prev.failure.None? {
        if Usable(last) {
          forall k | 0 <= k < |items| ensures Usable(items[k]) {
            if k < |init| { assert Usable(init[k]); }
          }
        }
      } else {
        assert !Usable(init[|prev.buttons|]);
      }
    }
  }

  /** A listing that has failed stays as it is for the rest of the items. */
  lemma {:induction false} AdapterListingStaysFailed(items: seq<Json>, n: nat)
    requires n <= |items| && AdapterListing(items[..n]).failure.Some?
    ensures AdapterListing(items) == AdapterListing(items[..n])
    decreases |items| - n
  {
    if n < |items| {
      assert items[..n + 1][..n] == items[..n];
      AdapterListingStaysFailed(items, n + 1);
    } else {
      assert items[..n] == items;
    }
  }

  /** The listing an answer of `/network/adapters` yields. */
  function AdaptersOf(data: Json): (r: Listing)
    ensures Prop(data, "adapters").Ok? && Prop(data, "adapters").value.Arr? ==>
      r == AdapterListing(Prop(data, "adapters").value.items)
    ensures !(Prop(data, "adapters").Ok? && Prop(data, "adapters").value.Arr?) ==>
      r.buttons == [] && r.choices == [] && r.failure.Some?
  {
    match Prop(data, "adapters")
      case Err(m) => Listing([], [], Some(m))
      case Ok(Arr(items)) => AdapterListing(items)
      case Ok(_) => Listing([], [], Some("data.adapters.forEach is not a function"))
  }

  /** The JSON object `/network/adapters` sends for one adapter. */
  function AdapterJson(a: NA.Adapter): Json {
    Obj([("name", Str(a.name)), ("status", Str(a.status))])
  }

  function AdaptersJson(adapters: seq<NA.Adapter>): (r: seq<Json>)
    ensures |r| == |adapters| && forall k :: 0 <= k < |r| ==> r[k] == AdapterJson(adapters[k])
  {
    seq(|adapters|, k requires 0 <= k < |adapters| => AdapterJson(adapters[k]))
  }

  /** The widgets of one adapter as the server sends it. */
  lemma AdapterWidgetsOfServer(a: NA.Adapter)
    ensures Usable(AdapterJson(a))
    ensures AdapterButton(AdapterJson(a)) ==
      Button(if a.status == "up" then "button green" else "button red", a.name, ToggleAdapter(a.name))
    ensures AdapterChoice(AdapterJson(a)) == Choice(a.name, a.name)
  {
    var fs := [("name", Str(a.name)), ("status", Str(a.status))];
    assert AdapterJson(a) == Obj(fs);
    assert fs[..1] == [("name", Str(a.name))];
    assert "status" != "name" by { assert "status"[0] != "name"[0]; }
    assert Lookup(fs, "name") == Lookup(fs[..1], "name");
    assert Prop(AdapterJson(a), "status") == Ok(Str(a.status));
    assert Prop(AdapterJson(a), "name") == Ok(Str(a.name));
  }

  /** Against the server's own adapter list, the page shows one button and
      one choice per adapter, named after it, and the button is green
      exactly when the adapter's name occurs in the ifconfig output. */
  lemma AdapterButtonsFollowServer(linkOutput: string, ifconfig: string)
    ensures var adapters := NA.GetNetworkAdapters(linkOutput, ifconfig);
      var r := AdaptersOf(Obj([("adapters", Arr(AdaptersJson(adapters)))]));
      r.failure.None? && |r.buttons| == |adapters| &&
      forall k :: 0 <= k < |adapters| ==>
        r.buttons[k].text == adapters[k].name && r.choices[k] == Choice(adapters[k].name, adapters[k].name) &&
        r.buttons[k].onclick == ToggleAdapter(adapters[k].name) &&
        (r.buttons[k].className == "button green" <==> Contains(ifconfig, adapters[k].name))
  {
    var adapters := NA.GetNetworkAdapters(linkOutput, ifconfig);
    var items := AdaptersJson(adapters);
    assert Prop(Obj([("adapters", Arr(items))]), "adapters") == Ok(Arr(items));
    forall k | 0 <= k < |items| ensures Usable(items[k]) {
      assert items[k] == AdapterJson(adapters[k]);
    }
    AdapterListingFailure(items);
    var r := AdapterListing(items);
    forall k | 0 <= k < |adapters|
      ensures r.buttons[k].text == adapters[k].name && r.choices[k] == Choice(adapters[k].name, adapters[k].name) &&
        r.buttons[k].onclick == ToggleAdapter(adapters[k].name) &&
        (r.buttons[k].className == "button green" <==> Contains(ifconfig, adapters[k].name))
    {
      assert items[k] == AdapterJson(adapters[k]);
      AdapterListingAt(items, k);
      AdapterWidgetsOfServer(adapters[k]);
    }
  }

  /** toggleNetworkAdapter(name): alert the server's text, then redraw the adapters. */
  function ToggleNetworkAdapter(name: string, answer: Fetched): (es: seq<Effect>)
    ensures |es| >= 2 && es[0] == Get("/network/adapter/" + name + "/toggle")
    ensures answer.Responded? ==> es == [es[0], Alert(answer.text), Invoke(FetchNetworkAdapters)]
    ensures answer.FetchFailed? ==> es == [es[0], Show("Error toggling network adapter: " + answer.reason)]
  {
    var first := Get("/network/adapter/" + name + "/toggle");
    match answer
      case Responded(_, text, _) => [first, Alert(text), Invoke(FetchNetworkAdapters)]
      case FetchFailed(m) => [first, Show("Error toggling network adapter: " + m)]
  }

  // ---------------------------------------------------------------- wireless modes

  /** Whether `mode.status.toLowerCase()` can be evaluated. */
  predicate ModeUsable(mode: Json) {
    Usable(mode) && Prop(mode, "status").value.Str?
  }

  /** The TypeError an unusable entry throws. */
  function ModeFailure(mode: Json): string {
    if Usable(mode) then "mode.status.toLowerCase is not a function" else Prop(mode, "status").error
  }

  /** The button one `{interface, status}` entry yields. */
  function ModeButton(mode: Json): (b: Button)
    requires ModeUsable(mode)
  {
    var s := Prop(mode, "status").value.s;
    var iface := JsText(Prop(mode, "interface").value);
    Button(if Lower(s) == "monitor" then "button green" else "button blue",
           iface + " (" + s + ")", ToggleMode(iface, Lower(s)))
  }

  /** `data.modes.forEach(...)` over `items`, front to back. */
  function ModeListing(items: seq<Json>): (r: Listing)
    ensures |r.buttons| <= |items| && r.choices == []
    decreases |items|
  {
    if items == [] then Listing([], [], None)
    else
      var prev := ModeListing(items[..|items| - 1]);
      var last := items[|items| - 1];
      if prev.failure.Some? then prev
      else if !ModeUsable(last) then Listing(prev.buttons, [], Some(ModeFailure(last)))
      else Listing(prev.buttons + [ModeButton(last)], [], None)
  }

  /** The k-th button built comes from the k-th entry. */
  lemma {:induction false} ModeListingAt(items: seq<Json>, k: nat)
    requires k < |ModeListing(items).buttons|
    ensures ModeUsable(items[k]) && ModeListing(items).buttons[k] == ModeButton(items[k])
    decreases |items|
  {
    if items != [] {
      var init := items[..|items| - 1];
      var prev := ModeListing(init);
      var last := items[|items| - 1];
      var r := ModeListing(items);
      if prev.failure.Some? || !ModeUsable(last) {
        assert r.buttons == prev.buttons;
        ModeListingAt(init, k);
        assert items[k] == init[k];
      } else {
        assert r.buttons == prev.buttons + [ModeButton(last)];
        ModeListingFailure(init);
        if k < |prev.buttons| {
          ModeListingAt(init, k);
          assert items[k] == init[k];
        }
      }
    }
  }

  /** Every entry yields a button, unless one has no string status: then the
      loop stops at the first such entry with its TypeError. */
  lemma {:induction false} ModeListingFailure(items: seq<Json>)
    ensures ModeListing(items).failure.None? <==> forall k :: 0 <= k < |items| ==> ModeUsable(items[k])
    ensures ModeListing(items).failure.None? ==> |ModeListing(items).buttons| == |items|
    ensures ModeListing(items).failure.Some? ==>
      |ModeListing(items).buttons| < |items| && !ModeUsable(items[|ModeListing(items).buttons|])
    decreases |items|
  {
    if items != [] {
      var init := items[..|items| - 1];
      var last := items[|items| - 1];
      ModeListingFailure(init);
      var prev := ModeListing(init);
      forall k | 0 <= k < |init| ensures init[k] == items[k] { }
      if prev.failure.None? {
        if ModeUsable(last) {
          forall k | 0 <= k < |items| ensures ModeUsable(items[k]) {
            if k < |init| { assert ModeUsable(init[k]); }
          }
        }
      } else {
        assert !ModeUsable(init[|prev.buttons|]);
      }
    }
  }

  lemma {:induction false} ModeListingStaysFailed(items: seq<Json>, n: nat)
    requires n <= |items| && ModeListing(items[..n]).failure.Some?
    ensures ModeListing(items) == ModeListing(items[..n])
    decreases |items| - n
  {
    if n < |items| {
      assert items[..n + 1][..n] == items[..n];
      ModeListingStaysFailed(items, n + 1);
    } else {
      assert items[..n] == items;
    }
  }

  /** The contents of the mode container after an answer: a paragraph
      (the server's error, or 'Unexpected data format'), or the buttons of
      the listing. */
  datatype ModeView = ModeView(note: Option<string>, listing: Listing)

  function ModesOf(data: Json): (r: ModeView)
    ensures Prop(data, "error").Ok? && Truthy(Prop(data, "error").value) ==>
      r == ModeView(Some(JsText(Prop(data, "error").value)), Listing([], [], None))
    ensures Prop(data, "error").Ok? && !Truthy(Prop(data, "error").value) && Prop(data, "modes").value.Arr? ==>
      r == ModeView(None, ModeListing(Prop(data, "modes").value.items))
    ensures Prop(data, "error").Ok? && !Truthy(Prop(data, "error").value) && !Prop(data, "modes").value.Arr? ==>
      r == ModeView(Some("Unexpected data format"), Listing([], [], None))
    ensures Prop(data, "error").Err? ==> r == ModeView(None, Listing([], [], Some(Prop(data, "error").error)))
  {
    match Prop(data, "error")
      case Err(m) => ModeView(None, Listing([], [], Some(m)))
      case Ok(e) =>
        if Truthy(e) then ModeView(Some(JsText(e)), Listing([], [], None))
        else match Prop(data, "modes").value
          case Arr(items) => ModeView(None, ModeListing(items))
          case _ => ModeView(Some("Unexpected data format"), Listing([], [], None))
  }

  /** fetchWirelessModes' first step AS WRITTEN: the `throw` of the server's
      error sits inside the `try` whose `catch` replaces it, so a response
      that is not OK always ends as 'Error parsing response: ' + its text. */
  function ModesChecked(f: Fetched): (r: Result<Json>)
    ensures f.Responded? && !f.ok ==> r == Err("Error parsing response: " + f.text)
    ensures f.Responded? && f.ok ==> r == Body(f)
  {
    if f.Responded? && !f.ok then Err("Error parsing response: " + f.text) else Body(f)
  }

  /** The step as intended: a body that parses reports its `error` field
      (or 'Unknown error occurred'); only one that does not parse reports
      the parse failure. */
  function ModesCheckedFixed(f: Fetched): (r: Result<Json>)
    ensures f.Responded? && f.ok ==> r == Body(f)
    ensures f.Responded? && !f.ok && f.json.NotJson? ==> r == Err("Error parsing response: " + f.text)
    ensures f.Responded? && !f.ok && f.json.Parsed? && f.json.value.Obj? ==>
      var e := Lookup(f.json.value.fields, "error");
      r == Err(if Truthy(e) then JsText(e) else "Unknown error occurred")
    ensures !(f.Responded? && f.ok) ==> r.Err?
  {
    if f.Responded? && !f.ok then
      match f.json
        case NotJson(_) => Err("Error parsing response: " + f.text)
        case Parsed(data) =>
          match Prop(data, "error")
            case Err(_) => Err("Error parsing response: " + f.text)
            case Ok(e) => Err(if Truthy(e) then JsText(e) else "Unknown error occurred")
    else Body(f)
  }

  /** A 500 whose body is `{"error": "No wireless interfaces found"}`: the
      page as written alerts the raw body, the intended page the error. */
  lemma ModesErrorMasked()
    ensures var text := "{\"error\": \"No wireless interfaces found\"}";
      var f := Responded(false, text, Parsed(Obj([("error", Str("No wireless interfaces found"))])));
      ModesChecked(f) == Err("Error parsing response: " + text) &&
      ModesCheckedFixed(f) == Err("No wireless interfaces found")
  {
  }

  /** toggleWirelessMode(iface, currentMode): the request names the CURRENT
      mode (the new one is left to the server); a success redraws the modes
      and then the adapters. */
  function ToggleWirelessMode(iface: string, currentMode: string, answer: Fetched): (es: seq<Effect>)
    ensures |es| >= 2 && es[0] == Request("/network/toggle_wireless_mode/" + iface + "/" + currentMode, "POST", Undefined)
    ensures Invoke(FetchWirelessModes) in es <==>
      Body(answer).Ok? && Prop(Body(answer).value, "error").Ok? && !Truthy(Prop(Body(answer).value, "error").value)
    ensures Invoke(FetchWirelessModes) in es ==>
      es == [es[0], Show(JsText(Prop(Body(answer).value, "message").value)), Invoke(FetchWirelessModes), Invoke(FetchNetworkAdapters)]
    ensures Invoke(FetchWirelessModes) !in es ==> |es| == 2 && es[1].Show? && StartsWith(es[1].text, "Error toggling wireless mode: ")
  {
    var first := Request("/network/toggle_wireless_mode/" + iface + "/" + currentMode, "POST", Undefined);
    var failed := (m: string) => Show("Error toggling wireless mode: " + m);
    match Body(answer)
      case Err(m) => [first, failed(m)]
      case Ok(data) =>
        match Prop(data, "error")
          case Err(m) => [first, failed(m)]
          case Ok(e) =>
            if Truthy(e) then [first, failed(JsText(e))]
            else [first, Show(JsText(Prop(data, "message").value)), Invoke(FetchWirelessModes), Invoke(FetchNetworkAdapters)]
  }

  /** A mode button is green exactly when its status is monitor in any
      case, and its click sends the lower-cased status; so the click on a
      green button makes the route switch the interface to managed, on any
      other to monitor. */
  lemma ModeButtonClickTarget(mode: Json)
    requires ModeUsable(mode)
    ensures var b := ModeButton(mode);
      var s := Prop(mode, "status").value.s;
      (b.className == "button green" <==> Lower(s) == "monitor") &&
      (b.className == "button blue" <==> Lower(s) != "monitor") &&
      b.onclick.ToggleMode? && b.onclick.mode == Lower(s) &&
      (NR.NewMode(b.onclick.mode) == "managed" <==> b.className == "button green") &&
      (NR.NewMode(b.onclick.mode) == "monitor" <==> b.className == "button blue")
  {
  }

  // ---------------------------------------------------------------- hotspot

  /** toggleHotspot(): show the server's message, then refresh the status. */
  function ToggleHotspot(answer: Fetched): (es: seq<Effect>)
    ensures |es| >= 2 && es[0] == Get("/network/toggle_hotspot")
    ensures Invoke(UpdateHotspotStatus) in es <==> JsonChecked(answer).Ok? && Usable(JsonChecked(answer).value)
    ensures Invoke(UpdateHotspotStatus) !in es ==> |es| == 2 && es[1].Show? && StartsWith(es[1].text, "Error toggling hotspot: ")
  {
    var first := Get("/network/toggle_hotspot");
    match JsonChecked(answer)
      case Err(m) => [first, Show("Error toggling hotspot: " + m)]
      case Ok(data) =>
        match Prop(data, "message")
          case Err(m) => [first, Show("Error toggling hotspot: " + m)]
          case Ok(msg) => [first, Show(JsText(msg)), Invoke(UpdateHotspotStatus)]
  }

  /** The hotspot status line and the class list of the hotspot button. */
  datatype HotspotView = HotspotView(text: string, classes: set<string>)

  /** updateHotspotStatus(): running and green exactly when the server says
      `is_running` (truthily), not running and blue otherwise; a failure
      only shows a message. */
  function HotspotStatusUpdate(view: HotspotView, answer: Fetched): (r: (HotspotView, seq<Effect>))
    ensures |r.1| >= 1 && r.1[0] == Get("/network/hotspot_status")
    ensures JsonChecked(answer).Ok? && Usable(JsonChecked(answer).value) ==>
      var running := Truthy(Prop(JsonChecked(answer).value, "is_running").value);
      r.1 == [Get("/network/hotspot_status")] &&
      (running ==> r.0 == HotspotView("Hotspot is running", view.classes - {"blue"} + {"green"})) &&
      (!running ==> r.0 == HotspotView("Hotspot is not running", view.classes - {"green"} + {"blue"}))
    ensures !(JsonChecked(answer).Ok? && Usable(JsonChecked(answer).value)) ==>
      r.0 == view && |r.1| == 2 && r.1[1].Show? && StartsWith(r.1[1].text, "Error fetching hotspot status: ")
  {
    var first := Get("/network/hotspot_status");
    match JsonChecked(answer)
      case Err(m) => (view, [first, Show("Error fetching hotspot status: " + m)])
      case Ok(data) =>
        match Prop(data, "is_running")
          case Err(m) => (view, [first, Show("Error fetching hotspot status: " + m)])
          case Ok(running) =>
            if Truthy(running) then (HotspotView("Hotspot is running", view.classes - {"blue"} + {"green"}), [first])
            else (HotspotView("Hotspot is not running", view.classes - {"green"} + {"blue"}), [first])
  }

  /** The button is never both green and blue after a successful update,
      and its colour matches the status line. */
  lemma HotspotColourExclusive(view: HotspotView, answer: Fetched)
    requires JsonChecked(answer).Ok? && Usable(JsonChecked(answer).value)
    ensures var v := HotspotStatusUpdate(view, answer).0;
      ("green" in v.classes <==> v.text == "Hotspot is running") &&
      ("blue" in v.classes <==> v.text == "Hotspot is not running") &&
      !("green" in v.classes && "blue" in v.classes)
  {
    var v := HotspotStatusUpdate(view, answer).0;
    assert "Hotspot is running" != "Hotspot is not running" by {
      assert "Hotspot is running"[11] != "Hotspot is not running"[11];
    }
  }

  /** Against the server's `hotspot_status` route: the page shows the
      hotspot running exactly when systemctl reported hostapd 'active'. */
  lemma HotspotViewFollowsServer(view: HotspotView, status: Shell.Completion)
    ensures var reply := NR.HotspotStatus(status);
      reply.Reply? && reply.code == 200 && reply.body.Running? ==>
      var answer := Responded(true, "", Parsed(Obj([("is_running", Bool(reply.body.isRunning))])));
      (HotspotStatusUpdate(view, answer).0.text == "Hotspot is running" <==> NR.HostapdActive(status))
  {
    var reply := NR.HotspotStatus(status);
    if reply.Reply? && reply.code == 200 && reply.body.Running? {
      var answer := Responded(true, "", Parsed(Obj([("is_running", Bool(reply.body.isRunning))])));
      assert Prop(Obj([("is_running", Bool(reply.body.isRunning))]), "is_running") == Ok(Bool(reply.body.isRunning));
      assert "Hotspot is running" != "Hotspot is not running" by {
        assert "Hotspot is running"[11] != "Hotspot is not running"[11];
      }
    }
  }

  // ---------------------------------------------------------------- Tailscale

  /** The Tailscale panel: the status line's text and class, the display
      of the install, enable and disable buttons and of the configuration
      block, and the configuration fields. */
  datatype VpnView = VpnView(
    text: string, className: string,
    install: string, enable: string, disable: string, config: string,
    hostname: string, advertiseRoutes: string, acceptRoutes: string, acceptDns: bool, shieldsUp: bool)

  /** The catch block every Tailscale handler shares. */
  function VpnFailure(view: VpnView, heading: string, m: string): (r: (VpnView, seq<Effect>))
  {
    (view.(text := "Error: " + m, className := "status-message error"), [ConsoleError(heading, m)])
  }

  /** `data.status.BackendState === 'Running'` */
  predicate Connected(status: Json) {
    Prop(status, "BackendState") == Ok(Str("Running"))
  }

  /** The fields the configuration answer fills, unless it carries an error. */
  function ApplyConfig(view: VpnView, config: Json): VpnView
    requires Usable(config)
  {
    if Truthy(Prop(config, "error").value) then view
    else view.(advertiseRoutes := DomText(Or(Prop(config, "AdvertiseRoutes").value, Str(""))),
               acceptRoutes := DomText(Or(Prop(config, "AcceptRoutes").value, Str(""))),
               acceptDns := Truthy(Prop(config, "AcceptDNS").value),
               shieldsUp := Truthy(Prop(config, "ShieldsUp").value))
  }

  /** The panel for a healthy status object: connected exactly when the
      backend state is 'Running', the enable button shown exactly when
      disconnected and the disable button exactly when connected; the
      host name is taken from `Self` when there is one. */
  function ConnectionView(shown: VpnView, st: Json): (v: VpnView)
    requires Usable(st)
    ensures v.install == shown.install && v.config == shown.config
    ensures v.text == "Status: Connected" <==> Connected(st)
    ensures (v.enable == "inline-block" <==> !Connected(st)) && (v.enable == "none" <==> Connected(st))
    ensures (v.disable == "inline-block" <==> Connected(st)) && (v.disable == "none" <==> !Connected(st))
  {
    var up := Connected(st);
    var self := Prop(st, "Self").value;
    var v := shown.(text := "Status: " + (if up then "Connected" else "Disconnected"),
                    className := "status-message " + (if up then "success" else "warning"),
                    enable := if up then "none" else "inline-block",
                    disable := if up then "inline-block" else "none",
                    hostname := if Truthy(self) then DomText(Or(Prop(self, "HostName").value, Str(""))) else shown.hostname);
    assert "Status: Connected" != "Status: Disconnected" by { assert |"Status: Connected"| != |"Status: Disconnected"|; }
    assert "none" != "inline-block";
    v
  }

  /** checkTailscaleStatus(): the panel after the status answer (and, when
      the client is installed and healthy, the configuration answer). */
  function VpnStatusUpdate(view: VpnView, status: Fetched, config: Fetched): (r: (VpnView, seq<Effect>))
    ensures |r.1| >= 1 && r.1[0] == Get("/api/vpn/status")
  {
    var first := Get("/api/vpn/status");
    var heading := "Error checking Tailscale status:";
    match Body(status)
      case Err(m) => var f := VpnFailure(view, heading, m); (f.0, [first] + f.1)
      case Ok(data) =>
        match Prop(data, "installed")
          case Err(m) => var f := VpnFailure(view, heading, m); (f.0, [first] + f.1)
          case Ok(installed) =>
            if !Truthy(installed) then
              (view.(text := DomText(Prop(data, "message").value), className := "status-message warning",
                     install := "inline-block", enable := "none", disable := "none", config := "none"), [first])
            else
              var shown := view.(install := "none", config := "block");
              var st := Prop(data, "status").value;
              match Prop(st, "error")
                case Err(m) => var f := VpnFailure(shown, heading, m); (f.0, [first] + f.1)
                case Ok(e) =>
                  if Truthy(e) then
                    (shown.(text := "Error: " + JsText(e), className := "status-message error"), [first])
                  else
                    var named := ConnectionView(shown, st);
                    var second := Get("/api/vpn/config");
                    match Body(config)
                      case Err(m) => var f := VpnFailure(named, heading, m); (f.0, [first, second] + f.1)
                      case Ok(cfg) =>
                        if !Usable(cfg) then
                          var f := VpnFailure(named, heading, Prop(cfg, "error").error); (f.0, [first, second] + f.1)
                        else (ApplyConfig(named, cfg), [first, second])
  }

  /** Not installed: only the install button shows, with the server's message. */
  lemma VpnNotInstalled(view: VpnView, status: Fetched, config: Fetched)
    requires Body(status).Ok? && Usable(Body(status).value)
    requires !Truthy(Prop(Body(status).value, "installed").value)
    ensures var v := VpnStatusUpdate(view, status, config).0;
      v.install == "inline-block" && v.enable == "none" && v.disable == "none" && v.config == "none" &&
      v.className == "status-message warning" && v.text == DomText(Prop(Body(status).value, "message").value)
    ensures VpnStatusUpdate(view, status, config).1 == [Get("/api/vpn/status")]
  {
  }

  /** Installed and healthy: the install button hides, the configuration
      shows, the connection view applies, and the configuration is then
      fetched; the configuration answer changes only the form fields. */
  lemma VpnInstalled(view: VpnView, status: Fetched, config: Fetched)
    requires Body(status).Ok? && Usable(Body(status).value)
    requires Truthy(Prop(Body(status).value, "installed").value)
    requires Usable(Prop(Body(status).value, "status").value)
    requires !Truthy(Prop(Prop(Body(status).value, "status").value, "error").value)
    ensures var st := Prop(Body(status).value, "status").value;
      var v := VpnStatusUpdate(view, status, config).0;
      var c := ConnectionView(view.(install := "none", config := "block"), st);
      v.install == "none" && v.config == "block" &&
      v.enable == c.enable && v.disable == c.disable && v.hostname == c.hostname
    ensures |VpnStatusUpdate(view, status, config).1| >= 2 && VpnStatusUpdate(view, status, config).1[1] == Get("/api/vpn/config")
  {
  }

  /** The success or failure report install, toggle and configuration
      updates share: on success the server's message and a status check
      two seconds later; otherwise the error. */
  function VpnReply(view: VpnView, answer: Fetched, failurePrefix: string, heading: string): (r: (VpnView, seq<Effect>))
    ensures Timers(r.1) <= 1
    ensures (Body(answer).Ok? && Usable(Body(answer).value) && Truthy(Prop(Body(answer).value, "success").value)) <==>
      r.1 == [Timer(2000, CheckTailscaleStatus)]
    ensures Body(answer).Ok? && Usable(Body(answer).value) && !Truthy(Prop(Body(answer).value, "success").value) ==>
      r == (view.(text := failurePrefix + JsText(Prop(Body(answer).value, "error").value), className := "status-message error"), [])
  {
    match Body(answer)
      case Err(m) => VpnFailure(view, heading, m)
      case Ok(data) =>
        match Prop(data, "success")
          case Err(m) => VpnFailure(view, heading, m)
          case Ok(ok) =>
            if Truthy(ok) then
              (view.(text := DomText(Prop(data, "message").value), className := "status-message success"), [Timer(2000, CheckTailscaleStatus)])
            else
              (view.(text := failurePrefix + JsText(Prop(data, "error").value), className := "status-message error"), [])
  }

  /** installTailscale() */
  function InstallTailscale(view: VpnView, answer: Fetched): (r: (VpnView, seq<Effect>))
    ensures |r.1| >= 1 && r.1[0] == Request("/api/vpn/install", "POST", Undefined)
  {
    var busy := view.(text := "Installing Tailscale...", className := "status-message warning");
    var f := VpnReply(busy, answer, "Installation failed: ", "Error installing Tailscale:");
    (f.0, [Request("/api/vpn/install", "POST", Undefined)] + f.1)
  }

  /** toggleTailscale(action): the request carries `{action}`. */
  function ToggleTailscale(view: VpnView, action: string, answer: Fetched): (r: (VpnView, seq<Effect>))
    ensures |r.1| >= 1 && r.1[0] == Request("/api/vpn/toggle", "POST", Obj([("action", Str(action))]))
  {
    var busy := view.(text := (if action == "up" then "Enabling" else "Disabling") + " Tailscale...",
                      className := "status-message warning");
    var f := VpnReply(busy, answer, "Error: ", "Error toggling Tailscale:");
    (f.0, [Request("/api/vpn/toggle", "POST", Obj([("action", Str(action))]))] + f.1)
  }

  /** The configuration the form holds, as updateTailscaleConfig sends it. */
  function ConfigJson(view: VpnView): Json {
    Obj([("hostname", Str(view.hostname)), ("advertise-routes", Str(view.advertiseRoutes)),
         ("accept-routes", Str(view.acceptRoutes)), ("accept-dns", Bool(view.acceptDns)),
         ("shields-up", Bool(view.shieldsUp))])
  }

  /** updateTailscaleConfig(): the form's five fields are sent as they stand. */
  function UpdateTailscaleConfig(view: VpnView, answer: Fetched): (r: (VpnView, seq<Effect>))
    ensures |r.1| >= 1 && r.1[0] == Request("/api/vpn/config", "POST", ConfigJson(view))
    ensures r.0.hostname == view.hostname && r.0.advertiseRoutes == view.advertiseRoutes &&
      r.0.acceptRoutes == view.acceptRoutes && r.0.acceptDns == view.acceptDns && r.0.shieldsUp == view.shieldsUp
  {
    var f := VpnReply(view, answer, "Error: ", "Error updating Tailscale config:");
    (f.0, [Request("/api/vpn/config", "POST", ConfigJson(view))] + f.1)
  }

  // ---------------------------------------------------------------- page

  /** The parts of the settings page the handlers rebuild: the adapter
      buttons and dropdown, the wireless-mode container, and the trace of
      effects performed so far. */
  class Page {
    var adapterButtons: seq<Button>
    var adapterChoices: seq<Choice>
    var modeButtons: seq<Button>
    var modeNote: Option<string>
    var effects: seq<Effect>

    constructor ()
      ensures adapterButtons == [] && adapterChoices == [Placeholder]
      ensures modeButtons == [] && modeNote == None && effects == []
    {
      adapterButtons := [];
      adapterChoices := [Placeholder];
      modeButtons := [];
      modeNote := None;
      effects := [];
    }

    /** The `forEach` of fetchNetworkAdapters: appends, one adapter at a
        time, its button and its choice, until an adapter throws. */
    method AppendAdapters(items: seq<Json>) returns (failure: Option<string>)
      modifies this
      ensures failure == AdapterListing(items).failure
      ensures adapterButtons == old(adapterButtons) + AdapterListing(items).buttons
      ensures adapterChoices == old(adapterChoices) + AdapterListing(items).choices
      ensures modeButtons == old(modeButtons) && modeNote == old(modeNote) && effects == old(effects)
    {
      var i := 0;
      failure := None;
      while i < |items| && failure.None?
        invariant 0 <= i <= |items|
        invariant failure == AdapterListing(items[..i]).failure
        invariant adapterButtons == old(adapterButtons) + AdapterListing(items[..i]).buttons
        invariant adapterChoices == old(adapterChoices) + AdapterListing(items[..i]).choices
        invariant modeButtons == old(modeButtons) && modeNote == old(modeNote) && effects == old(effects)
      {
        assert items[..i + 1][..i] == items[..i];
        if !Usable(items[i]) {
          failure := Some(Prop(items[i], "status").error);
        } else {
          adapterButtons := adapterButtons + [AdapterButton(items[i])];
          adapterChoices := adapterChoices + [AdapterChoice(items[i])];
        }
        i := i + 1;
      }
      if failure.Some? {
        AdapterListingStaysFailed(items, i);
      } else {
        assert items[..i] == items;
      }
    }

    /** fetchNetworkAdapters(): on an answer, both the buttons and the
        dropdown are cleared and rebuilt from it alone. */
    method FetchNetworkAdapters(answer: Fetched)
      modifies this
      ensures modeButtons == old(modeButtons) && modeNote == old(modeNote)
      ensures Body(answer).Err? ==>
        adapterButtons == old(adapterButtons) && adapterChoices == old(adapterChoices) &&
        effects == old(effects) + [Get("/network/adapters"), ConsoleError("Error fetching network adapters:", Body(answer).error)]
      ensures Body(answer).Ok? ==>
        var l := AdaptersOf(Body(answer).value);
        adapterButtons == l.buttons && adapterChoices == [Placeholder] + l.choices &&
        effects == old(effects) + [Get("/network/adapters")] +
          (if l.failure.Some? then [ConsoleError("Error fetching network adapters:", l.failure.value)] else [])
    {
      effects := effects + [Get("/network/adapters")];
      if Body(answer).Err? {
        effects := effects + [ConsoleError("Error fetching network adapters:", Body(answer).error)];
        return;
      }
      var data := Body(answer).value;
      adapterButtons := [];
      adapterChoices := [Placeholder];
      var failure: Option<string>;
      match Prop(data, "adapters") {
        case Ok(Arr(items)) =>
          failure := AppendAdapters(items);
        case _ =>
          failure := AdaptersOf(data).failure;
      }
      if failure.Some? {
        effects := effects + [ConsoleError("Error fetching network adapters:", failure.value)];
      }
    }

    /** The `forEach` of fetchWirelessModes: appends one button per entry
        until an entry throws. */
    method AppendModes(items: seq<Json>) returns (failure: Option<string>)
      modifies this
      ensures failure == ModeListing(items).failure
      ensures modeButtons == old(modeButtons) + ModeListing(items).buttons
      ensures adapterButtons == old(adapterButtons) && adapterChoices == old(adapterChoices)
      ensures modeNote == old(modeNote) && effects == old(effects)
    {
      var i := 0;
      failure := None;
      while i < |items| && failure.None?
        invariant 0 <= i <= |items|
        invariant failure == ModeListing(items[..i]).failure
        invariant modeButtons == old(modeButtons) + ModeListing(items[..i]).buttons
        invariant adapterButtons == old(adapterButtons) && adapterChoices == old(adapterChoices)
        invariant modeNote == old(modeNote) && effects == old(effects)
      {
        assert items[..i + 1][..i] == items[..i];
        if !ModeUsable(items[i]) {
          failure := Some(ModeFailure(items[i]));
        } else {
          modeButtons := modeButtons + [ModeButton(items[i])];
        }
        i := i + 1;
      }
      if failure.Some? {
        ModeListingStaysFailed(items, i);
      } else {
        assert items[..i] == items;
      }
    }

    /** fetchWirelessModes(): on a usable answer the container is cleared
        and refilled from it alone; a failure is alerted. */
    method FetchWirelessModes(answer: Fetched)
      modifies this
      ensures adapterButtons == old(adapterButtons) && adapterChoices == old(adapterChoices)
      ensures ModesChecked(answer).Err? ==>
        modeButtons == old(modeButtons) && modeNote == old(modeNote) &&
        effects == old(effects) + [Get("/network/wireless_modes"), Alert("Error fetching wireless modes: " + ModesChecked(answer).error)]
      ensures ModesChecked(answer).Ok? ==>
        var v := ModesOf(ModesChecked(answer).value);
        modeButtons == v.listing.buttons && modeNote == v.note &&
        effects == old(effects) + [Get("/network/wireless_modes")] +
          (if v.listing.failure.Some? then [Alert("Error fetching wireless modes: " + v.listing.failure.value)] else [])
    {
      effects := effects + [Get("/network/wireless_modes")];
      var checked := ModesChecked(answer);
      if checked.Err? {
        effects := effects + [Alert("Error fetching wireless modes: " + checked.error)];
        return;
      }
      var data := checked.value;
      var v := ModesOf(data);
      modeButtons := [];
      modeNote := v.note;
      var failure := v.listing.failure;
      if Prop(data, "error").Ok? && !Truthy(Prop(data, "error").value) && Prop(data, "modes").value.Arr? {
        failure := AppendModes(Prop(data, "modes").value.items);
      }
      if failure.Some? {
        effects := effects + [Alert("Error fetching wireless modes: " + failure.value)];
      }
    }
  }
}
