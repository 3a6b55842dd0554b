# NSATT core, modelled in Dafny

NSATT is a network security and testing toolkit for a Raspberry Pi. It has
three parts:

- a Qt desktop shell (`nsatt.py`) that loads themed widgets and plugins;
- a Flask web interface with routes for services, network adapters, wireless
  modes, VNC, HID keystroke injection, Metasploit, a file browser, nmap and
  wireless scans, with a settings page in JavaScript;
- utility and launcher scripts: the boot menu, the application launcher,
  USB gadget set-up, and a pip-import survey.

This project models the decision logic of those parts. It covers:

- which command each route or button runs, and in what order;
- how command output and configuration files are parsed;
- which reply, status code and message each path produces;
- how each object's state changes: plugin records, navigation history,
  menu positions, flag files, debug logs and button colours.

The model has one module per source file; the two PHP log pages share one
module. `Strings` models the Python and JavaScript string operations the code
relies on (`split`, `strip`, `in`, `startswith`, `replace`, `int`, `str`).
`Shell` gives the ways a shelled-out command can end.

Nothing here runs a process, touches a file or a database, opens a socket or
reads a clock. Each of these becomes an input of the operation that uses it:

- a command's exit code and output;
- a file's text, or the error reading it raised;
- a database's rows;
- a probe's answer;
- the user's answer to a dialog;
- a timestamp.

Functions whose code only computes are modelled as Dafny functions, with
lemmas stating what their results mean. Code that updates an object's fields
is modelled as a class whose methods are proved against those functions:
`LinkPlugin`, `Hotspot`, `PluginManager`, `Navigator`, `Launcher`,
`MenuStore`, `Page` and the other widgets.

Where the code does something other than what it evidently intends, the
methods follow the code as written. The intended behaviour is stated beside
it and proved, and both are listed under "## Findings".

## Model

| member | source | states |
|---|---|---|
| ServiceControl.ControlCommand | storage/scripts/nsatt_web/modules/service_control.py:6 | the command is `sudo systemctl <action> <service>`: it starts with `sudo systemctl ` and names both the action and the service |
| ServiceControl.ControlService | storage/scripts/nsatt_web/modules/service_control.py:4-11 | the reply names the action and the service; it starts with "Error " exactly when the command raised, and then carries the exception text |
| ServiceControl.GetServiceStatus | storage/scripts/nsatt_web/modules/service_control.py:13-20 | the status is "active" exactly when the probe printed "active" and "inactive" otherwise, with the name echoed; a raising probe gives the error dictionary |
| ServiceControl.RestartDevice | storage/scripts/nsatt_web/modules/service_control.py:22-28 | the fixed reply on success, otherwise "Error restarting device: " followed by the exception text |
| ServiceControl.StopScript | storage/scripts/nsatt_web/modules/service_control.py:30-38 | the fixed reply when all three commands ran, otherwise "Error stopping script: " followed by the exception text |
| ControlRoutes.ControlServices | storage/scripts/nsatt_web/routes/control_routes.py:9-17 | 400 with "Invalid service or action." and no command exactly when the service is not whitelisted or the action is not start/stop/restart; otherwise 200, one systemctl command, and a message naming both |
| ControlRoutes.ControlServicesStatus | storage/scripts/nsatt_web/routes/control_routes.py:19-22 | 200 with the status dictionary of get_service_status: the service echoed, "active" exactly when systemctl printed "active" |
| ControlRoutes.RestartScriptRoute | storage/scripts/nsatt_web/routes/control_routes.py:32-53 | 200 "Script is restarting..." exactly when the script exists, is executable and launched; a missing or non-executable script gives its own 500 error and launches nothing |
| WirelessModes.FirstWord | storage/scripts/nsatt_web/modules/wireless_modes.py:9 | `line.split()[0]`: absent exactly when the line has no word, else the first word, non-empty and without spaces |
| WirelessModes.ModeToken | storage/scripts/nsatt_web/modules/wireless_modes.py:10 | the token after the first "Mode:" is present only on a "Mode:" line and is a non-empty word |
| WirelessModes.ModeLines | storage/scripts/nsatt_web/modules/wireless_modes.py:7-8 | the lines kept are exactly the "Mode:" lines, in order |
| WirelessModes.ModesAreModeLines | storage/scripts/nsatt_web/modules/wireless_modes.py:7-14 | only "Mode:" lines produce entries, one each and in order, interface = first word, status = word after "Mode:"; the listing fails exactly when some "Mode:" line has no word after it |
| WirelessModes.GetWirelessModes | storage/scripts/nsatt_web/modules/wireless_modes.py:3-14 | the loop's result equals the function `Modes` of the output's lines: the entries, or the IndexError text |
| WirelessModes.MissingTokenFails | storage/scripts/nsatt_web/modules/wireless_modes.py:10-14 | once a line raised, the whole listing is the error `list index out of range` |
| WirelessModes.NewMode | storage/scripts/nsatt_web/modules/wireless_modes.py:18 | managed exactly when the current mode is monitor, monitor otherwise |
| WirelessModes.ToggleWirelessMode | storage/scripts/nsatt_web/modules/wireless_modes.py:16-24 | on success the three ifconfig/iwconfig commands run and the message names the interface and the new mode; a raised command gives "Error toggling wireless mode for ..." with the exception text |
| NetworkAdapters.AdapterStatus | storage/scripts/nsatt_web/modules/network_adapters.py:29-40 | "up" exactly when the name occurs as a substring of the ifconfig output, "down" otherwise |
| NetworkAdapters.GetNetworkAdapters | storage/scripts/nsatt_web/modules/network_adapters.py:3-9 | one entry per stripped non-empty `ip link` line, in order, each "up" exactly when its name occurs in the ifconfig output |
| NetworkAdapters.AdapterNamesStripped | storage/scripts/nsatt_web/modules/network_adapters.py:6 | there are no more names than lines and each name is already stripped |
| NetworkAdapters.ToggleAction | storage/scripts/nsatt_web/modules/network_adapters.py:17 | the action is down exactly when the status is up, else up |
| NetworkAdapters.ToggleNetworkAdapter | storage/scripts/nsatt_web/modules/network_adapters.py:11-25 | one `sudo ip link set <name> <action>` command and "Adapter <name> turned down." exactly when the adapter was up, "... turned up." otherwise |
| NetworkAdapters.TargetMode | storage/scripts/nsatt_web/modules/network_adapters.py:47-52 | Mode:Monitor gives managed, else Mode:Managed gives monitor; no mode exactly when the report names neither |
| NetworkAdapters.ToggleWirelessMode | storage/scripts/nsatt_web/modules/network_adapters.py:42-79 | an undeterminable mode gives the error text and runs no command; otherwise the three commands run and the reply starts with "Interface " exactly when the lower-cased verification output contains the new mode |
| NetworkAdapters.GetWirelessModes | storage/scripts/nsatt_web/modules/network_adapters.py:91-116 | the loop equals the function `Scan`: its entries, "No wireless interfaces found" when there are none, or the exception text |
| NetworkAdapters.StepShape | storage/scripts/nsatt_web/modules/network_adapters.py:97-109 | a step skips blank lines, takes the interface from an unindented line and appends one entry for a "Mode:" line |
| NetworkAdapters.ScanStaysFailed | storage/scripts/nsatt_web/modules/network_adapters.py:108-116 | once a line raised, the listing is the IndexError text |
| NetworkAdapters.ScanCountsModeLines | storage/scripts/nsatt_web/modules/network_adapters.py:107-114 | the entries are exactly one per "Mode:" line, with the token after "Mode:" as status |
| NetworkAdapters.ScanTracksHeader | storage/scripts/nsatt_web/modules/network_adapters.py:102-109 | the current interface is always the last unindented line's first word, and each entry is filed under the interface current at its line |
| NetworkAdapters.StepTracksHeader | storage/scripts/nsatt_web/modules/network_adapters.py:102-109 | one step sets or keeps the interface and files a "Mode:" entry under it |
| NetworkRoutes.RunCommand | storage/scripts/nsatt_web/routes/network_routes.py:10-25 | success exactly when the command exits with 0, giving its stripped stdout; a non-zero exit gives "Command '<argv joined>' failed: None" (as written: the error text lands in `output`, not `stderr`) |
| NetworkRoutes.RunCommandIgnoresStderr | storage/scripts/nsatt_web/routes/network_routes.py:19-22 | as written, the failure message of a non-zero exit is the same whatever the command printed to stderr |
| NetworkRoutes.RunCommandFixed | storage/scripts/nsatt_web/routes/network_routes.py:10-25 | corrected: the failure message ends in the command's stripped stderr |
| NetworkRoutes.RunCommandFixedQuotesStderr | storage/scripts/nsatt_web/routes/network_routes.py:19-22 | corrected: two failures with different stripped stderr give different messages |
| NetworkRoutes.ModeStepShape | storage/scripts/nsatt_web/routes/network_routes.py:55-59 | a step takes the interface from a non-empty unindented line and, once an interface is known, appends one entry for a "Mode:" line |
| NetworkRoutes.ModeScanTracksInterface | storage/scripts/nsatt_web/routes/network_routes.py:54-59 | the current interface is always the last unindented line's first word, and each "Mode:" line adds at most one entry, filed under it, carrying the word after "Mode:" |
| NetworkRoutes.NoInterfaceNoModes | storage/scripts/nsatt_web/routes/network_routes.py:57 | without an unindented line no entry is produced |
| NetworkRoutes.GetWirelessModes | storage/scripts/nsatt_web/routes/network_routes.py:49-63 | 500 "Failed to fetch wireless modes: ..." when iwconfig fails or a line raises; otherwise 200 with the entries the function `ModeScanOf` gives |
| NetworkRoutes.ScanModes | storage/scripts/nsatt_web/routes/network_routes.py:54-59 | the loop equals `ModeScanOf` of the lines |
| NetworkRoutes.ModeScanStaysFailed | storage/scripts/nsatt_web/routes/network_routes.py:58-63 | once a line raised, the listing is the IndexError text |
| NetworkRoutes.NetworkWirelessModes | storage/scripts/nsatt_web/routes/network_routes.py:37-47 | as written: a 200 listing is passed on, but any failure of the helper becomes "'tuple' object has no attribute 'get_json'" |
| NetworkRoutes.NetworkWirelessModesFixed | storage/scripts/nsatt_web/routes/network_routes.py:37-47 | corrected: the helper's own error text, or its modes, come back with 200 |
| NetworkRoutes.WirelessModesErrorLost | storage/scripts/nsatt_web/routes/network_routes.py:41-47 | for a failed iwconfig the as-written route loses the helper's error text and the corrected one keeps it |
| NetworkRoutes.NewMode | storage/scripts/nsatt_web/routes/network_routes.py:68 | managed exactly when the caller said monitor, monitor otherwise |
| NetworkRoutes.ExpectedModes | storage/scripts/nsatt_web/routes/network_routes.py:74 | the verification looks for "Mode:Managed" or "Mode:Monitor" |
| NetworkRoutes.ToggleWirelessMode | storage/scripts/nsatt_web/routes/network_routes.py:65-79 | 200 with the success message exactly when down, mode change, up and verification all succeed and the verification contains "Mode:" plus the capitalised new mode; otherwise 500 "Error toggling wireless mode for <iface>: ..." |
| NetworkRoutes.FirstFailure | storage/scripts/nsatt_web/routes/network_routes.py:69-73 | no failure exactly when every command succeeded |
| NetworkRoutes.FirstInetLine | storage/scripts/nsatt_web/routes/network_routes.py:210-221 | the loop stops at the first line containing "inet", and no earlier line contains it |
| NetworkRoutes.GetWiredSettings | storage/scripts/nsatt_web/routes/network_routes.py:197-243 | as written: a failing first `ip` command crashes the route (the handler names the unassigned `ip_info`); otherwise the reply is `WiredFromInfo` of its output |
| NetworkRoutes.WiredFromInfo | storage/scripts/nsatt_web/routes/network_routes.py:204-240 | 200 with the raw data, and address and mask "Unavailable" when no line has "inet"; a malformed line gives 500 with the raw data |
| NetworkRoutes.WiredFromInfoValues | storage/scripts/nsatt_web/routes/network_routes.py:204-240 | when `ip route` and `ipcalc` succeed, the reply is 200 exactly when the first inet line and the route are well formed, and then it carries the address before the '/', the mask after ipcalc's '=' and the word after "default via" |
| NetworkRoutes.InetResultAgrees | storage/scripts/nsatt_web/routes/network_routes.py:210-220 | with `ipcalc` succeeding, the fields are those of the first inet line (address before the '/', mask after the '=' of the ipcalc output), and an error exactly when that line is malformed |
| NetworkRoutes.GetWiredSettingsFixed | storage/scripts/nsatt_web/routes/network_routes.py:197-243 | corrected: a failing `ip` command gives a 500 JSON error with empty raw data instead of a crash |
| NetworkRoutes.WiredSettingsCrashWithoutEth0 | storage/scripts/nsatt_web/routes/network_routes.py:201 | a machine without eth0 makes the first command fail, which is the crashing path (also lines 235-237) |
| NetworkRoutes.NetworkOfDefaults | storage/scripts/nsatt_web/routes/network_routes.py:260-263 | empty SSID becomes "Hidden Network", no second field gives signal 0, no third gives security "None"; a line fails exactly when its signal is not an integer |
| NetworkRoutes.ScanOneNetworkPerLine | storage/scripts/nsatt_web/routes/network_routes.py:259-268 | the scan succeeds exactly when every line's signal parses, and then lists one network per line |
| NetworkRoutes.ScanFailsAt | storage/scripts/nsatt_web/routes/network_routes.py:262-273 | a failed scan has a line whose signal does not parse |
| NetworkRoutes.ScanNetworkAt | storage/scripts/nsatt_web/routes/network_routes.py:259-268 | the k-th network is the one the k-th line gives |
| NetworkRoutes.ScanWireless | storage/scripts/nsatt_web/routes/network_routes.py:245-273 | 400 without an adapter; 500 when nmcli cannot start or a signal is not an integer; otherwise 200 with the networks of `ScanOf` |
| NetworkRoutes.ParseNetworks | storage/scripts/nsatt_web/routes/network_routes.py:259-268 | the loop equals `ScanOf` of the lines |
| NetworkRoutes.ScanStaysFailed | storage/scripts/nsatt_web/routes/network_routes.py:262-271 | after the first bad signal later lines do not change the outcome |
| NetworkRoutes.ToggleHotspot | storage/scripts/nsatt_web/routes/network_routes.py:297-325 | stops hostapd and the DHCP server when hostapd is active (exit 0 and "active"), starts both otherwise; 200 exactly when both commands exit with 0 |
| NetworkRoutes.HotspotStatus | storage/scripts/nsatt_web/routes/network_routes.py:327-343 | `is_running` is true exactly when `systemctl is-active` exits with 0 and prints exactly "active" |
| Settings.LookupFinds | storage/scripts/nsatt_web/static/js/settings.js:27 | a property read finds the last field with the key (as JSON.parse keeps the later duplicate) and undefined when no field has it (also line 204) |
| Settings.Prop | storage/scripts/nsatt_web/static/js/settings.js:27 | reading a property throws exactly on undefined or null; on an object it is the lookup (also line 204) |
| Settings.FailureText | storage/scripts/nsatt_web/static/js/settings.js:21 | `text \|\| 'Unknown error occurred'`: a non-empty body text is kept, and the message is never empty (also lines 33, 195) |
| Settings.TextChecked | storage/scripts/nsatt_web/static/js/settings.js:18-25 | a response that is not OK becomes an error with its body text (or 'Unknown error occurred'); an OK one yields its parsed body |
| Settings.JsonChecked | storage/scripts/nsatt_web/static/js/settings.js:421-428 | a response that is not OK becomes an error with its JSON `error` field (or 'Unknown error occurred'); an OK one yields its parsed body |
| Settings.ServiceAction | storage/scripts/nsatt_web/static/js/settings.js:27 | stop exactly when the status is 'active', start otherwise |
| Settings.ToggleService | storage/scripts/nsatt_web/static/js/settings.js:16-45 | asks for the status first; a failure shows "Error toggling service: ..." and requests nothing more; otherwise requests the opposite action, and refreshes the button (fromToggle) exactly when both answers had the fields read |
| Settings.ServiceStatusUpdate | storage/scripts/nsatt_web/static/js/settings.js:190-222 | no button: only "Button for service ... not found." is logged; a button has green/red removed first, then gains green with "(Running)" exactly when the status is 'active', red with "(Stopped)" otherwise; a status that cannot be read shows the error with the stripped button; exactly one 5000 ms re-poll, and only for a toggle-originated update |
| Settings.AdapterButton | storage/scripts/nsatt_web/static/js/settings.js:240-244 | green exactly when the adapter's status is 'up', red otherwise, labelled with its name, toggling it on click |
| Settings.AdapterListingAt | storage/scripts/nsatt_web/static/js/settings.js:238-252 | the k-th button and dropdown choice come from the k-th adapter |
| Settings.AdapterListingFailure | storage/scripts/nsatt_web/static/js/settings.js:238-254 | every adapter yields a button and a choice unless one is null or undefined; the loop then stops there with its TypeError |
| Settings.AdapterListingStaysFailed | storage/scripts/nsatt_web/static/js/settings.js:238 | a failed `forEach` appends nothing for the later adapters |
| Settings.AdaptersOf | storage/scripts/nsatt_web/static/js/settings.js:238 | an `adapters` array is listed; anything else lists nothing and fails |
| Settings.AdaptersJson | storage/scripts/nsatt_web/static/js/settings.js:238 | the page's view of the server's adapter list has one object per adapter |
| Settings.AdapterWidgetsOfServer | storage/scripts/nsatt_web/static/js/settings.js:240-251 | one server adapter gives a green-or-red button named after it and a choice with its name |
| Settings.AdapterButtonsFollowServer | storage/scripts/nsatt_web/static/js/settings.js:229-255 | against the server's own list, one button and one choice per adapter, green exactly when its name occurs in the ifconfig output |
| Settings.ToggleNetworkAdapter | storage/scripts/nsatt_web/static/js/settings.js:257-265 | requests the toggle, alerts the server's text and redraws the adapters; a failed fetch only shows the error |
| Settings.ModeListingAt | storage/scripts/nsatt_web/static/js/settings.js:289-297 | the k-th mode button comes from the k-th entry |
| Settings.ModeListingFailure | storage/scripts/nsatt_web/static/js/settings.js:289-302 | every entry yields a button unless one has no string status; the loop then stops there with its TypeError |
| Settings.ModeListingStaysFailed | storage/scripts/nsatt_web/static/js/settings.js:289 | a failed `forEach` appends nothing for the later entries |
| Settings.ModesOf | storage/scripts/nsatt_web/static/js/settings.js:283-300 | an `error` field shows just that text, an array of modes lists them, anything else shows 'Unexpected data format' |
| Settings.ModesChecked | storage/scripts/nsatt_web/static/js/settings.js:269-281 | as written: a response that is not OK always becomes 'Error parsing response: ' plus its text, because the catch replaces the thrown error |
| Settings.ModesCheckedFixed | storage/scripts/nsatt_web/static/js/settings.js:269-281 | corrected: a parseable error body reports its `error` field (or 'Unknown error occurred'); only an unparseable one reports the parse failure |
| Settings.ModesErrorMasked | storage/scripts/nsatt_web/static/js/settings.js:272-276 | for a 500 with `{"error": "No wireless interfaces found"}` the page as written shows the raw body and the corrected one the error |
| Settings.ToggleWirelessMode | storage/scripts/nsatt_web/static/js/settings.js:305-319 | the request carries the current mode, not the new one; a success shows the message and then redraws modes and adapters; an error shows "Error toggling wireless mode: ..." |
| Settings.ModeButtonClickTarget | storage/scripts/nsatt_web/static/js/settings.js:292-294 | a mode button is green exactly when its status is monitor in any case, and its click makes the server switch to managed exactly from a green button |
| Settings.ToggleHotspot | storage/scripts/nsatt_web/static/js/settings.js:419-434 | shows the message and refreshes the status exactly when the answer was OK and usable; otherwise shows "Error toggling hotspot: ..." |
| Settings.HotspotStatusUpdate | storage/scripts/nsatt_web/static/js/settings.js:436-460 | `is_running` truthy gives "Hotspot is running" and green instead of blue, otherwise "Hotspot is not running" and blue instead of green; a failure only shows a message |
| Settings.HotspotColourExclusive | storage/scripts/nsatt_web/static/js/settings.js:449-457 | after an update the button is never both green and blue, and its colour matches the status line |
| Settings.HotspotViewFollowsServer | storage/scripts/nsatt_web/static/js/settings.js:436-460 | against the server's hotspot_status route, the page shows running exactly when hostapd is active |
| Settings.ConnectionView | storage/scripts/nsatt_web/static/js/settings.js:493-503 | connected exactly when BackendState is 'Running'; the enable button shows exactly when disconnected and the disable button exactly when connected |
| Settings.VpnStatusUpdate | storage/scripts/nsatt_web/static/js/settings.js:463-522 | the status request always comes first |
| Settings.VpnNotInstalled | storage/scripts/nsatt_web/static/js/settings.js:474-481 | when not installed only the install button shows, with the server's message, and nothing more is fetched |
| Settings.VpnInstalled | storage/scripts/nsatt_web/static/js/settings.js:484-508 | when installed and healthy the install button hides, the configuration shows, the connection view applies and the configuration is fetched next |
| Settings.VpnReply | storage/scripts/nsatt_web/static/js/settings.js:533-540 | a truthy `success` exactly when a status check is scheduled 2000 ms later; otherwise the error is shown (also lines 565-572, 602-609) |
| Settings.InstallTailscale | storage/scripts/nsatt_web/static/js/settings.js:524-547 | the install request is a POST to /api/vpn/install |
| Settings.ToggleTailscale | storage/scripts/nsatt_web/static/js/settings.js:549-579 | the toggle request carries `{action}` |
| Settings.UpdateTailscaleConfig | storage/scripts/nsatt_web/static/js/settings.js:581-616 | the five form fields are sent as they stand and left unchanged |
| Settings.Page.AppendAdapters | storage/scripts/nsatt_web/static/js/settings.js:238-252 | appends exactly the listing's buttons and choices and leaves everything else alone |
| Settings.Page.FetchNetworkAdapters | storage/scripts/nsatt_web/static/js/settings.js:229-255 | on an answer, the buttons and the dropdown are cleared and rebuilt from it alone; a failure is logged and changes nothing |
| Settings.Page.AppendModes | storage/scripts/nsatt_web/static/js/settings.js:289-297 | appends exactly the listing's buttons and leaves everything else alone |
| Settings.Page.FetchWirelessModes | storage/scripts/nsatt_web/static/js/settings.js:267-303 | as written: the container is cleared and refilled from a usable answer alone; a failure (including any non-OK response, via `ModesChecked`) is alerted and changes nothing |
| NsattBooter.MaxPosition | storage/scripts/testing/nsatt_booter.py:228-229 | `SELECT MAX(position)`: absent exactly for an empty table, otherwise a position in the table that no row exceeds |
| NsattBooter.NextPosition | storage/scripts/testing/nsatt_booter.py:228-231 | 1 for an empty menu, one past the largest position otherwise, so above every existing position |
| NsattBooter.WithoutItem | storage/scripts/testing/nsatt_booter.py:241 | a row survives exactly when it does not have both the given type and name |
| NsattBooter.WithoutItemDistinct | storage/scripts/testing/nsatt_booter.py:241 | deleting rows keeps positions distinct |
| NsattBooter.DefaultMenu | storage/scripts/testing/nsatt_booter.py:314-334 | eleven function rows, the k-th default at position k+1 |
| NsattBooter.DefaultMenuDense | storage/scripts/testing/nsatt_booter.py:329-334 | the seeded menu is numbered 1..11 without gaps or repeats |
| NsattBooter.SetPosition | storage/scripts/testing/nsatt_booter.py:273-278 | `UPDATE ... SET position=? WHERE position=?`: every row at the old position moves to the new one, the others are untouched |
| NsattBooter.Shift | storage/scripts/testing/nsatt_booter.py:274-277 | the middle UPDATE: [new, old) moves up one when the item moves up, (old, new] other than -1 moves down one when it moves down |
| NsattBooter.Checked | storage/scripts/testing/nsatt_booter.py:273-278 | an UPDATE commits exactly when the positions stay distinct (the primary key), and then changes nothing further |
| NsattBooter.Reordered | storage/scripts/testing/nsatt_booter.py:273-278 | the three UPDATEs, when they commit, keep the row count and distinct positions |
| NsattBooter.MovedInjective | storage/scripts/testing/nsatt_booter.py:273-278 | moving one item renumbers one-to-one |
| NsattBooter.MovedRowsDistinct | storage/scripts/testing/nsatt_booter.py:273-278 | the renumbering keeps distinct positions distinct |
| NsattBooter.ReorderedIsMove | storage/scripts/testing/nsatt_booter.py:273-278 | on distinct positive positions with the item present and a positive target, the three UPDATEs move the item to the new position and shift the rows in between by one |
| NsattBooter.ReorderKeepsDense | storage/scripts/testing/nsatt_booter.py:273-278 | on a menu numbered 1..n, moving between positions in 1..n keeps it numbered 1..n, puts the item at the new position, keeps the others' relative order and their names and types |
| NsattBooter.ReorderAbsentPositionLeavesGap | storage/scripts/testing/nsatt_booter.py:268-278 | as written, moving the absent position 4 to 1 in a three-item menu renumbers the items 2, 3, 4 and leaves position 1 empty |
| NsattBooter.ReorderedChecked | storage/scripts/testing/nsatt_booter.py:268-278 | corrected: an absent position or an out-of-range target changes nothing; otherwise the three UPDATEs apply |
| NsattBooter.ReorderedCheckedKeepsDense | storage/scripts/testing/nsatt_booter.py:268-278 | corrected: whatever numbers are typed, a menu numbered 1..n stays numbered 1..n |
| NsattBooter.NextCategoryId | storage/scripts/testing/nsatt_booter.py:149 | an id above every existing id, 1 in an empty table |
| NsattBooter.CategoryName | storage/scripts/testing/nsatt_booter.py:163-168 | the name exactly when a category has that id |
| NsattBooter.WithoutCategory | storage/scripts/testing/nsatt_booter.py:191 | exactly the categories with another id survive |
| NsattBooter.WithoutScriptsOf | storage/scripts/testing/nsatt_booter.py:176 | exactly the scripts of other categories survive |
| NsattBooter.MoveScripts | storage/scripts/testing/nsatt_booter.py:185 | the scripts of the category move to the target, the others are untouched |
| NsattBooter.MenuStore.AddMenuItem | storage/scripts/testing/nsatt_booter.py:223-235 | appends one row one past the largest position and keeps the positions distinct |
| NsattBooter.MenuStore.RemoveMenuItem | storage/scripts/testing/nsatt_booter.py:237-245 | deletes exactly the rows of that type and name |
| NsattBooter.MenuStore.AddCategory | storage/scripts/testing/nsatt_booter.py:145-156 | a duplicate name leaves the categories as they are, a new one is inserted with the next id; a menu row is appended either way |
| NsattBooter.MenuStore.DeleteCategory | storage/scripts/testing/nsatt_booter.py:158-199 | an unknown id, an invalid choice or a non-integer target changes nothing; otherwise the scripts are deleted or moved, and the category and its menu row are removed |
| NsattBooter.MenuStore.ReorderMenu | storage/scripts/testing/nsatt_booter.py:259-284 | an empty menu is left alone; otherwise the table becomes `Reordered` of it (as written), or is unchanged when an UPDATE breaks the key; a move within 1..n of a present item keeps the menu numbered 1..n |
| NsattBooter.MenuStore.SeedDefaults | storage/scripts/testing/nsatt_booter.py:327-336 | an empty menu receives the eleven defaults at 1..11; a non-empty one is unchanged |
| VncRoutes.DisplayNameInjective | storage/scripts/nsatt_web/routes/vnc_routes.py:42 | different display numbers give different `:n` texts (also line 89) |
| VncRoutes.PortsApart | storage/scripts/nsatt_web/routes/vnc_routes.py:46-48 | display 1 gets websockify 6080 and VNC 5901; distinct displays get distinct ports of each kind; up to display 179 no websockify port is also a VNC port, and display 180's VNC port is display 1's websockify port (also lines 59, 197) |
| VncRoutes.FindSession | storage/scripts/nsatt_web/routes/vnc_routes.py:111 | `sessions[display]` is found exactly when the display is in the table (also line 144) |
| VncRoutes.Remove | storage/scripts/nsatt_web/routes/vnc_routes.py:123 | `del sessions[display]`: exactly the other sessions remain |
| VncRoutes.RemoveAbsent | storage/scripts/nsatt_web/routes/vnc_routes.py:123 | removing an absent display changes nothing |
| VncRoutes.RemoveWellFormed | storage/scripts/nsatt_web/routes/vnc_routes.py:123 | removing keeps each display once and numbered from 1 |
| VncRoutes.TakenDisplays | storage/scripts/nsatt_web/routes/vnc_routes.py:40-44 | when displays 1..d are all taken, there are at least d sessions |
| VncRoutes.ListedOf | storage/scripts/nsatt_web/routes/vnc_routes.py:195-200 | a /list row gives the display, the VNC port 5900 + n computed back from the text, and the stored websockify port |
| VncRoutes.StopManyKeeps | storage/scripts/nsatt_web/routes/vnc_routes.py:208-209 | after stopping each target in turn, exactly the sessions not targeted, or whose processes did not end, remain (also lines 393-402) |
| VncRoutes.StopManyWellFormed | storage/scripts/nsatt_web/routes/vnc_routes.py:208-209 | stopping many keeps the table well formed |
| VncRoutes.Displays | storage/scripts/nsatt_web/routes/vnc_routes.py:208 | the displays of the table, in order |
| VncRoutes.VncServer.NextDisplay | storage/scripts/nsatt_web/routes/vnc_routes.py:40-44 | the smallest n >= 1 whose `:n` is free: every smaller display is taken, and n <= sessions + 1 |
| VncRoutes.VncServer.Start | storage/scripts/nsatt_web/routes/vnc_routes.py:54-100 | a launch adds one session on the next free display with websockify on 6080 + d - 1 and replies 200 with both; a failed launch records nothing and replies 500 |
| VncRoutes.VncServer.Stop | storage/scripts/nsatt_web/routes/vnc_routes.py:102-133 | an unknown display is a 404; processes that time out or raise leave the table and give their 500; otherwise exactly that display goes and 200 "vnc_stopped" |
| VncRoutes.VncServer.Restart | storage/scripts/nsatt_web/routes/vnc_routes.py:135-188 | an unknown display is a 404; a failed stop leaves the table; a successful stop and launch re-inserts the display at the end with its old websockify port; a failed launch leaves it gone |
| VncRoutes.VncServer.List | storage/scripts/nsatt_web/routes/vnc_routes.py:190-202 | one row per session, in table order |
| VncRoutes.VncServer.StopEach | storage/scripts/nsatt_web/routes/vnc_routes.py:208-209 | the table becomes `StopMany` of the targets |
| VncRoutes.VncServer.StopAll | storage/scripts/nsatt_web/routes/vnc_routes.py:204-214 | every session whose processes end is gone; 200 "all_vnc_stopped" |
| VncRoutes.VncServer.BulkStop | storage/scripts/nsatt_web/routes/vnc_routes.py:387-409 | an empty list stops everything; otherwise exactly the listed displays that exist and end are gone |
| VncRoutes.SessionDisplaysValid | storage/scripts/nsatt_web/routes/vnc_routes.py:89 | every display the table hands out passes the screenshot display check (also lines 232-234) |
| VncRoutes.StripColons | storage/scripts/nsatt_web/routes/vnc_routes.py:236 | `s.strip(':')` leaves no colon at either end |
| VncRoutes.TakeScreenshot | storage/scripts/nsatt_web/routes/vnc_routes.py:228-278 | as written: a bad display is 400, a timeout 500; every capture that finished is answered 500 "xwd command failed: ..." because xwd's return code is read before xwd is waited on |
| VncRoutes.ScreenshotNeverSaved | storage/scripts/nsatt_web/routes/vnc_routes.py:249-274 | as written, no screenshot is ever reported saved |
| VncRoutes.TakeScreenshotFixed | storage/scripts/nsatt_web/routes/vnc_routes.py:228-278 | corrected: both exit codes 0 gives 200 with `vnc_screenshot_<n>_<time>.png`; a failing xwd or convert gives its own 500 with its stripped stderr |
| VncRoutes.PngName | storage/scripts/nsatt_web/routes/vnc_routes.py:367-369 | ".png" is appended unless the name ends with it in any case; the result always does |
| VncRoutes.RenameScreenshot | storage/scripts/nsatt_web/routes/vnc_routes.py:357-385 | 200 exactly when both names are given, the old file exists and the new name is free; then the file is renamed; a taken new name is 400 "New filename already exists."; otherwise nothing changes |
| VncRoutes.DeleteScreenshot | storage/scripts/nsatt_web/routes/vnc_routes.py:337-355 | no name is 400, a missing file 404, otherwise the file is gone and 200 |
| HidRoutes.KeyCode | storage/scripts/nsatt_web/routes/hid_routes.py:313-332 | a mapped character's usage ID fits one byte |
| HidRoutes.LetterCodes | storage/scripts/nsatt_web/routes/hid_routes.py:314-325 | upper and lower case letters share one usage ID, 0x04 for a through 0x1D for z; digits 1..9 are 0x1E..0x26 and 0 is 0x27 (HID Usage Tables 1.12, section 10, Keyboard/Keypad page) |
| HidRoutes.SpecialCode | storage/scripts/nsatt_web/routes/hid_routes.py:304-310 | a bracketed key name's usage ID fits one byte |
| HidRoutes.HexEscape | storage/scripts/nsatt_web/routes/hid_routes.py:287 | the four-character `\xHH` text whose two hex digits read back as the byte (also line 347) |
| HidRoutes.Escapes | storage/scripts/nsatt_web/routes/hid_routes.py:287 | four characters per byte and never a quote (also line 347) |
| HidRoutes.UnescapeEscapes | storage/scripts/nsatt_web/routes/hid_routes.py:287 | reading the escapes back as `echo -e` does gives the bytes written |
| HidRoutes.Report | storage/scripts/nsatt_web/routes/hid_routes.py:287 | the eight-byte keyboard report with the key code in byte 2 (also line 352) |
| HidRoutes.CharArgumentBreaksQuote | storage/scripts/nsatt_web/routes/hid_routes.py:350-352 | as written, a character line's argument contains an apostrophe, ending bash's quoted word early, exactly for '0' and ')' (key 0x27) |
| HidRoutes.CharArgumentFixedTypes | storage/scripts/nsatt_web/routes/hid_routes.py:350-352 | corrected: the argument written wholly as `\xHH` escapes has no quote and `echo -ne` turns it into the report for the character's key (usage 0 for an unknown one) |
| HidRoutes.BracketedLength | storage/scripts/nsatt_web/routes/hid_routes.py:340-341 | a bracketed word has both brackets, so `word[1:-1]` is defined |
| HidRoutes.WordKeysCount | storage/scripts/nsatt_web/routes/hid_routes.py:338-352 | an unbracketed word gives one line per character (as written); a bracketed known key one line, an unknown name none |
| HidRoutes.LineKeysConcat | storage/scripts/nsatt_web/routes/hid_routes.py:337-338 | the lines of two runs of words are the lines of each, in order |
| HidRoutes.SpaceTypesNothing | storage/scripts/nsatt_web/routes/hid_routes.py:337 | whitespace between two pieces of a line types nothing |
| HidRoutes.ConvertedText | storage/scripts/nsatt_web/routes/hid_routes.py:277-301 | the converted text always starts with the fixed bash header (also line 354) |
| HidRoutes.TypeWord | storage/scripts/nsatt_web/routes/hid_routes.py:338-352 | the loop gives `WordKeys` of the word |
| HidRoutes.TypeLine | storage/scripts/nsatt_web/routes/hid_routes.py:337-352 | the loop gives the lines of every word, in order |
| HidRoutes.TypeLines | storage/scripts/nsatt_web/routes/hid_routes.py:335-352 | the loop gives the lines of every line of the script, in order |
| HidRoutes.ConvertScript | storage/scripts/nsatt_web/routes/hid_routes.py:266-360 | empty content is 400 "No script content provided"; otherwise 200 with the header and the key lines |
| HidRoutes.ScriptLibrary.SaveScript | storage/scripts/nsatt_web/routes/hid_routes.py:362-385 | missing or blank content is 400 and changes nothing; a database error is 500 "Failed to save script" and changes nothing; otherwise the script is stored under its name (default custom_script.sh), replacing an existing one |
| HidRoutes.SaveUpserts | storage/scripts/nsatt_web/routes/hid_routes.py:375-379 | saving twice under one name keeps one entry with the later content, and adds an entry only for a new name |
| MetasploitRoutes.StripColours | storage/scripts/nsatt_web/routes/metasploit_routes.py:198 | removing the colour codes never lengthens the text and leaves text without an escape character unchanged |
| MetasploitRoutes.ColourRemoved | storage/scripts/nsatt_web/routes/metasploit_routes.py:198 | an `ESC [ params letter` code is removed whole |
| MetasploitRoutes.Columns | storage/scripts/nsatt_web/routes/metasploit_routes.py:213 | `re.split(r'\s{2,}', ...)` gives at least one piece, a non-empty first one for text not starting with whitespace (also line 276) |
| MetasploitRoutes.ColumnsOfCell | storage/scripts/nsatt_web/routes/metasploit_routes.py:213 | a single cell splits into itself |
| MetasploitRoutes.ColumnsOfGap | storage/scripts/nsatt_web/routes/metasploit_routes.py:213 | a two-space gap splits a cell from what follows |
| MetasploitRoutes.ColumnsOfTable | storage/scripts/nsatt_web/routes/metasploit_routes.py:213 | cells printed two spaces apart split back into the same cells (also line 276) |
| MetasploitRoutes.SearchStepCases | storage/scripts/nsatt_web/routes/metasploit_routes.py:201-218 | headings and blank lines are skipped; outside the section a "Matching Modules" line opens it; inside, a row with at least two columns, a first not starting with '_' and a last not '.' adds a hit |
| MetasploitRoutes.ParseSearchResults | storage/scripts/nsatt_web/routes/metasploit_routes.py:196-220 | the hits are those of the function `SearchFrom` over the colour-stripped lines |
| MetasploitRoutes.SearchLines | storage/scripts/nsatt_web/routes/metasploit_routes.py:201-218 | the loop with its in-section flag equals `SearchFrom` |
| MetasploitRoutes.NothingBeforeBanner | storage/scripts/nsatt_web/routes/metasploit_routes.py:208-212 | lines before the "Matching Modules" banner produce nothing |
| MetasploitRoutes.SearchFromConcat | storage/scripts/nsatt_web/routes/metasploit_routes.py:201 | reading two runs of lines is reading the first, then the second |
| MetasploitRoutes.HitsAfterBanner | storage/scripts/nsatt_web/routes/metasploit_routes.py:208-218 | the hits of an output are those of the lines after the banner |
| MetasploitRoutes.HitsNameModules | storage/scripts/nsatt_web/routes/metasploit_routes.py:214-216 | every hit names a module, never empty and never starting with '_' |
| MetasploitRoutes.StepNamesHits | storage/scripts/nsatt_web/routes/metasploit_routes.py:214-216 | one line keeps every hit named |
| MetasploitRoutes.RowHitNames | storage/scripts/nsatt_web/routes/metasploit_routes.py:214-216 | a hit read from one row names a module |
| MetasploitRoutes.RowHitOfTable | storage/scripts/nsatt_web/routes/metasploit_routes.py:213-218 | a row printed as cells two spaces apart is read back as its module and its other cells joined by single spaces |
| MetasploitRoutes.DescriptionDropped | storage/scripts/nsatt_web/routes/metasploit_routes.py:276-281 | as written, with the four columns Name, Current Setting, Required, Description the description (index 3) is dropped |
| MetasploitRoutes.EmptySettingLosesRequired | storage/scripts/nsatt_web/routes/metasploit_routes.py:276-281 | as written, an option with an empty current setting prints three columns, so 'yes' sits at index 1 and a required option is reported optional |
| MetasploitRoutes.OptionRowReadsTable | storage/scripts/nsatt_web/routes/metasploit_routes.py:276-281 | corrected: a printed row keeps its name, required flag and description with four columns or with an empty setting |
| MetasploitRoutes.OptionStepCases | storage/scripts/nsatt_web/routes/metasploit_routes.py:269-282 | a header line opens the section, a blank line inside it ends the scan, other lines inside it with more than two columns are read as rows (as written) |
| MetasploitRoutes.OptionsFromNext | storage/scripts/nsatt_web/routes/metasploit_routes.py:269 | the scan of one more line is one more step |
| MetasploitRoutes.DoneStays | storage/scripts/nsatt_web/routes/metasploit_routes.py:273-274 | once the scan ended, later lines change nothing |
| MetasploitRoutes.OptionsFromConcat | storage/scripts/nsatt_web/routes/metasploit_routes.py:269 | reading two runs of lines is reading the first, then the second |
| MetasploitRoutes.NothingAfterBlank | storage/scripts/nsatt_web/routes/metasploit_routes.py:273-274 | lines after the blank line that closes the table add no option |
| MetasploitRoutes.EndedAt | storage/scripts/nsatt_web/routes/metasploit_routes.py:273-274 | the result is fixed once a prefix has ended the scan |
| MetasploitRoutes.NothingBeforeHeader | storage/scripts/nsatt_web/routes/metasploit_routes.py:270-272 | lines before the header add no option |
| MetasploitRoutes.ParseModuleOptions | storage/scripts/nsatt_web/routes/metasploit_routes.py:266-283 | the options are those of `OptionsFrom` over the lines, rows read as written |
| MetasploitRoutes.OptionLines | storage/scripts/nsatt_web/routes/metasploit_routes.py:269-282 | the loop with its flags equals `OptionsFrom` |
| FileBrowserRoutes.SiblingPassesPrefixTest | storage/scripts/nsatt_web/routes/file_browser_routes.py:21-27 | as written, `realpath(path).startswith(basedir)` accepts the sibling `/home/nsatt-admin2/notes`, which lies outside the base directory |
| FileBrowserRoutes.SafePathPassesPrefixTest | storage/scripts/nsatt_web/routes/file_browser_routes.py:21-27 | the component-wise test only narrows the prefix test: whatever it accepts the source accepts |
| FileBrowserRoutes.SplitAroundSep | storage/scripts/nsatt_web/routes/file_browser_routes.py:21-27 | splitting a path at a separator splits each side of it |
| FileBrowserRoutes.SafePathExtendsComponents | storage/scripts/nsatt_web/routes/file_browser_routes.py:21-27 | a path at or below the base continues the base's components |
| FileBrowserRoutes.JoinOnConcat | storage/scripts/nsatt_web/routes/file_browser_routes.py:21-27 | joining two non-empty lists of components puts one separator between them |
| FileBrowserRoutes.ComponentsExtendSafePath | storage/scripts/nsatt_web/routes/file_browser_routes.py:21-27 | a path continuing the base's components lies at or below it |
| FileBrowserRoutes.SafePathByComponents | storage/scripts/nsatt_web/routes/file_browser_routes.py:21-27 | corrected: a path is confined exactly when the base's components lead its own |
| FileBrowserRoutes.OctalDigitValue | storage/scripts/nsatt_web/routes/file_browser_routes.py:81 | reading an octal digit back gives its value, which prints as the same digit (also line 378) |
| FileBrowserRoutes.OctalDigits | storage/scripts/nsatt_web/routes/file_browser_routes.py:81 | `oct(n)` after its prefix is a non-empty string of octal digits |
| FileBrowserRoutes.LastThreeDigits | storage/scripts/nsatt_web/routes/file_browser_routes.py:81 | the last three octal digits of a number are its value modulo 512 |
| FileBrowserRoutes.PermissionsAreModeBits | storage/scripts/nsatt_web/routes/file_browser_routes.py:81 | `oct(st_mode)[-3:]` of a mode of at least three digits is three octal digits whose value is the permission bits `mode % 512` |
| FileBrowserRoutes.Info | storage/scripts/nsatt_web/routes/file_browser_routes.py:77-85 | a row keeps the entry's name and path, has a size exactly for a regular file and the type "Directory" exactly for a directory |
| FileBrowserRoutes.ListingMembers | storage/scripts/nsatt_web/routes/file_browser_routes.py:58-85 | the listing holds exactly the rows of the entries passing the four filters, and no more rows than entries |
| FileBrowserRoutes.ListedRowsMatch | storage/scripts/nsatt_web/routes/file_browser_routes.py:66-75 | every listed row contains the lower-cased name and search filters as substrings, equals the type filter ignoring case and has a creation time starting with the date filter |
| FileBrowserRoutes.FilterEntries | storage/scripts/nsatt_web/routes/file_browser_routes.py:56-85 | the filter loop collects `Listing` of the entries |
| FileBrowserRoutes.ParseSortKey | storage/scripts/nsatt_web/routes/file_browser_routes.py:88 | only the six column names sort |
| FileBrowserRoutes.TextLeTotal | storage/scripts/nsatt_web/routes/file_browser_routes.py:93 | Python's string order is total |
| FileBrowserRoutes.TextLeTrans | storage/scripts/nsatt_web/routes/file_browser_routes.py:93 | Python's string order is transitive |
| FileBrowserRoutes.KeyLeTotal | storage/scripts/nsatt_web/routes/file_browser_routes.py:91-93 | the order of sort keys is total |
| FileBrowserRoutes.KeyLeTrans | storage/scripts/nsatt_web/routes/file_browser_routes.py:91-93 | the order of sort keys is transitive |
| FileBrowserRoutes.BeforeTotal | storage/scripts/nsatt_web/routes/file_browser_routes.py:89-93 | of two rows one may stand before the other, ascending or reversed |
| FileBrowserRoutes.BeforeTrans | storage/scripts/nsatt_web/routes/file_browser_routes.py:89-93 | standing before is transitive |
| FileBrowserRoutes.Insert | storage/scripts/nsatt_web/routes/file_browser_routes.py:91-93 | inserting a row into a run adds exactly that row |
| FileBrowserRoutes.SortFiles | storage/scripts/nsatt_web/routes/file_browser_routes.py:91-93 | `list.sort` permutes the rows |
| FileBrowserRoutes.InsertOrdered | storage/scripts/nsatt_web/routes/file_browser_routes.py:91-93 | inserting into an ordered run keeps it ordered |
| FileBrowserRoutes.BeforeLast | storage/scripts/nsatt_web/routes/file_browser_routes.py:91-93 | inserting into the front of an ordered run keeps every row before its last one |
| FileBrowserRoutes.AppendAfterAll | storage/scripts/nsatt_web/routes/file_browser_routes.py:91-93 | a row that may follow all rows of an ordered run keeps it ordered when appended |
| FileBrowserRoutes.SortFilesOrdered | storage/scripts/nsatt_web/routes/file_browser_routes.py:91-93 | the sorted rows are in key order |
| FileBrowserRoutes.Arranged | storage/scripts/nsatt_web/routes/file_browser_routes.py:88-93 | the sort step permutes the rows and leaves them as they are for a column not in the list |
| FileBrowserRoutes.ArrangedBySize | storage/scripts/nsatt_web/routes/file_browser_routes.py:90-91 | sorting by size orders the rows by size, a missing size counting as 0, descending for `desc` |
| FileBrowserRoutes.ArrangedByText | storage/scripts/nsatt_web/routes/file_browser_routes.py:92-93 | sorting by a text column orders the rows by that column lower-cased, descending for `desc` |
| FileBrowserRoutes.ListFiles | storage/scripts/nsatt_web/routes/file_browser_routes.py:40-98 | an unsafe directory gives 403 "Access denied", a failed scan 500 with its error, otherwise the filtered, arranged listing (sort by "name", order "asc" by default) with the absolute directory |
| FileBrowserRoutes.ChangePermissionsAsWritten | storage/scripts/nsatt_web/routes/file_browser_routes.py:361-383 | a missing path or permission value gives 400 "Invalid parameters" |
| FileBrowserRoutes.NonOctalDigitsPassFormat | storage/scripts/nsatt_web/routes/file_browser_routes.py:374-378 | as written, `999` passes `isdigit()` and the length test, then `int('999', 8)` fails and the route answers 500 |
| FileBrowserRoutes.ChangePermissions | storage/scripts/nsatt_web/routes/file_browser_routes.py:361-383 | corrected: a missing path or permission value gives 400 and changes nothing |
| FileBrowserRoutes.ChangePermissionsApplies | storage/scripts/nsatt_web/routes/file_browser_routes.py:366-383 | corrected: a mode is applied only on a safe path for three octal digits, and is their value below 512; a non-octal value is refused with 400 before any change; 200 exactly when a mode was applied without error |
| FileBrowserRoutes.ListedPermissionsRoundTrip | storage/scripts/nsatt_web/routes/file_browser_routes.py:81 | the permissions column of a listing is accepted by the corrected route and sets the same permission bits (also lines 374-378) |
| FileBrowserRoutes.FirstUnsafe | storage/scripts/nsatt_web/routes/file_browser_routes.py:214-216 | no path is found exactly when every path is safe; otherwise the one found is unsafe and every path before it safe (also lines 248-250) |
| FileBrowserRoutes.ErrorsEmpty | storage/scripts/nsatt_web/routes/file_browser_routes.py:218-234 | no error is collected exactly when no operation failed, and at most one per path |
| FileBrowserRoutes.CheckAll | storage/scripts/nsatt_web/routes/file_browser_routes.py:214-216 | the checking loop returns the first unsafe path |
| FileBrowserRoutes.ApplyAll | storage/scripts/nsatt_web/routes/file_browser_routes.py:219-229 | every path is attempted in order and the failures are collected as `path: error` |
| FileBrowserRoutes.BulkDelete | storage/scripts/nsatt_web/routes/file_browser_routes.py:208-234 | no paths give 400; an unsafe path gives 403 naming it before any deletion; otherwise every path is deleted and the reply is 200 or the list of errors |
| FileBrowserRoutes.BulkMove | storage/scripts/nsatt_web/routes/file_browser_routes.py:237-264 | missing paths or destination give 400; an unsafe destination or path gives 403 before any move; otherwise every path is moved and the reply is 200 or the list of errors |
| CaptureDeauth.ColonGroupsLength | storage/plugins/attacks/wireless/capture_deauth.py:707-715 | `([0-9A-F]{2}:){n}` matches exactly three characters per group |
| CaptureDeauth.MacOfParts | storage/plugins/attacks/wireless/capture_deauth.py:707 | five colon-terminated octets followed by one octet match the MAC pattern, 3 * 5 + 2 = 17 characters |
| CaptureDeauth.ColonGroupsNoParen | storage/plugins/attacks/wireless/capture_deauth.py:707 | colon-separated octets hold no opening parenthesis |
| CaptureDeauth.MacNoParen | storage/plugins/attacks/wireless/capture_deauth.py:707 | a MAC holds no opening parenthesis |
| CaptureDeauth.FirstParenMacFrom | storage/plugins/attacks/wireless/capture_deauth.py:707 | `re.search` from a position finds the leftmost parenthesised MAC at or after it, or none when there is none (also line 800) |
| CaptureDeauth.SelectedBssid | storage/plugins/attacks/wireless/capture_deauth.py:794-805 | the result is the MAC inside the first parenthesised MAC of the text, or the text itself when it has none |
| CaptureDeauth.SelectedBssidLeftmost | storage/plugins/attacks/wireless/capture_deauth.py:799-802 | the leftmost parenthesised MAC is the one taken |
| CaptureDeauth.SelectedBssidPlain | storage/plugins/attacks/wireless/capture_deauth.py:804-805 | a text with no parenthesised MAC is returned as it is |
| CaptureDeauth.DisplayText | storage/plugins/attacks/wireless/capture_deauth.py:545 | an access point is listed as `ssid (bssid)`, or as the bare BSSID when the SSID is missing, empty or `<length: 0>` |
| CaptureDeauth.DisplaySelectsBssid | storage/plugins/attacks/wireless/capture_deauth.py:545 | selecting a listed access point gives back its BSSID when its SSID holds no '(' (also lines 794-805) |
| CaptureDeauth.ValidateAsWrittenMeans | storage/plugins/attacks/wireless/capture_deauth.py:698-719 | as written, the inputs pass exactly when an adapter is chosen and the selected BSSID begins with a MAC; no adapter and an empty BSSID are the first two errors; a whole MAC passes |
| CaptureDeauth.TrailingTextPassesFormat | storage/plugins/attacks/wireless/capture_deauth.py:715 | as written, `re.match` is anchored only at the start, so `AA:BB:CC:DD:EE:FF:00` passes although it is not a MAC |
| CaptureDeauth.SampleMac | storage/plugins/attacks/wireless/capture_deauth.py:715 | `AA:BB:CC:DD:EE:FF` is a MAC |
| CaptureDeauth.ValidateInputs | storage/plugins/attacks/wireless/capture_deauth.py:698-719 | corrected: no adapter is the error exactly when no adapter is chosen |
| CaptureDeauth.ValidateInputsMeans | storage/plugins/attacks/wireless/capture_deauth.py:698-719 | corrected: the inputs pass exactly when an adapter is chosen and the selected BSSID is a whole MAC; an empty BSSID is reported as missing, a malformed one as invalid |
| CaptureDeauth.ListedTargetValid | storage/plugins/attacks/wireless/capture_deauth.py:545 | every listed access point passes, both as written and corrected, once an adapter is chosen (also lines 698-719) |
| CaptureDeauth.Plugin.constructor | storage/plugins/attacks/wireless/capture_deauth.py:786-833 | no clients, no console lines, no handshakes, no thread running |
| CaptureDeauth.Plugin.Validate | storage/plugins/attacks/wireless/capture_deauth.py:698-719 | returns whether the inputs pass as written and logs the error otherwise; nothing else changes |
| CaptureDeauth.Plugin.AddClient | storage/plugins/attacks/wireless/capture_deauth.py:786-792 | a new non-empty MAC is appended and logged; an empty or known one changes nothing; the list stays free of repeats |
| CaptureDeauth.Plugin.HandshakeCaptured | storage/plugins/attacks/wireless/capture_deauth.py:816-832 | one more handshake, the captured flag set, the file logged, both threads stopped and the button of each one that ran reset |
| CaptureDeauth.AddClientTwice | storage/plugins/attacks/wireless/capture_deauth.py:786-792 | adding the same new client twice lists and logs it once |
| Nsatt.EmptyDict | nsatt.py:576 | a fresh dict is well formed and has no entries (also lines 602-603) |
| Nsatt.Put | nsatt.py:584 | `d[k] = v` stores `v` under `k` and leaves every other key and value as it was (also lines 633-634) |
| Nsatt.PutAgain | nsatt.py:633-634 | storing a key twice keeps only the second value |
| Nsatt.ThemesOf | nsatt.py:575-589 | the themes read form a well-formed dict |
| Nsatt.ThemesOfMembers | nsatt.py:577-588 | a theme is loaded exactly when some readable, valid `.json` file carries its name, and its value is the content of such a file |
| Nsatt.LoadThemes | nsatt.py:575-589 | the loop over the directory returns `ThemesOf` of the files |
| Nsatt.ThemeManager.constructor | nsatt.py:32-58 | the themes of the directory with `default` set to the built-in theme (also lines 575-589) |
| Nsatt.ThemeManager.GetThemeNames | nsatt.py:594-598 | the names are the loaded names, with `default` among them |
| Nsatt.ThemeLookup | nsatt.py:591-592 | `default` gives the built-in theme; a name some theme file carries gives that file's theme; any other name falls back to the built-in theme |
| Nsatt.ThemeNamesDistinct | nsatt.py:594-598 | with `default` already loaded nothing is appended, and no name is listed twice |
| Nsatt.PrioritiesAfter | nsatt.py:608-631 | loading keeps the priorities a well-formed dict |
| Nsatt.LoadedPriorities | nsatt.py:610-627 | widgets and priorities are keyed alike after loading; each newly loaded module comes from a widget file and has priority 0 for `login` and 100 otherwise |
| Nsatt.ByPriority | nsatt.py:638 | `sorted(priorities.items(), key=priority)` permutes the names |
| Nsatt.InsertByPriority | nsatt.py:638 | inserting a name adds exactly that name |
| Nsatt.InsertAscending | nsatt.py:638 | inserting into an ascending run keeps it ascending |
| Nsatt.ByPriorityAscending | nsatt.py:638 | the start-up order is ascending in priority |
| Nsatt.LoginFirst | nsatt.py:625-638 | with the loaded priorities, `login` starts first |
| Nsatt.RunInitMeans | nsatt.py:641-661 | start-up succeeds exactly when every widget with `initialize` initialises; only such widgets are called, in order; on failure the last one called failed or raised and all before it initialised |
| Nsatt.WidgetManager.constructor | nsatt.py:601-606 | the widgets and priorities of the widget directory, loaded in directory order |
| Nsatt.WidgetManager.Register | nsatt.py:632-634 | the widget and its priority are stored under the name |
| Nsatt.WidgetManager.LoadWidgets | nsatt.py:608-631 | each widget module is registered with its priority, in directory order |
| Nsatt.WidgetManager.InitializeAll | nsatt.py:636-661 | the result and the widgets called are `RunInit` over the priority order |
| Nsatt.LoadPlugin | nsatt.py:770-805 | loading one plugin keeps the loading state consistent |
| Nsatt.LoadItems | nsatt.py:970-995 | walking a directory keeps the loading state consistent |
| Nsatt.LoadItemsRecords | nsatt.py:770-805 | existing records are never changed, every newly seen plugin is recorded as new, and every loaded plugin is known (also lines 970-995) |
| Nsatt.ShowsEnabledExtends | nsatt.py:798 | a menu showing only enabled plugins keeps doing so when records are only added |
| Nsatt.LoadItemsShowsEnabled | nsatt.py:797-802 | the menu shows only plugins that are enabled with their requirements met |
| Nsatt.Clean | nsatt.py:997-1009 | corrected clean-up: cleaning keeps the kind of an entry, leaves a plugin alone, keeps a submenu's icon and only removes keys |
| Nsatt.CleanKeeps | nsatt.py:1000-1009 | corrected: a plugin and a submenu with an icon are kept; a plain submenu is kept exactly when something is left in it |
| Nsatt.CleanLeavesNoEmptyFolder | nsatt.py:997-1009 | corrected: after the clean-up no empty plain submenu is left at any depth |
| Nsatt.CleanFixesClean | nsatt.py:997-1009 | corrected: a menu without empty plain submenus is left as it is |
| Nsatt.CleanIdempotent | nsatt.py:997-1009 | corrected: cleaning twice is cleaning once |
| Nsatt.ValueOf | nsatt.py:986-990 | the dict stored for an entry: a plain submenu is the dict of its entries, a submenu with an icon has exactly the keys `submenu` and `image`, a plugin has a `plugin` key and no `submenu` key |
| Nsatt.MenuValue | nsatt.py:962-968 | the dict of a menu has one value per entry, the value of that entry |
| Nsatt.CleanedDict | nsatt.py:997-1009 | `_clean_empty_dirs` as written only removes keys of a dict and leaves a non-dict alone |
| Nsatt.AfterClean | nsatt.py:1001-1004 | a value with a `submenu` key keeps its keys (only that entry is cleaned); the kind of value is kept |
| Nsatt.CleanedWithin | nsatt.py:997-1009 | the clean-up as written only deletes entries, at any depth: nothing is added or changed |
| Nsatt.CleanAsWrittenAgrees | nsatt.py:1001-1007 | without an entry named `submenu`, the clean-up as written equals the corrected `Clean`, and a value is deleted exactly when its entry is left an empty plain submenu |
| Nsatt.MenuCleanAgrees | nsatt.py:997-1009 | without an entry named `submenu`, cleaning a menu's dict as written gives the dict of the corrected clean-up |
| Nsatt.SubmenuFolderNotCleaned | nsatt.py:1003-1005 | as written, an empty folder `tools/submenu/` is left as `{"tools": {"submenu": {}}}` |
| Nsatt.SubmenuFolderCleaned | nsatt.py:997-1009 | corrected: the same tree is cleaned to an empty menu |
| Nsatt.CleanValue | nsatt.py:1001-1004 | the loop body cleaning one value in place gives `AfterClean` of the value |
| Nsatt.CleanDict | nsatt.py:997-1009 | the loop collecting and deleting the empty keys gives `CleanedDict`, the clean-up as written |
| Nsatt.IsEnabled | nsatt.py:951-953 | an unknown plugin is not enabled |
| Nsatt.SetEnabled | nsatt.py:955-960 | the records stay a well-formed dict |
| Nsatt.SetEnabledQuery | nsatt.py:951-960 | setting the flag of a known plugin changes that plugin's flag only and keeps its requirements flag; for an unknown plugin nothing changes |
| Nsatt.NewPluginDialogMeans | nsatt.py:852-880 | the dialog enables a plugin exactly when Enable is pressed, any upgrade is approved, and every install and upgrade succeeds (also lines 715-768) |
| Nsatt.EnableOutcome | nsatt.py:887-941 | the records stay a well-formed dict |
| Nsatt.EnableInstallAlwaysFails | nsatt.py:895-938 | as written, a known plugin with unmet requirements that misses packages is never enabled and its record is unchanged, whatever pip does: the progress callback is passed as `upgrade_packages` and `len` of it raises (also line 721) |
| Nsatt.EnablePluginApplies | nsatt.py:887-941 | corrected: success means the plugin is enabled; a refusal changes nothing; a known plugin is enabled once the user installs and every package installs; no other record changes |
| Nsatt.PluginManager.constructor | nsatt.py:677-683 | the known plugins are the stored ones, empty when none are stored; no plugin is loaded |
| Nsatt.PluginManager.SetPluginEnabled | nsatt.py:955-960 | the records become `SetEnabled` of the old ones; the loaded plugins are unchanged |
| Nsatt.PluginManager.EnablePlugin | nsatt.py:887-941 | the result and new records are those of `enable_plugin` as written |
| Nsatt.PluginManager.RecordNewPlugin | nsatt.py:785-795 | a newly seen plugin gets the new-plugin record |
| Nsatt.PluginManager.LoadPluginFile | nsatt.py:770-805 | the menu, records and plugins become those of `LoadPlugin` |
| Nsatt.PluginManager.LoadDir | nsatt.py:970-995 | the menu, records and plugins become those of `LoadItems` |
| Nsatt.PluginManager.LoadAll | nsatt.py:962-968 | the plugins are cleared, the directory walked and the menu's dict cleaned as written |
| Nsatt.LoadAllMeans | nsatt.py:962-1009 | after `load_all` the menu is the loaded menu with some entries deleted, and the loaded menu shows only enabled plugins with requirements met; without an entry named `submenu` it is the corrected clean-up, with no empty plain submenu; known plugins keep their records and new ones are recorded as new |
| Nsatt.CleanShowsEnabled | nsatt.py:997-1009 | corrected: cleaning shows nothing new |
| Nsatt.SetContent | nsatt.py:2044-2049 | the widget shown goes onto the history, the new one is shown, and the first one ever shown is index 0 |
| Nsatt.BackFromPluginSkipsLevel | nsatt.py:2051-2070 | as written, going back from a plugin opened from a submenu lands on the main menu, skipping the submenu; one step back returns to the submenu (also lines 1717-1728) |
| Nsatt.GoBackAgrees | nsatt.py:2051-2076 | without a plugin on screen, `go_back` as written and corrected agree |
| Nsatt.BackUndoesSetContent | nsatt.py:2044-2076 | corrected: going back right after showing a widget restores the previous screen and history, unless that screen is index 0 and there is a menu, when the menu is shown afresh |
| Nsatt.Navigator.constructor | nsatt.py:1015-1047 | nothing shown, no history |
| Nsatt.Navigator.SetContentTo | nsatt.py:2044-2049 | the state becomes `SetContent` of the old one |
| Nsatt.Navigator.PopHistory | nsatt.py:1727-1728 | the last widget of the history is shown and dropped from it (also lines 2063-2064) |
| Nsatt.Navigator.MinimizePlugin | nsatt.py:1717-1732 | the state becomes `Minimize` of the old one |
| Nsatt.Navigator.ShowMainMenu | nsatt.py:1350-1354 | the state becomes `ShowMenu` of the old one |
| Nsatt.Navigator.Back | nsatt.py:2051-2076 | the state becomes `go_back` as written |
| HttpManager.GetCurrentConfig | storage/plugins/network/http_manager.py:43-91 | the settings are those `get_current_config` reads as written: each directive's first match or its default, and the fixed defaults when the file cannot be read |
| HttpManager.OnlyTimeoutDiffers | storage/plugins/network/http_manager.py:50-75 | the as-written and corrected readings differ in the timeout only |
| HttpManager.KeepAliveTimeoutReadAsTimeout | storage/plugins/network/http_manager.py:62-71 | as written, `Timeout\s+(\d+)` is unanchored, so in a file whose first such text is `KeepAliveTimeout v` the timeout is read as `v` |
| HttpManager.TimeoutReadFromItsDirective | storage/plugins/network/http_manager.py:62-63 | corrected: with `Timeout` required to begin a word, the timeout comes from its own directive even after `KeepAliveTimeout` |
| HttpManager.NoWordTimeoutBefore | storage/plugins/network/http_manager.py:62 | no word-starting `Timeout` match lies inside a leading `KeepAliveTimeout` line |
| HttpManager.LowerIsOn | storage/plugins/network/http_manager.py:57-66 | `v.lower() == 'on'` holds exactly for a two-letter `on` in any case |
| HttpManager.SwitchMeans | storage/plugins/network/http_manager.py:56-66 | a switch is on when its directive is absent, else exactly when its word is `on` in any case |
| HttpManager.DocumentRootRead | storage/plugins/network/http_manager.py:74-75 | the document root is the text between the quotes after `DocumentRoot` |
| HttpManager.RootValue | storage/plugins/network/http_manager.py:74-75 | the quoted capture after `DocumentRoot` is read whole |
| HttpManager.DocumentRootDefault | storage/plugins/network/http_manager.py:75 | without a quoted `DocumentRoot` the root is `/var/www/html` |
| HttpManager.EmptyGivesDefaults | storage/plugins/network/http_manager.py:51-90 | an unreadable file gives port 80, timeout 300, 100 keep-alive requests, keep-alive timeout 5 and `/var/www/html`; an empty file gives the same |
| HttpManager.HttpPanel.constructor | storage/plugins/network/http_manager.py:19-42 | the start button reads "Start Service" |
| HttpManager.HttpPanel.ToggleService | storage/plugins/network/http_manager.py:229-242 | `systemctl start` or `stop apache2` runs by the label; the label flips only when it exits with 0, otherwise an error is shown and the label stays |
| SshManager.GetCurrentConfig | storage/plugins/network/ssh_manager.py:43-105 | the settings are those of `ConfigOf`: each directive's first match at a line start or its default, and the fixed defaults when the file cannot be read |
| SshManager.LowerIsYes | storage/plugins/network/ssh_manager.py:54-66 | `v.lower() == 'yes'` holds exactly for a three-letter `yes` in any case |
| SshManager.FlagMeans | storage/plugins/network/ssh_manager.py:53-66 | a flag keeps its default when its directive is absent, else is on exactly when its word is `yes` in any case |
| SshManager.PortRead | storage/plugins/network/ssh_manager.py:50-51 | the port written in a leading `Port` line is the one read |
| SshManager.PortValue | storage/plugins/network/ssh_manager.py:50-51 | the digits after `Port` and whitespace are read whole |
| SshManager.PortDefault | storage/plugins/network/ssh_manager.py:51 | without a `Port` directive at a line start the port is 22 |
| SshManager.CommentedOutIgnored | storage/plugins/network/ssh_manager.py:50-86 | a file whose every line is a comment gives every default but reports SFTP off, where an unreadable file reports it on |
| SshManager.SftpMeans | storage/plugins/network/ssh_manager.py:81-82 | SFTP is on exactly when some line starts with `Subsystem`, whitespace and `sftp` |
| SshManager.SftpLine | storage/plugins/network/ssh_manager.py:81-82 | the stock `Subsystem sftp` line turns SFTP on |
| SshManager.SshPanel.constructor | storage/plugins/network/ssh_manager.py:19-42 | the start button reads "Start Service" |
| SshManager.SshPanel.ToggleService | storage/plugins/network/ssh_manager.py:257-266 | `systemctl start` or `stop sshd` runs by the label; the exit code is not checked, so the label flips unless the call raises |
| ConfigSearch.Run | storage/plugins/network/ssh_manager.py:50-85 | the captured run stays within the text, holds only characters of its class and stops before the first one outside it |
| ConfigSearch.LineAfter | storage/plugins/network/ssh_manager.py:77-85 | `\s+(.+)`: the capture starts after the whitespace at a character other than a newline, or there is none when only newlines follow |
| ConfigSearch.ValueAt | storage/plugins/network/ssh_manager.py:50-85 | a value read after a key is non-empty and of its class, or the fixed word itself |
| ConfigSearch.FirstMatch | storage/plugins/network/http_manager.py:50-74 | the position found matches and no earlier position does; none is found exactly when no position matches |
| ConfigSearch.Search | storage/plugins/network/http_manager.py:50-74 | `re.search` finds something exactly when some position matches, and there the anchor holds and the key starts |
| ConfigSearch.RunOf | storage/plugins/network/ssh_manager.py:50-85 | the run over a value followed by a character outside its class is the value's length |
| ConfigSearch.FoundAt | storage/plugins/network/ssh_manager.py:50-85 | a key, a space and a value at a valid position match with that value |
| ConfigSearch.ValueAfterKey | storage/plugins/network/ssh_manager.py:50-85 | the value after a space is read whole |
| ConfigSearch.FoundAtStart | storage/plugins/network/ssh_manager.py:50-85 | a text starting with a key, a space and a value gives that value |
| ConfigSearch.QuotedAtStart | storage/plugins/network/http_manager.py:74 | a text starting with `key "v"` gives `v` |
| ConfigSearch.QuotedValueAfterKey | storage/plugins/network/http_manager.py:74 | the quoted value after a key is read whole |
| ConfigSearch.LineStartNeedsKeyAtLineStart | storage/plugins/network/ssh_manager.py:50-85 | with `re.MULTILINE`, a key that begins no line is never found |
| ConfigSearch.SearchFindsLeftmost | storage/plugins/network/http_manager.py:50-74 | `re.search` gives the value at the leftmost matching position |
| ConfigSearch.NoMatchWithoutKey | storage/plugins/network/http_manager.py:50-74 | no position where the key's first letter is absent matches |
| ServicePanel.Flipped | storage/plugins/network/http_manager.py:231-236 | the label flips between "Start Service" and "Stop Service" and always changes |
| NmapScanner.CheckedFlags | storage/plugins/network/nmap_scanner.py:323-327 | the flags are `-opt` for exactly the checked options, in option order, at most one per option |
| NmapScanner.PingScanWhenNoScanType | storage/plugins/network/nmap_scanner.py:320-334 | `-sn` is added exactly when none of `sS`, `sU`, `sV` is checked (or the port text is itself `-sn`); a non-empty port ends the options with `-p port`; an empty port adds no `-p` |
| NmapScanner.ScanCommand | storage/plugins/network/nmap_scanner.py:316-340 | a custom command gives `nmap` plus its text; without one, an empty target is the error "No target specified", else `nmap`, the options joined by spaces, and the target |
| NmapScanner.FlattenSnoc | storage/plugins/network/nmap_scanner.py:541-546 | flattening one more group appends its lines |
| NmapScanner.RunCovers | storage/plugins/network/nmap_scanner.py:541-546 | the groups closed and the group being built hold every line, in order |
| NmapScanner.RunNonEmpty | storage/plugins/network/nmap_scanner.py:543-550 | no closed group is empty, and the group being built is empty only for no lines |
| NmapScanner.RunHeads | storage/plugins/network/nmap_scanner.py:542-545 | every group but the first begins with a host line |
| NmapScanner.RunInner | storage/plugins/network/nmap_scanner.py:542-546 | no line after the first of a group is a host line |
| NmapScanner.GroupsCover | storage/plugins/network/nmap_scanner.py:531-552 | the devices' lines are the report's lines in order, no device is empty, and there are devices exactly when there are lines |
| NmapScanner.GroupsHeads | storage/plugins/network/nmap_scanner.py:538-546 | every device after the first begins with its `Nmap scan report for` line, and no other line of a device is one |
| NmapScanner.Texts | storage/plugins/network/nmap_scanner.py:544-550 | each device's text is its lines joined by line breaks |
| NmapScanner.TextsJoin | storage/plugins/network/nmap_scanner.py:544-550 | joining the device texts by line breaks is joining all their lines |
| NmapScanner.GroupsNonEmptyFlatten | storage/plugins/network/nmap_scanner.py:549-550 | non-empty groups flatten to something |
| NmapScanner.ParseNmapOutput | storage/plugins/network/nmap_scanner.py:531-552 | the loop gives the texts of the device groups of the report's lines |
| NmapScanner.DevicesRejoin | storage/plugins/network/nmap_scanner.py:531-552 | joining the devices with line breaks gives back the whole report |
| NmapScanner.JoinStartsWithFirst | storage/plugins/network/nmap_scanner.py:544 | a joined group starts with its first line |
| NmapScanner.DevicesStartWithHost | storage/plugins/network/nmap_scanner.py:531-552 | there is at least one device, and every device after the first begins with a host line |
| NmapScanner.SectionTitleOfHost | storage/plugins/network/nmap_scanner.py:456-457 | the title of a host's section is the host text after the prefix |
| NmapScanner.ResultSections | storage/plugins/network/nmap_scanner.py:440-458 | a report starting with "Error" is one Error section; otherwise one section per device, titled by its host |
| NmapScanner.ProgressLog | storage/plugins/network/nmap_scanner.py:498-515 | the progress section holds at most one line per line received |
| NmapScanner.ProgressLogShows | storage/plugins/network/nmap_scanner.py:498-515 | the progress section shows exactly the non-blank lines that are not "Scanning ... in progress" notices |
| NmapScans.ScanCommand | storage/scripts/nsatt_web/modules/nmap_scans.py:10-23 | a custom command not starting with `nmap` or holding `;` or `&` is refused with its message; an accepted one is run as given; without one the command is `nmap type options target` |
| NmapScans.AcceptedCommandsRunNmap | storage/scripts/nsatt_web/modules/nmap_scans.py:12-23 | every accepted command starts with `nmap`, and without a custom command one is always accepted |
| NmapScans.WithoutIds | storage/scripts/nsatt_web/modules/nmap_scans.py:147 | the rows kept are exactly those whose id is not selected, in order |
| NmapScans.WithoutNoIds | storage/scripts/nsatt_web/modules/nmap_scans.py:146-147 | deleting no ids keeps every row |
| NmapScans.WithoutIdsTwice | storage/scripts/nsatt_web/modules/nmap_scans.py:147 | deleting one more id after a set is deleting the larger set |
| NmapScans.ResultStore.constructor | storage/scripts/nsatt_web/modules/nmap_scans.py:141-165 | an empty table |
| NmapScans.ResultStore.Manage | storage/scripts/nsatt_web/modules/nmap_scans.py:141-165 | a database error changes nothing and returns "Error: " and its text; otherwise `delete_selected` with ids deletes exactly those rows, `delete_all` empties the table and anything else changes nothing; `export` with ids fails because `executemany` refuses a SELECT, otherwise the success message |
| WirelessScans.RunIn | storage/scripts/nsatt_web/modules/wireless_scans.py:67 | the run of characters in a class stays in the text and stops at the first character outside it |
| WirelessScans.RunInStopsAt | storage/scripts/nsatt_web/modules/wireless_scans.py:67 | a run stops at the first character outside its class |
| WirelessScans.EscapeLength | storage/scripts/nsatt_web/modules/wireless_scans.py:67 | an escape sequence found is at least three characters long and starts with ESC |
| WirelessScans.StripAnsi | storage/scripts/nsatt_web/modules/wireless_scans.py:67 | removing escape sequences never lengthens the line and leaves a line without ESC alone |
| WirelessScans.ColourCodeRemoved | storage/scripts/nsatt_web/modules/wireless_scans.py:67 | a colour code `ESC [ digits-and-semicolons m` is removed whole |
| WirelessScans.ColourCodeLength | storage/scripts/nsatt_web/modules/wireless_scans.py:67 | a colour code's length is its parameters plus three |
| WirelessScans.LeadingTags | storage/scripts/nsatt_web/modules/wireless_scans.py:80 | the count is the leading run of security tags (PSK, MGT, SAE, CCMP, WPA2, WPA, WEP) |
| WirelessScans.LeadingTagsOf | storage/scripts/nsatt_web/modules/wireless_scans.py:80 | tags followed by a non-tag count as their number |
| WirelessScans.EssidSkipsTags | storage/scripts/nsatt_web/modules/wireless_scans.py:80-81 | the ESSID is the words after the leading security tags, joined by spaces |
| WirelessScans.EssidAllTags | storage/scripts/nsatt_web/modules/wireless_scans.py:80-81 | when every word is a tag, `next(..., 0)` keeps them all |
| WirelessScans.ParseScanOutput | storage/scripts/nsatt_web/modules/wireless_scans.py:65-97 | a line with fewer than ten words gives nothing; a row is parsed exactly when it has ten words or more and its power, beacons and frames columns (the second, fourth and fifth words) are all integers |
| WirelessScans.ColumnsConcat | storage/scripts/nsatt_web/modules/wireless_scans.py:70 | two runs of single words form a run of single words |
| WirelessScans.RowColumns | storage/scripts/nsatt_web/modules/wireless_scans.py:84-92 | a network prints as nine columns |
| WirelessScans.IntColumn | storage/scripts/nsatt_web/modules/wireless_scans.py:85-88 | a printed integer is one word |
| WirelessScans.RowWordsOfColumns | storage/scripts/nsatt_web/modules/wireless_scans.py:70 | single words joined by spaces split back into the same words |
| WirelessScans.ColumnsOfRow | storage/scripts/nsatt_web/modules/wireless_scans.py:84-92 | a network whose text fields are single words prints as single words |
| WirelessScans.ParseRow | storage/scripts/nsatt_web/modules/wireless_scans.py:65-97 | a network printed as a row, with an ESSID not starting with a tag, is parsed back to the same network |
| WirelessScans.IntColumnsParse | storage/scripts/nsatt_web/modules/wireless_scans.py:85-88 | the printed power, beacons and frames read back as the same integers |
| WirelessScans.ParseJoined | storage/scripts/nsatt_web/modules/wireless_scans.py:74-94 | nine columns and ESSID words with integer columns parse |
| WirelessScans.Lookup | storage/scripts/nsatt_web/modules/wireless_scans.py:104-112 | `data.get(key, 'N/A')` |
| WirelessScans.FormatNetworks | storage/scripts/nsatt_web/modules/wireless_scans.py:99-114 | the loop gives `NetworksHtml` of the networks |
| WirelessScans.RowDelimited | storage/scripts/nsatt_web/modules/wireless_scans.py:102-113 | each row starts with `<tr>` and ends with `</tr>` |
| WirelessScans.MissingFieldsShowNA | storage/scripts/nsatt_web/modules/wireless_scans.py:104-112 | missing fields show as `N/A` |
| WirelessScans.FieldsOf | storage/scripts/nsatt_web/modules/wireless_scans.py:83-94 | a parsed row has every field of the table |
| WirelessScans.StripAll | storage/scripts/nsatt_web/modules/wireless_scans.py:35 | one stripped line per line |
| WirelessScans.Capped | storage/scripts/nsatt_web/modules/wireless_scans.py:28-32 | at most the first 100 lines are read, all of them when there are no more |
| WirelessScans.RunScan | storage/scripts/nsatt_web/modules/wireless_scans.py:16-51 | the argument vector is `{type} {options} {target}` split on whitespace; each of the first 100 lines is yielded stripped; a non-zero exit code adds its error line; the raw lines read are joined into the saved result; when opening the log or starting the tool raises `e`, only "Error running wireless scan: e" is yielded and nothing is saved |
| WirelessScans.ReadLines | storage/scripts/nsatt_web/modules/wireless_scans.py:27-36 | the loop reads the capped lines and yields each stripped |
| WirelessScans.StripAllSnoc | storage/scripts/nsatt_web/modules/wireless_scans.py:35 | stripping one more line appends it stripped |
| WirelessScans.StripAllEach | storage/scripts/nsatt_web/modules/wireless_scans.py:35 | each yielded line is its line stripped |
| WirelessScans.WirelessOptions | storage/scripts/nsatt_web/modules/wireless_scans.py:130-168 | the three base options come first; an unknown or absent tool adds nothing; each of the five tools adds options of its own |
| WirelessRoutes.FormOptions | storage/scripts/nsatt_web/routes/wireless_routes.py:32-55 | no option is empty |
| WirelessRoutes.BuildOptions | storage/scripts/nsatt_web/routes/wireless_routes.py:32-55 | the options are `FormOptions` of the form |
| WirelessRoutes.ValueOptionsNeedBoth | storage/scripts/nsatt_web/routes/wireless_routes.py:41-50 | an advanced option is added only when both its checkbox and its value are given |
| WirelessRoutes.UrlOptions | storage/scripts/nsatt_web/routes/wireless_routes.py:79-82 | a missing or empty options segment gives no options |
| WirelessRoutes.OptionsRoundTrip | storage/scripts/nsatt_web/routes/wireless_routes.py:64-80 | options without commas survive the round trip through the URL |
| WirelessRoutes.CommaSplitsOption | storage/scripts/nsatt_web/routes/wireless_routes.py:64-80 | an ESSID holding a comma is split into two options on the way back |
| WirelessRoutes.ScanForm.constructor | storage/scripts/nsatt_web/routes/wireless_routes.py:19-20 | not scanning, no results |
| WirelessRoutes.ScanForm.Submit | storage/scripts/nsatt_web/routes/wireless_routes.py:26-64 | a blank target or missing scan type gives 400 with its message and changes nothing; otherwise scanning starts with empty results and the browser is sent to the results page with the options joined by commas |
| WirelessRoutes.IndexOfBssid | storage/scripts/nsatt_web/routes/wireless_routes.py:105 | the index found holds the BSSID; none is found exactly when no entry has it |
| WirelessRoutes.MergeKeepsUnique | storage/scripts/nsatt_web/routes/wireless_routes.py:104-110 | merging a row keeps BSSIDs unique, adds one entry only for a new BSSID and leaves the other entries alone |
| WirelessRoutes.MergeShowsParsed | storage/scripts/nsatt_web/routes/wireless_routes.py:104-110 | the merged table holds the parsed BSSID |
| WirelessRoutes.MergeLinesUnique | storage/scripts/nsatt_web/routes/wireless_routes.py:99-110 | merging a stream of lines keeps BSSIDs unique |
| WirelessRoutes.EventsOfBounded | storage/scripts/nsatt_web/routes/wireless_routes.py:99-114 | at most one event per line |
| WirelessRoutes.ScanStream.constructor | storage/scripts/nsatt_web/routes/wireless_routes.py:97 | no networks, no results |
| WirelessRoutes.ScanStream.Feed | storage/scripts/nsatt_web/routes/wireless_routes.py:102-114 | a line that does not parse sends nothing and changes nothing; a parsed row is merged, the table stored and sent as one event |
| WirelessRoutes.ScanStream.Run | storage/scripts/nsatt_web/routes/wireless_routes.py:95-114 | the networks become the merge of every parsed line, BSSIDs stay unique, and the events are one refreshed table per parsed line |
| LogsInterface.FirstIndex | storage/scripts/nsatt_web/web/logs_interface/fetch_logs.php:18 | the index is that of the first occurrence, or the length when there is none |
| LogsInterface.FirstIndexAfter | storage/scripts/nsatt_web/web/logs_interface/fetch_logs.php:18 | the first occurrence after a prefix without the character is at the prefix's length |
| LogsInterface.BracketedOf | storage/scripts/nsatt_web/web/logs_interface/fetch_logs.php:18 | `a] sep b` with no `]` in `a` is read as `a` and `b` |
| LogsInterface.ParseFormat | storage/scripts/nsatt_web/web/logs_interface/fetch_logs.php:18 | each formatted entry `[timestamp] [level] message` reads back as the row's timestamp, level and message |
| LogsInterface.Formatted | storage/scripts/nsatt_web/web/logs_interface/fetch_logs.php:17-19 | one entry per row |
| LogsInterface.FormattedAt | storage/scripts/nsatt_web/web/logs_interface/fetch_logs.php:18 | the k-th entry is the k-th row formatted |
| LogsInterface.Reverse | storage/scripts/nsatt_web/web/logs_interface/fetch_logs.php:20 | `array_reverse` puts element i at position n-1-i |
| LogsInterface.ReverseFormatted | storage/scripts/nsatt_web/web/logs_interface/fetch_logs.php:17-20 | reversing the formatted entries is formatting the reversed rows |
| LogsInterface.InsertById | storage/scripts/nsatt_web/web/logs_interface/fetch_logs.php:15 | inserting a row adds exactly that row |
| LogsInterface.ByIdDescending | storage/scripts/nsatt_web/web/logs_interface/fetch_logs.php:15 | `ORDER BY id DESC` permutes the rows |
| LogsInterface.InsertDescending | storage/scripts/nsatt_web/web/logs_interface/fetch_logs.php:15 | inserting into a run in descending id order keeps it descending |
| LogsInterface.ByIdDescendingSorted | storage/scripts/nsatt_web/web/logs_interface/fetch_logs.php:15 | the rows are in descending id order |
| LogsInterface.Selected | storage/scripts/nsatt_web/web/logs_interface/fetch_logs.php:15 | `LIMIT 100` selects `min(100, n)` rows |
| LogsInterface.SelectedHighest | storage/scripts/nsatt_web/web/logs_interface/fetch_logs.php:15 | every row left out has an id no higher than any selected one |
| LogsInterface.LatestAscending | storage/scripts/nsatt_web/web/logs_interface/fetch_logs.php:15-20 | after `array_reverse` the rows are in ascending id order |
| LogsInterface.LatestFromTable | storage/scripts/nsatt_web/web/logs_interface/fetch_logs.php:15 | at most 100 rows, all from the table |
| LogsInterface.LatestHighestAt | storage/scripts/nsatt_web/web/logs_interface/fetch_logs.php:15 | no row left out has a higher id than a row shown |
| LogsInterface.LatestHighest | storage/scripts/nsatt_web/web/logs_interface/fetch_logs.php:15 | all rows left out have ids no higher than those shown |
| LogsInterface.ReverseMultiset | storage/scripts/nsatt_web/web/logs_interface/fetch_logs.php:20 | reversing keeps the same rows |
| LogsInterface.Keep | storage/scripts/nsatt_web/web/logs_interface/delete_logs.php:29-33 | the rows kept are exactly those whose id is not listed |
| LogsInterface.KeepNone | storage/scripts/nsatt_web/web/logs_interface/delete_logs.php:24-29 | listing no ids deletes nothing |
| LogsInterface.KeepMore | storage/scripts/nsatt_web/web/logs_interface/delete_logs.php:29-33 | deleting one more id after a set is deleting the larger set |
| LogsInterface.KeepUnique | storage/scripts/nsatt_web/web/logs_interface/delete_logs.php:29-33 | deleting keeps ids unique |
| LogsInterface.LogDatabase.constructor | storage/scripts/nsatt_web/web/logs_interface/fetch_logs.php:5-14 | the database as given |
| LogsInterface.LogDatabase.Fetch | storage/scripts/nsatt_web/web/logs_interface/fetch_logs.php:1-24 | a missing database gives its error; a database that cannot be opened gives `{"error": message}` with the exception's message; otherwise the entries of the (at most) 100 highest ids, formatted, in ascending id order |
| LogsInterface.LogDatabase.DeleteIds | storage/scripts/nsatt_web/web/logs_interface/delete_logs.php:29-33 | the loop deletes exactly the listed ids |
| LogsInterface.LogDatabase.Delete | storage/scripts/nsatt_web/web/logs_interface/delete_logs.php:1-41 | a missing database gives its error and changes nothing; a database that cannot be opened gives `{"error": message}` with the exception's message and changes nothing; `delete_all` empties the table; `delete_specific` with non-array lines gives an error and deletes nothing, otherwise deletes exactly the listed ids; any other action gives "Invalid action." and changes nothing |
| Login.CredentialsOf | storage/widgets/login.py:135-140 | an unreadable credentials file falls back to `{"nsatt": "nsatt"}` |
| Login.LoginWidget.constructor | storage/widgets/login.py:7-16 | not logged in, no attempts, fields enabled and empty |
| Login.LoginWidget.Type | storage/widgets/login.py:41-56 | typing fills enabled fields and changes nothing else; disabled fields keep their text (also lines 165-166) |
| Login.LoginWidget.SetRemember | storage/widgets/login.py:62 | the checkbox state is set and nothing else changes |
| Login.LoginWidget.CheckRemembered | storage/widgets/login.py:110-124 | a remembered login the credentials file still accepts logs in; nothing else changes |
| Login.LoginWidget.HandleLogin | storage/widgets/login.py:126-170 | empty fields count no attempt; accepted credentials log in, and are remembered when the box is checked; others count one attempt, show the remaining count, clear the password and at the third attempt disable the fields |
| Login.LoginWidget.Logout | storage/widgets/login.py:175-189 | logged out, attempts reset, fields enabled and cleared, status cleared, remembered login forgotten |
| Login.LockoutHolds | storage/widgets/login.py:163-166 | once locked, typing and further login requests change neither the attempt count nor the login state (also lines 131-133) |
| StartAppLauncher.Toggled | storage/scripts/utility/start_app_launcher.py:904-909 | toggling removes an existing flag file or creates a missing one and leaves every other flag as it was |
| StartAppLauncher.ServicesWhereMembers | storage/scripts/utility/start_app_launcher.py:949-977 | a service is selected exactly when one of its flags is (or is not) present |
| StartAppLauncher.Starts | storage/scripts/utility/start_app_launcher.py:949-962 | one start command per selected service, in order |
| StartAppLauncher.Stops | storage/scripts/utility/start_app_launcher.py:964-977 | one stop command per selected service, in order |
| StartAppLauncher.ServiceUnitsDistinct | storage/scripts/utility/start_app_launcher.py:1112-1121 | the five autostart flags name five different services |
| StartAppLauncher.ServicesWhereSelects | storage/scripts/utility/start_app_launcher.py:1112-1121 | with distinct services, a flag's service is selected exactly when the flag is (or is not) present |
| StartAppLauncher.StartsPresentServices | storage/scripts/utility/start_app_launcher.py:1112-1121 | the start route starts a service exactly when its autostart flag exists |
| StartAppLauncher.StopsAbsentServices | storage/scripts/utility/start_app_launcher.py:1167-1176 | the stop route stops a service exactly when its autostart flag is missing |
| StartAppLauncher.FirstReady | storage/scripts/utility/start_app_launcher.py:1134-1145 | the probe found is one of the first `n` |
| StartAppLauncher.FirstReadyIsFirst | storage/scripts/utility/start_app_launcher.py:1134-1145 | the probe found is ready and no earlier one was; when none is found, none of the `n` was ready |
| StartAppLauncher.FirstReadyFrom | storage/scripts/utility/start_app_launcher.py:1134-1145 | a ready probe after only unready ones is the first ready one for any longer run |
| StartAppLauncher.StartResultMeans | storage/scripts/utility/start_app_launcher.py:1085-1156 | the start route replies success exactly when the script exited 0 and one of the 15 probes found port 8080 in use and answering; it stops probing at the first ready probe, probes all 15 times when none is, sets the start time exactly when the script succeeded, and answers "An unexpected error occurred: e" exactly when the launch raised `e` |
| StartAppLauncher.LastTenNewest | storage/scripts/utility/start_app_launcher.py:1047-1049 | the kept log is the newest ten entries, or all of them when there are fewer |
| StartAppLauncher.Terminations | storage/scripts/utility/start_app_launcher.py:1162-1164 | one kill per process found, in order |
| StartAppLauncher.Launcher.constructor | storage/scripts/utility/start_app_launcher.py:17-18 | no start time, an empty debug log, no commands issued |
| StartAppLauncher.Launcher.ToggleRoute | storage/scripts/utility/start_app_launcher.py:914-947 | the flag is flipped, the reply says whether the file exists afterwards, and nothing else changes |
| StartAppLauncher.Launcher.Poll | storage/scripts/utility/start_app_launcher.py:1134-1145 | the loop stops at the first ready probe, logging the unready ones before it, or makes all 15 probes |
| StartAppLauncher.Launcher.Start | storage/scripts/utility/start_app_launcher.py:1085-1156 | reply, probe count, log and start time are those of the start route's outcome (an exception before the script runs logs "Error starting application: e" and replies "An unexpected error occurred: e"); the launch script runs unless that exception came first, then, once it finished, every service whose autostart flag exists is started |
| StartAppLauncher.Launcher.Finished | storage/scripts/utility/start_app_launcher.py:1123-1145 | a non-zero exit logs code, stdout and stderr and fails; exit 0 goes on to the probes |
| StartAppLauncher.Launcher.AwaitReady | storage/scripts/utility/start_app_launcher.py:1130-1145 | the success is logged, the start time set, and the probes decide the reply |
| StartAppLauncher.Launcher.Observe | storage/scripts/utility/start_app_launcher.py:1042-1049 | the start time is set when the application is first seen running and cleared when it is not; two status entries are added and the newest ten kept |
| StartAppLauncher.Launcher.TriggerStarts | storage/scripts/utility/start_app_launcher.py:1064-1076 | with port 8080 free, the start-app flag is removed and triggers one start and the autostart flag triggers another; the log, commands and start time are those of the starts that ran |
| StartAppLauncher.Launcher.Index | storage/scripts/utility/start_app_launcher.py:1035-1078 | the index page removes the start-app flag only when port 8080 is free and keeps the autostart flag; its debug log is the last ten entries after the two status entries, followed by the logs of the starts it triggers; its commands are those of those starts; the start time is that of the status check unless a triggered start sets it; it counts one start per flag present when the port is free and none when it is busy |
| StartAppLauncher.Launcher.Stop | storage/scripts/utility/start_app_launcher.py:1158-1187 | with no process found nothing is issued; a refused signal logs "Error stopping application: e", answers "An error occurred while stopping the application: e" and keeps the start time, after killing the earlier processes only; otherwise every process is killed, every service whose autostart flag is missing is stopped and the start time cleared |
| StartAppLauncher.FirstRefused | storage/scripts/utility/start_app_launcher.py:1163-1164 | the first process whose signal is refused: every earlier one is delivered, and none is refused when there is no such process |
| LinkChecker.ServiceCommand | storage/plugins/network/link_checker.py:93-109 | each managed service is started and stopped with `sudo systemctl start\|stop` on its own unit |
| LinkChecker.ToggleDecisionMeans | storage/plugins/network/link_checker.py:348-386 | an installed, active service is stopped; an installed, inactive one started; an uninstalled one is never started or stopped and, when the user agrees, its package is installed |
| LinkChecker.ColourOf | storage/plugins/network/link_checker.py:402-419 | red exactly when not installed, yellow exactly when installed and inactive, green exactly when installed and active |
| LinkChecker.ScanNetworkOfAddress | storage/plugins/network/link_checker.py:429-431 | for an IPv4 address `a.b.c.d` the scan covers `a.b.c.0/24` |
| LinkChecker.SplitAddress | storage/plugins/network/link_checker.py:431 | a dotted address splits into its four parts |
| LinkChecker.JoinThree | storage/plugins/network/link_checker.py:431 | three parts join back with dots |
| LinkChecker.FirstSuccess | storage/plugins/network/link_checker.py:605-621 | the command found succeeds and no earlier one did; when none is found, none succeeds |
| LinkChecker.LinkPlugin.constructor | storage/plugins/network/link_checker.py:111-122 | every managed service starts as not installed and inactive |
| LinkChecker.LinkPlugin.UpdateServiceButtons | storage/plugins/network/link_checker.py:402-419 | every managed service's state is the probe's and its button takes the matching colour; other buttons keep theirs |
| LinkChecker.LinkPlugin.ToggleService | storage/plugins/network/link_checker.py:348-400 | the step taken is the toggle decision on the cached state; after a start, stop or declined installation the states are re-probed; a started installation leaves them as they were |
| LinkChecker.LinkPlugin.ToggleLed | storage/plugins/network/link_checker.py:599-627 | the blink commands are tried in order up to and including the first that succeeds; the result is a success exactly when one does |
| HotspotManager.InterfaceAddress | storage/plugins/network/hotspot_manager.py:255-258 | the address always carries a prefix length: one already given is kept, otherwise `/24` is added |
| HotspotManager.InterfaceAddressIdempotent | storage/plugins/network/hotspot_manager.py:255-258 | adding the default prefix length twice is the same as once |
| HotspotManager.DhcpRangeOfAddress | storage/plugins/network/hotspot_manager.py:273-275 | for `a.b.c.d` the DHCP range is `a.b.c.100` to `a.b.c.200` |
| HotspotManager.DhcpRangeNeedsThreeParts | storage/plugins/network/hotspot_manager.py:273-275 | an address with fewer than three dotted parts gets no range (the source raises) |
| HotspotManager.DnsmasqConfig | storage/plugins/network/hotspot_manager.py:277-290 | a configuration exists exactly when the range does; it names the interface and the computed range with a 12-hour lease |
| HotspotManager.DnsmasqGateway | storage/plugins/network/hotspot_manager.py:281 | the gateway handed out is the address without its prefix length |
| HotspotManager.ConfigText | storage/plugins/network/hotspot_manager.py:385-387 | no settings give an empty file |
| HotspotManager.HostapdSettingsMeans | storage/plugins/network/hotspot_manager.py:355-368 | every key is written once, WPA2 with a pre-shared key, and the passphrase is the form's |
| HotspotManager.ConfigHasPassphrase | storage/plugins/network/hotspot_manager.py:385-387 | the written file holds the `wpa_passphrase=` line of the form's password |
| HotspotManager.ConfigTextAppend | storage/plugins/network/hotspot_manager.py:385-387 | the file of two runs of settings is the two files one after the other |
| HotspotManager.Resize | storage/plugins/network/hotspot_manager.py:336 | `setRowCount(n)` keeps the first `n` rows and adds empty ones |
| HotspotManager.GoodPrefix | storage/plugins/network/hotspot_manager.py:337-341 | the leading lines counted are all leases and the next one is not |
| HotspotManager.LeaseRow | storage/plugins/network/hotspot_manager.py:338-341 | a lease line written from its five fields gives the row of its MAC, address and host name |
| HotspotManager.Hotspot.constructor | storage/plugins/network/hotspot_manager.py:26-53 | off, no clients, an empty console, the start button label |
| HotspotManager.Hotspot.GenerateConfig | storage/plugins/network/hotspot_manager.py:346-390 | an empty password field is set to `nsatt-admin` and logged; the settings written carry the field's password, never empty; a failing write of the polkit rule or the configuration logs "Error generating config: e", records no settings and passes the error on |
| HotspotManager.Hotspot.UpdateConnectedClients | storage/plugins/network/hotspot_manager.py:326-344 | nothing changes while off or without a lease file; otherwise one row per lease line, filled in order until a line that is not a lease, which is logged as "Error updating client list: " followed by the unpacking error's text |
| HotspotManager.UnpackError | storage/plugins/network/hotspot_manager.py:338 | unpacking fewer than five words reports "not enough values to unpack (expected 5, got n)", more than five "too many values to unpack (expected 5)" |
| HotspotManager.Hotspot.FillRows | storage/plugins/network/hotspot_manager.py:336-341 | the table loop fills row i from lease line i up to the first line that is not a lease, and leaves the other rows as they were |
| HotspotManager.Hotspot.Toggle | storage/plugins/network/hotspot_manager.py:392-452 | stopping always turns the hotspot off; starting succeeds exactly when an interface is chosen, the configuration is written, hostapd reports active, `setup_interface` succeeds, the address has a DHCP range and `setup_forwarding` succeeds; each failure leaves the hotspot off and logs its own line (for a failing step, the step's error and then "Failed to start hotspot: e") |
| SwitchControl.FirstCredentialEmpty | storage/scripts/nsatt_web/modules/switch_control.py:60-69 | six credentials are tried, the first with no username and no password |
| SwitchControl.NoPortRange | storage/scripts/nsatt_web/modules/switch_control.py:124-125 | without a port every port of the range is addressed, the beacon on for `on` and `blink` and off for anything else, whatever the device |
| SwitchControl.CommandTables | storage/scripts/nsatt_web/modules/switch_control.py:127-146 | HP ProCurve and Juniper switches get their own LED commands; every other device type gets the common table, where blinking is the beacon switched off and then on |
| SwitchControl.UnknownActionRaises | storage/scripts/nsatt_web/modules/switch_control.py:146 | with a port, an action outside the common table raises for every device type, since `.get`'s default is evaluated first |
| SwitchControl.TryConnect | storage/scripts/nsatt_web/modules/switch_control.py:102-121 | true exactly when some device type works, and then the one used is the first that does |
| SwitchControl.TryCredentials | storage/scripts/nsatt_web/modules/switch_control.py:85-88 | the credential found works with some device type; when none is found, no credential works with any |
| SwitchControl.ChangePortLight | storage/scripts/nsatt_web/modules/switch_control.py:71-97 | the failure message exactly when no managed switch is reachable; otherwise the success message names the first managed switch that is |
| UsbGadgetHelper.ModuleIssuesEmpty | storage/plugins/utils/usb_gadget_helper.py:43-51 | no module issue exactly when every required module probes with exit code 0 |
| UsbGadgetHelper.FileIssuesMeans | storage/plugins/utils/usb_gadget_helper.py:13-40 | a file that cannot be read gives exactly one issue naming the error; a file that is read gives no issue exactly when it carries its entries |
| UsbGadgetHelper.NoIssuesMeans | storage/plugins/utils/usb_gadget_helper.py:9-53 | no issue is reported exactly when the three files were read and carry their entries and every required module is available |
| UsbGadgetHelper.CheckSystemConfig | storage/plugins/utils/usb_gadget_helper.py:9-53 | the issues are those of the four checks, in order |
| UsbGadgetHelper.Update | storage/plugins/utils/usb_gadget_helper.py:272-277 | a detail line never changes the bus information |
| UsbGadgetHelper.ScanFromBus | storage/plugins/utils/usb_gadget_helper.py:262-277 | from the first `Bus` line on there is one record per `Bus` line, each carrying its bus information |
| UsbGadgetHelper.DevicesPerBusLine | storage/plugins/utils/usb_gadget_helper.py:262-280 | output that starts with a `Bus` line gives one device per `Bus` line, the last one included |
| UsbGadgetHelper.BusLineDefaults | storage/plugins/utils/usb_gadget_helper.py:263-271 | a `Bus` line followed by lines without keywords gives one record with `Unknown` details |
| UsbGadgetHelper.GetConnectedDevices | storage/plugins/utils/usb_gadget_helper.py:254-285 | the records collected from `lsusb -v`; a failed `lsusb` gives none |
| SetGadgetMode.DetermineModel | storage/scripts/defense/set_gadget_mode.py:33-41 | `Zero 2 W` exactly when the model text names a Raspberry Pi Zero 2, `4 B` exactly when it names a Raspberry Pi 4 and not a Zero 2, `Unknown` otherwise |
| SetGadgetMode.SetupOf | storage/scripts/defense/set_gadget_mode.py:48-71 | only the Zero 2 W and the 4 B are supported, both with the `dtoverlay=dwc2` overlay, and `R` is never a mode key |
| SetGadgetMode.ModeTables | storage/scripts/defense/set_gadget_mode.py:52-66 | the 4 B offers RNDIS as a fifth mode; the Zero 2 W offers four |
| SetGadgetMode.LineEnd | storage/scripts/defense/set_gadget_mode.py:84 | the first line ends at the first newline |
| SetGadgetMode.ConcatLines | storage/scripts/defense/set_gadget_mode.py:84-88 | the lines `readlines` gives join back into the file |
| SetGadgetMode.WithoutKeeps | storage/scripts/defense/set_gadget_mode.py:86-88 | the lines written back are exactly the lines without the overlay |
| SetGadgetMode.ConfigForMode | storage/scripts/defense/set_gadget_mode.py:108-112 | the configuration afterwards holds the overlay, and one that already held it is unchanged |
| SetGadgetMode.EntryChar | storage/scripts/defense/set_gadget_mode.py:117 | the new entry is `rootwait modules-load=dwc2,` followed by the gadget |
| SetGadgetMode.ContainsShorter | storage/scripts/defense/set_gadget_mode.py:118 | a text shorter than a pattern does not contain it |
| SetGadgetMode.ContainsOneLonger | storage/scripts/defense/set_gadget_mode.py:118-119 | a text one character longer than a pattern contains it only at its start or its end |
| SetGadgetMode.ModeSwitchNotApplied | storage/scripts/defense/set_gadget_mode.py:118-119 | switching a Zero 2 W from the serial gadget to mass storage leaves `cmdline.txt` as it was, since the edit replaces only the model's default entry |
| SetGadgetMode.SerialEntryLacksEther | storage/scripts/defense/set_gadget_mode.py:51 | the serial entry names `modules-load=dwc2` but not the Ethernet entry the edit looks for (also lines 118-119) |
| SetGadgetMode.FirstPresent | storage/scripts/defense/set_gadget_mode.py:118-119 | the entry found is one of the candidates and occurs; when none is found, none occurs |
| Strings.ReplaceAll | storage/scripts/defense/set_gadget_mode.py:119 | `str.replace` leaves the text unchanged when the pattern is absent, and leaves the replacement in the text when it occurs |
| SetGadgetMode.CmdlineForModeSets | storage/scripts/defense/set_gadget_mode.py:117-121 | with one of the mode entries present, or no `modules-load=dwc2` at all, the corrected edit leaves the chosen entry in the command line |
| SetGadgetMode.ModeSwitchApplied | storage/scripts/defense/set_gadget_mode.py:117-121 | with any mode entry of the model present, the corrected edit leaves the chosen mode's entry present in the command line |
| SetGadgetMode.EntriesOf | storage/scripts/defense/set_gadget_mode.py:52-66 | every mode of the table contributes its entry |
| SetGadgetMode.FilterConfig | storage/scripts/defense/set_gadget_mode.py:86-88 | the lines kept are those without the overlay |
| SetGadgetMode.NewConfig | storage/scripts/defense/set_gadget_mode.py:80-112 | `R` drops every overlay line of `config.txt`; a mode choice appends the overlay when it is missing |
| SetGadgetMode.ConfigureUsbMode | storage/scripts/defense/set_gadget_mode.py:43-147 | true exactly for a supported model, a valid choice and both files readable; an unknown model or invalid choice touches no file; `config.txt` is rewritten before `cmdline.txt` is read, so an unreadable `cmdline.txt` leaves it rewritten |
| ScanForPipInstalls.FirstPipMatch | storage/scripts/utility/scan_for_pip_installs.py:55 | the match found is one at or after the start position; when none is found there is none |
| ScanForPipInstalls.PipCommandPackages | storage/scripts/utility/scan_for_pip_installs.py:51-58 | a `pip install` command yields exactly the packages it names, in order |
| ScanForPipInstalls.NoPipNoPackages | storage/scripts/utility/scan_for_pip_installs.py:51-58 | a line without `pip` names no packages |
| ScanForPipInstalls.NameRun | storage/scripts/utility/scan_for_pip_installs.py:111 | the run scanned is all name characters and stops at the first other one |
| ScanForPipInstalls.KeywordLength | storage/scripts/utility/scan_for_pip_installs.py:111 | a line starts with `from`, `import` or neither |
| ScanForPipInstalls.KeywordLengthOf | storage/scripts/utility/scan_for_pip_installs.py:111 | a line that starts with `from` or `import` is read with that keyword |
| ScanForPipInstalls.NameRunOf | storage/scripts/utility/scan_for_pip_installs.py:111 | the run from a name followed by a non-name character is exactly the name |
| ScanForPipInstalls.ImportStatementName | storage/scripts/utility/scan_for_pip_installs.py:106-114 | `from x.y import z` and `import x.y, z` yield the first dotted name, `x.y` |
| ScanForPipInstalls.PipLineOfCommand | storage/scripts/utility/scan_for_pip_installs.py:40-43 | a script line holding a `pip install` command contributes exactly its packages |
| ScanForPipInstalls.ImportLineOfStatement | storage/scripts/utility/scan_for_pip_installs.py:96-100 | a Python line beginning with an import statement contributes its first dotted name |
| ScanForPipInstalls.AsSet | storage/scripts/utility/scan_for_pip_installs.py:43 | a list's elements, duplicates merged |
| ScanForPipInstalls.LinesFinds | storage/scripts/utility/scan_for_pip_installs.py:38-43 | a name is found in a file exactly when one of its lines contributes it |
| ScanForPipInstalls.FileFinds | storage/scripts/utility/scan_for_pip_installs.py:29-45 | a file without the suffix, with an excluded substring in its name, or that cannot be read contributes nothing; otherwise what its lines contribute |
| ScanForPipInstalls.FilesFindsMeans | storage/scripts/utility/scan_for_pip_installs.py:29-45 | a name is found among a folder's files exactly when some scanned, readable file contributes it |
| ScanForPipInstalls.PrunedFolderIgnored | storage/scripts/utility/scan_for_pip_installs.py:23-27 | the contents of a sub-folder that is pruned (excluded path or excluded substring in its name) never matter |
| ScanForPipInstalls.ScanLines | storage/scripts/utility/scan_for_pip_installs.py:38-43 | the loop over a file's lines collects what the lines contribute |
| ScanForPipInstalls.SearchFolder | storage/scripts/utility/scan_for_pip_installs.py:21-45 | the walk collects the finds of the folder's files and of every kept sub-folder |
| ScanForPipInstalls.SearchPipInstalls | storage/scripts/utility/scan_for_pip_installs.py:5-48 | the packages found are those the walk collects from `.sh` files |
| ScanForPipInstalls.SearchPythonImports | storage/scripts/utility/scan_for_pip_installs.py:61-103 | the imports found are those the walk collects from `.py` files |
| InfoGrabber.LinesDistinct | storage/plugins/attacks/local/info_grabber.py:274-293 | the setup line and the commands of the three sections are all different |
| InfoGrabber.ScriptLinesMeans | storage/plugins/attacks/local/info_grabber.py:269-293 | the script always starts with the directory setup, and a section's commands are in it exactly when its option is selected |
| InfoGrabber.ScriptLinesOrdered | storage/plugins/attacks/local/info_grabber.py:276-293 | the sections come in the order system, network, wifi |
| InfoGrabber.RanksOrdered | storage/plugins/attacks/local/info_grabber.py:276-293 | the setup line, then system, network and wifi lines, is ordered by section |
| InfoGrabber.GeneratePowershellScript | storage/plugins/attacks/local/info_grabber.py:269-297 | the script is the chosen lines joined with newlines |

## Left out

- Processes, files, sockets, databases, clocks and randomness: each is an input of the operation that uses it. The model does not capture timing, concurrency, or what a command does to the machine.
- Qt and HTML presentation: layouts, fonts, geometry, style sheets other than the colours the code chooses, dialogs (their answers are inputs) and the terminal widgets. Threads, `QTimer`s and signals are modelled as the calls they end in.
- Text is Dafny's `seq<char>`, and every character class is reduced to ASCII. This affects `Strings.IsDigit`, `Strings.Lower`, `Strings.Upper`, `ConfigSearch.IsWordChar`, `ScanForPipInstalls.IsNameChar` and the file browser's sort and filter keys. Python's `str.isdigit`, `str.lower`/`upper` and `\w` also accept non-ASCII letters and digits. For example, `PermitRootLogin yesé` captures `yesé` in Python and `yes` in the model.
- NsattBooter.Checked: the position-shifting `UPDATE` is treated as one simultaneous assignment. SQLite checks the primary-key constraint row by row, so an update that passes through a duplicate key can fail in SQLite where the model succeeds.
- Nsatt.WidgetManager.InitializeAll: drops the login widget's wait loop (`while not widget.is_logged_in()`) and its show and close calls (nsatt.py:651-656). Nsatt.WidgetManager.RunInit drops the same calls. Both model the priority order and the failures only.
- Nsatt.Navigator.MinimizePlugin: with a plugin on screen, an empty history and a menu, `minimize_plugin` calls `show_menu`, which finds the same plugin current and calls `minimize_plugin` again without end, until Python raises `RecursionError` (nsatt.py:1350-1354, nsatt.py:1724-1732). The model shows the menu instead. The state does not arise, because `set_content` pushes whatever was on screen before the plugin (nsatt.py:2044-2049).
- Nsatt: `check_plugin_requirements` is not modelled; its result is an input. Also not modelled: the file I/O of `save_settings`, the `MainWindow` layout, `restore_plugin`, `close_plugin` and `show_settings`.
- Login: the widget's layout code and `ensure_credentials_file` are not modelled. The credentials file's contents are an input.
- FileBrowserRoutes: the single-file routes are not modelled. These are upload, download, copy, move, delete, create folder, rename, edit, `read_file` and `is_text_file`. The model covers the path check, the listing, the bulk delete and bulk move, and the permission change.
- NmapScans.ResultStore.Manage: `export` with a selection is modelled as written: it always returns the `executemany` error. No corrected export is stated, because the code does not show what the export should produce.
- NmapScans: `get_nmap_scan_types`, `get_nmap_options` and `get_old_nmap_results` are not modelled. They only read from the database.
- WirelessRoutes: the stop, `save_scan`, results list and result detail routes, and `save_wireless_scan`, are not modelled. They only read or store rows.
- WirelessScans: `get_monitor_mode_interfaces`, `save_scan_result` and the result-database getters are not modelled.
- HttpManager and SshManager: the enable-at-boot, autostart, advanced-panel and browse toggles, and `check_service_status`, are not modelled. Only the configuration reading and the start/stop label flip are.
- StartAppLauncher.Launcher.Start: a missing log directory is not modelled. There the first `log_message` raises inside the `try`, the `except` branch's own `log_message` raises again, and Flask answers with its generic 500 page.
- StartAppLauncher: `reload_files`, `check_file_status`, `get_ip`, `get_uptime`, the restart and `restart_launcher` routes, `toggle_service`, `autostart_services_check`, `shutdown` and the tutorial are not modelled.
- NetworkAdapters: `change_mac_address` is not modelled. Neither is the exception path of `get_adapter_status`; the command's result there is an input.
- ControlRoutes: the `restart_device_route` and `stop_script_route` wrappers are not modelled. They only run a fixed command.
- VncRoutes: `restart_all`, `bulk_restart`, `get_saves` and the screenshot and video file routes are not modelled.
- NetworkRoutes: `connect_wireless`, `change_mac` and the `wireless_mode` route are not modelled.
- LinkChecker: `installation_completed`, the refresh workers (`get_switch_info`, `get_dns_info`, `get_modem_info`, `get_port_info`) and the scan thread are not modelled. `check_service_status` is the `probe` input of `LinkChecker.LinkPlugin.UpdateServiceButtons`.
- HotspotManager: the commands of `setup_interface`, `setup_forwarding` and `refresh_interfaces` are not modelled. The exceptions of the first two are the `interfaceError` and `forwardingError` inputs of `HotspotManager.Hotspot.Toggle`. The dnsmasq configuration write and start, and the commands of the stop branch, are taken not to raise. The error dialog (`QMessageBox.critical`) is not modelled.
- UpdateConnectedClients: the only failure modelled is a lease line that does not split into five words, and its ValueError text is CPython 3.8 to 3.13's wording. A lease file that exists but cannot be read is not modelled.
- SwitchControl: `get_network_info`, `discover_switches` and `change_port_light_interface` are not modelled. Their results are the input list of switches. `SwitchControl.ChangePortLight` does not model the exception path.
- UsbGadgetHelper: `fix_system_config`, `check_usb_gadget_state`, `cleanup_gadget`, `setup_gadget_mode`, `get_available_usb_ports` and `is_pi_zero` are not modelled. The model covers the configuration checks and the `lsusb` parser.
- SetGadgetMode: the reboot prompt and the printed menu are not modelled.
- SetGadgetMode.ModeSwitchApplied: proves that the chosen mode's entry is present afterwards, not that the earlier entry is gone. `str.replace` can leave the pattern in its result, for instance when the chosen entry extends the earlier one.
- ScanForPipInstalls.Kept: paths are compared as given. The source first normalises them with `os.path.abspath` (scan_for_pip_installs.py:18 and 25), so a relative or `..` path can be excluded there and kept here.
- Settings.DomText: `textContent`, `innerText` and `value` are one assignment, storing "" for null and the string form otherwise. Assigning `undefined` to `textContent` stores "" in a browser, where the model stores "undefined"; this arises only when a reply omits `message`, which the routes the page calls never do; the browser's further differences between them (line breaks in `innerText`, form-control value sanitising) are not modelled. The TypeError texts the Settings module quotes follow Chromium's wording; other engines word them differently.
- InfoGrabber: USB detection, the gadget set-up and the thread that runs the script are not modelled; only the script generation is.

## Findings

| source | as written | input that shows it | evidently intended | confidence | as-written member | corrected member |
|---|---|---|---|---|---|---|
| storage/scripts/nsatt_web/routes/network_routes.py:197-243 | when the first `ip` command fails, `ip_info` is unbound, so the error handler raises while quoting it and the route answers with no JSON error | a machine without `eth0` | a 500 JSON error with empty raw data | not executed | NetworkRoutes.GetWiredSettings, NetworkRoutes.WiredSettingsCrashWithoutEth0 | NetworkRoutes.GetWiredSettingsFixed |
| storage/scripts/nsatt_web/routes/network_routes.py:37-47 | the helper's `(response, status)` tuple is treated as its JSON, so the helper's error text is lost | `iwconfig` failing | the helper's error text, or its modes, come back | not executed | NetworkRoutes.WirelessModesErrorLost | NetworkRoutes.NetworkWirelessModesFixed |
| storage/scripts/nsatt_web/routes/network_routes.py:19-22 | the stripped stderr is passed as `CalledProcessError`'s `output`, so the message always quotes `None` | any command exiting non-zero with text on stderr | the message quotes the stderr | not executed | NetworkRoutes.RunCommandIgnoresStderr | NetworkRoutes.RunCommandFixedQuotesStderr |
| storage/scripts/nsatt_web/static/js/settings.js:269-281 | a non-OK answer's raw body is shown, even when it carries an `error` field | a 500 with `{"error": "No wireless interfaces found"}` | the `error` field is shown | not executed | Settings.ModesErrorMasked | Settings.ModesCheckedFixed |
| storage/scripts/nsatt_web/routes/hid_routes.py:350-352 | the raw character is written inside a single-quoted `send_key` argument | the characters `0` and `)`, whose key code is 0x27 | the argument written wholly as `\xHH` escapes | not executed | HidRoutes.CharArgumentBreaksQuote | HidRoutes.CharArgumentFixedTypes |
| storage/scripts/nsatt_web/routes/metasploit_routes.py:276-281 | the description is taken as `parts[4:]` and the required flag as `parts[2]` | a four-column row, or a row with an empty current setting | the row's own description and required flag | not executed | MetasploitRoutes.DescriptionDropped, MetasploitRoutes.EmptySettingLosesRequired | MetasploitRoutes.OptionRowReadsTable |
| storage/scripts/nsatt_web/routes/file_browser_routes.py:21-27 | `realpath(path).startswith(basedir)` is a text prefix test | `/home/nsatt-admin2/notes` | confinement by path components | not executed | FileBrowserRoutes.SiblingPassesPrefixTest | FileBrowserRoutes.SafePathByComponents |
| storage/scripts/nsatt_web/routes/file_browser_routes.py:366-383 | the mode is checked with `isdigit()` and its length, then `int(..., 8)` raises | `999` | three octal digits are required, and anything else gets 400 | not executed | FileBrowserRoutes.NonOctalDigitsPassFormat | FileBrowserRoutes.ChangePermissionsApplies |
| nsatt.py:887-941 | the progress callback is passed as `upgrade_packages`, so `len()` raises and the install always fails | a plugin with missing packages whose user agrees to install | the plugin is enabled once its packages install | not executed | Nsatt.EnableInstallAlwaysFails | Nsatt.EnablePluginApplies |
| nsatt.py:2051-2076 | `go_back` from a plugin pops the history in `minimize_plugin` and again itself | going back from a plugin opened from a submenu | going back returns to the submenu | not executed | Nsatt.BackFromPluginSkipsLevel | Nsatt.BackUndoesSetContent |
| storage/plugins/attacks/wireless/capture_deauth.py:698-719 | `re.match` anchors the MAC pattern only at the start | `AA:BB:CC:DD:EE:FF:00` | only a whole MAC passes | not executed | CaptureDeauth.TrailingTextPassesFormat | CaptureDeauth.ValidateInputsMeans |
| storage/scripts/defense/set_gadget_mode.py:117-121 | the edit replaces only the model's default entry | a Zero 2 W switched from the serial gadget to mass storage | the present mode entry is replaced by the chosen one, so the chosen entry is present afterwards | not executed | SetGadgetMode.ModeSwitchNotApplied | SetGadgetMode.ModeSwitchApplied |
| storage/plugins/network/http_manager.py:62-63 | `Timeout\s+(\d+)` is unanchored | a file whose first match is inside `KeepAliveTimeout` | the value of the `Timeout` directive | not executed | HttpManager.KeepAliveTimeoutReadAsTimeout | HttpManager.TimeoutReadFromItsDirective |
| storage/scripts/testing/nsatt_booter.py:268-278 | moving a position that no item holds still shifts the others | moving position 4 to 1 in a three-item menu | positions stay numbered 1..n | not executed | NsattBooter.ReorderAbsentPositionLeavesGap | NsattBooter.ReorderedCheckedKeepsDense |
| storage/scripts/nsatt_web/routes/vnc_routes.py:249-265 | `xwd_proc` is never waited on, so its `returncode` is `None` and every capture that does not time out fails | any screenshot request | a screenshot is saved when both commands exit 0 | not executed | VncRoutes.ScreenshotNeverSaved | VncRoutes.TakeScreenshotFixed |
| nsatt.py:1001-1007 | a plain folder holding an entry named `submenu` is cleaned only through that entry, because `value.get('submenu', value)` mistakes it for the icon form; the folder's other entries are never visited and the folder is never removed | a plugin directory whose only content is an empty `tools/submenu/` gives the menu `{"tools": {"submenu": {}}}` | the empty folders are removed, leaving `{}` | not executed | Nsatt.CleanedDict, Nsatt.SubmenuFolderNotCleaned | Nsatt.Clean, Nsatt.SubmenuFolderCleaned, Nsatt.CleanLeavesNoEmptyFolder |
