/** The decision rules of the settings presenter
    (protonvpn_linux_gui/presenters/settings_presenter.py).

    The injected settings service is an oracle: every setter call is
    appended to a log and answered by a fixed function of the call, and
    its list-valued queries are fixed functions too. The widgets the
    presenter writes to (the dialog, a list store, the tray comboboxes,
    the advanced-settings switches) are small classes. Values the
    presenter reads from the CLI library's configuration are parameters. */
module Settings {
  import opened Py

  /** The setters of the settings service, with their arguments. */
  datatype Call =
    | SetUserPass(username: string, password: string)
    | SetDns(dnsValue: string)
    | SetPvpnTier(tier: int)
    | SetAutoconnect(choice: string)
    | SetQuickconnect(choice: string)
    | SetSplitTunneling(enabled: int)
    | SetKillswitch(enabled: int)
    | SetSplitTunnelingIps(ips: seq<string>)
    | SetTraySetting(display: string, value: int)

  /** The settings service as the presenter sees it. */
  class SettingsService {
    const respond: Call -> bool                    // what each setter call returns
    const reformatIpList: string -> seq<string>    // reformat_ip_list
    const checkValidIps: seq<string> -> seq<Value> // check_valid_ips
    const autoconnectAlternatives: seq<string>     // generate_autoconnect_list
    var calls: seq<Call>                           // setter calls made, oldest first

    constructor (respond: Call -> bool, reformatIpList: string -> seq<string>,
                 checkValidIps: seq<string> -> seq<Value>, autoconnectAlternatives: seq<string>)
      ensures this.respond == respond && this.reformatIpList == reformatIpList
      ensures this.checkValidIps == checkValidIps && this.autoconnectAlternatives == autoconnectAlternatives
      ensures calls == []
    {
      this.respond := respond;
      this.reformatIpList := reformatIpList;
      this.checkValidIps := checkValidIps;
      this.autoconnectAlternatives := autoconnectAlternatives;
      calls := [];
    }

    /** Call one setter and return its answer. */
    method Perform(c: Call) returns (ok: bool)
      modifies this`calls
      ensures calls == old(calls) + [c]
      ensures ok == respond(c)
    {
      calls := calls + [c];
      ok := respond(c);
    }
  }

  /** The message dialog; `texts` lists the labels passed to `update_dialog`. */
  class DialogWindow {
    var texts: seq<string>

    method UpdateDialog(text: string)
      modifies this
      ensures texts == old(texts) + [text]
    {
      texts := texts + [text];
    }
  }

  /** A Gtk.ListStore of string rows. */
  class ListStore {
    var rows: seq<seq<string>>

    method Append(row: seq<string>)
      modifies this
      ensures rows == old(rows) + [row]
    {
      rows := rows + [row];
    }
  }

  /** A set of comboboxes by name, each with its active index. */
  class ComboBoxes {
    var active: map<string, int>

    method SetActive(name: string, index: int)
      requires name in active
      modifies this
      ensures active == old(active)[name := index]
    {
      active := active[name := index];
    }
  }

  /** A Gtk.Switch: whether it is on and whether the user can flip it. */
  datatype Switch = Switch(active: bool, sensitive: bool)

  /** Everything on the advanced tab that `load_advanced_settings` can change. */
  datatype AdvancedView = AdvancedView(
    dnsLeak: Switch, killswitch: Switch, splitTunneling: Switch,
    listSensitive: bool, updateButtonSensitive: bool, listText: string)

  /** The advanced settings tab's widgets. */
  class AdvancedTab {
    var dnsLeakSwitch: Switch
    var killswitchSwitch: Switch
    var splitTunnelingSwitch: Switch
    var splitTunnelingListSensitive: bool
    var splitTunnelingText: string      // the split-tunnelling list's text buffer
    var updateSplitTunnelingButtonSensitive: bool

    function View(): AdvancedView
      reads this
    {
      AdvancedView(dnsLeakSwitch, killswitchSwitch, splitTunnelingSwitch,
                   splitTunnelingListSensitive, updateSplitTunnelingButtonSensitive, splitTunnelingText)
    }
  }

  predicate StartsWith(s: string, prefix: string) {
    |prefix| <= |s| && s[..|prefix|] == prefix
  }

  // ---------------------------------------------------------------------
  // Success and failure messages of the single-setter updates
  // ---------------------------------------------------------------------

  const USER_PASS_FAILURE := "Unable to update username and password!"
  const USER_PASS_SUCCESS := "Username and password <b>updated</b>!"
  const PLAN_FAILURE := "Unable to update ProtonVPN Plan!"
  const PREFERENCE_FAILURE := "Unable to update configuration!"

  /** The dialog text after `set_user_pass`: the failure text exactly when it failed. */
  function UserPassMessage(ok: bool): (msg: string)
    ensures msg == USER_PASS_FAILURE <==> !ok
    ensures ok ==> Contains(msg, "<b>updated</b>")
  {
    if ok then
      assert USER_PASS_SUCCESS[22..36] == "<b>updated</b>";
      assert OccursAt(USER_PASS_SUCCESS, "<b>updated</b>", 22);
      assert |USER_PASS_SUCCESS| != |USER_PASS_FAILURE|;
      USER_PASS_SUCCESS
    else USER_PASS_FAILURE
  }

  /** The dialog text after `set_pvpn_tier`: the failure text exactly when it
      failed; on success it names the plan. */
  function PlanMessage(ok: bool, tierDisplay: string): (msg: string)
    ensures msg == PLAN_FAILURE <==> !ok
    ensures ok ==> Contains(msg, tierDisplay)
  {
    if ok then
      var pre := "ProtonVPN Plan has been updated to <b>";
      ContainsInfix(pre, tierDisplay, "</b>!\nServers list will be refreshed.");
      assert |pre + tierDisplay + "</b>!\nServers list will be refreshed."| > |PLAN_FAILURE|;
      pre + tierDisplay + "</b>!\nServers list will be refreshed."
    else PLAN_FAILURE
  }

  /** The one setter `update_connect_preference` calls: the quick-connect
      setter exactly when a `quick_connect` keyword was passed. */
  function PreferenceCall(quickConnect: bool, choice: string): (c: Call)
    ensures c.SetQuickconnect? <==> quickConnect
    ensures c.SetAutoconnect? <==> !quickConnect
    ensures (c.SetQuickconnect? || c.SetAutoconnect?) && c.choice == choice
  {
    if quickConnect then SetQuickconnect(choice) else SetAutoconnect(choice)
  }

  /** The dialog text after that setter: the failure text exactly when it
      failed; on success it names the setting changed and the country. */
  function PreferenceMessage(ok: bool, quickConnect: bool, countryDisplay: string): (msg: string)
    ensures msg == PREFERENCE_FAILURE <==> !ok
    ensures ok ==> StartsWith(msg, if quickConnect then "Quick connect" else "Autoconnect")
    ensures ok ==> Contains(msg, countryDisplay)
  {
    if ok then
      var setting := if quickConnect then "Quick connect" else "Autoconnect";
      var pre := setting + " setting updated to connect to <b>";
      var msg := pre + countryDisplay + "</b>!";
      ContainsInfix(pre, countryDisplay, "</b>!");
      assert msg[..|setting|] == setting;
      assert msg[|setting|] == ' ' && PREFERENCE_FAILURE[|setting|] != ' ';
      msg
    else PREFERENCE_FAILURE
  }

  // ---------------------------------------------------------------------
  // Split tunnelling
  // ---------------------------------------------------------------------

  /** What a presenter operation does: the setter calls it makes, in order,
      and the text it shows. */
  datatype Plan = Plan(calls: seq<Call>, message: string)

  /** `check_valid_ips` reported a bad address: `[False, ip]`-like lists. */
  predicate ReportsInvalidIp(validIps: seq<Value>) {
    |validIps| > 1 && !Truthy(validIps[0])
  }

  function InvalidIpMessage(ip: Value): string {
    "<b>" + ToStr(ip) + "</b> is not valid!\nNone of the IP's were added, please try again with a different IP."
  }

  const SPLIT_TUNNEL_UPDATED := "Split tunneling configurations <b>updated</b>!\n"
  const SPLIT_TUNNEL_DISABLED := "Split tunneling <b>disabled</b>!\n\n"
  const SPLIT_TUNNEL_NOT_DISABLED := "unable to disable Split Tunneling !\n\n"
  const KILLSWITCH_NOT_DISABLED :=
    "Split Tunneling <b>can't</b> be used with Kill Switch.\nKill Switch could not be disabled, cancelling update!"
  const KILLSWITCH_DISABLED :=
    "Split Tunneling <b>can't</b> be used with Kill Switch.\nKill Switch has been <b>disabled</b>!\n\n"
  const IPS_NOT_ADDED := "Unable to add IPs to Split Tunneling file!"

  function AddedMessage(ipList: seq<string>): string {
    SPLIT_TUNNEL_UPDATED + "The following servers were added:\n\n" + ListRepr(ipList)
  }

  /** The success text names every address, quoted as Python prints a list. */
  lemma AddedMessageNamesAddresses(ipList: seq<string>)
    ensures forall k :: 0 <= k < |ipList| ==> Contains(AddedMessage(ipList), "'" + ipList[k] + "'")
  {
    var pre := SPLIT_TUNNEL_UPDATED + "The following servers were added:\n\n";
    ListReprNamesItems(ipList);
    assert AddedMessage(ipList) == pre + ListRepr(ipList) + "";
    forall k | 0 <= k < |ipList|
      ensures Contains(AddedMessage(ipList), "'" + ipList[k] + "'")
    {
      ContainsWithin(pre, ListRepr(ipList), "", "'" + ipList[k] + "'");
    }
  }

  /** `update_split_tunneling` as written, for the reformatted address list,
      the validity report, the stored kill-switch flag and the service's
      answers. The checks run in order: invalid address, empty list, kill
      switch, then writing the addresses. */
  function SplitTunnelingPlan(ipList: seq<string>, validIps: seq<Value>, killswitch: int,
                              respond: Call -> bool): (p: Plan)
    // an invalid address stops everything, and the message names it
    ensures ReportsInvalidIp(validIps) ==> p.calls == [] && p.message == InvalidIpMessage(validIps[1])
    // an empty list only switches split tunnelling off
    ensures !ReportsInvalidIp(validIps) && ipList == [] ==>
      && p.calls == [SetSplitTunneling(0)]
      && (p.message == SPLIT_TUNNEL_DISABLED <==> respond(SetSplitTunneling(0)))
      && (p.message == SPLIT_TUNNEL_NOT_DISABLED <==> !respond(SetSplitTunneling(0)))
    // the kill switch is asked to turn off exactly when it is on and there are addresses
    ensures SetKillswitch(0) in p.calls <==> !ReportsInvalidIp(validIps) && ipList != [] && killswitch != 0
    // the addresses are written unless the kill switch was on and did turn off
    ensures SetSplitTunnelingIps(ipList) in p.calls <==>
      !ReportsInvalidIp(validIps) && ipList != [] && !(killswitch != 0 && respond(SetKillswitch(0)))
    ensures SetSplitTunnelingIps(ipList) in p.calls && !respond(SetSplitTunnelingIps(ipList)) ==>
      p.message == IPS_NOT_ADDED
    // with the kill switch off, a successful write reports the added addresses
    ensures !ReportsInvalidIp(validIps) && ipList != [] && killswitch == 0 && respond(SetSplitTunnelingIps(ipList)) ==>
      p.message == AddedMessage(ipList)
    // split tunnelling is switched off only for the empty list
    ensures SetSplitTunneling(0) in p.calls <==> !ReportsInvalidIp(validIps) && ipList == []
    // no other setter is called, none twice, and the kill switch comes first
    ensures forall c :: c in p.calls ==>
      c == SetSplitTunneling(0) || c == SetKillswitch(0) || c == SetSplitTunnelingIps(ipList)
    ensures forall i, j :: 0 <= i < j < |p.calls| ==> p.calls[i] != p.calls[j]
    ensures SetKillswitch(0) in p.calls ==> p.calls[0] == SetKillswitch(0)
    ensures |p.calls| <= 2
  {
    if ReportsInvalidIp(validIps) then Plan([], InvalidIpMessage(validIps[1]))
    else if |ipList| == 0 then
      Plan([SetSplitTunneling(0)],
           if respond(SetSplitTunneling(0)) then SPLIT_TUNNEL_DISABLED else SPLIT_TUNNEL_NOT_DISABLED)
    else
      var ksCalls := if killswitch != 0 then [SetKillswitch(0)] else [];
      var disabledKs := killswitch != 0 && respond(SetKillswitch(0));
      var result :=
        if killswitch == 0 then AddedMessage(ipList)
        else if disabledKs then KILLSWITCH_NOT_DISABLED + KILLSWITCH_DISABLED
        else KILLSWITCH_NOT_DISABLED;
      if disabledKs then Plan(ksCalls, result)
      else
        Plan(ksCalls + [SetSplitTunnelingIps(ipList)],
             if respond(SetSplitTunnelingIps(ipList)) then result else IPS_NOT_ADDED)
  }

  /** As written, turning the kill switch off successfully cancels the write
      of the addresses, and the text then reports both that the kill switch
      could not be disabled and that it has been. */
  lemma KillswitchDisabledCancelsUpdate(ipList: seq<string>, validIps: seq<Value>, killswitch: int,
                                        respond: Call -> bool)
    requires !ReportsInvalidIp(validIps) && ipList != [] && killswitch != 0
    requires respond(SetKillswitch(0))
    ensures var p := SplitTunnelingPlan(ipList, validIps, killswitch, respond);
      && SetSplitTunnelingIps(ipList) !in p.calls
      && p.message == KILLSWITCH_NOT_DISABLED + KILLSWITCH_DISABLED
  {
  }

  /** As written, a kill switch that could not be turned off does not stop the
      write: the addresses go to the file while the text says the update was
      cancelled. */
  lemma KillswitchStuckStillWrites(ipList: seq<string>, validIps: seq<Value>, killswitch: int,
                                   respond: Call -> bool)
    requires !ReportsInvalidIp(validIps) && ipList != [] && killswitch != 0
    requires !respond(SetKillswitch(0)) && respond(SetSplitTunnelingIps(ipList))
    ensures var p := SplitTunnelingPlan(ipList, validIps, killswitch, respond);
      && p.calls == [SetKillswitch(0), SetSplitTunnelingIps(ipList)]
      && p.message == KILLSWITCH_NOT_DISABLED
  {
  }

  /** The evidently intended rule: the addresses are written when the kill
      switch is off or has just been turned off, and the update is cancelled
      (with the cancellation text alone) when it stays on. */
  function SplitTunnelingPlanIntended(ipList: seq<string>, validIps: seq<Value>, killswitch: int,
                                      respond: Call -> bool): (p: Plan)
    ensures ReportsInvalidIp(validIps) ==> p.calls == [] && p.message == InvalidIpMessage(validIps[1])
    ensures !ReportsInvalidIp(validIps) && ipList == [] ==>
      && p.calls == [SetSplitTunneling(0)]
      && p.message == if respond(SetSplitTunneling(0)) then SPLIT_TUNNEL_DISABLED else SPLIT_TUNNEL_NOT_DISABLED
    ensures SetSplitTunneling(0) in p.calls <==> !ReportsInvalidIp(validIps) && ipList == []
    ensures forall c :: c in p.calls ==>
      c == SetSplitTunneling(0) || c == SetKillswitch(0) || c == SetSplitTunnelingIps(ipList)
    ensures forall i, j :: 0 <= i < j < |p.calls| ==> p.calls[i] != p.calls[j]
    ensures SetKillswitch(0) in p.calls ==> p.calls[0] == SetKillswitch(0)
    ensures |p.calls| <= 2
    ensures SetKillswitch(0) in p.calls <==> !ReportsInvalidIp(validIps) && ipList != [] && killswitch != 0
    ensures SetSplitTunnelingIps(ipList) in p.calls <==>
      !ReportsInvalidIp(validIps) && ipList != [] && (killswitch == 0 || respond(SetKillswitch(0)))
    ensures !ReportsInvalidIp(validIps) && ipList != [] && killswitch != 0 && !respond(SetKillswitch(0)) ==>
      p.message == KILLSWITCH_NOT_DISABLED
    ensures SetSplitTunnelingIps(ipList) in p.calls ==>
      p.message == (if respond(SetSplitTunnelingIps(ipList)) then
                      (if killswitch != 0 then KILLSWITCH_DISABLED else "") + AddedMessage(ipList)
                    else IPS_NOT_ADDED)
  {
    if ReportsInvalidIp(validIps) then Plan([], InvalidIpMessage(validIps[1]))
    else if |ipList| == 0 then
      Plan([SetSplitTunneling(0)],
           if respond(SetSplitTunneling(0)) then SPLIT_TUNNEL_DISABLED else SPLIT_TUNNEL_NOT_DISABLED)
    else SplitTunnelingAddPlan(ipList, killswitch, respond)
  }

  /** The corrected rule once the addresses are valid and not empty. */
  function SplitTunnelingAddPlan(ipList: seq<string>, killswitch: int, respond: Call -> bool): Plan {
    if killswitch != 0 && !respond(SetKillswitch(0)) then
      Plan([SetKillswitch(0)], KILLSWITCH_NOT_DISABLED)
    else
      var ksCalls := if killswitch != 0 then [SetKillswitch(0)] else [];
      var notice := if killswitch != 0 then KILLSWITCH_DISABLED else "";
      Plan(ksCalls + [SetSplitTunnelingIps(ipList)],
           if respond(SetSplitTunnelingIps(ipList)) then notice + AddedMessage(ipList) else IPS_NOT_ADDED)
  }

  /** The two rules agree except on the kill-switch branch. */
  lemma IntendedAgreesWithoutKillswitch(ipList: seq<string>, validIps: seq<Value>, killswitch: int,
                                        respond: Call -> bool)
    requires ReportsInvalidIp(validIps) || ipList == [] || killswitch == 0
    ensures SplitTunnelingPlanIntended(ipList, validIps, killswitch, respond)
         == SplitTunnelingPlan(ipList, validIps, killswitch, respond)
  {
  }

  // ---------------------------------------------------------------------
  // Tray display settings
  // ---------------------------------------------------------------------

  /** The tray item a setting's name refers to: the first of "serverload",
      "server", "data", "time" that occurs in it, or "" when none does. */
  function TrayCategory(display: string): (category: string)
    ensures Contains(display, "serverload") ==> category == "server load"
    ensures !Contains(display, "serverload") && Contains(display, "server") ==> category == "server name"
    ensures !Contains(display, "server") && Contains(display, "data") ==> category == "data transmission"
    ensures !Contains(display, "server") && !Contains(display, "data") && Contains(display, "time") ==>
      category == "time connected"
    ensures !Contains(display, "server") && !Contains(display, "data") && !Contains(display, "time") ==>
      category == ""
  {
    if Contains(display, "serverload") then
      ServerloadMentionsServer(display);
      "server load"
    else if Contains(display, "server") then "server name"
    else if Contains(display, "data") then "data transmission"
    else if Contains(display, "time") then "time connected"
    else ""
  }

  /** Every name that mentions "serverload" also mentions "server", so the
      order of the tests is what sends it to "server load". */
  lemma ServerloadMentionsServer(display: string)
    requires Contains(display, "serverload")
    ensures Contains(display, "server")
  {
    ContainsPrefixOfNeedle(display, "serverload", 6);
    assert "serverload"[..6] == "server";
  }

  /** "displayed" exactly for the value 1, "hidden" for every other value. */
  function TrayVisibility(value: int): (word: string)
    ensures word == "displayed" <==> value == 1
    ensures word == "hidden" <==> value != 1
  {
    if value == 1 then "displayed" else "hidden"
  }

  /** The text `tray_configurations` logs after `set_tray_setting`. */
  function TrayResult(display: string, value: int, ok: bool): (result: string)
    ensures ok <==> StartsWith(result, "Tray ")
    ensures Contains(result, TrayCategory(display)) && Contains(result, TrayVisibility(value))
  {
    var category, shown := TrayCategory(display), TrayVisibility(value);
    if ok then
      TwoSlots("Tray ", category, " is <b>", shown, "</b>!");
      "Tray " + category + " is <b>" + shown + "</b>!"
    else
      var s := "Unable to update " + category + " to " + shown + "!";
      TwoSlots("Unable to update ", category, " to ", shown, "!");
      assert s[0] == "Unable to update "[0];
      s
  }

  /** A message built as a + x + b + y + c starts with a and names both x and y. */
  lemma TwoSlots(a: string, x: string, b: string, y: string, c: string)
    ensures StartsWith(a + x + b + y + c, a)
    ensures Contains(a + x + b + y + c, x) && Contains(a + x + b + y + c, y)
  {
    var s := a + x + b + y + c;
    assert s[..|a|] == a;
    ContainsInfix(a, x, b + y + c);
    assert a + x + (b + y + c) == s;
    ContainsInfix(a + x + b, y, c);
  }

  /** The combobox index stored for a tray setting, 0 when the key is missing. */
  function TrayIndex(trayTab: map<string, int>, key: string): (index: int)
    ensures key in trayTab ==> index == trayTab[key]
    ensures key !in trayTab ==> index == 0
  {
    if key in trayTab then trayTab[key] else 0
  }

  // ---------------------------------------------------------------------
  // The autoconnect list
  // ---------------------------------------------------------------------

  /** A (code, label) pair: an item of an ordered dictionary or of the
      country-code table. */
  type Entry = (string, string)

  const SPECIAL_CHOICES: map<string, string> := map[
    "dis" := "Disabled",
    "fast" := "Fastest",
    "rand" := "Random",
    "p2p" := "Peer2Peer",
    "sc" := "Secure Core (Plus/Visionary)",
    "tor" := "Tor (Plus/Visionary)"]

  /** The country codes whose name equals `alt` ignoring case, in table order. */
  function MatchingCountries(alt: string, codes: seq<Entry>): (r: seq<Entry>)
    ensures forall e :: e in r <==> e in codes && EqualsIgnoringCase(alt, e.1)
    ensures |r| <= |codes|
    decreases |codes|
  {
    if |codes| == 0 then []
    else
      var last := codes[|codes| - 1];
      assert codes == codes[..|codes| - 1] + [last];
      MatchingCountries(alt, codes[..|codes| - 1]) + (if EqualsIgnoringCase(alt, last.1) then [last] else [])
  }

  /** The indices of the table entries whose name equals `alt` ignoring
      case, scanning the table from the start. */
  function MatchingIndices(alt: string, codes: seq<Entry>): seq<nat>
    decreases |codes|
  {
    if |codes| == 0 then []
    else
      var n := |codes| - 1;
      MatchingIndices(alt, codes[..n]) + (if EqualsIgnoringCase(alt, codes[n].1) then [n] else [])
  }

  /** The matching indices are increasing, each one is a position of a
      matching entry, and every matching position is among them. */
  lemma {:induction false} MatchingIndicesExact(alt: string, codes: seq<Entry>)
    ensures forall k :: 0 <= k < |MatchingIndices(alt, codes)| ==>
      MatchingIndices(alt, codes)[k] < |codes| && EqualsIgnoringCase(alt, codes[MatchingIndices(alt, codes)[k]].1)
    ensures forall k, l :: 0 <= k < l < |MatchingIndices(alt, codes)| ==>
      MatchingIndices(alt, codes)[k] < MatchingIndices(alt, codes)[l]
    ensures forall j :: 0 <= j < |codes| && EqualsIgnoringCase(alt, codes[j].1) ==> j in MatchingIndices(alt, codes)
    decreases |codes|
  {
    if |codes| > 0 {
      var n := |codes| - 1;
      MatchingIndicesExact(alt, codes[..n]);
      var idx0 := MatchingIndices(alt, codes[..n]);
      assert MatchingIndices(alt, codes) == idx0 + (if EqualsIgnoringCase(alt, codes[n].1) then [n] else []);
      forall k | 0 <= k < |idx0|
        ensures idx0[k] < n && EqualsIgnoringCase(alt, codes[idx0[k]].1)
      {
        assert codes[..n][idx0[k]] == codes[idx0[k]];
      }
      forall j | 0 <= j < n && EqualsIgnoringCase(alt, codes[j].1)
        ensures j in idx0
      {
        assert codes[..n][j] == codes[j];
      }
    }
  }

  /** The matches come in table order, each matching entry once: the k-th
      match is the entry at the k-th matching index. */
  lemma {:induction false} MatchingCountriesInTableOrder(alt: string, codes: seq<Entry>)
    ensures var r := MatchingCountries(alt, codes);
      var idx := MatchingIndices(alt, codes);
      |r| == |idx| && forall k :: 0 <= k < |idx| ==> idx[k] < |codes| && r[k] == codes[idx[k]]
    decreases |codes|
  {
    if |codes| > 0 {
      var n := |codes| - 1;
      MatchingCountriesInTableOrder(alt, codes[..n]);
      var r0 := MatchingCountries(alt, codes[..n]);
      var idx0 := MatchingIndices(alt, codes[..n]);
      forall k | 0 <= k < |idx0|
        ensures r0[k] == codes[idx0[k]]
      {
        assert codes[..n][idx0[k]] == codes[idx0[k]];
      }
      MatchingOneMore(alt, codes, r0, idx0);
    }
  }

  /** The step of `MatchingCountriesInTableOrder`: one more table entry
      extends both the matches and their positions, or neither. */
  lemma MatchingOneMore(alt: string, codes: seq<Entry>, r0: seq<Entry>, idx0: seq<nat>)
    requires |codes| > 0
    requires r0 == MatchingCountries(alt, codes[..|codes| - 1])
    requires idx0 == MatchingIndices(alt, codes[..|codes| - 1])
    requires |r0| == |idx0| && forall k :: 0 <= k < |idx0| ==> idx0[k] < |codes| - 1 && r0[k] == codes[idx0[k]]
    ensures var r := MatchingCountries(alt, codes);
      var idx := MatchingIndices(alt, codes);
      |r| == |idx| && forall k :: 0 <= k < |idx| ==> idx[k] < |codes| && r[k] == codes[idx[k]]
  {
    var n := |codes| - 1;
    if EqualsIgnoringCase(alt, codes[n].1) {
      assert MatchingCountries(alt, codes) == r0 + [codes[n]];
      assert MatchingIndices(alt, codes) == idx0 + [n];
    } else {
      assert r0 + [] == r0 && idx0 + [] == idx0;
      assert MatchingCountries(alt, codes) == r0;
      assert MatchingIndices(alt, codes) == idx0;
    }
  }

  /** Only the lower-cased alternative matters when matching country names. */
  lemma {:induction false} MatchingIgnoresCaseOfAlternative(a: string, b: string, codes: seq<Entry>)
    requires Lower(a) == Lower(b)
    ensures MatchingCountries(a, codes) == MatchingCountries(b, codes)
    decreases |codes|
  {
    if |codes| > 0 {
      MatchingIgnoresCaseOfAlternative(a, b, codes[..|codes| - 1]);
    }
  }

  /** Scanning one more country code. */
  lemma MatchingStep(alt: string, codes: seq<Entry>, j: nat)
    requires j < |codes|
    ensures MatchingCountries(alt, codes[..j + 1])
         == MatchingCountries(alt, codes[..j]) + (if Lower(alt) == Lower(codes[j].1) then [codes[j]] else [])
  {
    assert codes[..j + 1][..j] == codes[..j];
  }

  /** What one autoconnect alternative contributes: its fixed label when it is
      a special key, otherwise every country whose name it is (ignoring case). */
  function Expand(alt: string, codes: seq<Entry>): (r: seq<Entry>)
    ensures alt in SPECIAL_CHOICES ==> r == [(alt, SPECIAL_CHOICES[alt])]
    ensures alt !in SPECIAL_CHOICES ==> r == MatchingCountries(alt, codes)
    ensures alt !in SPECIAL_CHOICES ==> forall e :: e in r <==> e in codes && EqualsIgnoringCase(alt, e.1)
    ensures alt !in SPECIAL_CHOICES && (forall e :: e in codes ==> !EqualsIgnoringCase(alt, e.1)) ==> r == []
  {
    if alt in SPECIAL_CHOICES then [(alt, SPECIAL_CHOICES[alt])]
    else
      var r := MatchingCountries(alt, codes);
      assert |r| > 0 ==> r[0] in r;
      r
  }

  /** Every insertion made for a list of alternatives, in order. */
  function Entries(alts: seq<string>, codes: seq<Entry>): seq<Entry>
    decreases |alts|
  {
    if |alts| == 0 then [] else Entries(alts[..|alts| - 1], codes) + Expand(alts[|alts| - 1], codes)
  }

  /** One more alternative adds its own insertions at the end. */
  lemma EntriesSnoc(alts: seq<string>, alt: string, codes: seq<Entry>)
    ensures Entries(alts + [alt], codes) == Entries(alts, codes) + Expand(alt, codes)
  {
    assert (alts + [alt])[..|alts|] == alts;
  }

  /** The insertions for two lists of alternatives are those of the first
      followed by those of the second. */
  lemma {:induction false} EntriesAppend(a: seq<string>, b: seq<string>, codes: seq<Entry>)
    ensures Entries(a + b, codes) == Entries(a, codes) + Entries(b, codes)
    decreases |b|
  {
    if |b| == 0 {
      assert a + b == a;
    } else {
      var b', last := b[..|b| - 1], b[|b| - 1];
      assert b == b' + [last];
      assert a + b == (a + b') + [last];
      EntriesAppend(a, b', codes);
      EntriesSnoc(a + b', last, codes);
      EntriesSnoc(b', last, codes);
      ConcatAssociative(Entries(a, codes), Entries(b', codes), Expand(last, codes));
    }
  }

  /** The list-store row appended for an insertion: code, label, code. */
  function Rows(es: seq<Entry>): (rows: seq<seq<string>>)
    ensures |rows| == |es|
  {
    seq(|es|, i requires 0 <= i < |es| => [es[i].0, es[i].1, es[i].0])
  }

  lemma RowsAppend(a: seq<Entry>, b: seq<Entry>)
    ensures Rows(a + b) == Rows(a) + Rows(b)
  {
    forall i | 0 <= i < |a + b|
      ensures Rows(a + b)[i] == (Rows(a) + Rows(b))[i]
    {
      if i < |a| {
        assert (a + b)[i] == a[i];
      } else {
        assert (a + b)[i] == b[i - |a|];
      }
    }
  }

  /** The keys of an ordered dictionary, in order. */
  function KeysOf(d: seq<Entry>): (ks: seq<string>)
    ensures |ks| == |d|
    ensures forall i :: 0 <= i < |d| ==> ks[i] == d[i].0
  {
    seq(|d|, i requires 0 <= i < |d| => d[i].0)
  }

  predicate Distinct(ks: seq<string>) {
    forall i, j :: 0 <= i < j < |ks| ==> ks[i] != ks[j]
  }

  /** `d.get(k)`: the value stored under `k`. */
  function Lookup(d: seq<Entry>, k: string): Option<string>
    decreases |d|
  {
    if |d| == 0 then None else if d[0].0 == k then Some(d[0].1) else Lookup(d[1..], k)
  }

  /** `d[k] = v` on an ordered dictionary: a key already present keeps its
      place and takes the new value; a new key goes to the end. */
  function Put(d: seq<Entry>, k: string, v: string): (r: seq<Entry>)
    ensures KeysOf(r) == if k in KeysOf(d) then KeysOf(d) else KeysOf(d) + [k]
    ensures Lookup(r, k) == Some(v)
    ensures forall k' :: k' != k ==> Lookup(r, k') == Lookup(d, k')
    decreases |d|
  {
    if |d| == 0 then [(k, v)]
    else if d[0].0 == k then
      assert KeysOf(d)[0] == k;
      assert KeysOf([(k, v)] + d[1..]) == KeysOf(d);
      [(k, v)] + d[1..]
    else
      var rest := Put(d[1..], k, v);
      assert d == [d[0]] + d[1..];
      KeysOfCons(d[0], d[1..]);
      KeysOfCons(d[0], rest);
      assert (k in KeysOf(d)) <==> (k in KeysOf(d[1..]));
      assert k !in KeysOf(d[1..]) ==>
        [d[0].0] + (KeysOf(d[1..]) + [k]) == ([d[0].0] + KeysOf(d[1..])) + [k];
      assert ([d[0]] + rest)[1..] == rest;
      [d[0]] + rest
  }

  lemma KeysOfCons(e: Entry, rest: seq<Entry>)
    ensures KeysOf([e] + rest) == [e.0] + KeysOf(rest)
  {
  }

  /** Insert every entry in order. */
  function PutAll(d: seq<Entry>, es: seq<Entry>): seq<Entry>
    decreases |es|
  {
    if |es| == 0 then d else Put(PutAll(d, es[..|es| - 1]), es[|es| - 1].0, es[|es| - 1].1)
  }

  /** Inserting `a` and then `b` is inserting `a + b`. */
  lemma {:induction false} PutAllAppend(d: seq<Entry>, a: seq<Entry>, b: seq<Entry>)
    ensures PutAll(d, a + b) == PutAll(PutAll(d, a), b)
    decreases |b|
  {
    if |b| == 0 {
      assert a + b == a;
    } else {
      var b' := b[..|b| - 1];
      assert (a + b)[..|a + b| - 1] == a + b';
      PutAllAppend(d, a, b');
    }
  }

  /** The value of the last entry with key `k`. */
  function LastValue(es: seq<Entry>, k: string): (r: Option<string>)
    ensures r.None? <==> forall i :: 0 <= i < |es| ==> es[i].0 != k
    decreases |es|
  {
    if |es| == 0 then None
    else if es[|es| - 1].0 == k then Some(es[|es| - 1].1)
    else LastValue(es[..|es| - 1], k)
  }

  /** A key is stored exactly when it is one of the keys. */
  lemma {:induction false} LookupFindsKeys(d: seq<Entry>, k: string)
    ensures Lookup(d, k).Some? <==> k in KeysOf(d)
    decreases |d|
  {
    if |d| > 0 {
      LookupFindsKeys(d[1..], k);
      assert KeysOf(d) == [d[0].0] + KeysOf(d[1..]);
    }
  }

  /** After inserting a list of entries, each key holds the value of its last
      entry, and keys without entries keep what they had. */
  lemma {:induction false} PutAllLookup(d: seq<Entry>, es: seq<Entry>, k: string)
    ensures Lookup(PutAll(d, es), k) == if LastValue(es, k).Some? then LastValue(es, k) else Lookup(d, k)
    decreases |es|
  {
    if |es| > 0 {
      PutAllLookup(d, es[..|es| - 1], k);
    }
  }

  /** Inserting never duplicates a key. */
  lemma {:induction false} PutAllDistinct(d: seq<Entry>, es: seq<Entry>)
    requires Distinct(KeysOf(d))
    ensures Distinct(KeysOf(PutAll(d, es)))
    decreases |es|
  {
    if |es| > 0 {
      PutAllDistinct(d, es[..|es| - 1]);
      var before := PutAll(d, es[..|es| - 1]);
      var k := es[|es| - 1].0;
      var ks := KeysOf(before);
      if k !in ks {
        assert forall i :: 0 <= i < |ks| ==> (ks + [k])[i] == ks[i];
      }
    }
  }

  /** The ordered dictionary `populate_autoconnect_list` returns agrees with
      the rows it appends: its keys are distinct, a key is present exactly
      when some row has it as code, and it maps that key to the label of the
      last such row. */
  lemma ChoicesMatchRows(alts: seq<string>, codes: seq<Entry>)
    ensures var es := Entries(alts, codes);
      var choices := PutAll([], es);
      && Distinct(KeysOf(choices))
      && (forall k :: Lookup(choices, k) == LastValue(es, k))
      && (forall k :: k in KeysOf(choices) <==> exists i :: 0 <= i < |es| && es[i].0 == k)
  {
    var es := Entries(alts, codes);
    var choices := PutAll([], es);
    PutAllDistinct([], es);
    forall k
      ensures Lookup(choices, k) == LastValue(es, k)
      ensures k in KeysOf(choices) <==> exists i :: 0 <= i < |es| && es[i].0 == k
    {
      PutAllLookup([], es, k);
      LookupFindsKeys(choices, k);
    }
  }

  // ---------------------------------------------------------------------
  // Loading the advanced tab, and the protocol combobox
  // ---------------------------------------------------------------------

  /** The stored split-tunnelling flag, '0' when the key is missing. */
  function SplitTunnelSetting(stored: Option<string>): (flag: string)
    ensures stored.None? ==> flag == "0"
    ensures stored.Some? ==> flag == stored.value
  {
    stored.GetOr("0")
  }

  /** The advanced tab after `load_advanced_settings`. The kill switch and
      split tunnelling exclude each other: whichever is on locks the other's
      switch, with both on the address list and its button lock too, and
      loading never makes a widget sensitive again. */
  function AdvancedAfterLoad(before: AdvancedView, dnsLeakProtection: string, killswitch: string,
                             splitTunnel: Option<string>, tunnelFile: Option<string>): (after: AdvancedView)
    ensures after.dnsLeak == before.dnsLeak.(active := dnsLeakProtection == "1")
    ensures after.killswitch.active <==> killswitch != "0"
    ensures after.splitTunneling.active <==> SplitTunnelSetting(splitTunnel) != "0"
    ensures after.killswitch.active ==> !after.splitTunneling.sensitive
    ensures after.splitTunneling.active ==> !after.killswitch.sensitive
    ensures after.killswitch.sensitive <==> before.killswitch.sensitive && !after.splitTunneling.active
    ensures after.splitTunneling.sensitive <==> before.splitTunneling.sensitive && !after.killswitch.active
    ensures after.listSensitive <==>
      before.listSensitive && !(after.killswitch.active && after.splitTunneling.active)
    ensures after.updateButtonSensitive <==>
      before.updateButtonSensitive && !(after.killswitch.active && after.splitTunneling.active)
    ensures after.listText == if after.splitTunneling.active then tunnelFile.GetOr("") else before.listText
  {
    var ksOn := killswitch != "0";
    var stOn := SplitTunnelSetting(splitTunnel) != "0";
    AdvancedView(
      before.dnsLeak.(active := dnsLeakProtection == "1"),
      Switch(ksOn, before.killswitch.sensitive && !stOn),
      Switch(stOn, before.splitTunneling.sensitive && !ksOn),
      before.listSensitive && !(ksOn && stOn),
      before.updateButtonSensitive && !(ksOn && stOn),
      if stOn then tunnelFile.GetOr("") else before.listText)
  }

  /** A missing split_tunnel key loads exactly like a stored '0'. */
  lemma MissingSplitTunnelIsOff(before: AdvancedView, dnsLeakProtection: string, killswitch: string,
                                tunnelFile: Option<string>)
    ensures AdvancedAfterLoad(before, dnsLeakProtection, killswitch, None, tunnelFile)
         == AdvancedAfterLoad(before, dnsLeakProtection, killswitch, Some("0"), tunnelFile)
  {
  }

  /** The protocol combobox index: 0 for "tcp", 1 for anything else. */
  function ProtocolIndex(defaultProtocol: string): (index: int)
    ensures index == 0 <==> defaultProtocol == "tcp"
    ensures index == 0 || index == 1
  {
    if defaultProtocol == "tcp" then 0 else 1
  }

  // ---------------------------------------------------------------------
  // The presenter
  // ---------------------------------------------------------------------

  class SettingsPresenter {
    const service: SettingsService

    constructor (service: SettingsService)
      ensures this.service == service
    {
      this.service := service;
    }

    /** `update_user_pass` */
    method UpdateUserPass(dialog: DialogWindow, username: string, password: string)
      modifies service`calls, dialog
      ensures service.calls == old(service.calls) + [SetUserPass(username, password)]
      ensures dialog.texts == old(dialog.texts) + [UserPassMessage(service.respond(SetUserPass(username, password)))]
    {
      var msg := USER_PASS_FAILURE;
      var ok := service.Perform(SetUserPass(username, password));
      if ok {
        msg := USER_PASS_SUCCESS;
      }
      dialog.UpdateDialog(msg);
    }

    /** `update_dns` */
    method UpdateDns(dnsValue: string)
      modifies service`calls
      ensures service.calls == old(service.calls) + [SetDns(dnsValue)]
    {
      var _ := service.Perform(SetDns(dnsValue));
    }

    /** `update_pvpn_plan` */
    method UpdatePvpnPlan(dialog: DialogWindow, tier: int, tierDisplay: string)
      modifies service`calls, dialog
      ensures service.calls == old(service.calls) + [SetPvpnTier(tier)]
      ensures dialog.texts == old(dialog.texts) + [PlanMessage(service.respond(SetPvpnTier(tier)), tierDisplay)]
    {
      var msg := PLAN_FAILURE;
      var ok := service.Perform(SetPvpnTier(tier));
      if ok {
        msg := "ProtonVPN Plan has been updated to <b>" + tierDisplay + "</b>!\nServers list will be refreshed.";
      }
      dialog.UpdateDialog(msg);
    }

    /** `update_connect_preference`; `quickConnect` says whether a
        `quick_connect` keyword argument was passed. */
    method UpdateConnectPreference(dialog: DialogWindow, userChoice: string, quickConnect: bool,
                                   countryDisplay: string)
      modifies service`calls, dialog
      ensures var c := PreferenceCall(quickConnect, userChoice);
        && service.calls == old(service.calls) + [c]
        && dialog.texts == old(dialog.texts) + [PreferenceMessage(service.respond(c), quickConnect, countryDisplay)]
    {
      var returnVal;
      if !quickConnect {
        returnVal := service.Perform(SetAutoconnect(userChoice));
      } else {
        returnVal := service.Perform(SetQuickconnect(userChoice));
      }
      var msg := PREFERENCE_FAILURE;
      if returnVal {
        msg := (if !quickConnect then "Autoconnect" else "Quick connect")
               + " setting updated to connect to <b>" + countryDisplay + "</b>!";
      }
      dialog.UpdateDialog(msg);
    }

    /** `update_split_tunneling` with the kill-switch branch corrected (see
        `SplitTunnelingPlanIntended`); `killswitch` is the stored kill-switch
        flag as an integer. */
    method UpdateSplitTunneling(dialog: DialogWindow, splitTunnelingContent: string, killswitch: int)
      modifies service`calls, dialog
      ensures var ipList := service.reformatIpList(splitTunnelingContent);
        var p := SplitTunnelingPlanIntended(ipList, service.checkValidIps(ipList), killswitch, service.respond);
        && service.calls == old(service.calls) + p.calls
        && dialog.texts == old(dialog.texts) + [p.message]
    {
      var result := SPLIT_TUNNEL_UPDATED;
      var ipList := service.reformatIpList(splitTunnelingContent);
      var validIps := service.checkValidIps(ipList);
      ghost var calls0, texts0 := service.calls, dialog.texts;
      ghost var p := SplitTunnelingPlanIntended(ipList, validIps, killswitch, service.respond);

      if |validIps| > 1 && !Truthy(validIps[0]) {
        dialog.UpdateDialog(InvalidIpMessage(validIps[1]));
        assert p == Plan([], InvalidIpMessage(validIps[1]));
        return;
      }

      if |ipList| == 0 {
        result := SPLIT_TUNNEL_NOT_DISABLED;
        var ok := service.Perform(SetSplitTunneling(0));
        if ok {
          result := SPLIT_TUNNEL_DISABLED;
        }
        assert p == Plan([SetSplitTunneling(0)], result);
      } else {
        result := AddSplitTunnelingIps(ipList, killswitch);
      }
      dialog.UpdateDialog(result);
    }

    /** The branch of `update_split_tunneling` for a valid, non-empty address
        list: turn the kill switch off first when it is on, then write the
        addresses unless that failed. */
    method AddSplitTunnelingIps(ipList: seq<string>, killswitch: int) returns (result: string)
      modifies service`calls
      ensures var p := SplitTunnelingAddPlan(ipList, killswitch, service.respond);
        service.calls == old(service.calls) + p.calls && result == p.message
    {
      ghost var calls0 := service.calls;
      result := AddedMessage(ipList);
      var cancelled := false;
      if killswitch != 0 {
        var ok := service.Perform(SetKillswitch(0));
        if ok {
          result := KILLSWITCH_DISABLED + result;
        } else {
          result := KILLSWITCH_NOT_DISABLED;
          cancelled := true;
        }
      }
      if !cancelled {
        ghost var ksCalls := service.calls[|calls0|..];
        assert ksCalls == if killswitch != 0 then [SetKillswitch(0)] else [];
        var ok := service.Perform(SetSplitTunnelingIps(ipList));
        if !ok {
          result := IPS_NOT_ADDED;
        }
        assert killswitch == 0 ==> "" + AddedMessage(ipList) == AddedMessage(ipList);
        assert service.calls == calls0 + (ksCalls + [SetSplitTunnelingIps(ipList)]);
      }
    }

    /** `tray_configurations`; returns the text it hands to the logger. */
    method TrayConfigurations(settingDisplay: string, settingValue: int) returns (logged: string)
      modifies service`calls
      ensures service.calls == old(service.calls) + [SetTraySetting(settingDisplay, settingValue)]
      ensures logged == TrayResult(settingDisplay, settingValue,
                                   service.respond(SetTraySetting(settingDisplay, settingValue)))
    {
      var msg := TrayCategory(settingDisplay);
      var shown := if settingValue == 1 then "displayed" else "hidden";
      logged := "Tray " + msg + " is <b>" + shown + "</b>!";
      var ok := service.Perform(SetTraySetting(settingDisplay, settingValue));
      if !ok {
        logged := "Unable to update " + msg + " to " + shown + "!";
      }
    }

    /** `load_tray_settings`: `trayConfig` is the items of the tray
        configuration table (combobox name, stored key), `trayTab` the stored
        tray settings as integers. */
    method LoadTraySettings(comboboxes: ComboBoxes, trayConfig: seq<Entry>, trayTab: map<string, int>)
      requires Distinct(KeysOf(trayConfig))
      requires forall i :: 0 <= i < |trayConfig| ==> trayConfig[i].0 in comboboxes.active
      modifies comboboxes
      ensures comboboxes.active.Keys == old(comboboxes.active.Keys)
      ensures forall i :: 0 <= i < |trayConfig| ==>
        comboboxes.active[trayConfig[i].0] == TrayIndex(trayTab, trayConfig[i].1)
      ensures forall name :: name in old(comboboxes.active) && name !in KeysOf(trayConfig) ==>
        comboboxes.active[name] == old(comboboxes.active)[name]
    {
      for n := 0 to |trayConfig|
        invariant comboboxes.active.Keys == old(comboboxes.active.Keys)
        invariant forall i :: 0 <= i < n ==>
          comboboxes.active[trayConfig[i].0] == TrayIndex(trayTab, trayConfig[i].1)
        invariant forall name :: name in old(comboboxes.active) && name !in KeysOf(trayConfig)[..n] ==>
          comboboxes.active[name] == old(comboboxes.active)[name]
      {
        var (k, v) := trayConfig[n];
        var setter := 0;
        if v in trayTab {
          setter := trayTab[v];
        }
        comboboxes.SetActive(k, setter);
        assert KeysOf(trayConfig)[..n + 1] == KeysOf(trayConfig)[..n] + [k];
      }
      assert KeysOf(trayConfig)[..|trayConfig|] == KeysOf(trayConfig);
    }

    /** `load_advanced_settings`: `splitTunnel` is None when the key is
        missing, `tunnelFile` None when the address file does not exist. */
    method LoadAdvancedSettings(tab: AdvancedTab, dnsLeakProtection: string, killswitch: string,
                                splitTunnel: Option<string>, tunnelFile: Option<string>)
      modifies tab
      ensures tab.View() == AdvancedAfterLoad(old(tab.View()), dnsLeakProtection, killswitch, splitTunnel, tunnelFile)
    {
      var splitTunnelFlag := if splitTunnel.Some? then splitTunnel.value else "0";

      if dnsLeakProtection == "1" {
        tab.dnsLeakSwitch := tab.dnsLeakSwitch.(active := true);
      } else {
        tab.dnsLeakSwitch := tab.dnsLeakSwitch.(active := false);
      }

      if killswitch != "0" {
        tab.killswitchSwitch := tab.killswitchSwitch.(active := true);
        tab.splitTunnelingSwitch := tab.splitTunnelingSwitch.(sensitive := false);
      } else {
        tab.killswitchSwitch := tab.killswitchSwitch.(active := false);
      }

      if splitTunnelFlag != "0" {
        tab.splitTunnelingSwitch := tab.splitTunnelingSwitch.(active := true);
        tab.killswitchSwitch := tab.killswitchSwitch.(sensitive := false);
        if killswitch != "0" {
          tab.splitTunnelingListSensitive := false;
          tab.updateSplitTunnelingButtonSensitive := false;
        }
        var content := "";
        if tunnelFile.Some? {
          content := tunnelFile.value;
        }
        tab.splitTunnelingText := content;
      } else {
        tab.splitTunnelingSwitch := tab.splitTunnelingSwitch.(active := false);
      }
    }

    /** `populate_autoconnect_list`: appends a row for every insertion and,
        when `returnList` is set, returns the ordered dictionary built
        alongside (Python's implicit `None` otherwise). `countryCodes` is the
        CLI library's country-code table, in its order. */
    method PopulateAutoconnectList(liststore: ListStore, countryCodes: seq<Entry>, returnList: bool)
      returns (result: Option<seq<Entry>>)
      modifies liststore
      ensures var es := Entries(service.autoconnectAlternatives, countryCodes);
        && liststore.rows == old(liststore.rows) + Rows(es)
        && result == if returnList then Some(PutAll([], es)) else None
    {
      var alternatives := service.autoconnectAlternatives;
      var returnValues := [];
      ghost var rows0 := liststore.rows;
      for i := 0 to |alternatives|
        invariant liststore.rows == rows0 + Rows(Entries(alternatives[..i], countryCodes))
        invariant returnValues == PutAll([], Entries(alternatives[..i], countryCodes))
      {
        PopulateStep(alternatives, i, countryCodes);
        returnValues := AppendAlternative(liststore, returnValues, alternatives[i], countryCodes);
        ConcatAssociative(rows0, Rows(Entries(alternatives[..i], countryCodes)), Rows(Expand(alternatives[i], countryCodes)));
      }
      assert alternatives[..|alternatives|] == alternatives;
      result := if returnList then Some(returnValues) else None;
    }
  }

  /** The body of the outer loop of `populate_autoconnect_list`: a special key
      is inserted with its fixed label; any other alternative goes through the
      country-code table. */
  method AppendAlternative(liststore: ListStore, d: seq<Entry>, alt: string, countryCodes: seq<Entry>)
    returns (returnValues: seq<Entry>)
    modifies liststore
    ensures liststore.rows == old(liststore.rows) + Rows(Expand(alt, countryCodes))
    ensures returnValues == PutAll(d, Expand(alt, countryCodes))
  {
    if alt in SPECIAL_CHOICES {
      returnValues := Put(d, alt, SPECIAL_CHOICES[alt]);
      liststore.Append([alt, SPECIAL_CHOICES[alt], alt]);
      InsertOne(d, [], (alt, SPECIAL_CHOICES[alt]));
      assert [] + [(alt, SPECIAL_CHOICES[alt])] == Expand(alt, countryCodes);
    } else {
      returnValues := AppendMatchingCountries(liststore, d, alt, countryCodes);
    }
  }

  lemma ConcatAssociative<T>(a: seq<T>, b: seq<T>, c: seq<T>)
    ensures (a + b) + c == a + (b + c)
  {
  }

  /** The rows and the dictionary after one more alternative. */
  lemma PopulateStep(alts: seq<string>, i: nat, codes: seq<Entry>)
    requires i < |alts|
    ensures Rows(Entries(alts[..i + 1], codes)) == Rows(Entries(alts[..i], codes)) + Rows(Expand(alts[i], codes))
    ensures PutAll([], Entries(alts[..i + 1], codes)) == PutAll(PutAll([], Entries(alts[..i], codes)), Expand(alts[i], codes))
  {
    assert alts[..i + 1][..i] == alts[..i];
    RowsAppend(Entries(alts[..i], codes), Expand(alts[i], codes));
    PutAllAppend([], Entries(alts[..i], codes), Expand(alts[i], codes));
  }

  /** One insertion: `d[k] = v` and one appended row. */
  lemma InsertOne(d: seq<Entry>, es: seq<Entry>, e: Entry)
    ensures PutAll(d, es + [e]) == Put(PutAll(d, es), e.0, e.1)
    ensures Rows(es + [e]) == Rows(es) + [[e.0, e.1, e.0]]
  {
    assert (es + [e])[..|es|] == es;
    RowsAppend(es, [e]);
  }

  /** The inner loop of `populate_autoconnect_list`: every country whose name
      is `alt`, ignoring case, is inserted into `d` and appended as a row. */
  method AppendMatchingCountries(liststore: ListStore, d: seq<Entry>, alt: string, countryCodes: seq<Entry>)
    returns (returnValues: seq<Entry>)
    modifies liststore
    ensures liststore.rows == old(liststore.rows) + Rows(MatchingCountries(alt, countryCodes))
    ensures returnValues == PutAll(d, MatchingCountries(alt, countryCodes))
  {
    returnValues := d;
    ghost var rows0 := liststore.rows;
    for j := 0 to |countryCodes|
      invariant liststore.rows == rows0 + Rows(MatchingCountries(alt, countryCodes[..j]))
      invariant returnValues == PutAll(d, MatchingCountries(alt, countryCodes[..j]))
    {
      var (k, v) := countryCodes[j];
      ghost var found := MatchingCountries(alt, countryCodes[..j]);
      MatchingStep(alt, countryCodes, j);
      if Lower(alt) == Lower(v) {
        returnValues := Put(returnValues, k, v);
        ghost var rowsBefore := liststore.rows;
        liststore.Append([k, v, k]);
        assert MatchingCountries(alt, countryCodes[..j + 1]) == found + [(k, v)];
        InsertOne(d, found, (k, v));
        ConcatAssociative(rows0, Rows(found), [[k, v, k]]);
        assert liststore.rows == rowsBefore + [[k, v, k]] == rows0 + (Rows(found) + [[k, v, k]]);
      } else {
        assert found + [] == found;
        assert MatchingCountries(alt, countryCodes[..j + 1]) == found;
      }
    }
    assert countryCodes[..|countryCodes|] == countryCodes;
  }
}
