/** The decision rules of the dashboard window's event handlers
    (protonvpn_linux_gui/windows/dashboard_window.py).

    The widgets become plain state: the server tree store is a sequence of
    rows, its selection a sequence of row indices, the message dialog a
    record, and every worker thread a handler starts is appended to a log
    instead of being run. The answers of the CLI library (`is_connected`,
    `get_config_value`, `get_gui_config`) are parameters. */
module Dashboard {
  import opened Py

  /** One row of the server tree store: the value of each model column. */
  type Row = seq<Value>

  /** The column that holds the server or country name. */
  const SERVER_COLUMN := 1

  /** The thread targets the main connect/disconnect button chooses from. */
  datatype Target = QuickConnect | CustomQuickConnect | Disconnect | ConnectToSelectedServer

  /** A worker thread started by a handler, with the argument that varies. */
  datatype Job =
    | MainButtonJob(target: Target, selectedServer: Value)
    | LastConnectJob
    | ReloadSecureCoreJob(updateTo: string)

  /** The message dialog: its label markup and which of its parts are shown. */
  datatype Dialog = Dialog(text: string, spinnerShown: bool, subLabelShown: bool, windowShown: bool)

  /** The two notebook tab labels, one of which carries the active style. */
  datatype Tab = CountriesTab | ProfilesTab

  const FASTEST_MESSAGE := "Connecting to the fastest server..."
  const CUSTOM_QUICK_CONNECT_MESSAGE := "Connecting to custom quick connect..."
  const DISCONNECT_MESSAGE := "Disconnecting..."
  const NO_PREVIOUS_CONNECTION_MESSAGE :=
    "You have not previously connected to any server, please do that connect to a server first before attempting to reconnect."
  const QUICK_CONNECT_LABEL := "Quick Connect"

  // ---------------------------------------------------------------------
  // Reading the selection (shared by the cursor handler and the main button)
  // ---------------------------------------------------------------------

  /** Every selected path names a row that has a server column. */
  predicate SelectionReadable(store: seq<Row>, paths: seq<nat>) {
    forall k :: 0 <= k < |paths| ==> paths[k] < |store| && SERVER_COLUMN < |store[paths[k]]|
  }

  /** The server the user picked: column 1 of the last row in the selection,
      or nothing when the selection is empty. */
  function SelectedServer(store: seq<Row>, paths: seq<nat>): Option<Value>
    requires SelectionReadable(store, paths)
  {
    if |paths| == 0 then None else Some(store[paths[|paths| - 1]][SERVER_COLUMN])
  }

  /** The loop both handlers run over the selected paths: each path
      overwrites the previous one's value, so the last one is left. */
  method LastSelected(store: seq<Row>, paths: seq<nat>) returns (server: Option<Value>)
    requires SelectionReadable(store, paths)
    ensures server == SelectedServer(store, paths)
    ensures server.None? <==> |paths| == 0
  {
    server := None;
    for k := 0 to |paths|
      invariant k == 0 ==> server == None
      invariant k > 0 ==> server == Some(store[paths[k - 1]][SERVER_COLUMN])
    {
      server := Some(store[paths[k]][SERVER_COLUMN]);
    }
  }

  // ---------------------------------------------------------------------
  // The main connect/disconnect button
  // ---------------------------------------------------------------------

  /** Which thread the main button starts. A truthy selected server wins
      over everything; otherwise a live connection is torn down; otherwise a
      configured quick connect ("dis" means none) beats the fastest server. */
  function MainButtonTarget(selected: Value, connected: bool, quickConnect: string): (t: Target)
    ensures t == ConnectToSelectedServer <==> Truthy(selected)
    ensures !Truthy(selected) ==> (t == Disconnect <==> connected)
    ensures !Truthy(selected) && !connected ==>
      (t == CustomQuickConnect <==> quickConnect != "dis") && (t == QuickConnect <==> quickConnect == "dis")
  {
    if Truthy(selected) then ConnectToSelectedServer
    else if connected then Disconnect
    else if quickConnect != "dis" then CustomQuickConnect
    else QuickConnect
  }

  /** The dialog text that goes with each target. */
  function MainButtonMessage(t: Target, selected: Value): string {
    match t
    case QuickConnect => FASTEST_MESSAGE
    case CustomQuickConnect => CUSTOM_QUICK_CONNECT_MESSAGE
    case Disconnect => DISCONNECT_MESSAGE
    case ConnectToSelectedServer => "Connecting to <b>" + ToStr(selected) + "</b>"
  }

  /** The dialog text tells the user which target was chosen: two different
      targets never show the same text, and a selected server is named. */
  lemma MainButtonMessageIdentifiesTarget(t1: Target, t2: Target, selected: Value)
    requires t1 != t2
    ensures MainButtonMessage(t1, selected) != MainButtonMessage(t2, selected)
    ensures t1 == ConnectToSelectedServer ==> Contains(MainButtonMessage(t1, selected), ToStr(selected))
  {
    var m1, m2 := MainButtonMessage(t1, selected), MainButtonMessage(t2, selected);
    if t1 == ConnectToSelectedServer || t2 == ConnectToSelectedServer {
      var m := if t1 == ConnectToSelectedServer then m1 else m2;
      var other := if t1 == ConnectToSelectedServer then m2 else m1;
      assert m[..14] == "Connecting to ";
      assert m[14] == '<';
      assert other[0] == 'D' || other[14] != '<';
    }
    if t1 == ConnectToSelectedServer {
      ContainsInfix("Connecting to <b>", ToStr(selected), "</b>");
    }
  }

  /** A selected row whose server column is falsy in Python (an empty name,
      `0`, `None`) makes the button act as if nothing were selected. */
  lemma FalsySelectionActsAsNoSelection(selected: Value, connected: bool, quickConnect: string)
    requires !Truthy(selected)
    ensures MainButtonTarget(selected, connected, quickConnect) == MainButtonTarget(Bool(false), connected, quickConnect)
    ensures MainButtonMessage(MainButtonTarget(selected, connected, quickConnect), selected)
         == MainButtonMessage(MainButtonTarget(Bool(false), connected, quickConnect), Bool(false))
  {
  }

  // ---------------------------------------------------------------------
  // The other handlers' rules
  // ---------------------------------------------------------------------

  /** The main button label after the tree-view cursor moves. */
  function CursorLabel(selected: Option<Value>): string {
    match selected
    case None => QUICK_CONNECT_LABEL
    case Some(v) => "Connecto to " + ToStr(v)
  }

  /** The cursor label never reads "Quick Connect" once something is selected,
      and it names the selected server. */
  lemma CursorLabelIdentifiesSelection(selected: Option<Value>)
    ensures CursorLabel(selected) == QUICK_CONNECT_LABEL <==> selected.None?
    ensures selected.Some? ==> Contains(CursorLabel(selected), ToStr(selected.value))
  {
    if selected.Some? {
      var shown := CursorLabel(selected);
      assert shown[1] == 'o' != QUICK_CONNECT_LABEL[1];
      ContainsInfix("Connecto to ", ToStr(selected.value), "");
      assert "Connecto to " + ToStr(selected.value) + "" == shown;
    }
  }

  /** The tab whose label gets the active style for a notebook page index. */
  function TabFor(index: int): (tab: Tab)
    ensures tab == ProfilesTab <==> index == 1
  {
    if index == 1 then ProfilesTab else CountriesTab
  }

  /** The secure-core switch flips the stored display setting: the new value
      is "True" exactly when the stored one is "False", and "False" otherwise. */
  function SecureCoreUpdateTo(displaySecureCore: string): (updateTo: string)
    ensures updateTo == "True" || updateTo == "False"
    ensures updateTo == "True" <==> displaySecureCore == "False"
  {
    if displaySecureCore == "False" then "True" else "False"
  }

  /** The servers are reloaded only when the switch's new state agrees with
      the flipped setting (a signal that merely echoes the stored value
      reloads nothing). */
  function SecureCoreReloads(displaySecureCore: string, state: bool): (reload: bool)
    ensures reload <==> (state <==> SecureCoreUpdateTo(displaySecureCore) == "True")
  {
    (state && displaySecureCore == "False") || (!state && displaySecureCore != "False")
  }

  function SecureCoreLoadingMessage(updateTo: string): string {
    "Loading " + (if updateTo == "True" then "secure-core" else "non secure-core") + " servers..."
  }

  /** The loading text names secure-core servers, and the secure-core wording
      (without "non") is used exactly for the new setting "True". */
  lemma SecureCoreLoadingMessageNamesMode(updateTo: string)
    ensures Contains(SecureCoreLoadingMessage(updateTo), "secure-core")
    ensures SecureCoreLoadingMessage(updateTo) == SecureCoreLoadingMessage("True") <==> updateTo == "True"
  {
    if updateTo == "True" {
      ContainsInfix("Loading ", "secure-core", " servers...");
    } else {
      NonSecureCoreNamesSecureCore();
      ContainsWithin("Loading ", "non secure-core", " servers...", "secure-core");
      assert |SecureCoreLoadingMessage(updateTo)| == 34;
      assert |SecureCoreLoadingMessage("True")| == 30;
    }
  }

  lemma NonSecureCoreNamesSecureCore()
    ensures Contains("non secure-core", "secure-core")
  {
    ContainsInfix("non ", "secure-core", "");
    assert "non " + "secure-core" + "" == "non secure-core";
  }

  /** The dialog text for reconnecting to the last server. */
  function LastConnectText(server: string, protocol: string): string {
    "Connecting to previously connected server <b>" + server + "</b> with <b>" + Upper(protocol) + "</b>."
  }

  /** The reconnect text names the server and the protocol in upper case. */
  lemma LastConnectTextNames(server: string, protocol: string)
    ensures Contains(LastConnectText(server, protocol), server)
    ensures Contains(LastConnectText(server, protocol), Upper(protocol))
  {
    var pre := "Connecting to previously connected server <b>";
    var text := LastConnectText(server, protocol);
    var i := |pre|;
    var j := |pre| + |server| + |"</b> with <b>"|;
    assert text[i..i + |server|] == server;
    assert OccursAt(text, server, i);
    assert text[j..j + |Upper(protocol)|] == Upper(protocol);
    assert OccursAt(text, Upper(protocol), j);
  }

  /** The reconnect text, or nothing when the last-connection metadata is
      incomplete and the handler must stop. */
  function LastConnectMessage(server: Option<string>, protocol: Option<string>): (m: Option<string>)
    ensures m.None? <==> server.None? || protocol.None?
    ensures m.Some? ==> Contains(m.value, server.value) && Contains(m.value, Upper(protocol.value))
  {
    if server.None? || protocol.None? then None
    else
      LastConnectTextNames(server.value, protocol.value);
      Some(LastConnectText(server.value, protocol.value))
  }

  /** `column_filter`: scans the first `viewColumns` columns of a row (as many
      as the tree view shows) and answers `True` as soon as a string column
      contains the filter text, ignoring case; with no such column it falls
      off the end and answers `None` (never `False`). */
  method ColumnFilter(row: Row, viewColumns: nat, filter: string) returns (visible: Option<bool>)
    requires viewColumns <= |row|
    ensures visible != Some(false)
    ensures visible == Some(true) <==>
      exists col :: 0 <= col < viewColumns && row[col].Str? && Contains(Lower(row[col].s), Lower(filter))
  {
    for col := 0 to viewColumns
      invariant forall c :: 0 <= c < col ==> !(row[c].Str? && Contains(Lower(row[c].s), Lower(filter)))
    {
      var value := row[col];
      if value.Str? {
        if Contains(Lower(value.s), Lower(filter)) {
          return Some(true);
        }
      }
    }
    return None;
  }

  /** The empty filter keeps every row that shows a string column, and no other. */
  lemma EmptyFilterKeepsStringRows(row: Row, viewColumns: nat)
    requires viewColumns <= |row|
    ensures (exists col :: 0 <= col < viewColumns && row[col].Str? && Contains(Lower(row[col].s), Lower("")))
        <==> (exists col :: 0 <= col < viewColumns && row[col].Str?)
  {
    if col :| 0 <= col < viewColumns && row[col].Str? {
      assert OccursAt(Lower(row[col].s), Lower(""), 0);
    }
  }

  // ---------------------------------------------------------------------
  // The window and its handlers
  // ---------------------------------------------------------------------

  /** The widget state the dashboard handlers read and change. */
  class DashboardWindow {
    var store: seq<Row>             // ServerTreeStore, rows in display order
    var selection: seq<nat>         // selected paths of TreeViewServerList
    var connDiscLabel: string       // markup of main_conn_disc_button_label
    var dialog: Dialog              // the message dialog
    var secureCoreLabelDisabled: bool  // secure_core_label has class disabled_label
    var activeTab: Tab              // the tab passed to tab_style_manager last
    var started: seq<Job>           // worker threads started, oldest first

    ghost predicate Valid()
      reads this
    {
      SelectionReadable(store, selection)
    }

    /** `last_connect_button_clicked`: reconnect to the last server, or explain
        that there is none; in that case no thread is started. */
    method LastConnectButtonClicked(server: Option<string>, protocol: Option<string>)
      modifies this`dialog, this`started
      ensures var m := LastConnectMessage(server, protocol);
        if m.None? then
          dialog == Dialog(NO_PREVIOUS_CONNECTION_MESSAGE, false, false, true) && started == old(started)
        else
          dialog == Dialog(m.value, true, false, true) && started == old(started) + [LastConnectJob]
    {
      dialog := dialog.(subLabelShown := false);
      if server.None? || protocol.None? {
        dialog := dialog.(text := NO_PREVIOUS_CONNECTION_MESSAGE);
        dialog := dialog.(spinnerShown := false);
        dialog := dialog.(windowShown := true);
        return;
      }
      dialog := dialog.(text := LastConnectText(server.value, protocol.value));
      dialog := dialog.(spinnerShown := true);
      started := started + [LastConnectJob];
      dialog := dialog.(windowShown := true);
    }

    /** `dashboard_notebook_page_changed`: restyle the tab labels. */
    method NotebookPageChanged(actualTabIndex: int)
      modifies this`activeTab
      ensures activeTab == TabFor(actualTabIndex)
    {
      if actualTabIndex == 1 {
        activeTab := ProfilesTab;
      } else {
        activeTab := CountriesTab;
      }
    }

    /** `TreeViewServerList_cursor_changed`: name the selected server on the
        main button, or fall back to "Quick Connect". */
    method CursorChanged()
      requires Valid()
      modifies this`dialog, this`connDiscLabel
      ensures dialog == old(dialog).(subLabelShown := false)
      ensures connDiscLabel == CursorLabel(SelectedServer(store, selection))
    {
      dialog := dialog.(subLabelShown := false);
      var server := LastSelected(store, selection);
      if server.Some? {
        connDiscLabel := "Connecto to " + ToStr(server.value);
      } else {
        connDiscLabel := QUICK_CONNECT_LABEL;
      }
    }

    /** `main_conn_disc_button_label`: read and clear the selection, pick a
        target by overwriting the default step by step, show its message and
        start its thread. */
    method MainConnDiscButton(connected: bool, quickConnect: string)
      requires Valid()
      modifies this`dialog, this`selection, this`started
      ensures Valid() && selection == []
      ensures var server := SelectedServer(old(store), old(selection)).GetOr(Bool(false));
        var t := MainButtonTarget(server, connected, quickConnect);
        && dialog == Dialog(MainButtonMessage(t, server), true, false, true)
        && started == old(started) + [MainButtonJob(t, server)]
    {
      dialog := dialog.(subLabelShown := false);
      var selected := LastSelected(store, selection);
      var userSelectedServer := selected.GetOr(Bool(false));
      selection := [];

      var target := QuickConnect;
      var message := FASTEST_MESSAGE;
      if quickConnect != "dis" {
        target := CustomQuickConnect;
        message := CUSTOM_QUICK_CONNECT_MESSAGE;
      }
      if connected && !Truthy(userSelectedServer) {
        target := Disconnect;
        message := DISCONNECT_MESSAGE;
      }
      if Truthy(userSelectedServer) {
        target := ConnectToSelectedServer;
        message := "Connecting to <b>" + ToStr(userSelectedServer) + "</b>";
      }

      dialog := dialog.(text := message, spinnerShown := true);
      started := started + [MainButtonJob(target, userSelectedServer)];
      dialog := dialog.(windowShown := true);
    }

    /** `secure_core_switch_changed`: restyle the label for the flipped setting
        and, when the switch state asks for it, reload the server list. */
    method SecureCoreSwitchChanged(displaySecureCore: string, state: bool)
      modifies this`dialog, this`secureCoreLabelDisabled, this`started
      ensures var updateTo := SecureCoreUpdateTo(displaySecureCore);
        && secureCoreLabelDisabled == (updateTo == "False")
        && (SecureCoreReloads(displaySecureCore, state) ==>
              dialog == Dialog(SecureCoreLoadingMessage(updateTo), true, false, true)
              && started == old(started) + [ReloadSecureCoreJob(updateTo)])
        && (!SecureCoreReloads(displaySecureCore, state) ==>
              dialog == old(dialog) && started == old(started))
    {
      var updateTo;
      if displaySecureCore == "False" {
        updateTo := "True";
        secureCoreLabelDisabled := false;
      } else {
        updateTo := "False";
        secureCoreLabelDisabled := true;
      }
      if (state && displaySecureCore == "False") || (!state && displaySecureCore != "False") {
        dialog := dialog.(subLabelShown := false);
        dialog := dialog.(text := SecureCoreLoadingMessage(updateTo));
        dialog := dialog.(spinnerShown := true);
        started := started + [ReloadSecureCoreJob(updateTo)];
        dialog := dialog.(windowShown := true);
      }
    }
  }
}
