# ProtonVPN Linux GUI — dashboard and settings decision rules

This project models the decision logic behind two parts of the ProtonVPN
Linux GUI:

- the **dashboard window**. Its handlers:
  - pick what the main connect/disconnect button does;
  - label that button from the tree-view selection;
  - restyle the tab and secure-core labels;
  - decide when to reload the server list;
  - reconnect to the last server;
  - filter the server list by a search string.
- the **settings presenter**. Its operations:
  - write credentials, DNS, plan, autoconnect/quick-connect, split-tunnelling and tray settings through the settings service;
  - report the credentials, plan, connect-preference and split-tunnelling outcomes in the dialog (the DNS and tray outcomes are only logged);
  - load the tray and advanced tabs from the stored configuration;
  - fill the autoconnect drop-down and its ordered dictionary of choices.

The project has three modules:

- `Py` (`py.dfy`) holds the Python semantics the handlers rely on:
  - truthiness: `""`, `False`, `0` and `None` are falsy;
  - `str()`;
  - ASCII `lower`/`upper`;
  - the substring test `in`;
  - the `repr` of a list of strings.
- `Dashboard` (`dashboard.dfy`) has pure rule functions, plus a `DashboardWindow` class. The class holds the widget state the handlers change:
  - the message-dialog record;
  - the main-button markup;
  - the secure-core label class;
  - the styled tab;
  - the tree-view selection;
  - the log of worker threads started.
- `Settings` (`settings.dfy`) has pure rule functions, plus small classes:
  - `SettingsPresenter`;
  - `SettingsService`: each setter call is appended to a log and answered by a fixed function of the call;
  - widget classes: `DialogWindow`, `ListStore`, `ComboBoxes`, `AdvancedTab`.

Each handler is a method that changes its widget fields step by step, as the
source does. Its `ensures` ties the new state to the rule functions. The
properties worth having are proved about those rule functions as `ensures`
clauses and lemmas.

## Model

| member | source | states |
|---|---|---|
| Py.Contains | protonvpn_linux_gui/windows/dashboard_window.py:313 | `needle in hay` is true exactly when the needle occurs at some index of the haystack |
| Py.ListRepr | protonvpn_linux_gui/presenters/settings_presenter.py:181 | the printed address list is bracketed, and is `[]` exactly for the empty list |
| Py.ListReprNamesItems | protonvpn_linux_gui/presenters/settings_presenter.py:181 | the printed list contains every item, between single quotes |
| Dashboard.LastSelected | protonvpn_linux_gui/windows/dashboard_window.py:213-218 | the loop over the selected paths leaves `SelectedServer`: the server column of the last selected row, and leaves nothing exactly when no row is selected |
| Dashboard.MainButtonTarget | protonvpn_linux_gui/windows/dashboard_window.py:222-235 | the selected server is the target exactly when the selection is truthy; with no truthy selection the action is disconnect exactly when connected; otherwise custom quick connect exactly when the stored quick-connect choice is not "dis", else the fastest server |
| Dashboard.MainButtonMessageIdentifiesTarget | protonvpn_linux_gui/windows/dashboard_window.py:223-235 | `MainButtonMessage`, the dialog text chosen with each target: different targets show different texts, and connecting to a selected server names it |
| Dashboard.FalsySelectionActsAsNoSelection | protonvpn_linux_gui/windows/dashboard_window.py:229-235 | a selected row whose server column is falsy (an empty name, `0`, `None`) gives the same action and text as no selection |
| Dashboard.CursorLabelIdentifiesSelection | protonvpn_linux_gui/windows/dashboard_window.py:190-200 | `CursorLabel`, the label set at lines 198-200: the main button reads "Quick Connect" exactly when nothing is selected; otherwise it names the last selected server |
| Dashboard.TabFor | protonvpn_linux_gui/windows/dashboard_window.py:176-182 | the profiles tab style is applied exactly for page index 1; every other index gives the countries tab |
| Dashboard.SecureCoreUpdateTo | protonvpn_linux_gui/windows/dashboard_window.py:251-258 | the new setting is "True" exactly when the stored one is the string "False", and "False" otherwise |
| Dashboard.SecureCoreReloads | protonvpn_linux_gui/windows/dashboard_window.py:260 | the server list is reloaded exactly when the switch state agrees with the new setting |
| Dashboard.LastConnectTextNames | protonvpn_linux_gui/windows/dashboard_window.py:135 | `LastConnectText`, the reconnect text, names the server and the upper-cased protocol |
| Dashboard.SecureCoreLoadingMessageNamesMode | protonvpn_linux_gui/windows/dashboard_window.py:262 | `SecureCoreLoadingMessage`, the reload text, names secure-core servers; it is the secure-core wording, without "non", exactly for the new setting "True" |
| Dashboard.LastConnectMessage | protonvpn_linux_gui/windows/dashboard_window.py:125-135 | there is no reconnect text exactly when either stored value is missing; otherwise the text names both values |
| Dashboard.ColumnFilter | protonvpn_linux_gui/windows/dashboard_window.py:305-314 | a row is kept exactly when one of the view's columns holds a string that contains the filter ignoring case; the function never returns False, only True or nothing |
| Dashboard.EmptyFilterKeepsStringRows | protonvpn_linux_gui/windows/dashboard_window.py:310-314 | the empty filter keeps every row that shows a string column, and no other |
| Dashboard.DashboardWindow.LastConnectButtonClicked | protonvpn_linux_gui/windows/dashboard_window.py:121-144 | with no previous connection, shows the explanation with the spinner hidden and starts no thread; otherwise shows the reconnect text with the spinner and starts one last-connect thread |
| Dashboard.DashboardWindow.NotebookPageChanged | protonvpn_linux_gui/windows/dashboard_window.py:176-182 | the styled tab becomes the one chosen for the page index |
| Dashboard.DashboardWindow.CursorChanged | protonvpn_linux_gui/windows/dashboard_window.py:184-200 | hides the sub-label and sets the main button label from the last selected row |
| Dashboard.DashboardWindow.MainConnDiscButton | protonvpn_linux_gui/windows/dashboard_window.py:202-248 | clears the selection, shows the chosen target's message with the spinner, and starts exactly one thread for that target, passing the selected server |
| Dashboard.DashboardWindow.SecureCoreSwitchChanged | protonvpn_linux_gui/windows/dashboard_window.py:250-272 | the secure-core label is disabled exactly when the new setting is "False"; a reload shows the loading text and starts one reload thread; otherwise the dialog and threads are unchanged |
| Settings.UserPassMessage | protonvpn_linux_gui/presenters/settings_presenter.py:50-52 | the failure text is shown exactly when `set_user_pass` failed |
| Settings.PlanMessage | protonvpn_linux_gui/presenters/settings_presenter.py:77-79 | the failure text is shown exactly when `set_pvpn_tier` failed; on success the text names the plan |
| Settings.PreferenceCall | protonvpn_linux_gui/presenters/settings_presenter.py:115-118 | the quick-connect setter is called exactly when a `quick_connect` keyword is given, otherwise the autoconnect setter; both get the chosen value |
| Settings.PreferenceMessage | protonvpn_linux_gui/presenters/settings_presenter.py:120-122 | the failure text is shown exactly when the setter failed; on success the text starts with the setting's name and names the country |
| Settings.SplitTunnelingPlan | protonvpn_linux_gui/presenters/settings_presenter.py:164-190 | an invalid address (`ReportsInvalidIp`: more than one result and a falsy first one, line 171) makes no call and shows `InvalidIpMessage` naming the address (line 172); an empty list only disables split tunnelling; the kill switch is asked to turn off exactly when it is on and there are addresses; the addresses are written unless the kill switch was on and did turn off; a failed write says so; with the kill switch off, a successful write reports the added addresses; split tunnelling is switched off only for the empty list; no other setter is called, none twice, and the kill-switch call comes first; at most two calls |
| Settings.KillswitchDisabledCancelsUpdate | protonvpn_linux_gui/presenters/settings_presenter.py:183-189 | as written, turning the kill switch off successfully skips the address write, and the text says both that the kill switch could not be disabled and that it was |
| Settings.KillswitchStuckStillWrites | protonvpn_linux_gui/presenters/settings_presenter.py:183-190 | as written, a kill switch that stays on does not stop the write, while the text says the update was cancelled |
| Settings.SplitTunnelingPlanIntended | protonvpn_linux_gui/presenters/settings_presenter.py:176-190 | corrected rule, with the valid non-empty case in `SplitTunnelingAddPlan`: same invalid-address and empty-list behaviour and the same call discipline (only the three setters, none twice, the kill switch first, at most two calls); the addresses are written exactly when the kill switch is off or was turned off; a kill switch that stays on cancels the update with the cancellation text alone; a successful write reports the added addresses, after the kill-switch notice when it was turned off |
| Settings.AddedMessageNamesAddresses | protonvpn_linux_gui/presenters/settings_presenter.py:164-181 | `AddedMessage`, the "updated" text of line 164 followed by the "servers were added" list of line 181, names every address, quoted |
| Settings.IntendedAgreesWithoutKillswitch | protonvpn_linux_gui/presenters/settings_presenter.py:171-190 | the corrected rule and the rule as written agree whenever the kill-switch branch is not taken |
| Settings.TrayCategory | protonvpn_linux_gui/presenters/settings_presenter.py:206-213 | the tray item is the first of serverload, server, data and time that the setting name contains, tested in that order, and empty when it contains none |
| Settings.ServerloadMentionsServer | protonvpn_linux_gui/presenters/settings_presenter.py:206-209 | a name containing "serverload" also contains "server", so the first test has to come first |
| Settings.TrayVisibility | protonvpn_linux_gui/presenters/settings_presenter.py:215 | "displayed" exactly for the value 1, "hidden" for every other value |
| Settings.TrayResult | protonvpn_linux_gui/presenters/settings_presenter.py:215-217 | the logged text starts with "Tray " exactly when `set_tray_setting` succeeded, and always names the item and its visibility |
| Settings.TrayIndex | protonvpn_linux_gui/presenters/settings_presenter.py:260-264 | the stored value when the key is present, 0 when it is missing |
| Settings.MatchingCountries | protonvpn_linux_gui/presenters/settings_presenter.py:377-382 | exactly the country entries whose name equals the alternative ignoring case, and no more of them than the table holds |
| Settings.MatchingIndicesExact | protonvpn_linux_gui/presenters/settings_presenter.py:377-378 | `MatchingIndices`, the table positions the loop finds while scanning from the start, are increasing, each holds a name equal to the alternative ignoring case, and every such position is among them |
| Settings.MatchingCountriesInTableOrder | protonvpn_linux_gui/presenters/settings_presenter.py:377-382 | the k-th match is the table entry at the k-th matching position (one more table entry at a time: `MatchingOneMore`), so the matches come in table order with each matching entry once |
| Settings.MatchingIgnoresCaseOfAlternative | protonvpn_linux_gui/presenters/settings_presenter.py:378 | two alternatives that lower-case alike match the same countries |
| Settings.Expand | protonvpn_linux_gui/presenters/settings_presenter.py:370-382 | a special key contributes its one fixed label; any other alternative contributes the matching countries in table order, and nothing when none match |
| Settings.EntriesAppend | protonvpn_linux_gui/presenters/settings_presenter.py:370-382 | `Entries`, every insertion of the outer loop in order (one alternative more: `EntriesSnoc`): the insertions for two lists of alternatives are those of each list, in order |
| Settings.Put | protonvpn_linux_gui/presenters/settings_presenter.py:373 | `OrderedDict` assignment: a key already present keeps its position, a new key goes last, the key then maps to the new value and no other key changes |
| Settings.LookupFindsKeys | protonvpn_linux_gui/presenters/settings_presenter.py:368 | a key has a value in the ordered dictionary exactly when it is one of its keys |
| Settings.PutAllLookup | protonvpn_linux_gui/presenters/settings_presenter.py:373-380 | after `PutAll`, a run of insertions, each key holds `LastValue`, the value of its last insertion, or its earlier value when it was not inserted |
| Settings.PutAllDistinct | protonvpn_linux_gui/presenters/settings_presenter.py:368-380 | insertions never produce a duplicate key |
| Settings.ChoicesMatchRows | protonvpn_linux_gui/presenters/settings_presenter.py:368-385 | the returned dictionary has distinct keys; a code is a key exactly when some appended row carries it, and it maps to the label of the last such row |
| Settings.SplitTunnelSetting | protonvpn_linux_gui/presenters/settings_presenter.py:308-311 | a missing split_tunnel key reads as '0' |
| Settings.AdvancedAfterLoad | protonvpn_linux_gui/presenters/settings_presenter.py:302-354 | DNS protection is on exactly for '1'; the kill switch and split tunnelling are on for anything but '0'; each switch that is on makes the other insensitive and nothing is re-sensitised; the list and the update button are disabled exactly when both are on; the list shows the file's content (empty when missing) exactly when split tunnelling is on |
| Settings.MissingSplitTunnelIsOff | protonvpn_linux_gui/presenters/settings_presenter.py:308-311 | a missing split_tunnel key loads exactly like a stored '0' |
| Settings.ProtocolIndex | protonvpn_linux_gui/presenters/settings_presenter.py:297-300 | index 0 exactly for "tcp", 1 for any other protocol |
| Settings.SettingsPresenter.UpdateUserPass | protonvpn_linux_gui/presenters/settings_presenter.py:40-54 | makes one `set_user_pass` call and shows the message for its answer |
| Settings.SettingsPresenter.UpdateDns | protonvpn_linux_gui/presenters/settings_presenter.py:58-66 | makes one `set_dns` call and nothing else |
| Settings.SettingsPresenter.UpdatePvpnPlan | protonvpn_linux_gui/presenters/settings_presenter.py:68-94 | makes one `set_pvpn_tier` call and shows the message for its answer |
| Settings.SettingsPresenter.UpdateConnectPreference | protonvpn_linux_gui/presenters/settings_presenter.py:106-126 | makes the one setter call chosen by `PreferenceCall` and shows the message for its answer |
| Settings.SettingsPresenter.UpdateSplitTunneling | protonvpn_linux_gui/presenters/settings_presenter.py:157-192 | makes exactly the calls of the corrected rule `SplitTunnelingPlanIntended`, in order, and shows its one message; outside the kill-switch branch that is the rule as written (see Findings) |
| Settings.SettingsPresenter.AddSplitTunnelingIps | protonvpn_linux_gui/presenters/settings_presenter.py:180-190 | the valid, non-empty branch of the update: makes exactly the calls of `SplitTunnelingAddPlan`, in order, and returns its message |
| Settings.SettingsPresenter.TrayConfigurations | protonvpn_linux_gui/presenters/settings_presenter.py:198-219 | makes one `set_tray_setting` call and logs the result text for its answer |
| Settings.SettingsPresenter.LoadTraySettings | protonvpn_linux_gui/presenters/settings_presenter.py:257-267 | each configured combobox is set to its stored index, or 0 when the key is missing; every other combobox keeps its index |
| Settings.SettingsPresenter.LoadAdvancedSettings | protonvpn_linux_gui/presenters/settings_presenter.py:302-354 | the advanced tab ends in the state `AdvancedAfterLoad` describes |
| Settings.SettingsPresenter.PopulateAutoconnectList | protonvpn_linux_gui/presenters/settings_presenter.py:356-385 | appends one (code, label, code) row per insertion in order; with `return_list` it returns the ordered dictionary of those insertions, otherwise nothing |
| Settings.AppendAlternative | protonvpn_linux_gui/presenters/settings_presenter.py:371-382 | one pass of the outer loop appends the rows of the alternative's insertions and applies them to the dictionary |
| Settings.AppendMatchingCountries | protonvpn_linux_gui/presenters/settings_presenter.py:377-382 | the inner loop appends a row for, and inserts, exactly the matching countries in table order |

## Left out

- Threads: a started thread is an entry in the `started` log holding its target and the argument that varies between calls (the target and selected server of the main button, the `update_to` of a secure-core reload; nothing for last connect). The widget arguments every thread receives are not recorded. The worker functions themselves (quick_connect, last_connect, reload_secure_core_servers and the rest) are not part of this model.
- GTK: markup rendering, style contexts and `tab_style_manager` are left out. The model records which tab key or label class each handler applies.
- The tree store is a flat sequence of rows, and a selected path is a row index. Child rows of countries are not modelled.
- `server_filter_input_key_release`: building the `TreeModelFilter` and refiltering are GTK work and are left out. Only the `column_filter` predicate it installs is modelled. The column count of the view is a parameter.
- Other dashboard handlers are not modelled: the profile quick/random connect buttons, the disconnect button, manage/delete profile, the configuration, about, check-for-updates, diagnose and help buttons, and the about-dialog close. Each only shows a fixed text, opens a window, hides one (the about-dialog close, dashboard_window.py:369-377) or starts a thread.
- The message-dialog widgets: the dashboard handlers use `messagedialog_*` attributes that `set_objects` leaves commented out (dashboard_window.py:90-94). The model assumes those widgets exist. As written, each such handler would fail with an `AttributeError`.
- Configuration reads and system state are parameters of the handlers: `get_config_value`, `get_gui_config`, `is_connected` and the split-tunnel file's content. Where the source catches a `KeyError` or a missing file, the value is an `Option` that is `None`: the last-connect metadata (dashboard_window.py:125-133), the split_tunnel key (settings_presenter.py:308-311), the tray keys (261-264) and the split-tunnel file (343-352).
- Uncaught configuration errors: the reads at dashboard_window.py:225 and 251 and at settings_presenter.py:183 and 304-306 catch nothing. A missing key there raises out of the handler. At dashboard_window.py:225, `main_conn_disc_button_label` has already hidden the sub-label (206) and cleared the tree-view selection (220), and no dialog text or thread follows. The other reads raise before any widget, dialog or setter changes. The model takes these values as given and always completes, so it does not capture that early exit.
- Settings-service results are a fixed function of each call: setter answers, `reformat_ip_list`, `check_valid_ips` and `generate_autoconnect_list`. The country-code table is a parameter.
- `int()` parsing of stored strings is left out: the kill-switch flag and the tray values enter as integers. A string that `int()` rejects is not modelled.
- Py.Contains, Dashboard.ColumnFilter: `lower`/`upper` act on ASCII letters only. Unicode case mapping is not modelled.
- Py.Truthy: a float zero and an empty container are falsy in Python. The model has no such values: `Object` stands only for objects whose truth value is True.
- Py.ListRepr: assumes the addresses contain no quote or backslash, so Python's `repr` escaping is not modelled.
- Logging (`gui_logger.debug`) and commented-out code are left out.
- `update_def_protocol`, `update_killswitch` and `update_split_tunneling_status` are not modelled. Each only calls one setter and logs the result, and no text reaches the dialog. `update_def_protocol` calls `set_pvpn_tier` with the protocol, which looks like another slip.
- `purge_configurations` is left out. It disconnects and deletes the configuration directory, which is file-system work.
- `load_configurations` is left out: it calls the four loaders without `self` (settings_presenter.py:243-246), and it only dispatches. `load_general_settings` is left out too: it overwrites its `username` widget parameter with the stored name and then calls `set_text` on that string (248-253). A `str` has no `set_text`, so that call raises `AttributeError` and the plan combobox line (255) is never reached.
- `load_connection_settings`: only the protocol index rule (`ProtocolIndex`) is modelled. The autoconnect and quick-connect index lookups are left out. As written, an exception path assigns `quick_connect` where the code later reads `quick_connect_setting`.
- `custom_dns`: `load_advanced_settings` reads it (settings_presenter.py:305) and never uses the value. The model does not take it. A missing key would still end the load there, as in the uncaught-errors line above.
- Dashboard.DashboardWindow has no constructor: the GTK builder creates the window.
- Settings.SettingsPresenter.UpdateSplitTunneling implements the corrected kill-switch branch. The code as written is `SplitTunnelingPlan`, and the difference is under Findings.

## Findings

| source | as written | input that shows it | evidently intended | confidence | as-written member | corrected member |
|---|---|---|---|---|---|---|
| protonvpn_linux_gui/presenters/settings_presenter.py:183-190 | if the kill switch is on and `set_killswitch(0)` succeeds, the addresses are not written, and the text joins "could not be disabled, cancelling update!" to "has been disabled". If `set_killswitch(0)` fails, the addresses are written anyway | stored kill switch 1, a non-empty valid address list, `set_killswitch(0)` returns True | write the addresses once the kill switch is off; cancel, with the cancellation text alone, only while it stays on | medium, not executed | Settings.SplitTunnelingPlan, Settings.KillswitchDisabledCancelsUpdate, Settings.KillswitchStuckStillWrites | Settings.SplitTunnelingPlanIntended |
