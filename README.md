# RESTORECELL Terminal — a Dafny model of its connection, log and profile rules

RESTORECELL Terminal is a Tkinter desktop terminal for talking to embedded
devices over a serial (UART) port. Its one class, `RestoreCellTerminal`,
is mostly widget layout and I/O. This project models the deterministic rules
inside that class:

- **Log filter** (`filter_logs`). The selected filter decides whether a
  received line is logged. The entry written is "timestamp data".
- **Bounded log area** (`add_to_log`, `get_log_lines_count`, `clear_logs`).
  The Tk text widget is modelled as the string it holds. The line count is
  read from the `end-1c` index. Once that count has reached
  `max_buffer_lines`, the first line is deleted before the append.
- **Connection state machine** (`toggle_connection`, `connect`,
  `disconnect`). The fields are `is_connected`, `connection_status` and the
  serial port. Whether a port open, read or close raises is given as an
  input.
- **Automatic baud detection** (`detect_baud_rate`). A first-match scan over
  eight fixed rates.
- **Status LED colour** (`update_status_indicator`).
- **Profiles** (`save_profile`, `load_profile`). A map from profile name to a
  six-setting record.

Modules: `Wrappers` (Option), `Decimal` (Python's `str`/`int` on naturals),
`LogText` (the log area's text), `LogFilter`, `Baud`, `Status`,
`Connection` and `Terminal`. `Connection` states the connection state
machine as functions from the connection fields before a call to the fields
after it (`Connected`, `Disconnected`, `Toggled`), with lemmas giving the
outcome of each. `Terminal` holds the class `RestoreCellTerminal` with the fields
the source updates in place. Its `Valid()` invariant says three things:
- the LED shows the colour of the current status;
- the last status drawn is the current one;
- a connected terminal holds an open port.

Behaviour of the code that differs from what a bounded log is usually taken
to promise (the model follows the code):

- Only one line is evicted per `add_to_log` call. An entry carrying several
  newlines therefore leaves more than `max_buffer_lines` lines
  (`LogText.MultiLineEntryExceedsBound`).
- The line count includes the empty line after a final newline. With a
  limit of 2, three newline-terminated entries leave only the last one, not
  the last two (`LogText.LimitTwoKeepsNewestEntry`).
- A limit of 0 does not mean "unbounded". Every limit of 1 or less evicts
  on every call (`LogText.SmallLimitAlwaysEvicts`). A limit of 1 lets two
  lines stand (`LogText.LimitOneExceedsBound`).
- Baud detection accepts the first rate at which opening, reading and
  closing the port raise nothing, even when no byte was read. The close on
  leaving the `with` block is inside the `try`, so a rate whose close fails
  is skipped.
- `filter_logs` and `add_to_log` are not called by `read_serial`, which
  inserts the decoded text straight into the widget
  (uart_restorecell.py:296). They are modelled from their own bodies.

## Model

| member | source | states |
|---|---|---|
| Decimal.Digits | uart_restorecell.py:251 | `str(baud)` for a natural: a non-empty string of ASCII digits (no sign, no '.'); `ParseDigits` and `DigitsNoLeadingZero` pin it as the shortest decimal spelling that reads back as the number |
| Decimal.Parse | uart_restorecell.py:256 | `int(s)` succeeds exactly when `s` is a non-empty string of ASCII digits; text with a sign, whitespace, underscores or non-ASCII digits counts as a failure (see "## Left out"); `DigitsOfParse` pins the number returned |
| Decimal.DigitsOfParse | uart_restorecell.py:256 | `str(int(s))` is `s` with its leading zeros removed (a lone "0" kept), so `int("09600")` reads 9600: together with `ParseDigits` the number returned is the value the digits spell |
| Decimal.DigitsNoLeadingZero | uart_restorecell.py:251 | `str(baud)` has no leading zero: its first digit is '0' exactly for zero, so any text of two or more digits starts with a non-zero digit |
| Decimal.ParseDigits | uart_restorecell.py:250-256 | reading back the decimal text of a detected rate gives the rate: `int(str(baud)) == baud` |
| LogText.EndIndex | uart_restorecell.py:326 | Tk's `index('end-1c')` as the string "line.column", resting on Tk's rule that the position before the widget's final newline is on line 1 + (newlines in the text), at column = length of the last line: the part before the first '.' parses to 1 + newlines, and the part after it to the last line's length |
| LogText.BeforeFirst | uart_restorecell.py:326 | `split('.')[0]`: the result is a prefix holding no '.', and is followed by '.' when shorter than the input |
| LogText.LinesCount | uart_restorecell.py:325-326 | the line part of the `end-1c` index, parsed as an integer, is the number of newlines plus one (an empty log counts one line) |
| LogText.DropFirstLine | uart_restorecell.py:318 | `delete('1.0','2.0')` leaves a suffix of the text; the removed prefix is the first line with its newline, or everything when there is no newline; one newline fewer remains |
| LogText.Appended | uart_restorecell.py:314-320 | after `add_to_log` the entry is at the end; what precedes it is a suffix of the old text, in order; below the limit the old text is untouched; at the limit the result is exactly the old text with its first line deleted, followed by the entry; the line count grows by the entry's newlines less at most one evicted line |
| LogText.SingleLineEntriesKeepBound | uart_restorecell.py:314-320 | with a limit of at least 2 and entries of at most one newline, a log within the limit stays within it |
| LogText.MultiLineEntryExceedsBound | uart_restorecell.py:316-320 | an entry with two newlines, appended to an empty log limited to 2 lines, leaves 3 lines |
| LogText.LimitOneExceedsBound | uart_restorecell.py:316-320 | with a limit of 1, a one-line entry after a one-line log leaves 2 lines |
| LogText.SmallLimitAlwaysEvicts | uart_restorecell.py:316-318 | a limit of 1 or less (0 included) deletes the first line on every call |
| LogText.LimitTwoKeepsNewestEntry | uart_restorecell.py:314-326 | appending "A\n", "B\n", "C\n" to an empty log limited to 2 lines leaves exactly "C\n" |
| LogText.OneLineReplaced | uart_restorecell.py:316-320 | a log holding one newline-terminated line, limited to 2 lines, is replaced by the new entry |
| LogFilter.Contains | uart_restorecell.py:309-311 | Python's `pattern in text` is true exactly when the pattern occurs at some position of the text (case sensitive) |
| LogFilter.Timestamp | uart_restorecell.py:304 | the timestamp is empty when timestamps are switched off |
| LogFilter.FilterEntry | uart_restorecell.py:303-312 | "Bruto" keeps every line; "Erro" and "Diagnóstico" keep a line exactly when their own word occurs in it; any other filter keeps nothing; a kept entry is timestamp + " " + data |
| LogFilter.ErrorFilterIsCaseSensitive | uart_restorecell.py:309 | the "Erro" filter drops a line that only contains "ERRO" |
| Baud.RatesAscending | uart_restorecell.py:434 | the list of rates tried is strictly ascending |
| Baud.FirstResponding | uart_restorecell.py:436-444 | the result is None exactly when every rate raises; otherwise it is a listed rate at which the port answers |
| Baud.FirstRespondingIsFirst | uart_restorecell.py:436-443 | every rate before the one returned raised |
| Baud.ScanFindsSmallestAnswering | uart_restorecell.py:434-444 | the detected rate is the smallest listed rate at which the port answers |
| Baud.DetectBaudRate | uart_restorecell.py:432-444 | the loop returns the first answering rate of 9600…921600, a member of the list with every smaller listed rate failing, or None exactly when all eight fail |
| Status.Color | uart_restorecell.py:571-579 | the colour is one of the table's; any status outside the table gets the 'error' colour |
| Status.ColorsOfKnownStatuses | uart_restorecell.py:571-576 | green, red, yellow and grey for connected, disconnected, connecting and error; four different colours |
| Status.UnknownStatusLooksLikeError | uart_restorecell.py:579 | an unknown status is drawn like 'error' |
| Terminal.RestoreCellTerminal.constructor | uart_restorecell.py:19-72 | initial values: not connected, status 'disconnected', no port, the first listed port selected, 115200 baud, filter "Bruto", timestamps on, 1000-line limit, empty log, profile "Default", no profiles |
| Terminal.RestoreCellTerminal.UpdateStatusIndicator | uart_restorecell.py:569-588 | the LED is redrawn in the colour of the current status |
| Connection.ConnectOutcome | uart_restorecell.py:242-274 | `connect` ends 'connected' or 'error'; 'connected' exactly when detection (if on) found a rate, the baud text parses and the open succeeds, and then it is connected on an open port at the rate read from the combobox, which is the detected rate when detection is on; the combobox holds the detected rate's text, or its old text; on 'error' connection, port and button are unchanged |
| Connection.DisconnectOutcome | uart_restorecell.py:276-288 | `disconnect` ends 'error' exactly when there was an open port and its close failed, changing nothing else; otherwise 'disconnected', not connected, the button reading "Conectar", a port kept but closed; the baud text is untouched |
| Connection.OpenPortKept | uart_restorecell.py:242-288 | neither `connect` nor `disconnect` leaves a connected terminal without an open port |
| Connection.ToggleOutcome | uart_restorecell.py:236-288 | `toggle_connection` on a connected terminal ends 'disconnected' with the port closed and "Conectar" when the close succeeds, and 'error' still connected with port and button unchanged when it fails; on any other terminal it ends 'connected' exactly when detection, parse and open succeed, connected exactly then, on an open port at the parsed rate, and on 'error' with port and button unchanged |
| Terminal.RestoreCellTerminal.DetectIntoCombo | uart_restorecell.py:248-253 | reports whether a rate was detected, and writes that rate's decimal text into the baud combobox; the combobox is unchanged otherwise |
| Terminal.RestoreCellTerminal.ShowError | uart_restorecell.py:271-273 | the status becomes 'error' and the LED is drawn for it; nothing else of the connection changes |
| Terminal.RestoreCellTerminal.OpenPort | uart_restorecell.py:255-269 | the connection fields become `Connection.Opened` of the old ones: connected on an open port at the parsed rate, or 'error' |
| Terminal.RestoreCellTerminal.TryConnect | uart_restorecell.py:248-274 | the connection fields become `Connection.Attempted` of the old ones, and the LED is drawn once for the final status |
| Terminal.RestoreCellTerminal.Connect | uart_restorecell.py:242-274 | the connection fields become `Connection.Connected` of the old ones; shows 'connecting' first; ends 'connected' exactly when detection (if on) found a rate, the baud text parses and the open succeeds, and then it is connected on an open port at that rate; a detected rate is written to the baud combobox; otherwise ends 'error' with connection, port and button unchanged |
| Terminal.RestoreCellTerminal.Disconnect | uart_restorecell.py:276-288 | the connection fields become `Connection.Disconnected` of the old ones; closes only an existing open port; ends 'disconnected', not connected, the port closed; a failing close ends 'error' with everything else unchanged |
| Terminal.RestoreCellTerminal.ToggleConnection | uart_restorecell.py:236-240 | the connection fields become `Connection.Toggled` of the old ones; a connected terminal is disconnected without showing 'connecting': 'disconnected', not connected, port closed, "Conectar" when the close succeeds, 'error' with everything unchanged when it fails; any other terminal is connected: 'connected' exactly when detection (if on) found a rate, the baud text parses and the open succeeds, then connected on an open port at the parsed rate, otherwise 'error' with port and button unchanged |
| Terminal.RestoreCellTerminal.AddToLog | uart_restorecell.py:314-323 | the new log is `Appended` of the old log, the current limit and the data |
| Terminal.RestoreCellTerminal.FilterLogs | uart_restorecell.py:303-312 | the log grows by `add_to_log` of the filter's entry when the filter keeps the line, and is unchanged otherwise |
| Terminal.RestoreCellTerminal.ClearLogs | uart_restorecell.py:328-329 | the log is emptied and counts one line |
| Terminal.RestoreCellTerminal.SaveProfile | uart_restorecell.py:452-464 | the current settings are stored under the current profile name, replacing an earlier record; other profiles are kept |
| Terminal.RestoreCellTerminal.LoadProfile | uart_restorecell.py:466-476 | a known profile's six settings become the current ones; an unknown name changes nothing |
| Terminal.SaveThenLoadProfile | uart_restorecell.py:452-476 | saving then loading the current profile leaves the settings as they were and keeps every other profile |

## Left out

- Widget construction, themes, menus, fonts and canvas drawing. The LED is
  only the colour last drawn. `apply_theme` and `update_font_size` after a
  profile load are not modelled.
- Auto-scrolling (`see(END)`) after an append: a view change only.
- Error dialogs (`messagebox`). The error text shown to the user is not
  modelled, only the resulting status.
- The read thread started by `connect`, `read_serial`, `monitor_ports` and
  the shutdown in `cleanup_and_exit`: background threads and their
  interleavings.
- ADB commands (`run_adb_diagnostics`, `execute_adb_command`): external
  processes.
- Reading and writing the JSON configuration file, including the
  `save_config` call at the end of `save_profile`, and exporting the log to
  a file (`save_logs`): file I/O.
- The update check (`check_for_updates`): a fixed version string and a
  browser launch.
- The wall clock in `filter_logs`: the formatted time is a parameter.
- The serial device: whether each open, read and close raises is an input
  (for detection, one boolean per rate covering the open, the read and the
  close together).
  The final open in `connect` is one boolean, independent of the port name
  and rate.
- Decimal.Parse: reads text as plain ASCII digits. Python's `int` also
  accepts surrounding whitespace, a sign, underscores between digits and
  non-ASCII Unicode decimal digits (such as full-width digits); such text
  is treated as unparsable here. Every member that reads the baud combobox
  inherits this: `Connection.Opened`, `Connection.ConnectOutcome`,
  `Connection.ToggleOutcome`, and the `OpenPort`, `TryConnect`, `Connect`
  and `ToggleConnection` methods.
- Terminal.RestoreCellTerminal.Connect: reads the baud combobox through
  `Decimal.Parse`, with the restriction of the line above.
- Terminal.RestoreCellTerminal.Disconnect: when `close` raises, the port is
  taken to stay open, because the serial library's behaviour on a failed
  close is not part of this model.
