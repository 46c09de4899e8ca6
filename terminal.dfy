/**
 * The state of `RestoreCellTerminal` that its connection, log and profile
 * operations update in place. Widgets become the values they hold (the
 * port and baud comboboxes are strings, the log area is its text, the LED is
 * the colour last drawn); the serial device is replaced by oracle inputs
 * saying whether each open or close raises.
 */
module Terminal {
  import opened Wrappers
  import Decimal
  import LogText
  import LogFilter
  import Baud
  import Status
  import Connection

  /** The six settings a profile records. */
  datatype Profile = Profile(
    baudRate: string,
    autoBaud: bool,
    fontSize: int,
    darkMode: bool,
    showTimestamps: bool,
    maxBuffer: int)

  class RestoreCellTerminal {
    // connection
    var isConnected: bool
    var connectionStatus: string
    var serialPort: Option<Connection.SerialPort>
    var portCombo: string
    var baudCombo: string
    var autoBaudDetection: bool
    var connectButtonText: string
    var ledColor: string
    /** Every status the LED has been drawn for, oldest first. */
    ghost var statusTrace: seq<string>

    // log
    var logText: string
    var logFilter: string
    var showTimestamps: bool
    var maxBufferLines: int

    // appearance and profiles
    var fontSize: int
    var darkMode: bool
    var currentProfile: string
    var profiles: map<string, Profile>

    /**
     * The LED shows the current status, and a connected terminal holds an
     * open port.
     */
    ghost predicate Valid()
      reads this
    {
      && ledColor == Status.Color(connectionStatus)
      && |statusTrace| > 0 && statusTrace[|statusTrace| - 1] == connectionStatus
      && (isConnected ==> serialPort.Some? && serialPort.value.isOpen)
    }

    /** The settings `save_profile` records and `load_profile` restores. */
    function Settings(): Profile
      reads this
    {
      Profile(baudCombo, autoBaudDetection, fontSize, darkMode, showTimestamps, maxBufferLines)
    }

    /**
     * The initial state of `__init__`: the first listed port is selected, the
     * LED is drawn for "disconnected". Loading the configuration file is not
     * part of this model.
     */
    constructor (ports: seq<string>)
      ensures Valid()
      ensures !isConnected && connectionStatus == Status.DISCONNECTED && serialPort == None
      ensures portCombo == (if ports == [] then "" else ports[0])
      ensures baudCombo == "115200" && !autoBaudDetection && connectButtonText == Connection.CONNECT_LABEL
      ensures logText == "" && logFilter == LogFilter.RAW && showTimestamps && maxBufferLines == 1000
      ensures fontSize == 10 && !darkMode && currentProfile == "Default" && profiles == map[]
    {
      isConnected := false;
      connectionStatus := Status.DISCONNECTED;
      serialPort := None;
      portCombo := if ports == [] then "" else ports[0];
      baudCombo := "115200";
      autoBaudDetection := false;
      connectButtonText := Connection.CONNECT_LABEL;
      ledColor := Status.Color(Status.DISCONNECTED);
      statusTrace := [Status.DISCONNECTED];
      logText := "";
      logFilter := LogFilter.RAW;
      showTimestamps := true;
      maxBufferLines := 1000;
      fontSize := 10;
      darkMode := false;
      currentProfile := "Default";
      profiles := map[];
    }

    /** Redraws the LED in the colour of the current status. */
    method UpdateStatusIndicator()
      modifies this`ledColor, this`statusTrace
      ensures ledColor == Status.Color(connectionStatus)
      ensures statusTrace == old(statusTrace) + [connectionStatus]
    {
      ledColor := Status.Color(connectionStatus);
      statusTrace := statusTrace + [connectionStatus];
    }

    /** The connection fields, as the value `Connection` reasons about. */
    function Link(): Connection.Link
      reads this
    {
      Connection.Link(isConnected, connectionStatus, serialPort, baudCombo, connectButtonText)
    }

    /**
     * `connect`: shows "connecting", then ends as `Connection.Connected`
     * says, having drawn the LED for the final status: "connected" exactly
     * when detection (when on) found a rate, the baud text parses and the
     * open succeeds, otherwise "error" with the connection as it was.
     */
    method Connect(probe: (string, nat) -> bool, openOk: bool)
      requires Valid()
      modifies this`connectionStatus, this`ledColor, this`statusTrace, this`baudCombo
      modifies this`serialPort, this`isConnected, this`connectButtonText
      ensures Valid()
      ensures statusTrace == old(statusTrace) + [Status.CONNECTING, connectionStatus]
      ensures Link() == Connection.Connected(old(Link()), autoBaudDetection, portCombo, probe, openOk)
      ensures connectionStatus == Status.CONNECTED || connectionStatus == Status.ERROR
      ensures connectionStatus == Status.CONNECTED <==>
                && (!autoBaudDetection || Baud.Scan(portCombo, probe).Some?)
                && Decimal.Parse(baudCombo).Some?
                && openOk
      ensures baudCombo == if autoBaudDetection && Baud.Scan(portCombo, probe).Some?
                           then Decimal.Digits(Baud.Scan(portCombo, probe).value) else old(baudCombo)
      ensures connectionStatus == Status.CONNECTED ==>
                && isConnected
                && serialPort == Some(Connection.SerialPort(portCombo, Decimal.Parse(baudCombo).value, true))
                && connectButtonText == Connection.DISCONNECT_LABEL
      ensures connectionStatus == Status.CONNECTED && autoBaudDetection ==>
                serialPort.value.baudRate == Baud.Scan(portCombo, probe).value
      ensures connectionStatus == Status.ERROR ==>
                && isConnected == old(isConnected)
                && serialPort == old(serialPort)
                && connectButtonText == old(connectButtonText)
    {
      ghost var before := Link();
      connectionStatus := Status.CONNECTING;
      UpdateStatusIndicator();
      TryConnect(probe, openOk);
      Connection.ConnectOutcome(before, autoBaudDetection, portCombo, probe, openOk);
    }

    /** The `try` body of `connect` once "connecting" is shown. */
    method TryConnect(probe: (string, nat) -> bool, openOk: bool)
      requires Valid()
      modifies this`connectionStatus, this`ledColor, this`statusTrace, this`baudCombo
      modifies this`serialPort, this`isConnected, this`connectButtonText
      ensures Valid()
      ensures statusTrace == old(statusTrace) + [connectionStatus]
      ensures Link() == Connection.Attempted(old(Link()), autoBaudDetection, portCombo, probe, openOk)
    {
      if autoBaudDetection {
        var found := DetectIntoCombo(probe);
        if !found {
          ShowError();
          return;
        }
      }
      OpenPort(openOk);
    }

    /**
     * The detection step of `connect`: scans the rates and writes the one
     * found into the baud combobox.
     */
    method DetectIntoCombo(probe: (string, nat) -> bool) returns (found: bool)
      requires Valid()
      modifies this`baudCombo
      ensures Valid()
      ensures found == Baud.Scan(portCombo, probe).Some?
      ensures baudCombo == if found then Decimal.Digits(Baud.Scan(portCombo, probe).value) else old(baudCombo)
    {
      var baud := Baud.DetectBaudRate(portCombo, probe);
      found := baud.Some?;
      if found {
        baudCombo := Decimal.Digits(baud.value);
      }
    }

    /** The `except` branch of `connect`: shows "error". */
    method ShowError()
      requires Valid()
      modifies this`connectionStatus, this`ledColor, this`statusTrace
      ensures Valid()
      ensures Link() == old(Link()).(status := Status.ERROR)
      ensures statusTrace == old(statusTrace) + [Status.ERROR]
    {
      connectionStatus := Status.ERROR;
      UpdateStatusIndicator();
    }

    /**
     * The end of `connect`: reads the baud combobox as an integer and opens
     * the port at that rate, as `Connection.Opened` says.
     */
    method OpenPort(openOk: bool)
      requires Valid()
      modifies this`connectionStatus, this`ledColor, this`statusTrace
      modifies this`serialPort, this`isConnected, this`connectButtonText
      ensures Valid()
      ensures statusTrace == old(statusTrace) + [connectionStatus]
      ensures Link() == Connection.Opened(old(Link()), portCombo, openOk)
    {
      var baud := Decimal.Parse(baudCombo);
      if baud.Some? && openOk {
        serialPort := Some(Connection.SerialPort(portCombo, baud.value, true));
        isConnected := true;
        connectionStatus := Status.CONNECTED;
        UpdateStatusIndicator();
        connectButtonText := Connection.DISCONNECT_LABEL;
      } else {
        ShowError();
      }
    }

    /**
     * `disconnect`: closes the port when there is one and it is open
     * (`closeOk` says whether that close succeeds), then shows
     * "disconnected", as `Connection.Disconnected` says. A failing close
     * shows "error" and changes nothing else.
     */
    method Disconnect(closeOk: bool)
      requires Valid()
      modifies this`connectionStatus, this`ledColor, this`statusTrace
      modifies this`serialPort, this`isConnected, this`connectButtonText
      ensures Valid()
      ensures statusTrace == old(statusTrace) + [connectionStatus]
      ensures Link() == Connection.Disconnected(old(Link()), closeOk)
      ensures var closes := old(serialPort).Some? && old(serialPort).value.isOpen;
              connectionStatus == (if closes && !closeOk then Status.ERROR else Status.DISCONNECTED)
      ensures connectionStatus == Status.DISCONNECTED ==>
                && !isConnected
                && connectButtonText == Connection.CONNECT_LABEL
                && serialPort == (if old(serialPort).Some? && old(serialPort).value.isOpen
                                  then Some(old(serialPort).value.(isOpen := false))
                                  else old(serialPort))
      ensures connectionStatus == Status.ERROR ==>
                && isConnected == old(isConnected)
                && serialPort == old(serialPort)
                && connectButtonText == old(connectButtonText)
    {
      ghost var before := Link();
      if serialPort.Some? && serialPort.value.isOpen {
        if !closeOk {
          connectionStatus := Status.ERROR;
          UpdateStatusIndicator();
          return;
        }
        serialPort := Some(serialPort.value.(isOpen := false));
      }
      isConnected := false;
      connectionStatus := Status.DISCONNECTED;
      UpdateStatusIndicator();
      connectButtonText := Connection.CONNECT_LABEL;
      Connection.DisconnectOutcome(before, closeOk);
    }

    /**
     * `toggle_connection`: disconnects a connected terminal and connects any
     * other, as `Connection.Toggled` says.
     */
    method ToggleConnection(probe: (string, nat) -> bool, openOk: bool, closeOk: bool)
      requires Valid()
      modifies this`connectionStatus, this`ledColor, this`statusTrace, this`baudCombo
      modifies this`serialPort, this`isConnected, this`connectButtonText
      ensures Valid()
      ensures Link() == Connection.Toggled(old(Link()), autoBaudDetection, portCombo, probe, openOk, closeOk)
      ensures statusTrace == old(statusTrace) + (if old(isConnected) then [] else [Status.CONNECTING]) + [connectionStatus]
      // a connected terminal is disconnected
      ensures old(isConnected) ==>
                && connectionStatus == (if closeOk then Status.DISCONNECTED else Status.ERROR)
                && isConnected == !closeOk
                && serialPort == (if closeOk then Some(old(serialPort).value.(isOpen := false)) else old(serialPort))
                && connectButtonText == (if closeOk then Connection.CONNECT_LABEL else old(connectButtonText))
                && baudCombo == old(baudCombo)
      // any other terminal is connected
      ensures !old(isConnected) ==>
                && (connectionStatus == Status.CONNECTED <==>
                      && (!autoBaudDetection || Baud.Scan(portCombo, probe).Some?)
                      && Decimal.Parse(baudCombo).Some?
                      && openOk)
                && (isConnected <==> connectionStatus == Status.CONNECTED)
                && (connectionStatus == Status.CONNECTED ==>
                      serialPort == Some(Connection.SerialPort(portCombo, Decimal.Parse(baudCombo).value, true)))
                && (connectionStatus == Status.ERROR ==>
                      serialPort == old(serialPort) && connectButtonText == old(connectButtonText))
    {
      ghost var before := Link();
      if isConnected {
        Disconnect(closeOk);
      } else {
        Connect(probe, openOk);
      }
      Connection.ToggleOutcome(before, autoBaudDetection, portCombo, probe, openOk, closeOk);
    }

    /**
     * `add_to_log`: deletes the first line when the line count has reached
     * `max_buffer_lines`, then appends `data`.
     */
    method AddToLog(data: string)
      modifies this`logText
      ensures logText == LogText.Appended(old(logText), maxBufferLines, data)
    {
      if LogText.LinesCount(logText) >= maxBufferLines {
        logText := LogText.DropFirstLine(logText);
      }
      logText := logText + data;
    }

    /**
     * `filter_logs`: appends "timestamp data" through `add_to_log` when the
     * selected filter keeps the line. `now` is the formatted current time.
     */
    method FilterLogs(data: string, now: string)
      modifies this`logText
      ensures var entry := LogFilter.FilterEntry(logFilter, LogFilter.Timestamp(showTimestamps, now), data);
              logText == if entry.Some? then LogText.Appended(old(logText), maxBufferLines, entry.value)
                         else old(logText)
    {
      var timestamp := LogFilter.Timestamp(showTimestamps, now);
      var entry := LogFilter.FilterEntry(logFilter, timestamp, data);
      if entry.Some? {
        AddToLog(entry.value);
      }
    }

    /** `clear_logs`: empties the log area, which then counts as one line. */
    method ClearLogs()
      modifies this`logText
      ensures logText == "" && LogText.LinesCount(logText) == 1
    {
      logText := "";
    }

    /**
     * `save_profile`: records the current settings under the current profile
     * name, replacing any earlier record of that name; other profiles stay.
     * Writing the configuration file is not part of this model.
     */
    method SaveProfile()
      modifies this`profiles
      ensures currentProfile in profiles && profiles[currentProfile] == Settings()
      ensures profiles.Keys == old(profiles).Keys + {currentProfile}
      ensures forall name :: name in old(profiles) && name != currentProfile ==>
                profiles[name] == old(profiles)[name]
    {
      profiles := profiles[currentProfile := Settings()];
    }

    /**
     * `load_profile`: restores the six settings of a known profile; an
     * unknown name changes nothing.
     */
    method LoadProfile(name: string)
      modifies this`baudCombo, this`autoBaudDetection, this`fontSize
      modifies this`darkMode, this`showTimestamps, this`maxBufferLines
      ensures name in profiles ==> Settings() == profiles[name]
      ensures name !in profiles ==> Settings() == old(Settings())
    {
      if name in profiles {
        var profile := profiles[name];
        baudCombo := profile.baudRate;
        autoBaudDetection := profile.autoBaud;
        fontSize := profile.fontSize;
        darkMode := profile.darkMode;
        showTimestamps := profile.showTimestamps;
        maxBufferLines := profile.maxBuffer;
      }
    }
  }

  /**
   * Saving the current profile and loading it back leaves the settings as
   * they were, and keeps every other profile.
   */
  method SaveThenLoadProfile(t: RestoreCellTerminal)
    modifies t`profiles, t`baudCombo, t`autoBaudDetection, t`fontSize
    modifies t`darkMode, t`showTimestamps, t`maxBufferLines
    ensures t.Settings() == old(t.Settings())
    ensures t.currentProfile == old(t.currentProfile) && t.currentProfile in t.profiles
    ensures t.profiles[t.currentProfile] == t.Settings()
    ensures forall name :: name in old(t.profiles) && name != t.currentProfile ==>
              name in t.profiles && t.profiles[name] == old(t.profiles)[name]
  {
    t.SaveProfile();
    t.LoadProfile(t.currentProfile);
  }
}
