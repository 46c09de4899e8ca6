/**
 * The connection state machine of `toggle_connection`, `connect` and
 * `disconnect`, as a function from the connection fields before a call to
 * the fields after it. The serial device is replaced by inputs: `probe`
 * says whether opening, reading and closing the port at a rate during
 * detection raise nothing,
 * `openOk` and `closeOk` whether the final open or the close succeeds.
 */
module Connection {
  import opened Wrappers
  import Decimal
  import Baud
  import Status

  /** A `serial.Serial` object: the device it was opened on, its rate and `is_open`. */
  datatype SerialPort = SerialPort(device: string, baudRate: nat, isOpen: bool)

  /**
   * The fields `connect` and `disconnect` write: `is_connected`,
   * `connection_status`, `serial_port`, the text of the baud combobox and
   * the text of the connect button.
   */
  datatype Link = Link(
    isConnected: bool,
    status: string,
    serialPort: Option<SerialPort>,
    baudCombo: string,
    buttonText: string)

  /** Text of the connect button. */
  const CONNECT_LABEL := "Conectar"
  const DISCONNECT_LABEL := "Desconectar"

  /** A connected terminal holds an open port. */
  predicate HoldsOpenPort(c: Link) {
    c.isConnected ==> c.serialPort.Some? && c.serialPort.value.isOpen
  }

  /**
   * The end of `connect`: `int(baud_combo)`, then opening `port` at that
   * rate. A failed parse or open is the `except` branch: status "error".
   */
  function Opened(c: Link, port: string, openOk: bool): Link {
    match Decimal.Parse(c.baudCombo)
    case Some(baud) =>
      if openOk then c.(isConnected := true, status := Status.CONNECTED,
                        serialPort := Some(SerialPort(port, baud, true)),
                        buttonText := DISCONNECT_LABEL)
      else c.(status := Status.ERROR)
    case None => c.(status := Status.ERROR)
  }

  /**
   * `connect` after "connecting" is shown: with automatic detection on, the
   * rate found is written into the baud combobox, and finding none is an
   * error; then the port is opened.
   */
  function Connected(c: Link, autoBaud: bool, port: string, probe: (string, nat) -> bool, openOk: bool): Link {
    Attempted(c.(status := Status.CONNECTING), autoBaud, port, probe, openOk)
  }

  /** The `try` body of `connect` once "connecting" is shown. */
  function Attempted(c: Link, autoBaud: bool, port: string, probe: (string, nat) -> bool, openOk: bool): Link {
    if !autoBaud then Opened(c, port, openOk)
    else match Baud.Scan(port, probe)
      case Some(rate) => Opened(c.(baudCombo := Decimal.Digits(rate)), port, openOk)
      case None => c.(status := Status.ERROR)
  }

  /** `disconnect`: closes an existing open port; a failing close is an error. */
  function Disconnected(c: Link, closeOk: bool): Link {
    var closes := c.serialPort.Some? && c.serialPort.value.isOpen;
    if closes && !closeOk then c.(status := Status.ERROR)
    else c.(isConnected := false, status := Status.DISCONNECTED,
            serialPort := if closes then Some(c.serialPort.value.(isOpen := false)) else c.serialPort,
            buttonText := CONNECT_LABEL)
  }

  /** `toggle_connection`. */
  function Toggled(c: Link, autoBaud: bool, port: string, probe: (string, nat) -> bool,
                   openOk: bool, closeOk: bool): Link {
    if c.isConnected then Disconnected(c, closeOk) else Connected(c, autoBaud, port, probe, openOk)
  }

  /**
   * `connect` ends "connected" exactly when detection (when on) found a
   * rate, the baud text parses and the open succeeds; it is then connected
   * on an open port at the rate read from the combobox, which is the
   * detected rate when detection is on. Otherwise it ends "error" with the
   * connection, the port and the button as they were.
   */
  lemma ConnectOutcome(c: Link, autoBaud: bool, port: string, probe: (string, nat) -> bool, openOk: bool)
    ensures var r := Connected(c, autoBaud, port, probe, openOk);
            r.status == Status.CONNECTED || r.status == Status.ERROR
    ensures var r := Connected(c, autoBaud, port, probe, openOk);
            r.status == Status.CONNECTED <==>
              && (!autoBaud || Baud.Scan(port, probe).Some?)
              && Decimal.Parse(r.baudCombo).Some?
              && openOk
    ensures var r := Connected(c, autoBaud, port, probe, openOk);
            r.baudCombo == if autoBaud && Baud.Scan(port, probe).Some?
                           then Decimal.Digits(Baud.Scan(port, probe).value) else c.baudCombo
    ensures var r := Connected(c, autoBaud, port, probe, openOk);
            r.status == Status.CONNECTED ==>
              && r.isConnected
              && r.serialPort == Some(SerialPort(port, Decimal.Parse(r.baudCombo).value, true))
              && r.buttonText == DISCONNECT_LABEL
    ensures var r := Connected(c, autoBaud, port, probe, openOk);
            r.status == Status.CONNECTED && autoBaud ==>
              r.serialPort.value.baudRate == Baud.Scan(port, probe).value
    ensures var r := Connected(c, autoBaud, port, probe, openOk);
            r.status == Status.ERROR ==>
              r.isConnected == c.isConnected && r.serialPort == c.serialPort && r.buttonText == c.buttonText
  {
    if autoBaud && Baud.Scan(port, probe).Some? {
      Decimal.ParseDigits(Baud.Scan(port, probe).value);
    }
  }

  /**
   * `disconnect` closes only an existing open port. It ends "disconnected",
   * not connected, with the port closed and the button reading "Conectar";
   * a failing close ends "error" and changes nothing else.
   */
  lemma DisconnectOutcome(c: Link, closeOk: bool)
    ensures var closes := c.serialPort.Some? && c.serialPort.value.isOpen;
            Disconnected(c, closeOk).status == if closes && !closeOk then Status.ERROR else Status.DISCONNECTED
    ensures var r := Disconnected(c, closeOk);
            r.status == Status.DISCONNECTED ==>
              && !r.isConnected
              && r.buttonText == CONNECT_LABEL
              && (r.serialPort.Some? <==> c.serialPort.Some?)
              && (r.serialPort.Some? ==> r.serialPort.value == c.serialPort.value.(isOpen := false))
    ensures var r := Disconnected(c, closeOk);
            r.status == Status.ERROR ==> r == c.(status := Status.ERROR)
    ensures Disconnected(c, closeOk).baudCombo == c.baudCombo
  {
  }

  /** Neither `connect` nor `disconnect` leaves a connected terminal without an open port. */
  lemma OpenPortKept(c: Link, autoBaud: bool, port: string, probe: (string, nat) -> bool,
                     openOk: bool, closeOk: bool)
    requires HoldsOpenPort(c)
    ensures HoldsOpenPort(Connected(c, autoBaud, port, probe, openOk))
    ensures HoldsOpenPort(Disconnected(c, closeOk))
  {
  }

  /**
   * `toggle_connection` disconnects a connected terminal (which holds an
   * open port): it ends "disconnected" and not connected with the port
   * closed when the close succeeds, and "error" still connected otherwise.
   * Any other terminal is connected: it ends "connected" exactly when
   * detection, parse and open succeed, and is then connected.
   */
  lemma ToggleOutcome(c: Link, autoBaud: bool, port: string, probe: (string, nat) -> bool,
                      openOk: bool, closeOk: bool)
    requires HoldsOpenPort(c)
    ensures var r := Toggled(c, autoBaud, port, probe, openOk, closeOk);
            c.isConnected ==>
              && r.status == (if closeOk then Status.DISCONNECTED else Status.ERROR)
              && r.isConnected == !closeOk
              && r.serialPort == (if closeOk then Some(c.serialPort.value.(isOpen := false)) else c.serialPort)
              && r.buttonText == (if closeOk then CONNECT_LABEL else c.buttonText)
              && r.baudCombo == c.baudCombo
    ensures var r := Toggled(c, autoBaud, port, probe, openOk, closeOk);
            !c.isConnected ==>
              && (r.status == Status.CONNECTED || r.status == Status.ERROR)
              && r.baudCombo == (if autoBaud && Baud.Scan(port, probe).Some?
                                 then Decimal.Digits(Baud.Scan(port, probe).value) else c.baudCombo)
              && (r.status == Status.CONNECTED <==>
                    && (!autoBaud || Baud.Scan(port, probe).Some?)
                    && Decimal.Parse(r.baudCombo).Some?
                    && openOk)
              && (r.isConnected <==> r.status == Status.CONNECTED)
              && (r.status == Status.CONNECTED ==>
                    r.serialPort == Some(SerialPort(port, Decimal.Parse(r.baudCombo).value, true)))
              && (r.status == Status.ERROR ==> r.serialPort == c.serialPort && r.buttonText == c.buttonText)
  {
    if c.isConnected {
      DisconnectOutcome(c, closeOk);
    } else {
      ConnectOutcome(c, autoBaud, port, probe, openOk);
    }
  }
}
