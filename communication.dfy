/**
 * The transports a reader pulls bytes from: the serial link, reduced to a
 * receive buffer, an open flag and a port, and the Bluetooth and Wi-Fi
 * placeholders. The host machine (which ports exist, which of them open)
 * is a parameter.
 */
module Communication {
  import opened Wrappers

  newtype byte = x: int | 0 <= x < 256

  /**
   * A pyserial `Serial` object: the device it was opened on, its baud rate,
   * whether it is open, and the bytes waiting in its receive buffer.
   */
  datatype Link = Link(device: string, baudrate: int, isOpen: bool, inWaiting: seq<byte>)

  /**
   * What the host offers: the devices `list_ports.comports()` reports, in
   * its order, and the devices that `serial.Serial` opens without raising
   * `SerialException`.
   */
  datatype Host = Host(ports: seq<string>, openable: set<string>)

  /** The fields of a `SerialCommunication`: `port`, `baudrate` and `ser`. */
  datatype SerialState = SerialState(port: Option<string>, baudrate: int, ser: Option<Link>)

  /** `self.ser and self.ser.is_open` */
  predicate IsOpen(ser: Option<Link>) {
    ser.Some? && ser.value.isOpen
  }

  /** `ser.close()` guarded by `is_open`: an open link is closed, anything else is left alone. */
  function CloseLink(ser: Option<Link>): (r: Option<Link>)
    ensures !IsOpen(r)
    ensures ser.None? ==> r == None
    ensures ser.Some? ==> r == Some(ser.value.(isOpen := false))
  {
    if IsOpen(ser) then Some(ser.value.(isOpen := false)) else ser
  }

  /** The port `connect` tries: the configured one, else the first one listed. */
  function ChosenPort(s: SerialState, host: Host): Option<string> {
    if s.port.Some? then s.port else if host.ports != [] then Some(host.ports[0]) else None
  }

  /** The state `SerialCommunication.connect` leaves behind. */
  function Connected(s: SerialState, host: Host): (r: SerialState)
    ensures r.baudrate == s.baudrate
    // the configured port is kept; without one the first listed port is adopted
    ensures s.port.Some? ==> r.port == s.port
    ensures s.port.None? && host.ports != [] ==> r.port == Some(host.ports[0])
    ensures s.port.None? && host.ports == [] ==> r.port == None
    // a link is open afterwards exactly when there was a port to try and it opened
    ensures IsOpen(r.ser) <==> r.port.Some? && r.port.value in host.openable
    // the new link is on that port, at the configured rate, with nothing waiting yet
    ensures IsOpen(r.ser) ==> r.ser == Some(Link(r.port.value, s.baudrate, true, []))
    // otherwise the previous link is kept, closed
    ensures !IsOpen(r.ser) ==> r.ser == CloseLink(s.ser)
  {
    var ser := CloseLink(s.ser);
    var port := ChosenPort(s, host);
    if port.None? then
      SerialState(None, s.baudrate, ser)
    else if port.value in host.openable then
      SerialState(port, s.baudrate, Some(Link(port.value, s.baudrate, true, [])))
    else
      SerialState(port, s.baudrate, ser)
  }

  /**
   * `SerialCommunication.read(n)`: the bytes it returns (`None` when fewer
   * than `n` are waiting) or the exception it raises, and the state after.
   */
  function ReadFrom(s: SerialState, n: nat): (r: (Result<Option<seq<byte>>, Error>, SerialState))
    ensures r.1.port == s.port && r.1.baudrate == s.baudrate
    ensures s.ser.None? ==> r == (Failure(NoLink), s)
    ensures s.ser.Some? && !s.ser.value.isOpen ==> r == (Failure(PortClosed), s)
    ensures IsOpen(s.ser) ==> r.0.Success?
    // all or nothing: exactly n bytes when at least n are waiting ...
    ensures IsOpen(s.ser) ==> (r.0.value.Some? <==> n <= |s.ser.value.inWaiting|)
    ensures r.0.Success? && r.0.value.Some? ==>
              |r.0.value.value| == n && r.1.ser.Some? &&
              r.1.ser.value.(inWaiting := s.ser.value.inWaiting) == s.ser.value &&
              r.0.value.value + r.1.ser.value.inWaiting == s.ser.value.inWaiting
    // ... and otherwise nothing is consumed
    ensures r.0.Success? && r.0.value.None? ==> r.1 == s
  {
    match s.ser
    case None => (Failure(NoLink), s)
    case Some(link) =>
      if !link.isOpen then
        (Failure(PortClosed), s)
      else if |link.inWaiting| >= n then
        (Success(Some(link.inWaiting[..n])), s.(ser := Some(link.(inWaiting := link.inWaiting[n..]))))
      else
        (Success(None), s)
  }

  /** The state `SerialCommunication.close` leaves behind. */
  function Closed(s: SerialState): (r: SerialState)
    ensures r.port == s.port && r.baudrate == s.baudrate
    ensures r.ser == CloseLink(s.ser)
  {
    s.(ser := CloseLink(s.ser))
  }

  /** Connecting twice with the same host is the same as connecting once. */
  lemma ConnectIdempotent(s: SerialState, host: Host)
    ensures Connected(Connected(s, host), host) == Connected(s, host)
  {
  }

  /**
   * `connect` tries the port it chose and then keeps it: a later `connect`
   * chooses the same port again, whatever the host lists by then.
   */
  lemma ConnectKeepsChosenPort(s: SerialState, host: Host, later: Host)
    ensures Connected(s, host).port == ChosenPort(s, host)
    ensures ChosenPort(s, host).Some? ==> ChosenPort(Connected(s, host), later) == ChosenPort(s, host)
  {
  }

  /** Closing is idempotent. */
  lemma CloseIdempotent(s: SerialState)
    ensures Closed(Closed(s)) == Closed(s)
  {
  }

  /** Once closed, a link refuses to be read, whatever the count. */
  lemma ReadAfterClose(s: SerialState, n: nat)
    requires s.ser.Some?
    ensures ReadFrom(Closed(s), n) == (Failure(PortClosed), Closed(s))
  {
  }

  /**
   * Two reads in a row deliver the same bytes, and leave the same state, as
   * one read of the combined count; both succeed exactly when it does.
   */
  lemma ReadConcat(s: SerialState, a: nat, b: nat)
    requires IsOpen(s.ser)
    ensures var (r1, s1) := ReadFrom(s, a);
            var (r2, s2) := ReadFrom(s1, b);
            var (r, t) := ReadFrom(s, a + b);
            && (r.value.Some? <==> r1.value.Some? && r2.value.Some?)
            && (r.value.Some? ==> r.value.value == r1.value.value + r2.value.value && t == s2)
  {
  }

  /** A serial transport: `SerialCommunication`, whose fields `connect`, `read` and `close` update. */
  class SerialCommunication {
    var port: Option<string>
    var baudrate: int
    var ser: Option<Link>

    function State(): SerialState
      reads this
    {
      SerialState(port, baudrate, ser)
    }

    /** `__init__`: store the port and rate, no link yet, then `connect`. */
    constructor (port: Option<string>, baudrate: int, host: Host)
      ensures State() == Connected(SerialState(port, baudrate, None), host)
    {
      this.port := port;
      this.baudrate := baudrate;
      ser := None;
      new;
      Connect(host);
    }

    /**
     * Close an open link, pick the first listed port when none is set (and
     * give up when none is listed), then open a new link; a failed open is
     * swallowed and leaves `ser` as it was.
     */
    method Connect(host: Host)
      modifies this
      ensures State() == Connected(old(State()), host)
    {
      if ser.Some? && ser.value.isOpen {
        ser := Some(ser.value.(isOpen := false));
      }
      if port.None? {
        if host.ports != [] {
          port := Some(host.ports[0]);
        } else {
          return;
        }
      }
      if port.value in host.openable {
        ser := Some(Link(port.value, baudrate, true, []));
      }
    }

    /** Exactly `totalBytes` bytes from the receive buffer, or `None` when fewer are waiting. */
    method Read(totalBytes: nat) returns (r: Result<Option<seq<byte>>, Error>)
      modifies this
      ensures (r, State()) == ReadFrom(old(State()), totalBytes)
    {
      if ser.None? {
        return Failure(NoLink);
      }
      if !ser.value.isOpen {
        return Failure(PortClosed);
      }
      if |ser.value.inWaiting| >= totalBytes {
        var bytes := ser.value.inWaiting[..totalBytes];
        ser := Some(ser.value.(inWaiting := ser.value.inWaiting[totalBytes..]));
        r := Success(Some(bytes));
      } else {
        r := Success(None);
      }
    }

    /** Close the link if it is open; otherwise do nothing. */
    method Close()
      modifies this
      ensures State() == Closed(old(State()))
    {
      if ser.Some? && ser.value.isOpen {
        ser := Some(ser.value.(isOpen := false));
      }
    }
  }

  /**
   * The transports behind `CommunicationInterface`: the base class itself,
   * whose methods are not implemented, the serial link, and the Bluetooth
   * and Wi-Fi placeholders, whose methods do nothing.
   */
  datatype Com = Interface | Serial(link: SerialCommunication) | Bluetooth | WiFi

  /** The objects a transport's methods may change. */
  function Footprint(com: Com): set<object> {
    if com.Serial? then {com.link} else {}
  }

  /** What `com.read(n)` returns or raises in the current state. */
  function ReadResult(com: Com, n: nat): (r: Result<Option<seq<byte>>, Error>)
    reads Footprint(com)
    ensures com.Interface? ==> r == Failure(NotImplemented)
    ensures com.Bluetooth? || com.WiFi? ==> r == Success(None)
    // only the serial link ever delivers bytes, and then exactly n of them
    ensures r.Success? && r.value.Some? ==> com.Serial? && |r.value.value| == n
  {
    match com
    case Interface => Failure(NotImplemented)
    case Serial(link) => ReadFrom(link.State(), n).0
    case Bluetooth => Success(None)
    case WiFi => Success(None)
  }

  /** `com.connect()`, dispatched on the kind of transport. */
  method ComConnect(com: Com, host: Host) returns (r: Result<(), Error>)
    modifies Footprint(com)
    ensures com.Interface? ==> r == Failure(NotImplemented)
    ensures !com.Interface? ==> r == Success(())
    ensures com.Serial? ==> com.link.State() == Connected(old(com.link.State()), host)
  {
    match com
    case Interface =>
      r := Failure(NotImplemented);
    case Serial(link) =>
      link.Connect(host);
      r := Success(());
    case Bluetooth =>
      r := Success(());
    case WiFi =>
      r := Success(());
  }

  /** `com.read(n)`, dispatched on the kind of transport. */
  method ComRead(com: Com, n: nat) returns (r: Result<Option<seq<byte>>, Error>)
    modifies Footprint(com)
    ensures r == old(ReadResult(com, n))
    ensures com.Serial? ==> com.link.State() == ReadFrom(old(com.link.State()), n).1
  {
    match com
    case Interface =>
      r := Failure(NotImplemented);
    case Serial(link) =>
      r := link.Read(n);
    case Bluetooth =>
      r := Success(None);
    case WiFi =>
      r := Success(None);
  }

  /** `com.close()`, dispatched on the kind of transport. */
  method ComClose(com: Com) returns (r: Result<(), Error>)
    modifies Footprint(com)
    ensures com.Interface? ==> r == Failure(NotImplemented)
    ensures !com.Interface? ==> r == Success(())
    ensures com.Serial? ==> com.link.State() == Closed(old(com.link.State()))
  {
    match com
    case Interface =>
      r := Failure(NotImplemented);
    case Serial(link) =>
      link.Close();
      r := Success(());
    case Bluetooth =>
      r := Success(());
    case WiFi =>
      r := Success(());
  }
}
