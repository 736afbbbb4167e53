/**
 * The types the G30 header declares: the connection configuration with its
 * defaults, the two controlled quantities, and the reasons a controller
 * operation throws a G30Exception.
 */
module G30Types {

  /** Ethernet connection settings; the port and the timeout are plain C++ ints. */
  datatype G30Config = G30Config(ipAddress: string, tcpPort: int, timeoutMs: int)

  /** The default timeout argument of the transport's read. */
  const DefaultReadTimeoutMs: int := 1000

  /**
   * The configuration a default-constructed G30Config holds; its timeout is
   * the one the transport's read assumes when none is given.
   */
  function DefaultConfig(): (c: G30Config)
    ensures c.ipAddress == "" && c.tcpPort == 8003 && c.timeoutMs == 1000
    ensures c.timeoutMs == DefaultReadTimeoutMs
  {
    G30Config("", 8003, 1000)
  }

  /** The client-side safety limits a new controller starts with. */
  const InitialMaxVoltage: real := 30.0
  const InitialMaxCurrent: real := 56.0

  /** The two set-points the controller drives. */
  datatype Quantity = Voltage | Current

  /** Why a G30 operation threw; What gives the exception's message. */
  datatype Fault =
    | NotConnected
    | Negative(quantity: Quantity)
    | AboveLimit(quantity: Quantity)
    | NonPositiveRampRate
    | NonPositiveLimit(quantity: Quantity)
    | NoIdentification
    | ConnectionFailed(cause: Fault)
    | PortNotOpen
    | RemoteClosed
    | ParseFailed(response: string)

  /**
   * The message the exception carries (numbers printed by std::to_string
   * omitted). It is never empty; a failed connection ends with the message of
   * its cause, and a failed parse quotes the reply between single quotes at
   * its end.
   */
  function What(f: Fault): (m: string)
    ensures |m| > 0
    ensures f.ConnectionFailed? ==> |What(f.cause)| < |m| && m[|m| - |What(f.cause)|..] == What(f.cause)
    ensures f.ParseFailed? ==>
      |f.response| + 2 < |m| && m[|m| - |f.response| - 2..] == "'" + f.response + "'"
  {
    match f
    case NotConnected => "Not connected to device"
    case Negative(Voltage) => "Voltage cannot be negative"
    case Negative(Current) => "Current cannot be negative"
    case AboveLimit(Voltage) => "Voltage exceeds maximum limit"
    case AboveLimit(Current) => "Current exceeds maximum limit"
    case NonPositiveRampRate => "Ramp rate must be positive"
    case NonPositiveLimit(Voltage) => "Maximum voltage must be positive"
    case NonPositiveLimit(Current) => "Maximum current must be positive"
    case NoIdentification => "Failed to communicate with device"
    case ConnectionFailed(cause) => "Connection failed: " + What(cause)
    case PortNotOpen => "TCP port is not open"
    case RemoteClosed => "TCP connection closed by remote host"
    case ParseFailed(response) => "Failed to parse numeric response: '" + response + "'"
  }
}
