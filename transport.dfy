/**
 * How the tools choose their connection from the parsed options: the
 * local and remote socket addresses, the FT1.2 serial link by port number
 * or by name, KNXnet/IP tunnelling or routing, and for the property tool
 * local device management or the remote property services. The links and
 * adapters themselves are library objects; what is modelled is which one
 * is asked for, with which arguments, and the errors raised before.
 */
module Transport {
  import opened Base
  import opened JavaNumbers
  import opened Options

  /** An `InetSocketAddress`; `None` as the address is the wildcard address a `null` host gives. */
  datatype SocketAddress = SocketAddress(host: Option<HostAddress>, port: int)

  /** Why a socket address could not be made. */
  datatype SocketError =
    | PortOutOfRange(port: int)   // IllegalArgumentException of InetSocketAddress
    | NoLocalHost(message: string) // the message of the platform's UnknownHostException

  /** `new InetSocketAddress(host, port)` */
  function SocketFor(host: Option<HostAddress>, port: int): (r: Result<SocketAddress, SocketError>)
    ensures r.Ok? <==> 0 <= port <= 0xFFFF
    ensures r.Ok? ==> r.value == SocketAddress(host, port)
  {
    if 0 <= port <= 0xFFFF then Ok(SocketAddress(host, port)) else Err(PortOutOfRange(port))
  }

  /**
   * `createLocalSocket`: the given local host with the given port (0 when
   * none), else the platform's local host when a port other than 0 is
   * given, else no local address.
   */
  function CreateLocalSocket(host: Option<HostAddress>, port: Option<int>, localHost: Result<HostAddress, string>)
    : Result<Option<SocketAddress>, SocketError>
  {
    var p := if port.Some? then port.value else 0;
    if host.Some? then
      (match SocketFor(host, p)
       case Ok(a) => Ok(Some(a))
       case Err(e) => Err(e))
    else if p != 0 then
      (if localHost.Err? then Err(NoLocalHost(localHost.error))
       else
         match SocketFor(Some(localHost.value), p)
         case Ok(a) => Ok(Some(a))
         case Err(e) => Err(e))
    else Ok(None)
  }

  /**
   * There is no local address exactly when neither a local host nor a
   * local port other than 0 is given; a given local host is always used.
   */
  lemma LocalSocketChoice(host: Option<HostAddress>, port: Option<int>, localHost: Result<HostAddress, string>)
    ensures CreateLocalSocket(host, port, localHost) == Ok(None) <==>
      host.None? && (port.None? || port.value == 0)
    ensures host.Some? && CreateLocalSocket(host, port, localHost).Ok? ==>
      CreateLocalSocket(host, port, localHost).value.value.host == host
    ensures host.None? && port.Some? && port.value != 0 && localHost.Err? ==>
      CreateLocalSocket(host, port, localHost) == Err(NoLocalHost(localHost.error))
  {
  }

  // ---------------------------------------------------------------------
  // Reading the options map

  function HostOf(o: OptionMap, key: string): Option<HostAddress>
    requires Typed(o)
  {
    if key in o && o[key].Host? then Some(o[key].host) else None
  }

  function NumberOf(o: OptionMap, key: string): Option<int>
    requires Typed(o)
  {
    if key in o && o[key].Num? then Some(o[key].n) else None
  }

  /** The options a connection is made from: a typed map with a port and a medium. */
  predicate Ready(o: OptionMap)
  {
    Typed(o) && "port" in o && "medium" in o
  }

  function PortOf(o: OptionMap): int
    requires Ready(o)
  {
    assert Fits("port", o["port"]);
    o["port"].n
  }

  function MediumOf(o: OptionMap): Medium
    requires Ready(o)
  {
    assert Fits("medium", o["medium"]);
    o["medium"].medium
  }

  /** The serial port identifier; `None` when `-serial` came without one. */
  function SerialId(o: OptionMap): Option<string>
    requires Typed(o) && "serial" in o
  {
    if o["serial"].Str? then Some(o["serial"].text) else None
  }

  // ---------------------------------------------------------------------
  // Links and adapters

  datatype LinkMode = Tunneling | Routing

  /** The network link asked of the library. */
  datatype LinkSpec =
    | Ft12ByPort(portNumber: int, medium: Medium)
    | Ft12ByName(portId: Option<string>, medium: Medium)
    | IpLink(mode: LinkMode, local: Option<SocketAddress>, remote: SocketAddress, useNat: bool, medium: Medium)

  /**
   * The FT1.2 link: by port number when the identifier parses as an `int`,
   * otherwise by its name (`Integer.parseInt` of a missing identifier
   * throws as well).
   */
  function SerialLink(id: Option<string>, medium: Medium): (l: LinkSpec)
    ensures l.Ft12ByPort? <==> id.Some? && ParseInt(id.value).Some?
    ensures l.Ft12ByPort? ==> Some(l.portNumber) == ParseInt(id.value)
    ensures l.Ft12ByName? ==> l.portId == id
    ensures l.medium == medium
  {
    if id.Some? && ParseInt(id.value).Some? then Ft12ByPort(ParseInt(id.value).value, medium)
    else Ft12ByName(id, medium)
  }

  /** How the remote property services reach the device. */
  datatype Access = Authorized(key: seq<byte>) | Plain(connectionOriented: bool)

  /** The property adapter asked of the library. */
  datatype AdapterPlan =
    | LocalDeviceManagement(local: Option<SocketAddress>, host: SocketAddress, useNat: bool, emulateWriteEnable: bool)
    | RemoteServices(link: LinkSpec, device: Option<IndividualAddress>, access: Access)

  /** `createRemoteAdapter`, once the socket addresses exist. */
  function RemoteAdapter(o: OptionMap, local: Option<SocketAddress>, host: SocketAddress): AdapterPlan
    requires Ready(o)
  {
    var link :=
      if "serial" in o then SerialLink(SerialId(o), MediumOf(o))
      else IpLink(if "routing" in o then Routing else Tunneling, local, host, "nat" in o, MediumOf(o));
    var device := if "remote" in o && o["remote"].Addr? then Some(o["remote"].individual) else None;
    var access := if "authorize" in o && o["authorize"].KeyValue? then Authorized(o["authorize"].key) else Plain("connect" in o);
    RemoteServices(link, device, access)
  }

  /**
   * `createAdapter`: both socket addresses are made first, even for a
   * serial link that does not use them; then `-local` picks local device
   * management and anything else the remote property services.
   */
  function CreateAdapter(o: OptionMap, env: Env): Result<AdapterPlan, SocketError>
    requires Ready(o)
  {
    match CreateLocalSocket(HostOf(o, "localhost"), NumberOf(o, "localport"), env.localHost)
    case Err(e) => Err(e)
    case Ok(local) =>
      match SocketFor(HostOf(o, "host"), PortOf(o))
      case Err(e) => Err(e)
      case Ok(host) =>
        if "local" in o then Ok(LocalDeviceManagement(local, host, "nat" in o, "emulatewriteenable" in o))
        else Ok(RemoteAdapter(o, local, host))
  }

  /**
   * The adapter choice is exhaustive and follows the options: local
   * device management exactly with `-local`; otherwise FT1.2 exactly with
   * `-serial`, routing exactly with `-routing`, and authorization exactly
   * with a key.
   */
  lemma AdapterChoice(o: OptionMap, env: Env)
    requires Ready(o) && CreateAdapter(o, env).Ok?
    ensures var p := CreateAdapter(o, env).value;
      (p.LocalDeviceManagement? <==> "local" in o) &&
      (p.LocalDeviceManagement? ==> p.useNat == ("nat" in o) && p.emulateWriteEnable == ("emulatewriteenable" in o)) &&
      (p.RemoteServices? ==>
        ((p.link.Ft12ByPort? || p.link.Ft12ByName?) <==> "serial" in o) &&
        (p.link.IpLink? ==> (p.link.mode == Routing <==> "routing" in o) && p.link.useNat == ("nat" in o)) &&
        (p.access.Authorized? <==> "authorize" in o) &&
        p.link.medium == MediumOf(o))
  {
    var p := CreateAdapter(o, env).value;
    if "authorize" in o {
      assert Fits("authorize", o["authorize"]);
    }
  }

  /**
   * The adapter fails only for lack of a socket address: a remote port
   * outside 0..65535, or a local address that cannot be made.
   */
  lemma AdapterErrors(o: OptionMap, env: Env)
    requires Ready(o)
    ensures CreateAdapter(o, env).Err? <==>
      CreateLocalSocket(HostOf(o, "localhost"), NumberOf(o, "localport"), env.localHost).Err? ||
      !(0 <= PortOf(o) <= 0xFFFF)
  {
  }

  /**
   * `GroupMonitor.createLink`: the serial link when `-serial` was given,
   * looked at before any socket address; otherwise always KNXnet/IP
   * tunnelling.
   */
  function MonitorLink(o: OptionMap, env: Env): Result<LinkSpec, SocketError>
    requires Ready(o)
  {
    if "serial" in o then Ok(SerialLink(SerialId(o), MediumOf(o)))
    else
      match CreateLocalSocket(HostOf(o, "localhost"), NumberOf(o, "localport"), env.localHost)
      case Err(e) => Err(e)
      case Ok(local) =>
        match SocketFor(HostOf(o, "host"), PortOf(o))
        case Err(e) => Err(e)
        case Ok(host) => Ok(IpLink(Tunneling, local, host, "nat" in o, MediumOf(o)))
  }

  /**
   * The group monitor never routes, and a serial link never fails on
   * socket addresses; an IP link goes to the host and port of the options.
   */
  lemma MonitorNeverRoutes(o: OptionMap, env: Env)
    requires Ready(o)
    ensures MonitorLink(o, env).Ok? && MonitorLink(o, env).value.IpLink? ==>
      MonitorLink(o, env).value.mode == Tunneling &&
      MonitorLink(o, env).value.remote == SocketAddress(HostOf(o, "host"), PortOf(o))
    ensures "serial" in o ==> MonitorLink(o, env).Ok? && !MonitorLink(o, env).value.IpLink?
    ensures "serial" !in o && MonitorLink(o, env).Ok? ==> MonitorLink(o, env).value.IpLink?
  {
  }

  // ---------------------------------------------------------------------
  // Opened connections

  /** What the library does when asked to open a link or an adapter. */
  datatype Opening =
    | Opened
    | Refused(message: string)   // a KNXException with its message
    | InterruptedOpening         // an InterruptedException while connecting

  /**
   * The message of the runtime exception a socket address error raises:
   * `InetSocketAddress`'s range message, or "failed to get local host "
   * followed by the message of the `UnknownHostException`.
   */
  function SocketMessage(e: SocketError): string
  {
    match e
    case PortOutOfRange(p) => "port out of range:" + IntToString(p)
    case NoLocalHost(m) => "failed to get local host " + m
  }

  /**
   * An open network link (`KNXNetworkLink`), or another connection the
   * tools close: it counts the calls of `close` made on it.
   */
  class Link {
    const spec: LinkSpec
    var open: bool
    var closes: nat

    constructor (spec: LinkSpec)
      ensures this.spec == spec && open && closes == 0
    {
      this.spec := spec;
      open := true;
      closes := 0;
    }

    /** `close`, called by the tool. */
    method Close()
      modifies this
      ensures !open && closes == old(closes) + 1
    {
      open := false;
      closes := closes + 1;
    }

    /** The link closed by the network or the library, not by the tool. */
    method Drop()
      modifies this
      ensures !open && closes == old(closes)
    {
      open := false;
    }
  }
}
