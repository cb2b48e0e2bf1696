/**
 * The session of `NavienSmartControl` with the relay server: the login
 * and reconnect decisions of `connect`, `disconnect` and `sendRequest`,
 * the exchange of `send_and_receive`, the per-device cache update and the
 * four request wrappers.
 *
 * The socket is a script of exchange outcomes (`network`), one consumed
 * per write on an open connection; every write attempted on an open
 * connection is recorded in `written`; the clock is the `now` argument.
 * The state machine is stated as functions over a `Session` value, and the
 * class `NavienSmartControl` keeps the same state in fields that its
 * methods update, each proved to follow those functions.
 */
module TcpSession {
  import opened Wrappers
  import opened ByteCodec
  import opened ResponseFrames
  import ResponseReader
  import Codes
  import opened ControlRequest
  import opened UnitConversion
  import opened StateCache

  /** A session older than this many seconds is closed and logged in again before a request. */
  const ReconnectSeconds := 600

  /** The most bytes one `reader.read` returns. */
  const ReadLimit := 1024

  /** What happens to one write on an open connection. */
  datatype Exchange =
    | Delivered(reply: seq<byte>)   // written, and the server's reply is available
    | TimedOut                      // no reply within the read timeout, or another error
    | ConnectionReset               // the server reset the connection

  /** A message written to the server. */
  datatype Sent = LoginLine(text: string) | RequestFrame(frame: seq<byte>)

  /** The fields of `NavienSmartControl` the protocol depends on, plus the scripted socket. */
  datatype Session = Session(
    userId: string,
    gatewayId: string,
    connected: bool,          // `writer` is not None
    loggedIn: bool,
    lastConnect: Option<int>,
    channelInfo: Response,
    lastState: Cache,
    network: seq<Exchange>,
    written: seq<Sent>)

  /** The state `__init__` sets up. */
  function InitialSession(userId: string, gatewayId: string, network: seq<Exchange>): Session
  {
    Session(userId, gatewayId, false, false, None, EmptyResult, map[], network, [])
  }

  /** The login line: user id, the client tag and the gateway id, separated by `$`. */
  function LoginText(userId: string, gatewayId: string): string
  {
    userId + "$" + "iPhone1.0" + "$" + gatewayId
  }

  /** What one read returns of a reply. */
  function Received(reply: seq<byte>): (r: seq<byte>)
    ensures |r| <= ReadLimit && |r| <= |reply| && r == reply[..|r|]
    ensures |reply| <= ReadLimit ==> r == reply
  {
    if |reply| <= ReadLimit then reply else reply[..ReadLimit]
  }

  /**
   * `send_and_receive`: without a writer the write raises and the answer is
   * `parseResponse(None)`; otherwise the message is written and the next
   * scripted outcome decides the answer, a reset also closing the session.
   */
  function Transmit(s: Session, msg: Sent, readResponse: bool): (Session, Response)
  {
    if !s.connected then (s, ParseResponse(None))
    else
      var sent := s.(written := s.written + [msg]);
      if s.network == [] then (sent, ParseResponse(None))
      else
        var rest := sent.(network := s.network[1..]);
        match s.network[0]
        case Delivered(reply) =>
          (rest, if readResponse then ParseResponse(Some(Received(reply))) else ParseResponse(None))
        case TimedOut => (rest, ParseResponse(None))
        case ConnectionReset => (rest.(loggedIn := false, connected := false), ParseResponse(None))
  }

  /**
   * `connect`: the connection opens (its retry loop is taken to succeed),
   * the login line is sent, and only a reply with a `channel` key (a
   * channel-information result) logs in; the answer is the stored channel
   * information.
   */
  function ConnectStep(s: Session, now: int): (Session, Response)
  {
    var (after, reply) := Transmit(s.(connected := true), LoginLine(LoginText(s.userId, s.gatewayId)), true);
    if reply.ChannelInfo? then
      (after.(channelInfo := reply, loggedIn := true, lastConnect := Some(now)), reply)
    else (after, after.channelInfo)
  }

  /** `disconnect`: always logged out, writer and reader dropped. */
  function DisconnectStep(s: Session): Session
  {
    s.(loggedIn := false, connected := false)
  }

  /**
   * `sendRequest`: build the frame (a failure answers `{}` and touches
   * nothing); log in when logged out; without any login time the age test
   * raises and the answer is `{}`; a session 600 seconds old or more is
   * disconnected and logged in again; then the frame is exchanged.
   */
  function RequestStep(s: Session, c: ControlFields, w: WeeklyDay, readResponse: bool, now: int): (Session, Response)
  {
    match EncodeRequest(s.gatewayId, c, w)
    case None => (s, EmptyResult)
    case Some(frame) =>
      var ready := if s.loggedIn then s else ConnectStep(s, now).0;
      match ready.lastConnect
      case None => (ready, EmptyResult)
      case Some(t) =>
        var renewed := if now - t >= ReconnectSeconds then ConnectStep(DisconnectStep(ready), now).0 else ready;
        Transmit(renewed, RequestFrame(frame), readResponse)
  }

  /** `uodate_last_state` on the session: the new cache, or None (and nothing changed) where it raises. */
  function UpdateStep(s: Session, stateData: Response, channel: int, device: int, now: int): (Session, Option<Cache>)
  {
    match Update(s.lastState, s.channelInfo, stateData, channel, device, now)
    case None => (s, None)
    case Some(cache) => (s.(lastState := cache), Some(cache))
  }

  /** A `send*Request` wrapper: its request, then the cache update with whatever came back. */
  function SendCommand(s: Session, cmd: Command, channel: int, device: int, now: int): (Session, Option<Cache>)
  {
    match CommandFields(cmd, channel, device)
    case None => (s, None)
    case Some(c) => ControlStep(s, c, ReadsResponse(cmd), channel, device, now)
  }

  /** A request with an empty schedule, then the cache update with whatever came back. */
  function ControlStep(s: Session, c: ControlFields, readResponse: bool, channel: int, device: int, now: int): (Session, Option<Cache>)
  {
    var (after, state) := RequestStep(s, c, EmptyWeeklyDay(), readResponse, now);
    UpdateStep(after, state, channel, device, now)
  }

  // ================================================================ invariant

  /**
   * A logged-in session has an open connection and a login time; a login
   * time exists exactly when channel information has been stored; the
   * stored channel information is a channel-information result or `{}`.
   */
  ghost predicate Valid(s: Session)
  {
    && (s.loggedIn ==> s.connected && s.lastConnect.Some?)
    && (s.lastConnect.Some? <==> s.channelInfo.ChannelInfo?)
    && (s.channelInfo.EmptyResult? || s.channelInfo.ChannelInfo?)
  }

  lemma InitialValid(userId: string, gatewayId: string, network: seq<Exchange>)
    ensures Valid(InitialSession(userId, gatewayId, network))
  {
  }

  lemma TransmitValid(s: Session, msg: Sent, readResponse: bool)
    requires Valid(s)
    ensures Valid(Transmit(s, msg, readResponse).0)
  {
  }

  lemma DisconnectValid(s: Session)
    requires Valid(s)
    ensures Valid(DisconnectStep(s))
  {
  }

  lemma UpdateValid(s: Session, stateData: Response, channel: int, device: int, now: int)
    requires Valid(s)
    ensures Valid(UpdateStep(s, stateData, channel, device, now).0)
  {
  }

  lemma ConnectValid(s: Session, now: int)
    requires Valid(s)
    ensures Valid(ConnectStep(s, now).0)
  {
  }

  lemma {:induction false} SendRequestValid(s: Session, c: ControlFields, w: WeeklyDay, readResponse: bool, now: int)
    requires Valid(s)
    ensures Valid(RequestStep(s, c, w, readResponse, now).0)
  {
    if EncodeRequest(s.gatewayId, c, w).Some? {
      var ready := if s.loggedIn then s else ConnectStep(s, now).0;
      ConnectValid(s, now);
      if ready.lastConnect.Some? {
        ConnectValid(DisconnectStep(ready), now);
        var renewed := if now - ready.lastConnect.value >= ReconnectSeconds then ConnectStep(DisconnectStep(ready), now).0 else ready;
        TransmitValid(renewed, RequestFrame(EncodeRequest(s.gatewayId, c, w).value), readResponse);
      }
    }
  }

  /** Every wrapper keeps the session invariant. */
  lemma SendCommandValid(s: Session, cmd: Command, channel: int, device: int, now: int)
    requires Valid(s)
    ensures Valid(SendCommand(s, cmd, channel, device, now).0)
  {
    match CommandFields(cmd, channel, device)
    case None =>
    case Some(c) =>
      SendRequestValid(s, c, EmptyWeeklyDay(), ReadsResponse(cmd), now);
  }

  // ================================================================ properties

  /**
   * Login: from a logged-out session, `connect` writes the login line and
   * logs in exactly when the first scripted reply decodes to channel
   * information, which it then stores with the login time; otherwise the
   * login state, login time and channel information are left as they were.
   */
  lemma ConnectLogsIn(s: Session, now: int)
    requires !s.loggedIn
    ensures var (after, r) := ConnectStep(s, now);
      && after.written == s.written + [LoginLine(LoginText(s.userId, s.gatewayId))]
      && (after.loggedIn <==>
            s.network != [] && s.network[0].Delivered? &&
            ParseResponse(Some(Received(s.network[0].reply))).ChannelInfo?)
      && (after.loggedIn ==>
            after.lastConnect == Some(now) && after.channelInfo == r &&
            r == ParseResponse(Some(Received(s.network[0].reply))))
      && (!after.loggedIn ==> after.lastConnect == s.lastConnect && after.channelInfo == s.channelInfo && r == s.channelInfo)
  {
  }

  /** A reply that logs in has more than twelve bytes and control type 1 in byte 9. */
  lemma LoginReplyShape(s: Session, now: int)
    requires !s.loggedIn && ConnectStep(s, now).0.loggedIn
    ensures var reply := Received(s.network[0].reply);
      |reply| > HeaderLength && reply[9] == Codes.ControlType.ChannelInformation.Code()
  {
    ConnectLogsIn(s, now);
    ParseResponseDispatch(Some(Received(s.network[0].reply)));
  }

  /** `disconnect` leaves the session logged out with no writer, and nothing else changes. */
  lemma DisconnectLogsOut(s: Session)
    ensures var d := DisconnectStep(s);
      !d.loggedIn && !d.connected && d.lastConnect == s.lastConnect && d.channelInfo == s.channelInfo &&
      d.lastState == s.lastState && d.network == s.network && d.written == s.written
  {
  }

  /** A request that cannot be encoded answers `{}` and leaves the session exactly as it was. */
  lemma EncodeFailureSendsNothing(s: Session, c: ControlFields, w: WeeklyDay, readResponse: bool, now: int)
    requires EncodeRequest(s.gatewayId, c, w).None?
    ensures RequestStep(s, c, w, readResponse, now) == (s, EmptyResult)
  {
  }

  /** A transmission writes the message exactly when a connection is open. */
  lemma TransmitWrites(s: Session, msg: Sent, readResponse: bool)
    ensures Transmit(s, msg, readResponse).0.written == if s.connected then s.written + [msg] else s.written
  {
  }

  /** `connect` always writes the login line, whatever the reply. */
  lemma ConnectWritesLogin(s: Session, now: int)
    ensures ConnectStep(s, now).0.written == s.written + [LoginLine(LoginText(s.userId, s.gatewayId))]
  {
    TransmitWrites(s.(connected := true), LoginLine(LoginText(s.userId, s.gatewayId)), true);
  }

  /** The reconnect policy, first half: a valid logged-in session younger than 600 seconds writes just the request frame. */
  lemma FreshSessionSendsFrame(s: Session, c: ControlFields, w: WeeklyDay, readResponse: bool, now: int)
    requires Valid(s) && s.loggedIn && now - s.lastConnect.value < ReconnectSeconds
    requires EncodeRequest(s.gatewayId, c, w).Some?
    ensures RequestStep(s, c, w, readResponse, now).0.written ==
      s.written + [RequestFrame(EncodeRequest(s.gatewayId, c, w).value)]
  {
    var frame := EncodeRequest(s.gatewayId, c, w).value;
    assert RequestStep(s, c, w, readResponse, now) == Transmit(s, RequestFrame(frame), readResponse);
    TransmitWrites(s, RequestFrame(frame), readResponse);
  }

  /**
   * The reconnect policy, second half: a logged-out session, and a session
   * 600 seconds old or more, first writes the login line (the old session
   * being disconnected first).
   */
  lemma StaleSessionLogsInFirst(s: Session, c: ControlFields, w: WeeklyDay, readResponse: bool, now: int)
    requires !s.loggedIn || (s.lastConnect.Some? && now - s.lastConnect.value >= ReconnectSeconds)
    requires EncodeRequest(s.gatewayId, c, w).Some?
    ensures var after := RequestStep(s, c, w, readResponse, now).0;
      |after.written| > |s.written| && after.written[|s.written|] == LoginLine(LoginText(s.userId, s.gatewayId))
  {
    var frame := EncodeRequest(s.gatewayId, c, w).value;
    var login := LoginLine(LoginText(s.userId, s.gatewayId));
    var ready := if s.loggedIn then s else ConnectStep(s, now).0;
    ConnectWritesLogin(s, now);
    assert ready.userId == s.userId && ready.gatewayId == s.gatewayId;
    if ready.lastConnect.Some? {
      var t := ready.lastConnect.value;
      var renewed := if now - t >= ReconnectSeconds then ConnectStep(DisconnectStep(ready), now).0 else ready;
      ConnectWritesLogin(DisconnectStep(ready), now);
      assert |renewed.written| > |s.written| && renewed.written[|s.written|] == login;
      assert RequestStep(s, c, w, readResponse, now) == Transmit(renewed, RequestFrame(frame), readResponse);
      TransmitWrites(renewed, RequestFrame(frame), readResponse);
    } else {
      assert RequestStep(s, c, w, readResponse, now) == (ready, EmptyResult);
    }
  }

  /**
   * A session that never logged in and whose login fails answers `{}`
   * without writing the request frame: only the login line goes out.
   */
  lemma FailedFirstLoginSendsNoFrame(s: Session, c: ControlFields, w: WeeklyDay, readResponse: bool, now: int)
    requires Valid(s) && !s.loggedIn && s.lastConnect.None?
    requires EncodeRequest(s.gatewayId, c, w).Some? && !ConnectStep(s, now).0.loggedIn
    ensures var (after, r) := RequestStep(s, c, w, readResponse, now);
      r == EmptyResult && after.written == s.written + [LoginLine(LoginText(s.userId, s.gatewayId))]
  {
    ConnectLogsIn(s, now);
  }

  /**
   * End to end for the state query: on a fresh logged-in session, if the
   * server answers with a frame that decodes to a state and converts under
   * the channel's flag, the request written is the state query and the
   * converted snapshot is stored under (channel, device).
   */
  lemma StateQueryStores(s: Session, channel: int, device: int, now: int)
    requires Valid(s) && s.loggedIn && now - s.lastConnect.value < ReconnectSeconds
    requires CommandFrame(s.gatewayId, StateQuery, channel, device).Some?
    requires s.network != [] && s.network[0].Delivered?
    requires SnapshotFor(s.channelInfo, ParseResponse(Some(Received(s.network[0].reply))), channel).Some?
    ensures var (after, r) := SendCommand(s, StateQuery, channel, device, now);
      && after.written == s.written + [RequestFrame(CommandFrame(s.gatewayId, StateQuery, channel, device).value)]
      && r.Some? && r == Some(after.lastState)
      && after.lastState[channel][device] ==
           DeviceEntry(SnapshotFor(s.channelInfo, ParseResponse(Some(Received(s.network[0].reply))), channel), now)
  {
    var c := CommandFields(StateQuery, channel, device).value;
    var (sent, state) := RequestStep(s, c, EmptyWeeklyDay(), true, now);
    assert state == ParseResponse(Some(Received(s.network[0].reply)));
    assert sent.channelInfo == s.channelInfo;
    UpdateStoresSnapshot(sent.lastState, sent.channelInfo, state, channel, device, now);
  }

  /**
   * The water-temperature request does not read a reply, so its cache
   * update always fails over to the fallback: a stored snapshot is kept
   * unchanged, with only its stamp refreshed.
   */
  lemma TemperatureRequestKeepsSnapshot(s: Session, channel: int, device: int, t: real, now: int)
    requires channel in s.lastState && device in s.lastState[channel]
    ensures var (after, r) := SendCommand(s, WaterTemperatureControl(t), channel, device, now);
      r.Some? && r.value[channel][device] == s.lastState[channel][device].(lastUpdate := now)
  {
    var c := CommandFields(WaterTemperatureControl(t), channel, device).value;
    UnreadRequest(s, c, EmptyWeeklyDay(), now);
    var (sent, state) := RequestStep(s, c, EmptyWeeklyDay(), false, now);
    assert SnapshotFor(sent.channelInfo, state, channel).None?;
    assert UpdateStep(sent, state, channel, device, now).1 ==
      Some(s.lastState[channel := s.lastState[channel][device := s.lastState[channel][device].(lastUpdate := now)]]);
  }

  /** An exchange that does not read its reply answers `nothing` and leaves the cache alone. */
  lemma TransmitUnread(s: Session, msg: Sent)
    ensures Transmit(s, msg, false).1 == NoResponse && Transmit(s, msg, false).0.lastState == s.lastState
  {
  }

  /** `connect` leaves the cache alone. */
  lemma ConnectKeepsCache(s: Session, now: int)
    ensures ConnectStep(s, now).0.lastState == s.lastState
  {
    var dialled := s.(connected := true);
    var msg := LoginLine(LoginText(s.userId, s.gatewayId));
    assert Transmit(dialled, msg, true).0.lastState == s.lastState;
  }

  /** A request that does not read its reply answers `nothing` or `{}` and leaves the cache alone. */
  lemma UnreadRequest(s: Session, c: ControlFields, w: WeeklyDay, now: int)
    ensures var (after, r) := RequestStep(s, c, w, false, now);
      (r == NoResponse || r == EmptyResult) && after.lastState == s.lastState
  {
    if EncodeRequest(s.gatewayId, c, w).Some? {
      var ready := if s.loggedIn then s else ConnectStep(s, now).0;
      ConnectKeepsCache(s, now);
      if ready.lastConnect.Some? {
        ConnectKeepsCache(DisconnectStep(ready), now);
        var renewed := if now - ready.lastConnect.value >= ReconnectSeconds then ConnectStep(DisconnectStep(ready), now).0 else ready;
        var msg := RequestFrame(EncodeRequest(s.gatewayId, c, w).value);
        assert RequestStep(s, c, w, false, now) == Transmit(renewed, msg, false);
        TransmitUnread(renewed, msg);
      }
    }
  }

  // ================================================================ the class

  /** The client object: the session state as fields, updated in place by its methods. */
  class NavienSmartControl {
    const userId: string
    const gatewayId: string
    var connected: bool
    var loggedIn: bool
    var lastConnect: Option<int>
    var channelInfo: Response
    var lastState: Cache
    var network: seq<Exchange>
    var written: seq<Sent>

    /** The fields as a session value. */
    function Model(): Session
      reads this
    {
      Session(userId, gatewayId, connected, loggedIn, lastConnect, channelInfo, lastState, network, written)
    }

    constructor(userId: string, gatewayId: string, network: seq<Exchange>)
      ensures Model() == InitialSession(userId, gatewayId, network)
      ensures Valid(Model())
    {
      this.userId := userId;
      this.gatewayId := gatewayId;
      connected := false;
      loggedIn := false;
      lastConnect := None;
      channelInfo := EmptyResult;
      lastState := map[];
      this.network := network;
      written := [];
    }

    method SendAndReceive(msg: Sent, readResponse: bool) returns (r: Response)
      requires Valid(Model())
      modifies this
      ensures (Model(), r) == Transmit(old(Model()), msg, readResponse)
      ensures Valid(Model())
    {
      var received: Option<seq<byte>> := None;
      if connected {
        written := written + [msg];
        if network != [] {
          var exchange := network[0];
          network := network[1..];
          match exchange
          case Delivered(reply) =>
            if readResponse {
              received := Some(Received(reply));
            }
          case TimedOut =>
          case ConnectionReset =>
            loggedIn := false;
            connected := false;
        }
      }
      r := ResponseReader.DecodeResponse(received);
    }

    method Connect(now: int) returns (r: Response)
      requires Valid(Model())
      modifies this
      ensures (Model(), r) == ConnectStep(old(Model()), now)
      ensures Valid(Model())
    {
      connected := true;
      var reply := SendAndReceive(LoginLine(LoginText(userId, gatewayId)), true);
      if reply.ChannelInfo? {
        channelInfo := reply;
        loggedIn := true;
        lastConnect := Some(now);
      }
      r := channelInfo;
    }

    method Disconnect() returns (r: bool)
      requires Valid(Model())
      modifies this
      ensures r && Model() == DisconnectStep(old(Model()))
      ensures Valid(Model())
    {
      loggedIn := false;
      connected := false;
      r := true;
    }

    method SendRequest(c: ControlFields, w: WeeklyDay, readResponse: bool, now: int) returns (r: Response)
      requires Valid(Model())
      modifies this
      ensures (Model(), r) == RequestStep(old(Model()), c, w, readResponse, now)
      ensures Valid(Model())
    {
      var frame := EncodeRequest(gatewayId, c, w);
      if frame.None? {
        return EmptyResult;
      }
      if !loggedIn {
        var _ := Connect(now);
      }
      if lastConnect.None? {
        return EmptyResult;
      }
      if now - lastConnect.value >= ReconnectSeconds {
        var _ := Disconnect();
        var _ := Connect(now);
      }
      r := SendAndReceive(RequestFrame(frame.value), readResponse);
    }

    method UpdateLastState(stateData: Response, channel: int, device: int, now: int) returns (r: Option<Cache>)
      requires Valid(Model())
      modifies this
      ensures (Model(), r) == UpdateStep(old(Model()), stateData, channel, device, now)
      ensures Valid(Model())
    {
      r := Update(lastState, channelInfo, stateData, channel, device, now);
      if r.Some? {
        lastState := r.value;
      }
    }

    method SendStateRequest(channel: int, device: int, now: int) returns (r: Option<Cache>)
      requires Valid(Model())
      modifies this
      ensures (Model(), r) == SendCommand(old(Model()), StateQuery, channel, device, now)
      ensures Valid(Model())
    {
      var c := ControlFields(channel, device, Codes.ControlSorting.Info.Code(), Codes.ControlType.StateInfo.Code(), 0, 0);
      r := SendControl(c, true, channel, device, now);
    }

    method SendPowerControlRequest(channel: int, device: int, powerState: int, now: int) returns (r: Option<Cache>)
      requires Valid(Model())
      modifies this
      ensures (Model(), r) == SendCommand(old(Model()), PowerControl(powerState), channel, device, now)
      ensures Valid(Model())
    {
      var flag := Codes.OnOffFlagOf(powerState);
      if flag.None? {
        return None;
      }
      var c := ControlFields(channel, device, Codes.ControlSorting.Control.Code(), Codes.ControlType.UnknownControl.Code(),
                             Codes.DeviceControl.Power.Code(), flag.value.Code());
      r := SendControl(c, true, channel, device, now);
    }

    method SendOnDemandControlRequest(channel: int, device: int, now: int) returns (r: Option<Cache>)
      requires Valid(Model())
      modifies this
      ensures (Model(), r) == SendCommand(old(Model()), OnDemandControl, channel, device, now)
      ensures Valid(Model())
    {
      var c := ControlFields(channel, device, Codes.ControlSorting.Control.Code(), Codes.ControlType.UnknownControl.Code(),
                             Codes.DeviceControl.OnDemand.Code(), Codes.OnOffFlag.On.Code());
      r := SendControl(c, true, channel, device, now);
    }

    method SendWaterTempControlRequest(channel: int, device: int, tempVal: real, now: int) returns (r: Option<Cache>)
      requires Valid(Model())
      modifies this
      ensures (Model(), r) == SendCommand(old(Model()), WaterTemperatureControl(tempVal), channel, device, now)
      ensures Valid(Model())
    {
      var c := ControlFields(channel, device, Codes.ControlSorting.Control.Code(), Codes.ControlType.UnknownControl.Code(),
                             Codes.DeviceControl.WaterTemperature.Code(), Trunc(tempVal));
      r := SendControl(c, false, channel, device, now);
    }

    /** The body every wrapper shares: a fresh empty schedule, the request, then the cache update. */
    method SendControl(c: ControlFields, readResponse: bool, channel: int, device: int, now: int) returns (r: Option<Cache>)
      requires Valid(Model())
      modifies this
      ensures (Model(), r) == ControlStep(old(Model()), c, readResponse, channel, device, now)
      ensures Valid(Model())
    {
      var w := InitWeeklyDay();
      var state := SendRequest(c, w, readResponse, now);
      r := UpdateLastState(state, channel, device, now);
    }
    }
}
