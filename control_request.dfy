/**
 * The binary control request (`sendRequest`'s frame building): a fixed
 * six-byte header, the gateway id converted from hex text, a command count
 * of one, six command bytes and the 32 weekly-schedule bytes. The frame is
 * proved to decode back into its parts, and the error cases (bad hex, a
 * value outside a byte, a missing schedule key) are the ones that make
 * `bytearray` or the dictionary lookup raise.
 */
module ControlRequest {
  import opened Wrappers
  import opened ByteCodec
  import Codes

  /** stx 0x07, did 0x99, reserve 0x00, cmd 0xA6, dataLength 0x37, dSid 0x00. */
  const RequestHeader: seq<byte> := [0x07, 0x99, 0x00, 0xA6, 0x37, 0x00]

  /** The frame length without the gateway id: header, command count, six command bytes, 32 schedule bytes. */
  const FixedLength := 45

  /** The channel, device and the four control bytes of a request. */
  datatype ControlFields = ControlFields(channel: int, device: int, sorting: int, infoItem: int, controlItem: int, controlValue: int)

  function FieldValues(c: ControlFields): seq<int>
  {
    [c.channel, c.device, c.sorting, c.infoItem, c.controlItem, c.controlValue]
  }

  /** One `n_Hour`, `n_Minute`, `n_Flag` triple of the WeeklyDay dictionary. */
  datatype WeeklySlot = WeeklySlot(hour: int, minute: int, flag: int)

  /**
   * The WeeklyDay dictionary: `WeeklyDay`, `WeeklyCount` and the slots
   * `1_…` to `|slots|_…`; slots past the tenth are never read.
   */
  datatype WeeklyDay = WeeklyDay(day: int, count: int, slots: seq<WeeklySlot>)

  function SlotValues(slots: seq<WeeklySlot>): (r: seq<int>)
    ensures |r| == 3 * |slots|
    ensures forall k :: 0 <= k < |slots| ==>
      r[3 * k] == slots[k].hour && r[3 * k + 1] == slots[k].minute && r[3 * k + 2] == slots[k].flag
  {
    if slots == [] then []
    else [slots[0].hour, slots[0].minute, slots[0].flag] + SlotValues(slots[1..])
  }

  /** The 32 schedule values in frame order; None when a key among the first ten slots is missing. */
  function WeeklyValues(w: WeeklyDay): (r: Option<seq<int>>)
    ensures r.Some? <==> |w.slots| >= 10
    ensures r.Some? ==> |r.value| == 32 && r.value[0] == w.day && r.value[1] == w.count
    ensures r.Some? ==> forall k :: 0 <= k < 10 ==>
      r.value[2 + 3 * k] == w.slots[k].hour && r.value[3 + 3 * k] == w.slots[k].minute && r.value[4 + 3 * k] == w.slots[k].flag
  {
    if |w.slots| < 10 then None else Some([w.day, w.count] + SlotValues(w.slots[..10]))
  }

  function Zeros(n: nat): (r: seq<int>)
    ensures |r| == n && forall i :: 0 <= i < n ==> r[i] == 0
  {
    if n == 0 then [] else [0] + Zeros(n - 1)
  }

  /** The 32 schedule values of a request that does not change the schedule. */
  function NoSchedule(): seq<int>
  {
    Zeros(32)
  }

  predicate AllBytes(s: seq<int>)
  {
    forall i :: 0 <= i < |s| ==> 0 <= s[i] < 256
  }

  /**
   * The request frame, or None where the source raises inside its `try`
   * (and so sends nothing and answers `{}`): the gateway id is not hex
   * text, a schedule key is missing, or a value is not a byte.
   */
  function EncodeRequest(gatewayId: string, c: ControlFields, w: WeeklyDay): (r: Option<seq<byte>>)
    ensures r.Some? <==>
      FromHex(gatewayId).Some? && WeeklyValues(w).Some? && AllBytes(FieldValues(c)) && AllBytes(WeeklyValues(w).value)
    ensures r.Some? ==> |r.value| == FixedLength + |FromHex(gatewayId).value| && r.value[..6] == RequestHeader
  {
    match FromHex(gatewayId)
    case None => None
    case Some(gw) =>
      match WeeklyValues(w)
      case None => None
      case Some(weekly) =>
        if AllBytes(FieldValues(c)) && AllBytes(weekly) then
          var frame: seq<int> := RequestHeader + gw + [1] + FieldValues(c) + weekly;
          assert AllBytes(frame) by {
            forall i | 0 <= i < |frame| ensures 0 <= frame[i] < 256 {
              if i >= 13 + |gw| {
                assert frame[i] == weekly[i - 13 - |gw|];
              } else if i >= 7 + |gw| {
                assert frame[i] == FieldValues(c)[i - 7 - |gw|];
              }
            }
          }
          Some(seq(|frame|, i requires 0 <= i < |frame| => frame[i] as byte))
        else None
  }

  /** The parts of a request frame, as the receiving gateway reads them. */
  datatype Request = Request(gateway: seq<byte>, commandCount: byte, fields: seq<int>, weekly: seq<int>)

  /** Splits a frame whose gateway id is `gatewayLength` bytes long. */
  function DecodeRequest(frame: seq<byte>, gatewayLength: nat): (r: Option<Request>)
    ensures r.Some? ==> |r.value.fields| == 6 && |r.value.weekly| == 32 && |r.value.gateway| == gatewayLength
  {
    if |frame| != FixedLength + gatewayLength || frame[..6] != RequestHeader then None
    else
      var g := gatewayLength;
      Some(Request(frame[6..6 + g], frame[6 + g], frame[7 + g..13 + g], frame[13 + g..]))
  }

  /** Every frame the encoder builds decodes back into the gateway id, a count of one, the command and the schedule. */
  lemma EncodeDecode(gatewayId: string, c: ControlFields, w: WeeklyDay)
    requires EncodeRequest(gatewayId, c, w).Some?
    ensures var gw := FromHex(gatewayId).value;
      DecodeRequest(EncodeRequest(gatewayId, c, w).value, |gw|) == Some(Request(gw, 1, FieldValues(c), WeeklyValues(w).value))
  {
    var gw := FromHex(gatewayId).value;
    var weekly := WeeklyValues(w).value;
    var frame := EncodeRequest(gatewayId, c, w).value;
    var g := |gw|;
    var expected: seq<int> := RequestHeader + gw + [1] + FieldValues(c) + weekly;
    assert frame[..] == expected[..] by {
      assert |frame| == |expected|;
      forall i | 0 <= i < |frame| ensures frame[i] == expected[i] { }
    }
    assert frame[6..6 + g] == gw by { assert expected[6..6 + g] == gw; }
    assert frame[7 + g..13 + g] == FieldValues(c) by { assert expected[7 + g..13 + g] == FieldValues(c); }
    assert frame[13 + g..] == weekly by { assert expected[13 + g..] == weekly; }
  }

  lemma ZeroSchedule(w: WeeklyDay)
    requires w.day == 0 && w.count == 0 && |w.slots| >= 10
    requires forall k :: 0 <= k < 10 ==> w.slots[k] == WeeklySlot(0, 0, 0)
    ensures WeeklyValues(w) == Some(NoSchedule())
  {
    var v := WeeklyValues(w).value;
    forall j | 0 <= j < 32 ensures v[j] == 0 {
      if j >= 2 {
        var k := (j - 2) / 3;
        assert w.slots[k] == WeeklySlot(0, 0, 0);
        assert v[2 + 3 * k] == 0 && v[3 + 3 * k] == 0 && v[4 + 3 * k] == 0;
        assert j == 2 + 3 * k || j == 3 + 3 * k || j == 4 + 3 * k;
      }
    }
    assert v == NoSchedule() by {
      assert |v| == 32 == |NoSchedule()|;
      assert forall j :: 0 <= j < 32 ==> v[j] == NoSchedule()[j];
    }
  }

  /**
   * `initWeeklyDay`, with its loop over the ten slots: every key present,
   * every value zero. It builds exactly the value `EmptyWeeklyDay`, which
   * the functions of the session use in its place.
   */
  method InitWeeklyDay() returns (w: WeeklyDay)
    ensures |w.slots| == 10
    ensures WeeklyValues(w) == Some(NoSchedule())
    ensures w == EmptyWeeklyDay()
  {
    var slots: seq<WeeklySlot> := [];
    for i := 1 to 11
      invariant |slots| == i - 1
      invariant forall k :: 0 <= k < |slots| ==> slots[k] == WeeklySlot(0, 0, 0)
    {
      slots := slots + [WeeklySlot(0, 0, 0)];
    }
    w := WeeklyDay(0, 0, slots);
    ZeroSchedule(w);
    assert slots == seq(10, _ => WeeklySlot(0, 0, 0));
  }

  /** The all-zero schedule `initWeeklyDay` returns, as a value: day 0, count 0 and ten zero slots. */
  function EmptyWeeklyDay(): (w: WeeklyDay)
    ensures WeeklyValues(w) == Some(NoSchedule())
  {
    var w := WeeklyDay(0, 0, seq(10, _ => WeeklySlot(0, 0, 0)));
    ZeroSchedule(w);
    w
  }

  // ---------------------------------------------------------------- commands

  /** Python's `int(x)` on a float: truncation toward zero. */
  function Trunc(t: real): (r: int)
    ensures 0.0 <= t ==> r as real <= t < r as real + 1.0
    ensures t < 0.0 ==> r as real - 1.0 < t <= r as real
  {
    if t >= 0.0 then t.Floor else -((-t).Floor)
  }

  lemma FieldBytes(c: ControlFields)
    ensures AllBytes(FieldValues(c)) <==>
      0 <= c.channel < 256 && 0 <= c.device < 256 && 0 <= c.sorting < 256 &&
      0 <= c.infoItem < 256 && 0 <= c.controlItem < 256 && 0 <= c.controlValue < 256
  {
    var v := FieldValues(c);
    assert v[0] == c.channel && v[1] == c.device && v[2] == c.sorting;
    assert v[3] == c.infoItem && v[4] == c.controlItem && v[5] == c.controlValue;
  }

  /** The four requests the integration sends. */
  datatype Command =
    | StateQuery
    | PowerControl(powerState: int)
    | OnDemandControl
    | WaterTemperatureControl(temperature: real)

  /**
   * The six command bytes of each wrapper, or None where the wrapper itself
   * raises before sending (`OnOFFFlag(powerState)` of an unknown code).
   */
  function CommandFields(cmd: Command, channel: int, device: int): (r: Option<ControlFields>)
    ensures r.None? <==> cmd.PowerControl? && Codes.OnOffFlagOf(cmd.powerState).None?
    ensures r.Some? ==> r.value.channel == channel && r.value.device == device
    ensures r.Some? && cmd.StateQuery? ==>
      r.value.sorting == Codes.ControlSorting.Info.Code() && r.value.infoItem == Codes.ControlType.StateInfo.Code()
    ensures r.Some? && !cmd.StateQuery? ==>
      r.value.sorting == Codes.ControlSorting.Control.Code() && r.value.infoItem == Codes.ControlType.UnknownControl.Code()
  {
    match cmd
    case StateQuery =>
      Some(ControlFields(channel, device, Codes.ControlSorting.Info.Code(), Codes.ControlType.StateInfo.Code(), 0, 0))
    case PowerControl(p) =>
      (match Codes.OnOffFlagOf(p)
       case None => None
       case Some(flag) =>
         Some(ControlFields(channel, device, Codes.ControlSorting.Control.Code(), Codes.ControlType.UnknownControl.Code(),
                            Codes.DeviceControl.Power.Code(), flag.Code())))
    case OnDemandControl =>
      Some(ControlFields(channel, device, Codes.ControlSorting.Control.Code(), Codes.ControlType.UnknownControl.Code(),
                         Codes.DeviceControl.OnDemand.Code(), Codes.OnOffFlag.On.Code()))
    case WaterTemperatureControl(t) =>
      Some(ControlFields(channel, device, Codes.ControlSorting.Control.Code(), Codes.ControlType.UnknownControl.Code(),
                         Codes.DeviceControl.WaterTemperature.Code(), Trunc(t)))
  }

  /** Only the water-temperature request is sent without waiting for a reply. */
  predicate ReadsResponse(cmd: Command)
  {
    !cmd.WaterTemperatureControl?
  }

  /** The frame a wrapper sends, built from its fields and the all-zero schedule. */
  function CommandFrame(gatewayId: string, cmd: Command, channel: int, device: int): Option<seq<byte>>
  {
    match CommandFields(cmd, channel, device)
    case None => None
    case Some(c) => EncodeRequest(gatewayId, c, EmptyWeeklyDay())
  }

  /**
   * A wrapper's frame exists exactly when the gateway id is hex text,
   * channel and device are bytes, and the command's own value is valid
   * (power state 0..2, truncated temperature 0..255).
   */
  lemma CommandFrameExists(gatewayId: string, cmd: Command, channel: int, device: int)
    ensures CommandFrame(gatewayId, cmd, channel, device).Some? <==>
      FromHex(gatewayId).Some? && 0 <= channel < 256 && 0 <= device < 256 &&
      (cmd.PowerControl? ==> 0 <= cmd.powerState <= 2) &&
      (cmd.WaterTemperatureControl? ==> 0 <= Trunc(cmd.temperature) < 256)
  {
    assert AllBytes(NoSchedule());
    var fields := CommandFields(cmd, channel, device);
    if fields.Some? {
      FieldBytes(fields.value);
    }
  }

  lemma CommandRequest(gatewayId: string, cmd: Command, channel: int, device: int)
    requires CommandFrame(gatewayId, cmd, channel, device).Some?
    ensures DecodeRequest(CommandFrame(gatewayId, cmd, channel, device).value, |FromHex(gatewayId).value|)
         == Some(Request(FromHex(gatewayId).value, 1, FieldValues(CommandFields(cmd, channel, device).value), NoSchedule()))
  {
    EncodeDecode(gatewayId, CommandFields(cmd, channel, device).value, EmptyWeeklyDay());
  }

  /**
   * The sorting, info-item, control-item and control-value bytes each
   * wrapper documents: a state query is (INFO, STATE, 0, 0); the controls
   * are (CONTROL, UNKNOWN, item, value).
   */
  function ControlBytes(cmd: Command): seq<int>
  {
    match cmd
    case StateQuery => [1, 2, 0, 0]
    case PowerControl(p) => [2, 0, 1, p]
    case OnDemandControl => [2, 0, 5, 1]
    case WaterTemperatureControl(t) => [2, 0, 3, Trunc(t)]
  }

  /** The wrappers' six command bytes are the channel, the device and the documented control bytes. */
  lemma CommandFieldsTable(cmd: Command, channel: int, device: int)
    requires CommandFields(cmd, channel, device).Some?
    ensures FieldValues(CommandFields(cmd, channel, device).value) == [channel, device] + ControlBytes(cmd)
  {
  }

  /** A wrapper's frame carries a count of one, its channel and device, the wrapper's control bytes and an all-zero schedule. */
  lemma CommandFrameContents(gatewayId: string, cmd: Command, channel: int, device: int)
    requires CommandFrame(gatewayId, cmd, channel, device).Some?
    ensures DecodeRequest(CommandFrame(gatewayId, cmd, channel, device).value, |FromHex(gatewayId).value|)
         == Some(Request(FromHex(gatewayId).value, 1, [channel, device] + ControlBytes(cmd), NoSchedule()))
  {
    CommandRequest(gatewayId, cmd, channel, device);
    CommandFieldsTable(cmd, channel, device);
  }
}
