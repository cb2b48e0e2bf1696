/**
 * Decoding of the binary responses of the relay server (`parseResponse`,
 * `parseChannelInformationResponse`, `parseStateResponse`,
 * `parseErrorCodeResponse`), stated as functions of the received bytes,
 * with lemmas giving the byte offset of every decoded field and the exact
 * conditions under which a decoder yields a result or the empty dict.
 *
 * Python's three possible answers are kept apart: `None` is NoResponse,
 * the empty dict `{}` (what the decoders return when any unpack, index or
 * enum lookup raises) is EmptyResult.
 */
module ResponseFrames {
  import opened Wrappers
  import opened ByteCodec
  import Codes

  /** The common 12-byte header, as unpacked with "8s B B B B". */
  datatype Header = Header(deviceId: seq<byte>, countryCode: byte, controlType: byte, fwMajor: byte, fwMinor: byte)

  /** The header as it appears in a decoded result: the device id turned into hex text. */
  datatype Common = Common(deviceId: string, countryCode: byte, controlType: byte, fwMajor: byte, fwMinor: byte)

  datatype RecirculationRange = RecirculationRange(minimum: byte, maximum: byte)

  /** One channel record; the recirculation range exists only in the 15-byte layout. */
  datatype ChannelRecord = ChannelRecord(
    channel: byte,
    deviceSorting: byte,
    deviceCount: byte,
    deviceTempFlag: byte,
    minimumSettingWaterTemperature: byte,
    maximumSettingWaterTemperature: byte,
    heatingMinimumSettingWaterTemperature: byte,
    heatingMaximumSettingWaterTemperature: byte,
    useOnDemand: bool,
    heatingControl: byte,
    wwsdFlag: byte,
    highTemperature: byte,
    useWarmWater: byte,
    recirculation: Option<RecirculationRange>)

  /** The fixed 31-byte block of a state response, as unpacked with "2s 2s B B B B 2s B B 2s 4s B B 2s B B B B B B B B B". */
  datatype StateFields = StateFields(
    controllerVersion: seq<byte>,
    pannelVersion: seq<byte>,
    deviceSorting: byte,
    deviceCount: byte,
    currentChannel: byte,
    deviceNumber: byte,
    errorCode: seq<byte>,
    operationDeviceNumber: byte,
    averageCalorimeter: byte,
    gasInstantUse: seq<byte>,
    gasAccumulatedUse: seq<byte>,
    hotWaterSettingTemperature: byte,
    hotWaterCurrentTemperature: byte,
    hotWaterFlowRate: seq<byte>,
    hotWaterTemperature: byte,
    heatSettingTemperature: byte,
    currentWorkingFluidTemperature: byte,
    currentReturnWaterTemperature: byte,
    powerStatus: byte,
    heatStatus: byte,
    useOnDemand: byte,
    weeklyControl: byte,
    totalDaySequence: byte)

  datatype ScheduleEntry = ScheduleEntry(hour: byte, minute: byte, isOnOff: byte)

  /** One day block: its day-of-week byte and the entries its count byte announces. */
  datatype DaySequence = DaySequence(dayOfWeek: byte, entries: seq<ScheduleEntry>)

  datatype RecirculationTemperatures = RecirculationTemperatures(setting: byte, current: byte)

  /** The trailing averages: four bytes, or six when the frame is at least 273 bytes long. */
  datatype Averages = Averages(
    hotWaterAverageTemperature: byte,
    inletAverageTemperature: byte,
    supplyAverageTemperature: byte,
    returnAverageTemperature: byte,
    recirculation: Option<RecirculationTemperatures>)

  datatype StateFrame = StateFrame(common: Common, fields: StateFields, days: seq<DaySequence>, averages: Averages)

  datatype Response =
    | NoResponse
    | EmptyResult
    | ChannelInfo(common: Common, channels: map<int, ChannelRecord>)
    | State(frame: StateFrame)

  datatype ErrorCodeFrame = ErrorCodeFrame(
    header: Header,
    controllerVersion: seq<byte>,
    pannelVersion: seq<byte>,
    deviceSorting: byte,
    deviceCount: byte,
    currentChannel: byte,
    deviceNumber: byte,
    errorFlag: byte,
    errorCode: seq<byte>)

  const HeaderLength := 12
  /** The shortest state frame that carries the trailing averages. */
  const ShortAveragesLength := 271
  /** The shortest state frame that also carries the recirculation temperatures. */
  const FullAveragesLength := 273

  // ---------------------------------------------------------------- header

  function HeaderOf(data: seq<byte>): Header
    requires |data| >= HeaderLength
  {
    Header(data[..8], data[8], data[9], data[10], data[11])
  }

  function CommonOf(h: Header): Common
  {
    Common(HexString(h.deviceId), h.countryCode, h.controlType, h.fwMajor, h.fwMinor)
  }

  function FirmwareVersion(h: Header): int
  {
    h.fwMajor * 100 + h.fwMinor
  }

  /** The distance between channel records: 15 bytes after firmware 1500, else 13. */
  function RecordWidth(fw: int): int
  {
    if fw > 1500 then 15 else 13
  }

  /** The length of Python's slice data[lo:hi] of a sequence of length n. */
  function SliceLength(n: nat, lo: nat, hi: nat): nat
    requires lo <= hi
  {
    if hi <= n then hi - lo else if lo <= n then n - lo else 0
  }

  // ---------------------------------------------------------------- channel information

  /**
   * One channel record: the slice data[start:start+width] is unpacked with
   * 15 fields (`wide`) or 13, which fails unless the slice has exactly that
   * many bytes; the on-demand byte must be an OnDemandFlag code.
   */
  function ReadChannelRecord(data: seq<byte>, start: nat, width: nat, wide: bool): Option<ChannelRecord>
  {
    var fields := if wide then 15 else 13;
    if SliceLength(|data|, start, start + width) != fields then None
    else if Codes.OnDemandFlagOf(data[start + 8]).None? then None
    else
      Some(ChannelRecord(
        data[start], data[start + 1], data[start + 2], data[start + 3],
        data[start + 4], data[start + 5], data[start + 6], data[start + 7],
        Codes.OnDemandFlagOf(data[start + 8]).value.Code() == Codes.OnDemandFlag.OnDemandOn.Code(),
        data[start + 9], data[start + 10], data[start + 11], data[start + 12],
        if wide then Some(RecirculationRange(data[start + 13], data[start + 14])) else None))
  }

  /** The first n channel records, keyed 1..n, or None when one of them fails. */
  function RecordsUpTo(data: seq<byte>, width: nat, wide: bool, n: nat): Option<map<int, ChannelRecord>>
  {
    if n == 0 then Some(map[])
    else
      match RecordsUpTo(data, width, wide, n - 1)
      case None => None
      case Some(m) =>
        match ReadChannelRecord(data, 13 + width * (n - 1), width, wide)
        case None => None
        case Some(rec) => Some(m[n := rec])
  }

  /**
   * `parseChannelInformationResponse`: channel-use byte 0 gives the empty
   * dict; otherwise three records at 13 + width * x. The layout with 13
   * fields is used only below firmware 1500 while the record width grows
   * only above it, so at exactly 1500 the 15-field layout meets 13-byte
   * slices.
   */
  function ParseChannelInformation(h: Header, data: seq<byte>): Response
    requires |data| > HeaderLength
  {
    var fw := FirmwareVersion(h);
    var width := RecordWidth(fw);
    if data[12] == Codes.ChannelUse.UnknownUse.Code() then EmptyResult
    else
      match RecordsUpTo(data, width, !(fw < 1500), 3)
      case None => EmptyResult
      case Some(m) => ChannelInfo(CommonOf(h), m)
  }

  // ---------------------------------------------------------------- state

  function ReadStateFields(data: seq<byte>): StateFields
    requires |data| >= 43
  {
    StateFields(
      data[12..14], data[14..16], data[16], data[17], data[18], data[19],
      data[20..22], data[22], data[23], data[24..26], data[26..30],
      data[30], data[31], data[32..34], data[34], data[35], data[36], data[37],
      data[38], data[39], data[40], data[41], data[42])
  }

  function EntryAt(data: seq<byte>, start: nat): ScheduleEntry
    requires start + 3 <= |data|
  {
    ScheduleEntry(data[start], data[start + 1], data[start + 2])
  }

  function Entries(data: seq<byte>, start: nat, count: nat): (r: seq<ScheduleEntry>)
    requires start + 3 * count <= |data|
  {
    seq(count, k requires 0 <= k < count => EntryAt(data, start + 3 * k))
  }

  /**
   * Day i: day-of-week at 43 + 32i, entry count at 44 + 32i, then `count`
   * triples from 45 + 32i. An index past the end, or a short triple, raises.
   */
  function ReadDay(data: seq<byte>, i: nat): Option<DaySequence>
  {
    var base := 32 * i;
    if 44 + base >= |data| then None
    else
      var count := data[44 + base] as int;
      if 45 + base + 3 * count > |data| then None
      else Some(DaySequence(data[43 + base], Entries(data, 45 + base, count)))
  }

  /** The first n day blocks, or None when one of them fails. */
  function ReadDays(data: seq<byte>, n: nat): Option<seq<DaySequence>>
  {
    if n == 0 then Some([])
    else
      match ReadDays(data, n - 1)
      case None => None
      case Some(days) =>
        match ReadDay(data, n - 1)
        case None => None
        case Some(d) => Some(days + [d])
  }

  /**
   * The trailing averages; below 271 bytes the variable holding them is
   * never bound, and reading it raises.
   */
  function ReadAverages(data: seq<byte>): Option<Averages>
  {
    if |data| >= FullAveragesLength then
      Some(Averages(data[267], data[268], data[269], data[270],
                    Some(RecirculationTemperatures(data[271], data[272]))))
    else if |data| >= ShortAveragesLength then
      Some(Averages(data[267], data[268], data[269], data[270], None))
    else None
  }

  /** `parseStateResponse`. */
  function ParseState(h: Header, data: seq<byte>): Response
    requires |data| > HeaderLength
  {
    if |data| < 43 then EmptyResult
    else
      match ReadDays(data, 7)
      case None => EmptyResult
      case Some(days) =>
        match ReadAverages(data)
        case None => EmptyResult
        case Some(averages) => State(StateFrame(CommonOf(h), ReadStateFields(data), days, averages))
  }

  // ---------------------------------------------------------------- dispatch

  /** `parseResponse`: only frames longer than the header, of control type 1 or 2, are decoded. */
  function ParseResponse(data: Option<seq<byte>>): Response
  {
    if data.None? then NoResponse
    else if |data.value| <= HeaderLength then NoResponse
    else
      var h := HeaderOf(data.value);
      if h.controlType == Codes.ControlType.ChannelInformation.Code() then ParseChannelInformation(h, data.value)
      else if h.controlType == Codes.ControlType.StateInfo.Code() then ParseState(h, data.value)
      else NoResponse
  }

  /**
   * `parseErrorCodeResponse` (not reached from the dispatcher): data[12:23]
   * unpacked with "2s 2s B B B B B 2s"; it has no handler, so a short
   * frame raises (None). The header keeps its raw device id.
   */
  function ParseErrorCode(h: Header, data: seq<byte>): (r: Option<ErrorCodeFrame>)
    ensures r.Some? <==> |data| >= 23
    ensures r.Some? ==> r.value.header == h
                        && r.value.controllerVersion == data[12..14] && r.value.pannelVersion == data[14..16]
                        && r.value.deviceSorting == data[16] && r.value.deviceCount == data[17]
                        && r.value.currentChannel == data[18] && r.value.deviceNumber == data[19]
                        && r.value.errorFlag == data[20] && r.value.errorCode == data[21..23]
                        && LittleEndian(r.value.errorCode) == data[21] as int + 256 * data[22] as int
  {
    if |data| < 23 then None
    else
      var e := data[21..23];
      assert e[1..] == [data[22]] && e[1..][1..] == [];
      assert LittleEndian(e[1..]) == data[22] as int;
      assert LittleEndian(e) == data[21] as int + 256 * data[22] as int;
      Some(ErrorCodeFrame(h, data[12..14], data[14..16], data[16], data[17], data[18], data[19], data[20], e))
  }

  // ================================================================ lemmas

  /** The three ways `parseResponse` yields None, and where types 1 and 2 go. */
  lemma ParseResponseDispatch(data: Option<seq<byte>>)
    ensures ParseResponse(data) == NoResponse <==>
              data.None? || |data.value| <= 12 || data.value[9] !in {1, 2}
    ensures data.Some? && |data.value| > 12 && data.value[9] == 1 ==>
              ParseResponse(data) == ParseChannelInformation(HeaderOf(data.value), data.value)
    ensures data.Some? && |data.value| > 12 && data.value[9] == 2 ==>
              ParseResponse(data) == ParseState(HeaderOf(data.value), data.value)
  {
  }

  /** The decoded header carries the device id as hex text that converts back to bytes 0..7. */
  lemma DecodedDeviceId(data: Option<seq<byte>>)
    ensures ParseResponse(data).ChannelInfo? ==>
              ParseResponse(data).common.deviceId == HexString(data.value[..8])
              && FromHex(ParseResponse(data).common.deviceId) == Some(data.value[..8])
    ensures ParseResponse(data).State? ==>
              ParseResponse(data).frame.common.deviceId == HexString(data.value[..8])
              && FromHex(ParseResponse(data).frame.common.deviceId) == Some(data.value[..8])
  {
    if data.Some? && |data.value| >= 8 {
      FromHexOfHexString(data.value[..8]);
    }
  }

  /** Where each field of a channel record sits, relative to the record's first byte. */
  ghost predicate RecordLaidOut(data: seq<byte>, start: nat, wide: bool, rec: ChannelRecord)
  {
    && start + (if wide then 15 else 13) <= |data|
    && rec.channel == data[start]
    && rec.deviceSorting == data[start + 1]
    && rec.deviceCount == data[start + 2]
    && rec.deviceTempFlag == data[start + 3]
    && rec.minimumSettingWaterTemperature == data[start + 4]
    && rec.maximumSettingWaterTemperature == data[start + 5]
    && rec.heatingMinimumSettingWaterTemperature == data[start + 6]
    && rec.heatingMaximumSettingWaterTemperature == data[start + 7]
    && data[start + 8] <= 3
    && rec.useOnDemand == (data[start + 8] == 1)
    && rec.heatingControl == data[start + 9]
    && rec.wwsdFlag == data[start + 10]
    && rec.highTemperature == data[start + 11]
    && rec.useWarmWater == data[start + 12]
    && rec.recirculation == (if wide then Some(RecirculationRange(data[start + 13], data[start + 14])) else None)
  }

  /** A record decodes exactly when its slice has the layout's length and its on-demand byte is a flag code. */
  lemma ReadChannelRecordSpec(data: seq<byte>, start: nat, width: nat, wide: bool)
    requires width == 13 || (width == 15 && wide)
    ensures ReadChannelRecord(data, start, width, wide).Some? <==>
              width == (if wide then 15 else 13) && start + width <= |data| && data[start + 8] <= 3
    ensures ReadChannelRecord(data, start, width, wide).Some? ==>
              RecordLaidOut(data, start, wide, ReadChannelRecord(data, start, width, wide).value)
  {
  }

  /** The three records `parseChannelInformationResponse` reads, keyed "1".."3". */
  lemma ThreeRecords(data: seq<byte>, width: nat, wide: bool)
    ensures RecordsUpTo(data, width, wide, 3) ==
              var r0 := ReadChannelRecord(data, 13, width, wide);
              var r1 := ReadChannelRecord(data, 13 + width, width, wide);
              var r2 := ReadChannelRecord(data, 13 + 2 * width, width, wide);
              if r0.Some? && r1.Some? && r2.Some? then Some(map[1 := r0.value, 2 := r1.value, 3 := r2.value])
              else None
  {
    var r0 := ReadChannelRecord(data, 13, width, wide);
    var r1 := ReadChannelRecord(data, 13 + width, width, wide);
    var r2 := ReadChannelRecord(data, 13 + 2 * width, width, wide);
    assert 13 + width * (2 - 1) == 13 + width;
    assert 13 + width * (3 - 1) == 13 + 2 * width;
    assert RecordsUpTo(data, width, wide, 1) == if r0.Some? then Some(map[1 := r0.value]) else None;
    assert RecordsUpTo(data, width, wide, 2) ==
             if r0.Some? && r1.Some? then Some(map[1 := r0.value, 2 := r1.value]) else None;
  }

  /**
   * The channel-information layout: fw = major * 100 + minor, records of
   * width 15 above firmware 1500 and 13 otherwise, at 13 + width * x, keyed
   * x + 1; the on-demand flag becomes (byte == 1).
   */
  lemma ChannelInfoLayout(h: Header, data: seq<byte>)
    requires |data| > HeaderLength
    ensures ParseChannelInformation(h, data).ChannelInfo? ==>
              var m := ParseChannelInformation(h, data).channels;
              var w := RecordWidth(FirmwareVersion(h));
              var wide := FirmwareVersion(h) > 1500;
              && ParseChannelInformation(h, data).common == CommonOf(h)
              && m.Keys == {1, 2, 3}
              && RecordLaidOut(data, 13, wide, m[1])
              && RecordLaidOut(data, 13 + w, wide, m[2])
              && RecordLaidOut(data, 13 + 2 * w, wide, m[3])
  {
    var fw := FirmwareVersion(h);
    var w := RecordWidth(fw);
    var wide := !(fw < 1500);
    ThreeRecords(data, w, wide);
    ReadChannelRecordSpec(data, 13, w, wide);
    ReadChannelRecordSpec(data, 13 + w, w, wide);
    ReadChannelRecordSpec(data, 13 + 2 * w, w, wide);
  }

  /**
   * When channel information decodes: channel use is not 0, firmware is not
   * exactly 1500, the frame holds all three records and every on-demand
   * byte is a flag code (0..3). Everything else gives the empty dict.
   */
  lemma ChannelInfoDecodes(h: Header, data: seq<byte>)
    requires |data| > HeaderLength
    ensures ParseChannelInformation(h, data).NoResponse? == false
    ensures ParseChannelInformation(h, data).ChannelInfo? <==>
              var w := RecordWidth(FirmwareVersion(h));
              && data[12] != 0
              && FirmwareVersion(h) != 1500
              && 13 + 3 * w <= |data|
              && data[13 + 8] <= 3 && data[13 + w + 8] <= 3 && data[13 + 2 * w + 8] <= 3
    ensures FirmwareVersion(h) == 1500 ==> ParseChannelInformation(h, data) == EmptyResult
    ensures data[12] == 0 ==> ParseChannelInformation(h, data) == EmptyResult
  {
    var fw := FirmwareVersion(h);
    var w := RecordWidth(fw);
    var wide := !(fw < 1500);
    ThreeRecords(data, w, wide);
    ReadChannelRecordSpec(data, 13, w, wide);
    ReadChannelRecordSpec(data, 13 + w, w, wide);
    ReadChannelRecordSpec(data, 13 + 2 * w, w, wide);
  }

  /** The fixed state fields sit at bytes 12..42. */
  ghost predicate FieldsLaidOut(data: seq<byte>, f: StateFields)
  {
    && 43 <= |data|
    && f.controllerVersion == data[12..14]
    && f.pannelVersion == data[14..16]
    && f.deviceSorting == data[16]
    && f.deviceCount == data[17]
    && f.currentChannel == data[18]
    && f.deviceNumber == data[19]
    && f.errorCode == data[20..22]
    && f.operationDeviceNumber == data[22]
    && f.averageCalorimeter == data[23]
    && f.gasInstantUse == data[24..26]
    && f.gasAccumulatedUse == data[26..30]
    && f.hotWaterSettingTemperature == data[30]
    && f.hotWaterCurrentTemperature == data[31]
    && f.hotWaterFlowRate == data[32..34]
    && f.hotWaterTemperature == data[34]
    && f.heatSettingTemperature == data[35]
    && f.currentWorkingFluidTemperature == data[36]
    && f.currentReturnWaterTemperature == data[37]
    && f.powerStatus == data[38]
    && f.heatStatus == data[39]
    && f.useOnDemand == data[40]
    && f.weeklyControl == data[41]
    && f.totalDaySequence == data[42]
  }

  /** Day i sits at 43 + 32i: day of week, count, then `count` (hour, minute, on/off) triples. */
  ghost predicate DayLaidOut(data: seq<byte>, i: nat, d: DaySequence)
  {
    && 44 + 32 * i < |data|
    && d.dayOfWeek == data[43 + 32 * i]
    && |d.entries| == data[44 + 32 * i]
    && 45 + 32 * i + 3 * |d.entries| <= |data|
    && forall k :: 0 <= k < |d.entries| ==>
         d.entries[k] == ScheduleEntry(data[45 + 32 * i + 3 * k], data[46 + 32 * i + 3 * k], data[47 + 32 * i + 3 * k])
  }

  /** Day i fits in the frame: its count byte exists and its last triple ends inside the frame. */
  ghost predicate DayFits(data: seq<byte>, i: nat)
  {
    44 + 32 * i < |data| && 45 + 32 * i + 3 * (data[44 + 32 * i] as int) <= |data|
  }

  lemma ReadDaySpec(data: seq<byte>, i: nat)
    ensures ReadDay(data, i).Some? <==> DayFits(data, i)
    ensures ReadDay(data, i).Some? ==> DayLaidOut(data, i, ReadDay(data, i).value)
  {
  }

  lemma {:induction false} ReadDaysSpec(data: seq<byte>, n: nat)
    ensures ReadDays(data, n).Some? <==> forall i :: 0 <= i < n ==> DayFits(data, i)
    ensures ReadDays(data, n).Some? ==>
              && |ReadDays(data, n).value| == n
              && forall i :: 0 <= i < n ==> DayLaidOut(data, i, ReadDays(data, n).value[i])
  {
    if n > 0 {
      ReadDaysSpec(data, n - 1);
      ReadDaySpec(data, n - 1);
      var prev := ReadDays(data, n - 1);
      if prev.Some? {
        var d := ReadDay(data, n - 1);
        if d.Some? {
          var days := prev.value + [d.value];
          forall i | 0 <= i < n ensures DayLaidOut(data, i, days[i]) {
            if i < n - 1 {
              assert days[i] == prev.value[i];
            }
          }
        }
      } else {
        var i :| 0 <= i < n - 1 && !DayFits(data, i);
      }
    }
  }

  /**
   * The state layout: fixed fields from bytes 12..42, seven day blocks of
   * 32 bytes from 43, then 4 averages at 267..270 for 271- and 272-byte
   * frames, or 6 averages at 267..272 from 273 bytes on.
   */
  lemma StateLayout(h: Header, data: seq<byte>)
    requires |data| > HeaderLength
    ensures ParseState(h, data).NoResponse? == false
    ensures ParseState(h, data).State? ==>
              var f := ParseState(h, data).frame;
              && |data| >= ShortAveragesLength
              && f.common == CommonOf(h)
              && FieldsLaidOut(data, f.fields)
              && |f.days| == 7
              && (forall i :: 0 <= i < 7 ==> DayLaidOut(data, i, f.days[i]))
              && f.averages.hotWaterAverageTemperature == data[267]
              && f.averages.inletAverageTemperature == data[268]
              && f.averages.supplyAverageTemperature == data[269]
              && f.averages.returnAverageTemperature == data[270]
              && (|data| < FullAveragesLength ==> f.averages.recirculation == None)
              && (|data| >= FullAveragesLength ==>
                    f.averages.recirculation == Some(RecirculationTemperatures(data[271], data[272])))
  {
    ReadDaysSpec(data, 7);
  }

  /**
   * A state frame decodes exactly when it has at least 271 bytes and every
   * day's entries end inside it; in particular every frame shorter than
   * 271 bytes gives the empty dict, and every long enough frame whose day
   * counts are at most 10 decodes.
   */
  lemma StateDecodes(h: Header, data: seq<byte>)
    requires |data| > HeaderLength
    ensures ParseState(h, data).State? <==>
              |data| >= ShortAveragesLength && forall i :: 0 <= i < 7 ==> DayFits(data, i)
    ensures |data| < ShortAveragesLength ==> ParseState(h, data) == EmptyResult
    ensures |data| >= ShortAveragesLength && (forall i :: 0 <= i < 7 ==> data[44 + 32 * i] <= 10) ==>
              ParseState(h, data).State?
  {
    ReadDaysSpec(data, 7);
    if |data| >= ShortAveragesLength && (forall i :: 0 <= i < 7 ==> data[44 + 32 * i] <= 10) {
      forall i | 0 <= i < 7 ensures DayFits(data, i) {
        assert data[44 + 32 * i] <= 10;
      }
    }
  }
}
