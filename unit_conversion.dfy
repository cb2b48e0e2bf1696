/**
 * The conversion half of `uodate_last_state`: with the channel's
 * temperature flag it rescales the gas, flow and temperature readings of a
 * decoded state frame, turns the multi-byte fields into integers with the
 * little-endian helper and the enum bytes into booleans. Any lookup or enum
 * failure is None (the source's exception path, which stores nothing).
 *
 * Values are exact reals: the source rounds each to one decimal, which for
 * the Celsius conversions changes nothing (proved below) and for the
 * Fahrenheit factors is float arithmetic this model does not reproduce.
 */
module UnitConversion {
  import opened Wrappers
  import opened ByteCodec
  import opened ResponseFrames
  import Codes

  /** A reading left as the raw bytes of the frame, or converted into a number. */
  datatype Quantity = Raw(bytes: seq<byte>) | Measured(value: real)

  /** The fields `uodate_last_state` rewrites, after the rewrite. */
  datatype Converted = Converted(
    controllerVersion: int,
    pannelVersion: int,
    errorCode: int,
    gasInstantUse: Quantity,
    gasAccumulatedUse: Quantity,
    hotWaterFlowRate: Quantity,
    hotWaterSettingTemperature: real,
    hotWaterCurrentTemperature: real,
    hotWaterTemperature: real,
    hotWaterAverageTemperature: real,
    inletAverageTemperature: real,
    powerStatus: bool,
    useOnDemand: bool,
    weeklyControl: bool)

  /** A stored state: the decoded frame and its converted readings. */
  datatype Snapshot = Snapshot(frame: StateFrame, values: Converted)

  /** `channelInfo['channel'][str(channel)]['deviceTempFlag']`; None where a key is missing. */
  function TemperatureFlag(channelInfo: Response, channel: int): (r: Option<int>)
    ensures r.Some? <==> channelInfo.ChannelInfo? && channel in channelInfo.channels
    ensures r.Some? ==> r.value == channelInfo.channels[channel].deviceTempFlag
  {
    if channelInfo.ChannelInfo? && channel in channelInfo.channels then Some(channelInfo.channels[channel].deviceTempFlag as int)
    else None
  }

  /**
   * The flag as the login reply delivers it: only channels 1, 2 and 3 have
   * one, and it is byte 3 of that channel's record. A state request for
   * any other channel therefore never converts.
   */
  lemma TemperatureFlagOfLogin(h: Header, data: seq<byte>, channel: int)
    requires |data| > HeaderLength && ParseChannelInformation(h, data).ChannelInfo?
    ensures var r := TemperatureFlag(ParseChannelInformation(h, data), channel);
      && (r.Some? <==> channel in {1, 2, 3})
      && (r.Some? ==> r.value == data[13 + RecordWidth(FirmwareVersion(h)) * (channel - 1) + 3])
  {
    ChannelInfoLayout(h, data);
  }

  /** The instantaneous gas-use factor of the Celsius branch. */
  function CelsiusGasFactor(sorting: int): int
  {
    if Codes.FineGasResolutionCode(sorting) then 100 else 10
  }

  /** The instantaneous gas-use factor of the Fahrenheit branch. */
  function FahrenheitGasFactor(sorting: int): int
  {
    if Codes.FineGasResolutionCode(sorting) then 10 else 1
  }

  /** `bigHexToInt` of a byte string: None for the empty string. */
  function LittleEndianOf(bytes: seq<byte>): (r: Option<int>)
    ensures r.Some? <==> bytes != []
    ensures r.Some? ==> r.value == LittleEndian(bytes)
  {
    BigHexToInt(HexBytes(bytes))
  }

  /** `gasInstantUse` after the rewrite under `flag`. */
  function GasInstant(flag: int, f: StateFields): Option<Quantity>
  {
    var code := f.deviceSorting as int;
    if flag == Codes.TemperatureType.Celsius.Code() then
      match LittleEndianOf(f.gasInstantUse)
      case None => None
      case Some(n) => Some(Measured(n as real * CelsiusGasFactor(code) as real / 10.0))
    else if flag == Codes.TemperatureType.Fahrenheit.Code() then
      match LittleEndianOf(f.gasInstantUse)
      case None => None
      case Some(n) => Some(Measured(n as real * FahrenheitGasFactor(code) as real * 3.968))
    else Some(Raw(f.gasInstantUse))
  }

  /** `gasAccumulatedUse` after the rewrite under `flag`. */
  function GasAccumulated(flag: int, f: StateFields): Option<Quantity>
  {
    if flag == Codes.TemperatureType.Celsius.Code() then
      match LittleEndianOf(f.gasAccumulatedUse)
      case None => None
      case Some(n) => Some(Measured(n as real / 10.0))
    else if flag == Codes.TemperatureType.Fahrenheit.Code() then
      match LittleEndianOf(f.gasAccumulatedUse)
      case None => None
      case Some(n) => Some(Measured(n as real * 35.314667 / 10.0))
    else Some(Raw(f.gasAccumulatedUse))
  }

  /** `hotWaterFlowRate` after the rewrite: converted only for the scaled models. */
  function FlowRate(flag: int, f: StateFields): Option<Quantity>
  {
    var code := f.deviceSorting as int;
    if flag == Codes.TemperatureType.Celsius.Code() && Codes.ScaledModelCode(code) then
      match LittleEndianOf(f.hotWaterFlowRate)
      case None => None
      case Some(n) => Some(Measured(n as real / 10.0))
    else if flag == Codes.TemperatureType.Fahrenheit.Code() && Codes.ScaledModelCode(code) then
      match LittleEndianOf(f.hotWaterFlowRate)
      case None => None
      case Some(n) => Some(Measured(n as real / 3.785 / 10.0))
    else Some(Raw(f.hotWaterFlowRate))
  }

  /** A set-point or current temperature: halved for a Celsius channel and a scaled model. */
  function Temperature(flag: int, code: int, raw: byte): real
  {
    if flag == Codes.TemperatureType.Celsius.Code() && Codes.ScaledModelCode(code) then raw as real / 2.0
    else raw as real
  }

  /** One of the two averages: halved only for the CAS_ models among those. */
  function AverageTemperature(flag: int, code: int, raw: byte): real
  {
    if flag == Codes.TemperatureType.Celsius.Code() && Codes.ScaledModelCode(code) && Codes.CascadeCode(code)
    then raw as real / 2.0
    else raw as real
  }

  /**
   * The whole rewrite of a state result under a temperature flag; None when
   * the input is not a state frame, a multi-byte field it reads is empty,
   * or an enum byte is out of range.
   */
  function Convert(flag: int, stateData: Response): Option<Snapshot>
  {
    if !stateData.State? then None
    else
      var frame := stateData.frame;
      var f := frame.fields;
      var code := f.deviceSorting as int;
      var instant := GasInstant(flag, f);
      var accumulated := GasAccumulated(flag, f);
      var flow := FlowRate(flag, f);
      var controller := LittleEndianOf(f.controllerVersion);
      var pannel := LittleEndianOf(f.pannelVersion);
      var error := LittleEndianOf(f.errorCode);
      var power := Codes.OnOffFlagOf(f.powerStatus as int);
      var onDemand := Codes.OnDemandFlagOf(f.useOnDemand as int);
      var weekly := Codes.OnOffFlagOf(f.weeklyControl as int);
      if instant.None? || accumulated.None? || flow.None? || controller.None? || pannel.None? || error.None?
         || power.None? || onDemand.None? || weekly.None?
      then None
      else
        Some(Snapshot(frame, Converted(
          controller.value, pannel.value, error.value,
          instant.value, accumulated.value, flow.value,
          Temperature(flag, code, f.hotWaterSettingTemperature),
          Temperature(flag, code, f.hotWaterCurrentTemperature),
          Temperature(flag, code, f.hotWaterTemperature),
          AverageTemperature(flag, code, frame.averages.hotWaterAverageTemperature),
          AverageTemperature(flag, code, frame.averages.inletAverageTemperature),
          power.value.Code() < 2, onDemand.value.Code() == 1, weekly.value.Code() < 2)))
  }

  // ================================================================ lemmas

  /** The multi-byte fields a conversion under `flag` reads. */
  predicate ReadableFields(flag: int, f: StateFields)
  {
    && f.controllerVersion != [] && f.pannelVersion != [] && f.errorCode != []
    && ((flag == 1 || flag == 2) ==> f.gasInstantUse != [] && f.gasAccumulatedUse != [])
    && ((flag == 1 || flag == 2) && Codes.ScaledModelCode(f.deviceSorting as int) ==> f.hotWaterFlowRate != [])
  }

  /** Exactly when the conversion succeeds; it keeps the decoded frame. */
  lemma ConvertSucceeds(flag: int, stateData: Response)
    ensures Convert(flag, stateData).Some? <==>
      stateData.State? && ReadableFields(flag, stateData.frame.fields) &&
      stateData.frame.fields.powerStatus <= 2 && stateData.frame.fields.useOnDemand <= 3 &&
      stateData.frame.fields.weeklyControl <= 2
    ensures Convert(flag, stateData).Some? ==> Convert(flag, stateData).value.frame == stateData.frame
  {
  }

  /** Every state frame the decoder produces has all its multi-byte fields non-empty. */
  lemma DecodedFieldsReadable(h: Header, data: seq<byte>, flag: int)
    requires |data| > HeaderLength && ParseState(h, data).State?
    ensures ReadableFields(flag, ParseState(h, data).frame.fields)
  {
    StateLayout(h, data);
  }

  /**
   * The flag decoding: power and weekly control are on for codes 0 and 1,
   * on-demand is on only for code 1; the versions and error code are the
   * little-endian values of their bytes.
   */
  lemma FlagDecoding(flag: int, stateData: Response)
    requires Convert(flag, stateData).Some?
    ensures var f := stateData.frame.fields; var v := Convert(flag, stateData).value.values;
      && (v.powerStatus <==> f.powerStatus <= 1)
      && (v.weeklyControl <==> f.weeklyControl <= 1)
      && (v.useOnDemand <==> f.useOnDemand == 1)
      && v.controllerVersion == LittleEndian(f.controllerVersion)
      && v.pannelVersion == LittleEndian(f.pannelVersion)
      && v.errorCode == LittleEndian(f.errorCode)
  {
  }

  /**
   * The instantaneous gas factors: the raw value times 10 (Celsius, models
   * 6, 8, 13, 14), times 1 (other Celsius models), times 39.68 or 3.968
   * (Fahrenheit), and the raw bytes under any other flag.
   */
  lemma GasInstantFactors(flag: int, f: StateFields)
    requires f.gasInstantUse != []
    ensures var fine := f.deviceSorting in {6, 8, 13, 14};
      var instant := LittleEndian(f.gasInstantUse) as real;
      && (flag == 1 && fine ==> GasInstant(flag, f) == Some(Measured(instant * 10.0)))
      && (flag == 1 && !fine ==> GasInstant(flag, f) == Some(Measured(instant)))
      && (flag == 2 && fine ==> GasInstant(flag, f) == Some(Measured(instant * 39.68)))
      && (flag == 2 && !fine ==> GasInstant(flag, f) == Some(Measured(instant * 3.968)))
      && (flag != 1 && flag != 2 ==> GasInstant(flag, f) == Some(Raw(f.gasInstantUse)))
  {
    var code := f.deviceSorting as int;
    Codes.ModelCodeSets(code);
    var n := LittleEndian(f.gasInstantUse) as real;
    assert LittleEndianOf(f.gasInstantUse) == Some(LittleEndian(f.gasInstantUse));
    if flag == 1 {
      if code in {6, 8, 13, 14} {
        assert CelsiusGasFactor(code) == 100;
        assert n * 100.0 / 10.0 == n * 10.0;
      } else {
        assert CelsiusGasFactor(code) == 10;
        assert n * 10.0 / 10.0 == n;
      }
    } else if flag == 2 {
      if code in {6, 8, 13, 14} {
        assert FahrenheitGasFactor(code) == 10;
        assert n * 10.0 * 3.968 == n * 39.68;
      } else {
        assert FahrenheitGasFactor(code) == 1;
        assert n * 1.0 * 3.968 == n * 3.968;
      }
    }
  }

  /** Accumulated gas use: tenths in Celsius, times 3.5314667 in Fahrenheit, raw bytes otherwise. */
  lemma GasAccumulatedFactors(flag: int, f: StateFields)
    requires f.gasAccumulatedUse != []
    ensures var accumulated := LittleEndian(f.gasAccumulatedUse) as real;
      && (flag == 1 ==> GasAccumulated(flag, f) == Some(Measured(accumulated / 10.0)))
      && (flag == 2 ==> GasAccumulated(flag, f) == Some(Measured(accumulated * 3.5314667)))
      && (flag != 1 && flag != 2 ==> GasAccumulated(flag, f) == Some(Raw(f.gasAccumulatedUse)))
  {
  }

  /**
   * Temperature halving happens only for a Celsius channel and a model
   * other than 0, 3 and 5; the two averages are halved only for the CAS_
   * models among those (4, 7, 10, 12, 15). Otherwise the value is the raw byte.
   */
  lemma TemperatureScaling(flag: int, code: int, raw: byte)
    ensures var halved := flag == 1 && 0 <= code <= 15 && code !in {0, 3, 5};
      && Temperature(flag, code, raw) == (if halved then raw as real / 2.0 else raw as real)
      && AverageTemperature(flag, code, raw) ==
           (if halved && code in {4, 7, 10, 12, 15} then raw as real / 2.0 else raw as real)
  {
    Codes.ModelCodeSets(code);
  }

  /** The flow rate is converted only for the scaled models: tenths in Celsius, tenths of a gallon in Fahrenheit. */
  lemma FlowScaling(flag: int, f: StateFields)
    requires f.hotWaterFlowRate != []
    ensures var scaled := 0 <= f.deviceSorting <= 15 && f.deviceSorting !in {0, 3, 5};
      var flow := LittleEndian(f.hotWaterFlowRate) as real;
      && (flag == 1 && scaled ==> FlowRate(flag, f) == Some(Measured(flow / 10.0)))
      && (flag == 2 && scaled ==> FlowRate(flag, f) == Some(Measured(flow / 37.85)))
      && (!((flag == 1 || flag == 2) && scaled) ==> FlowRate(flag, f) == Some(Raw(f.hotWaterFlowRate)))
  {
    var code := f.deviceSorting as int;
    Codes.ModelCodeSets(code);
    var n := LittleEndian(f.hotWaterFlowRate);
    assert LittleEndianOf(f.hotWaterFlowRate) == Some(n);
    if flag == 2 && Codes.ScaledModelCode(code) {
      assert n as real / 3.785 / 10.0 == n as real / 37.85;
    }
  }

  /**
   * `round(x, 1) == 0`: x lies strictly between -0.05 and 0.05. The tie at
   * 0.05 never arises for a flow rate (FlowRoundsToZero).
   */
  predicate RoundsToZero(x: real)
  {
    -0.05 < x < 0.05
  }

  /**
   * Which converted flow rates the source stores as 0.0 after rounding: a
   * raw count of 0 in Celsius, and a raw count of 0 or 1 in Fahrenheit
   * (1 / 37.85 is about 0.026). No converted flow is negative or exactly 0.05.
   */
  lemma FlowRoundsToZero(flag: int, f: StateFields)
    requires FlowRate(flag, f).Some? && FlowRate(flag, f).value.Measured?
    ensures var x := FlowRate(flag, f).value.value;
      var n := LittleEndian(f.hotWaterFlowRate);
      && x >= 0.0 && x != 0.05
      && (RoundsToZero(x) <==> (flag == 1 && n == 0) || (flag == 2 && n <= 1))
  {
    FlowScaling(flag, f);
    var n := LittleEndian(f.hotWaterFlowRate);
    var x := FlowRate(flag, f).value.value;
    if flag == 1 {
      assert x == n as real / 10.0;
      assert x < 0.05 <==> n == 0;
    } else {
      assert flag == 2;
      assert x == n as real / 37.85;
      assert x * 37.85 == n as real;
      assert x < 0.05 <==> n as real < 1.8925;
    }
  }

  /** A real with at most one decimal, which `round(x, 1)` leaves unchanged. */
  predicate OneDecimal(x: real)
  {
    (x * 10.0).Floor as real == x * 10.0
  }

  lemma HalfOneDecimal(n: int)
    ensures OneDecimal(n as real) && OneDecimal(n as real / 2.0)
  {
    assert n as real * 10.0 == (n * 10) as real;
    assert n as real / 2.0 * 10.0 == (n * 5) as real;
  }

  lemma TenthOneDecimal(x: real, n: int)
    requires x == n as real / 10.0
    ensures OneDecimal(x)
  {
    assert x * 10.0 == n as real;
  }

  lemma TemperatureOneDecimal(code: int, raw: byte)
    ensures OneDecimal(Temperature(1, code, raw)) && OneDecimal(AverageTemperature(1, code, raw))
  {
    HalfOneDecimal(raw);
  }

  lemma GasOneDecimal(f: StateFields)
    requires f.gasInstantUse != [] && f.gasAccumulatedUse != []
    ensures GasInstant(1, f).Some? && GasInstant(1, f).value.Measured? && OneDecimal(GasInstant(1, f).value.value)
    ensures GasAccumulated(1, f).Some? && GasAccumulated(1, f).value.Measured? && OneDecimal(GasAccumulated(1, f).value.value)
  {
    var code := f.deviceSorting as int;
    var n := LittleEndian(f.gasInstantUse);
    GasInstantFactors(1, f);
    GasAccumulatedFactors(1, f);
    var x := GasInstant(1, f).value.value;
    if code in {6, 8, 13, 14} {
      assert x == n as real * 10.0 == (n * 100) as real / 10.0;
      TenthOneDecimal(x, n * 100);
    } else {
      assert x == n as real == (n * 10) as real / 10.0;
      TenthOneDecimal(x, n * 10);
    }
    TenthOneDecimal(GasAccumulated(1, f).value.value, LittleEndian(f.gasAccumulatedUse));
  }

  lemma FlowOneDecimal(f: StateFields)
    requires FlowRate(1, f).Some?
    ensures FlowRate(1, f).value.Measured? ==> OneDecimal(FlowRate(1, f).value.value)
  {
    if FlowRate(1, f).value.Measured? {
      TenthOneDecimal(FlowRate(1, f).value.value, LittleEndian(f.hotWaterFlowRate));
    }
  }

  /** Every Celsius reading has at most one decimal, so the source's rounding to one decimal is exact there. */
  lemma CelsiusNeedsNoRounding(stateData: Response)
    requires Convert(1, stateData).Some?
    ensures var v := Convert(1, stateData).value.values;
      && v.gasInstantUse.Measured? && OneDecimal(v.gasInstantUse.value)
      && v.gasAccumulatedUse.Measured? && OneDecimal(v.gasAccumulatedUse.value)
      && (v.hotWaterFlowRate.Measured? ==> OneDecimal(v.hotWaterFlowRate.value))
      && OneDecimal(v.hotWaterSettingTemperature) && OneDecimal(v.hotWaterCurrentTemperature)
      && OneDecimal(v.hotWaterTemperature) && OneDecimal(v.hotWaterAverageTemperature)
      && OneDecimal(v.inletAverageTemperature)
  {
    var frame := stateData.frame;
    var f := frame.fields;
    var code := f.deviceSorting as int;
    var v := Convert(1, stateData).value.values;
    assert v.gasInstantUse == GasInstant(1, f).value && v.gasAccumulatedUse == GasAccumulated(1, f).value;
    assert v.hotWaterFlowRate == FlowRate(1, f).value;
    assert v.hotWaterSettingTemperature == Temperature(1, code, f.hotWaterSettingTemperature);
    assert v.hotWaterCurrentTemperature == Temperature(1, code, f.hotWaterCurrentTemperature);
    assert v.hotWaterTemperature == Temperature(1, code, f.hotWaterTemperature);
    assert v.hotWaterAverageTemperature == AverageTemperature(1, code, frame.averages.hotWaterAverageTemperature);
    assert v.inletAverageTemperature == AverageTemperature(1, code, frame.averages.inletAverageTemperature);
    GasOneDecimal(f);
    FlowOneDecimal(f);
    TemperatureOneDecimal(code, f.hotWaterSettingTemperature);
    TemperatureOneDecimal(code, f.hotWaterCurrentTemperature);
    TemperatureOneDecimal(code, f.hotWaterTemperature);
    TemperatureOneDecimal(code, frame.averages.hotWaterAverageTemperature);
    TemperatureOneDecimal(code, frame.averages.inletAverageTemperature);
  }

  /**
   * End to end from the received bytes: on a Celsius channel with a scaled
   * model the set-point and outlet temperature are half of bytes 30 and 34,
   * power is on for byte 38 at most 1, and the error code is bytes 20..21
   * little-endian.
   */
  lemma CelsiusFromBytes(h: Header, data: seq<byte>)
    requires |data| > HeaderLength
    requires Convert(1, ParseState(h, data)).Some?
    requires 0 < data[16] <= 15 && data[16] !in {3, 5}
    ensures var v := Convert(1, ParseState(h, data)).value.values;
      && v.hotWaterSettingTemperature == data[30] as real / 2.0
      && v.hotWaterTemperature == data[34] as real / 2.0
      && (v.powerStatus <==> data[38] <= 1)
      && v.errorCode == data[20] as int + 256 * data[21] as int
  {
    StateLayout(h, data);
    var f := ParseState(h, data).frame.fields;
    TemperatureScaling(1, f.deviceSorting as int, f.hotWaterSettingTemperature);
    TemperatureScaling(1, f.deviceSorting as int, f.hotWaterTemperature);
    FlagDecoding(1, ParseState(h, data));
    assert f.errorCode == [data[20], data[21]];
    assert f.errorCode[1..] == [data[21]] && f.errorCode[1..][1..] == [];
    assert LittleEndian(f.errorCode[1..]) == data[21] as int;
  }
}
