/**
 * The decoders as the source runs them: loops over the three channel
 * records and over the seven day blocks and their entries, each proved to
 * compute exactly the corresponding function of ResponseFrames.
 */
module ResponseReader {
  import opened Wrappers
  import opened ByteCodec
  import opened ResponseFrames
  import Codes

  lemma {:induction false} RecordsStayMissing(data: seq<byte>, width: nat, wide: bool, n: nat, m: nat)
    requires n <= m && RecordsUpTo(data, width, wide, n).None?
    ensures RecordsUpTo(data, width, wide, m).None?
    decreases m - n
  {
    if n < m {
      RecordsStayMissing(data, width, wide, n + 1, m);
    }
  }

  lemma {:induction false} DaysStayMissing(data: seq<byte>, n: nat, m: nat)
    requires n <= m && ReadDays(data, n).None?
    ensures ReadDays(data, m).None?
    decreases m - n
  {
    if n < m {
      DaysStayMissing(data, n + 1, m);
    }
  }

  /** `parseChannelInformationResponse`, with its `for x in range(3)` loop. */
  method DecodeChannelInformation(h: Header, data: seq<byte>) returns (r: Response)
    requires |data| > HeaderLength
    ensures r == ParseChannelInformation(h, data)
  {
    var chanUse := data[12];
    var fwVersion := h.fwMajor * 100 + h.fwMinor;
    var chanOffset := if fwVersion > 1500 then 15 else 13;
    if chanUse == Codes.ChannelUse.UnknownUse.Code() {
      return EmptyResult;
    }
    var wide := !(fwVersion < 1500);
    var channels: map<int, ChannelRecord> := map[];
    for x := 0 to 3
      invariant RecordsUpTo(data, chanOffset, wide, x) == Some(channels)
    {
      var rec := ReadChannelRecord(data, 13 + chanOffset * x, chanOffset, wide);
      if rec.None? {
        RecordsStayMissing(data, chanOffset, wide, x + 1, 3);
        return EmptyResult;
      }
      channels := channels[x + 1 := rec.value];
    }
    r := ChannelInfo(CommonOf(h), channels);
  }

  /** The entries of one day block, read triple by triple; None when a triple runs past the end. */
  method DecodeEntries(data: seq<byte>, start: nat, count: nat) returns (r: Option<seq<ScheduleEntry>>)
    requires start <= |data|
    ensures r.Some? <==> start + 3 * count <= |data|
    ensures r.Some? ==> r.value == Entries(data, start, count)
  {
    var entries: seq<ScheduleEntry> := [];
    for k := 0 to count
      invariant |entries| == k
      invariant start + 3 * k <= |data|
      invariant forall j :: 0 <= j < k ==> start + 3 * j + 3 <= |data| && entries[j] == EntryAt(data, start + 3 * j)
    {
      var at := start + k * 3;
      if at + 3 > |data| {
        return None;
      }
      entries := entries + [ScheduleEntry(data[at], data[at + 1], data[at + 2])];
    }
    return Some(entries);
  }

  /** `parseStateResponse`, with its loop over the seven day blocks. */
  method DecodeState(h: Header, data: seq<byte>) returns (r: Response)
    requires |data| > HeaderLength
    ensures r == ParseState(h, data)
  {
    if |data| < 43 {
      return EmptyResult;
    }
    var fields := ReadStateFields(data);
    var days: seq<DaySequence> := [];
    for i := 0 to 7
      invariant ReadDays(data, i) == Some(days)
    {
      var i2 := i * 32;
      var i3 := i2 + 43;
      if i2 + 44 >= |data| {
        DaysStayMissing(data, i + 1, 7);
        return EmptyResult;
      }
      var dayOfWeek := data[i3];
      var weeklyTotalCount := data[i2 + 44] as int;
      var entries := DecodeEntries(data, i2 + 45, weeklyTotalCount);
      if entries.None? {
        DaysStayMissing(data, i + 1, 7);
        return EmptyResult;
      }
      days := days + [DaySequence(dayOfWeek, entries.value)];
    }
    var averages: Averages;
    if |data| >= FullAveragesLength {
      averages := Averages(data[267], data[268], data[269], data[270],
                           Some(RecirculationTemperatures(data[271], data[272])));
    } else if |data| >= ShortAveragesLength {
      averages := Averages(data[267], data[268], data[269], data[270], None);
    } else {
      return EmptyResult;
    }
    r := State(StateFrame(CommonOf(h), fields, days, averages));
  }

  /** `parseResponse`: header check and dispatch on the control-type byte. */
  method DecodeResponse(data: Option<seq<byte>>) returns (r: Response)
    ensures r == ParseResponse(data)
  {
    if data.None? || |data.value| <= HeaderLength {
      return NoResponse;
    }
    var bytes := data.value;
    var header := Header(bytes[..8], bytes[8], bytes[9], bytes[10], bytes[11]);
    if header.controlType == Codes.ControlType.ChannelInformation.Code() {
      r := DecodeChannelInformation(header, bytes);
    } else if header.controlType == Codes.ControlType.StateInfo.Code() {
      r := DecodeState(header, bytes);
    } else {
      r := NoResponse;
    }
  }
}
