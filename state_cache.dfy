/**
 * The store half of `uodate_last_state`: the per-device cache
 * `last_state[channel][device]`, updated with a converted snapshot on
 * success, kept (with its documented zero-flow fix) on failure, created
 * empty for an unseen channel, and stamped with the update time in every
 * case that does not raise.
 */
module StateCache {
  import opened Wrappers
  import opened ResponseFrames
  import opened UnitConversion

  /**
   * One `last_state[channel][device]` dictionary: the stored snapshot, or
   * None for the empty dictionary created after a failed first update, and
   * its `last_update` stamp.
   */
  datatype DeviceEntry = DeviceEntry(snapshot: Option<Snapshot>, lastUpdate: int)

  /** `last_state`, keyed by channel and then by device number. */
  type Cache = map<int, map<int, DeviceEntry>>

  /** The temperature flag of `channel` and the conversion under it; None where either raises. */
  function SnapshotFor(channelInfo: Response, stateData: Response, channel: int): Option<Snapshot>
  {
    match TemperatureFlag(channelInfo, channel)
    case None => None
    case Some(flag) => Convert(flag, stateData)
  }

  /** The stored flow rate compares equal to 0 after `round(…, 1)`; raw bytes never do. */
  predicate ZeroFlow(e: DeviceEntry)
  {
    e.snapshot.Some? && e.snapshot.value.values.hotWaterFlowRate.Measured? &&
    RoundsToZero(e.snapshot.value.values.hotWaterFlowRate.value)
  }

  /** A stored flow rate that rounds to zero becomes 0.1. */
  function FixFlow(e: DeviceEntry): DeviceEntry
  {
    if ZeroFlow(e) then
      e.(snapshot := Some(e.snapshot.value.(values := e.snapshot.value.values.(hotWaterFlowRate := Measured(0.1)))))
    else e
  }

  /**
   * `uodate_last_state(stateData, channel, deviceNum)` at time `now`: the
   * new cache, or None where the source raises (the failure path for a
   * known channel but an unknown device, whose `finally` block indexes a
   * missing key).
   */
  function Update(cache: Cache, channelInfo: Response, stateData: Response, channel: int, device: int, now: int): Option<Cache>
  {
    var converted := SnapshotFor(channelInfo, stateData, channel);
    if converted.Some? then
      var devices := if channel in cache then cache[channel] else map[];
      Some(cache[channel := devices[device := DeviceEntry(converted, now)]])
    else if channel in cache then
      if device !in cache[channel] then None
      else
        var kept := cache[channel][device];
        var fixed := if stateData.ChannelInfo? then FixFlow(kept) else kept;
        Some(cache[channel := cache[channel][device := fixed.(lastUpdate := now)]])
    else
      Some(cache[channel := map[device := DeviceEntry(None, now)]])
  }

  // ================================================================ lemmas

  /** The update raises exactly when the conversion fails for a known channel and an unknown device. */
  lemma UpdateRaises(cache: Cache, channelInfo: Response, stateData: Response, channel: int, device: int, now: int)
    ensures Update(cache, channelInfo, stateData, channel, device, now).None? <==>
      SnapshotFor(channelInfo, stateData, channel).None? && channel in cache && device !in cache[channel]
  {
  }

  /**
   * Only `last_state[channel][device]` changes: every other channel and
   * every other device of the channel keeps its entry, no entry is
   * dropped, and the updated entry exists and carries the new stamp.
   */
  lemma UpdateIsLocal(cache: Cache, channelInfo: Response, stateData: Response, channel: int, device: int, now: int)
    requires Update(cache, channelInfo, stateData, channel, device, now).Some?
    ensures var r := Update(cache, channelInfo, stateData, channel, device, now).value;
      && r.Keys == cache.Keys + {channel}
      && (forall c :: c in cache && c != channel ==> r[c] == cache[c])
      && (channel in cache ==> r[channel].Keys == cache[channel].Keys + {device})
      && (channel in cache ==> forall d :: d in cache[channel] && d != device ==> r[channel][d] == cache[channel][d])
      && device in r[channel] && r[channel][device].lastUpdate == now
  {
  }

  /** A successful conversion is stored as the device's snapshot. */
  lemma UpdateStoresSnapshot(cache: Cache, channelInfo: Response, stateData: Response, channel: int, device: int, now: int)
    requires SnapshotFor(channelInfo, stateData, channel).Some?
    ensures var r := Update(cache, channelInfo, stateData, channel, device, now);
      r.Some? && r.value[channel][device].snapshot == SnapshotFor(channelInfo, stateData, channel)
  {
  }

  /**
   * A failed conversion keeps the stored snapshot, except that a stored
   * flow rate that rounds to zero becomes 0.1 when the failing input is a channel
   * information result (the only result with a `channel` key); for an
   * unseen channel it creates an empty entry.
   */
  lemma UpdateKeepsOnFailure(cache: Cache, channelInfo: Response, stateData: Response, channel: int, device: int, now: int)
    requires SnapshotFor(channelInfo, stateData, channel).None?
    ensures var r := Update(cache, channelInfo, stateData, channel, device, now);
      && (channel !in cache ==> r == Some(cache[channel := map[device := DeviceEntry(None, now)]]))
      && (channel in cache && device in cache[channel] ==>
            var before := cache[channel][device].snapshot;
            var after := r.value[channel][device].snapshot;
            && after.Some? == before.Some?
            && (before.Some? ==> after.value.frame == before.value.frame)
            && (before.Some? ==> var flow := before.value.values.hotWaterFlowRate;
                  after.value.values ==
                    if stateData.ChannelInfo? && flow.Measured? && RoundsToZero(flow.value)
                    then before.value.values.(hotWaterFlowRate := Measured(0.1))
                    else before.value.values))
  {
  }

  /** Every `last_update` stamp in the cache is at most `t`. */
  ghost predicate StampedBy(cache: Cache, t: int)
  {
    forall c, d :: c in cache && d in cache[c] ==> cache[c][d].lastUpdate <= t
  }

  /** With a clock that does not go back, the stamps stay bounded by the latest update time. */
  lemma UpdateKeepsStampsBounded(cache: Cache, channelInfo: Response, stateData: Response, channel: int, device: int, t: int, now: int)
    requires StampedBy(cache, t) && t <= now
    requires Update(cache, channelInfo, stateData, channel, device, now).Some?
    ensures StampedBy(Update(cache, channelInfo, stateData, channel, device, now).value, now)
  {
    var r: Cache := Update(cache, channelInfo, stateData, channel, device, now).value;
    forall c, d | c in r && d in r[c] ensures r[c][d].lastUpdate <= now {
      UpdateIsLocal(cache, channelInfo, stateData, channel, device, now);
      if c != channel || d != device {
        assert r[c][d] == cache[c][d];
      }
    }
  }
}
