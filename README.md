# Navien NaviLink binary client, modelled in Dafny

This project models the core of `NavienSmartControl`, the client that a Home
Assistant integration uses to talk to Navien water heaters. The client speaks
a binary protocol over TCP to Navien's relay server. The model covers:

- **Enum tables** (`codes.dfy`): control types, channel use, device models,
  temperature units, on-demand and on/off flags, control sorting and device
  controls. It also covers the model lists that the unit conversion
  branches on.
- **Byte helpers** (`byte_codec.dfy`): `bigHexToInt`, which turns a byte
  string into its little-endian integer by a round trip through hex text.
  This file also holds the `bytes.hex` / `bytes.fromhex` pair.
- **Response decoders** (`response_frames.dfy`, `response_reader.dfy`):
  `parseResponse`, `parseChannelInformationResponse`, `parseStateResponse`
  and `parseErrorCodeResponse`. Each is a specification function with
  layout lemmas. The decoders that loop are also written as methods, proved
  to compute those functions.
- **Request encoder** (`control_request.dfy`): the frame that `sendRequest`
  builds, `initWeeklyDay`, and the command fields of the four `send*Request`
  wrappers. Includes a decoder and a round-trip proof.
- **`uodate_last_state`** (`unit_conversion.dfy`, `state_cache.dfy`): the
  Celsius and Fahrenheit unit conversion of a state reply, and the
  per-device cache with its failure paths.
- **The session** (`tcp_session.dfy`): the login in `connect`, `disconnect`,
  the exchange in `send_and_receive`, and the reconnect policy in
  `sendRequest`. These are stated as step functions over a `Session` value,
  with an invariant and lemmas. The class `NavienSmartControl` holds the
  same state in mutable fields, and each of its methods is proved to follow
  the matching step function.

Python's `None` result is `NoResponse`; the empty dictionary `{}` is
`EmptyResult`. Exceptions that the source catches become the result the
handler returns. An exception that escapes to the caller becomes `None`
from the operation, with the state left unchanged. Dictionary keys
`str(channel)` and `str(deviceNum)` are modelled as integer keys. The
network is a parameter: a script of exchange outcomes, consumed one per
write on an open connection. Every write is recorded. The clock is a `now`
argument.

## Model
| member | source | states |
|---|---|---|
| ByteCodec.BigEndianOfReverse | custom_components/navien_water_heater/navien_api.py:553-569 | reading the reversed bytes most-significant-first gives the original bytes read least-significant-first, the byte-order swap `bigHexToInt` relies on |
| ByteCodec.LittleEndianBound | custom_components/navien_water_heater/navien_api.py:553-569 | an n-byte little-endian value is below 256^n |
| ByteCodec.HexString | custom_components/navien_water_heater/navien_api.py:518-519 | `bytes.hex` gives two hex digits per byte |
| ByteCodec.FromHexOfHexString | custom_components/navien_water_heater/navien_api.py:614 | `bytes.fromhex` inverts `bytes.hex`: the hex text of any byte string parses back to exactly those bytes |
| ByteCodec.ParseHexOfHexString | custom_components/navien_water_heater/navien_api.py:569 | `int(text, 16)` of the hex text of a byte string is its big-endian value |
| ByteCodec.FromHex | custom_components/navien_water_heater/navien_api.py:614 | `bytes.fromhex`: skips white space, needs hex digit pairs, otherwise raises; stated by FromHexOfHexString |
| ByteCodec.ParseHex | custom_components/navien_water_heater/navien_api.py:569 | `int(text, 16)` on hex text; stated by ParseHexOfHexString |
| ByteCodec.BigHexToInt | custom_components/navien_water_heater/navien_api.py:553-569 | a str argument raises, an int is returned unchanged, an empty byte string raises, any other byte string yields its little-endian value, which is below 256^n for n bytes |
| Codes.ControlTypeOf | custom_components/navien_water_heater/navien_api.py:22-29 | a control-type code is accepted exactly in 0..6 and maps back to itself |
| Codes.DeviceSortingOf | custom_components/navien_water_heater/navien_api.py:43-59 | a device-sorting code is accepted exactly in 0..15 and maps back to itself |
| Codes.ModelCodeSets | custom_components/navien_water_heater/navien_api.py:801-826 | the model lists used by the conversion: fine gas resolution is {6, 8, 13, 14}; the halved-temperature models are 0..15 minus {0, 3, 5}; the cascade models are {4, 5, 7, 10, 12, 15} |
| Codes.OnDemandFlagOf | custom_components/navien_water_heater/navien_api.py:68-72 | an on-demand flag is accepted exactly in 0..3 and maps back to itself |
| Codes.OnOffFlagOf | custom_components/navien_water_heater/navien_api.py:114-117 | an on/off flag is accepted exactly in 0..2 and maps back to itself; otherwise the enum constructor raises |
| ResponseFrames.ParseResponseDispatch | custom_components/navien_water_heater/navien_api.py:293-329 | no reply, a reply of at most 12 bytes, or a control type other than 1 or 2 gives `None`; type 1 goes to the channel-information parser and type 2 to the state parser |
| ResponseFrames.ParseResponse | custom_components/navien_water_heater/navien_api.py:293-329 | `parseResponse`; stated by ParseResponseDispatch, DecodedDeviceId and proved equal to the method DecodeResponse |
| ResponseFrames.ParseChannelInformation | custom_components/navien_water_heater/navien_api.py:331-423 | `parseChannelInformationResponse`; stated by ChannelInfoLayout and ChannelInfoDecodes |
| ResponseFrames.ParseState | custom_components/navien_water_heater/navien_api.py:425-523 | `parseStateResponse`; stated by StateLayout and StateDecodes |
| ResponseFrames.DecodedDeviceId | custom_components/navien_water_heater/navien_api.py:418-419 | the decoded device id is the hex text of the first 8 bytes and converts back to them |
| ResponseFrames.ReadChannelRecordSpec | custom_components/navien_water_heater/navien_api.py:371-415 | a channel record is read when the record width matches the firmware layout, it fits in the reply, and its on-demand byte is a valid flag; every field then comes from its byte |
| ResponseFrames.ThreeRecords | custom_components/navien_water_heater/navien_api.py:371-415 | the channel map holds records 1, 2 and 3 at offsets 13, 13+w and 13+2w, or the parse fails |
| ResponseFrames.ChannelInfoLayout | custom_components/navien_water_heater/navien_api.py:331-419 | a decoded channel-information reply has exactly channels 1..3, each laid out from its bytes, and the header fields |
| ResponseFrames.ChannelInfoDecodes | custom_components/navien_water_heater/navien_api.py:331-423 | the reply decodes exactly when the channel-use byte is non-zero, the firmware is not 1500, three records fit and their on-demand bytes are valid; firmware 1500 (13-byte stride but 15-byte unpack) and channel use 0 give `{}` |
| ResponseFrames.ReadDaySpec | custom_components/navien_water_heater/navien_api.py:474-485 | a day block is read exactly when its count byte and its entries fit; each entry is three consecutive bytes |
| ResponseFrames.ReadDaysSpec | custom_components/navien_water_heater/navien_api.py:474-485 | the seven day blocks are read exactly when each fits, and each is laid out from its bytes |
| ResponseFrames.StateLayout | custom_components/navien_water_heater/navien_api.py:425-519 | a decoded state reply has the fixed fields at bytes 12..42, seven day blocks, the averages at 267..270 and the recirculation temperatures only from 273 bytes on |
| ResponseFrames.StateDecodes | custom_components/navien_water_heater/navien_api.py:425-523 | a state reply decodes exactly when it has at least 271 bytes and every day block fits; a shorter one gives `{}` |
| ResponseFrames.ParseErrorCode | custom_components/navien_water_heater/navien_api.py:525-551 | an error-code reply decodes exactly when it has at least 23 bytes; controller and panel versions are bytes 12..13 and 14..15, then sorting, device count, current channel, device number and error flag are bytes 16..20, and the error code is the raw bytes 21..22, whose little-endian value is also stated |
| ResponseReader.DecodeChannelInformation | custom_components/navien_water_heater/navien_api.py:331-423 | the loop over the three records computes exactly the channel-information parse |
| ResponseReader.DecodeEntries | custom_components/navien_water_heater/navien_api.py:480-485 | the entry loop succeeds exactly when all entries fit, and then yields every entry |
| ResponseReader.DecodeState | custom_components/navien_water_heater/navien_api.py:425-523 | the loop over the seven day blocks computes exactly the state parse |
| ResponseReader.DecodeResponse | custom_components/navien_water_heater/navien_api.py:293-329 | the header check and dispatch compute exactly the response parse |
| ControlRequest.WeeklyValues | custom_components/navien_water_heater/navien_api.py:629-660 | a weekly schedule yields its 32 bytes exactly when all ten slots are present: day, count, then hour, minute and flag per slot |
| ControlRequest.EncodeRequest | custom_components/navien_water_heater/navien_api.py:595-662 | a request is built exactly when the gateway id is valid hex and every field and schedule value is a byte; it is 45 bytes plus the gateway id and starts with the fixed six-byte header |
| ControlRequest.DecodeRequest | custom_components/navien_water_heater/navien_api.py:604-662 | a parsed frame has six command fields, 32 schedule bytes and the gateway id |
| ControlRequest.EncodeDecode | custom_components/navien_water_heater/navien_api.py:595-662 | encoding then decoding gives back the gateway id, command count 1, the six fields and the schedule bytes |
| ControlRequest.InitWeeklyDay | custom_components/navien_water_heater/navien_api.py:681-694 | the loop builds ten all-zero slots, so the schedule encodes as 32 zero bytes |
| ControlRequest.EmptyWeeklyDay | custom_components/navien_water_heater/navien_api.py:681-694 | the empty schedule encodes as 32 zero bytes |
| ControlRequest.ZeroSchedule | custom_components/navien_water_heater/navien_api.py:681-694 | any schedule whose day, count and ten slots are zero encodes as 32 zero bytes |
| ControlRequest.Trunc | custom_components/navien_water_heater/navien_api.py:784 | `int(tempVal)` truncates toward zero |
| ControlRequest.CommandFields | custom_components/navien_water_heater/navien_api.py:698-789 | only the power request can fail, when its flag is not 0..2; the state query uses sorting INFO and item STATE, the controls use CONTROL and UNKNOWN |
| ControlRequest.CommandFrameExists | custom_components/navien_water_heater/navien_api.py:595-662 | a command frame exists exactly when the gateway id is hex, channel and device are bytes, the power flag is 0..2 and the truncated temperature is a byte |
| ControlRequest.CommandRequest | custom_components/navien_water_heater/navien_api.py:698-789 | every wrapper sends command count 1, its command fields and an all-zero schedule |
| ControlRequest.CommandFieldsTable | custom_components/navien_water_heater/navien_api.py:698-789 | the four wrappers send [1, 2, 0, 0], [2, 0, 1, flag], [2, 0, 5, 1] and [2, 0, 3, int(t)] after channel and device |
| ControlRequest.CommandFrame | custom_components/navien_water_heater/navien_api.py:698-789 | the frame each wrapper builds; stated by CommandFrameExists, CommandRequest and CommandFrameContents |
| ControlRequest.CommandFrameContents | custom_components/navien_water_heater/navien_api.py:698-789 | each wrapper's frame decodes to its row of that table |
| UnitConversion.TemperatureFlag | custom_components/navien_water_heater/navien_api.py:800 | the flag is read exactly when channel information holds the channel (what that means for a decoded login reply is TemperatureFlagOfLogin) |
| UnitConversion.TemperatureFlagOfLogin | custom_components/navien_water_heater/navien_api.py:800 | for a decoded login reply, only channels 1, 2 and 3 have a flag, and it is byte 3 of that channel's record; a state for any other channel never converts |
| UnitConversion.LittleEndianOf | custom_components/navien_water_heater/navien_api.py:810-867 | a multi-byte field converts exactly when it is non-empty |
| UnitConversion.Convert | custom_components/navien_water_heater/navien_api.py:799-870 | the conversion of a state reply; stated by ConvertSucceeds, FlagDecoding, CelsiusNeedsNoRounding and CelsiusFromBytes |
| UnitConversion.GasInstant | custom_components/navien_water_heater/navien_api.py:800-846 | instant gas use under the flag; stated by GasInstantFactors |
| UnitConversion.GasAccumulated | custom_components/navien_water_heater/navien_api.py:811-847 | accumulated gas use under the flag; stated by GasAccumulatedFactors |
| UnitConversion.FlowRate | custom_components/navien_water_heater/navien_api.py:834-863 | flow rate under the flag; stated by FlowScaling and FlowRoundsToZero |
| UnitConversion.Temperature | custom_components/navien_water_heater/navien_api.py:827-835 | set-point, current and outlet temperatures; stated by TemperatureScaling |
| UnitConversion.AverageTemperature | custom_components/navien_water_heater/navien_api.py:828-832 | the cascade-only average temperatures; stated by TemperatureScaling |
| UnitConversion.ConvertSucceeds | custom_components/navien_water_heater/navien_api.py:799-870 | the conversion succeeds exactly for a state reply whose byte fields are non-empty and whose power, on-demand and weekly flags are valid enum codes; the frame itself is kept |
| UnitConversion.DecodedFieldsReadable | custom_components/navien_water_heater/navien_api.py:464-466 | every decoded state has non-empty multi-byte fields |
| UnitConversion.FlagDecoding | custom_components/navien_water_heater/navien_api.py:865-870 | power and weekly control are on for codes 0 and 1, on-demand only for 1; the version and error fields are little-endian |
| UnitConversion.GasInstantFactors | custom_components/navien_water_heater/navien_api.py:800-846 | instant gas use is scaled by 10 or 1 in Celsius and by 39.68 or 3.968 in Fahrenheit, by model; any other flag leaves the bytes |
| UnitConversion.GasAccumulatedFactors | custom_components/navien_water_heater/navien_api.py:811-847 | accumulated gas use is divided by 10 in Celsius and scaled by 3.5314667 in Fahrenheit |
| UnitConversion.TemperatureScaling | custom_components/navien_water_heater/navien_api.py:812-835 | in Celsius the temperatures of the listed models are halved, the averages only for cascade models |
| UnitConversion.FlowScaling | custom_components/navien_water_heater/navien_api.py:834-863 | the flow rate of the listed models is divided by 10 in Celsius and by 37.85 in Fahrenheit; otherwise the bytes stay |
| UnitConversion.FlowRoundsToZero | custom_components/navien_water_heater/navien_api.py:863 | a converted flow is never negative nor exactly 0.05, and rounds to 0.0 exactly for raw count 0 in Celsius and 0 or 1 in Fahrenheit |
| UnitConversion.TemperatureOneDecimal | custom_components/navien_water_heater/navien_api.py:827-835 | halved Celsius temperatures need no rounding to one decimal |
| UnitConversion.GasOneDecimal | custom_components/navien_water_heater/navien_api.py:810-811 | Celsius gas values need no rounding to one decimal |
| UnitConversion.FlowOneDecimal | custom_components/navien_water_heater/navien_api.py:834 | the Celsius flow rate needs no rounding to one decimal |
| UnitConversion.CelsiusNeedsNoRounding | custom_components/navien_water_heater/navien_api.py:810-835 | every Celsius value the conversion produces already has one decimal, so `round(…, 1)` is the identity there |
| UnitConversion.CelsiusFromBytes | custom_components/navien_water_heater/navien_api.py:800-870 | end to end from reply bytes in Celsius: the setting and outlet temperatures are bytes 30 and 34 halved, power is on for byte 38 at most 1, and the error code is bytes 20..21 little-endian |
| StateCache.UpdateRaises | custom_components/navien_water_heater/navien_api.py:872-886 | the update raises exactly when the conversion fails for a known channel and an unknown device |
| StateCache.Update | custom_components/navien_water_heater/navien_api.py:872-886 | the cache half of `uodate_last_state`; stated by UpdateRaises, UpdateIsLocal, UpdateStoresSnapshot, UpdateKeepsOnFailure and UpdateKeepsStampsBounded |
| StateCache.SnapshotFor | custom_components/navien_water_heater/navien_api.py:800-870 | the temperature-flag lookup followed by the conversion; None where either raises; stated through TemperatureFlagOfLogin and ConvertSucceeds |
| StateCache.FixFlow | custom_components/navien_water_heater/navien_api.py:878-881 | the zero-flow fix applied on a failed update; stated by UpdateKeepsOnFailure |
| StateCache.UpdateIsLocal | custom_components/navien_water_heater/navien_api.py:872-886 | only `last_state[channel][device]` changes, no entry is dropped, and the entry gets the new stamp |
| StateCache.UpdateStoresSnapshot | custom_components/navien_water_heater/navien_api.py:872-874 | a successful conversion is stored as the device's entry |
| StateCache.UpdateKeepsOnFailure | custom_components/navien_water_heater/navien_api.py:875-884 | a failed conversion keeps the stored entry, except that a stored flow rate that rounds to 0.0 at one decimal becomes 0.1 when the input carries a `channel` key; an unseen channel gets an empty entry |
| StateCache.UpdateKeepsStampsBounded | custom_components/navien_water_heater/navien_api.py:886 | with a clock that does not go back, every stamp stays at most the latest update time |
| TcpSession.Received | custom_components/navien_water_heater/navien_api.py:279 | one read returns at most 1024 bytes, a prefix of the reply |
| TcpSession.Transmit | custom_components/navien_water_heater/navien_api.py:271-291 | `send_and_receive`; stated by TransmitWrites and TransmitValid, and the class method SendAndReceive follows it |
| TcpSession.ConnectStep | custom_components/navien_water_heater/navien_api.py:230-253 | `connect`; stated by ConnectLogsIn, ConnectWritesLogin and ConnectValid |
| TcpSession.DisconnectStep | custom_components/navien_water_heater/navien_api.py:255-269 | `disconnect`; stated by DisconnectLogsOut and DisconnectValid |
| TcpSession.RequestStep | custom_components/navien_water_heater/navien_api.py:571-679 | `sendRequest`; stated by EncodeFailureSendsNothing, FreshSessionSendsFrame, StaleSessionLogsInFirst, FailedFirstLoginSendsNoFrame and SendRequestValid |
| TcpSession.UpdateStep | custom_components/navien_water_heater/navien_api.py:791-887 | `uodate_last_state` on the session; the cache as Update gives it, stated by UpdateValid |
| TcpSession.SendCommand | custom_components/navien_water_heater/navien_api.py:698-789 | a `send*Request` wrapper; stated by StateQueryStores, TemperatureRequestKeepsSnapshot and SendCommandValid |
| TcpSession.ControlStep | custom_components/navien_water_heater/navien_api.py:698-789 | the body the wrappers share; stated through SendCommand's lemmas |
| TcpSession.InitialValid | custom_components/navien_water_heater/navien_api.py:212-228 | the constructed client is logged out, has no login time and empty channel information, which satisfies the session invariant |
| TcpSession.TransmitValid | custom_components/navien_water_heater/navien_api.py:271-291 | an exchange keeps the session invariant, including a reset that logs out |
| TcpSession.DisconnectValid | custom_components/navien_water_heater/navien_api.py:255-269 | `disconnect` keeps the session invariant |
| TcpSession.UpdateValid | custom_components/navien_water_heater/navien_api.py:791-887 | the cache update keeps the session invariant |
| TcpSession.ConnectValid | custom_components/navien_water_heater/navien_api.py:230-253 | `connect` keeps the session invariant |
| TcpSession.SendRequestValid | custom_components/navien_water_heater/navien_api.py:571-679 | `sendRequest` keeps the session invariant |
| TcpSession.SendCommandValid | custom_components/navien_water_heater/navien_api.py:698-789 | every request wrapper keeps the session invariant |
| TcpSession.TransmitWrites | custom_components/navien_water_heater/navien_api.py:271-276 | the message is written exactly when a writer exists |
| TcpSession.ConnectWritesLogin | custom_components/navien_water_heater/navien_api.py:245 | `connect` always writes the login line user$iPhone1.0$gateway |
| TcpSession.ConnectLogsIn | custom_components/navien_water_heater/navien_api.py:230-253 | from a logged-out session, login succeeds exactly when the first reply decodes to channel information, which is then stored with the login time; otherwise login state, time and channel information are unchanged |
| TcpSession.LoginReplyShape | custom_components/navien_water_heater/navien_api.py:243-248 | a reply that logs in has more than 12 bytes and control type 1 |
| TcpSession.DisconnectLogsOut | custom_components/navien_water_heater/navien_api.py:255-269 | `disconnect` logs out and drops the writer, and nothing else changes |
| TcpSession.EncodeFailureSendsNothing | custom_components/navien_water_heater/navien_api.py:595-679 | a request that cannot be built answers `{}` and leaves the session unchanged |
| TcpSession.FreshSessionSendsFrame | custom_components/navien_water_heater/navien_api.py:664-674 | a logged-in session younger than 600 seconds writes only the request frame |
| TcpSession.StaleSessionLogsInFirst | custom_components/navien_water_heater/navien_api.py:664-674 | a logged-out session, or one 600 seconds old or more, writes the login line before anything else |
| TcpSession.FailedFirstLoginSendsNoFrame | custom_components/navien_water_heater/navien_api.py:664-679 | a session that never logged in and fails to log in answers `{}` without writing the request frame |
| TcpSession.StateQueryStores | custom_components/navien_water_heater/navien_api.py:698-717 | on a fresh session the state query writes its frame, and a convertible state reply is stored for the device |
| TcpSession.TemperatureRequestKeepsSnapshot | custom_components/navien_water_heater/navien_api.py:766-789 | the water-temperature request reads no reply, so it keeps the stored entry and only refreshes its stamp |
| TcpSession.UnreadRequest | custom_components/navien_water_heater/navien_api.py:271-291 | a request that reads no reply answers `None` or `{}` and leaves the cache alone |
| TcpSession.TransmitUnread | custom_components/navien_water_heater/navien_api.py:278-291 | an exchange that reads no reply answers `None` and leaves the cache alone |
| TcpSession.ConnectKeepsCache | custom_components/navien_water_heater/navien_api.py:230-253 | `connect` leaves the cache alone |
| TcpSession.NavienSmartControl.constructor | custom_components/navien_water_heater/navien_api.py:212-228 | the new client is the initial session |
| TcpSession.NavienSmartControl.SendAndReceive | custom_components/navien_water_heater/navien_api.py:271-291 | the fields and answer follow the exchange step |
| TcpSession.NavienSmartControl.Connect | custom_components/navien_water_heater/navien_api.py:230-253 | the fields and answer follow the connect step |
| TcpSession.NavienSmartControl.Disconnect | custom_components/navien_water_heater/navien_api.py:255-269 | always answers true, and the fields follow the disconnect step |
| TcpSession.NavienSmartControl.SendRequest | custom_components/navien_water_heater/navien_api.py:571-679 | the fields and answer follow the request step, including the reconnect policy |
| TcpSession.NavienSmartControl.UpdateLastState | custom_components/navien_water_heater/navien_api.py:791-887 | the cache field and answer follow the cache update |
| TcpSession.NavienSmartControl.SendStateRequest | custom_components/navien_water_heater/navien_api.py:698-717 | follows the state-query command |
| TcpSession.NavienSmartControl.SendPowerControlRequest | custom_components/navien_water_heater/navien_api.py:719-740 | follows the power command, which raises for a flag outside 0..2 |
| TcpSession.NavienSmartControl.SendOnDemandControlRequest | custom_components/navien_water_heater/navien_api.py:742-764 | follows the on-demand command |
| TcpSession.NavienSmartControl.SendWaterTempControlRequest | custom_components/navien_water_heater/navien_api.py:766-789 | follows the temperature command, sent without reading a reply |
| TcpSession.NavienSmartControl.SendControl | custom_components/navien_water_heater/navien_api.py:698-789 | the shared body: an empty schedule, the request, then the cache update |

## Left out

- StateCache.FixFlow: the source compares the stored, rounded flow rate with 0; the model keeps the exact value and tests whether it rounds to 0.0 at one decimal (FlowRoundsToZero shows no tie at 0.05 can occur), so the fix fires for the same readings, but the stored reading itself is not rounded.
- REST login (`NavienAccountInfo`, lines 156-202) and the MQTT-based modules are not part of this model; the core is the binary TCP client.
- Opening the socket: the retry loop in `connect` (lines 236-242) is taken to succeed at once. A server that never accepts is not modelled.
- The `connecting` flag and the `if not self.connecting` guard of `sendRequest` are not modelled. They only matter when requests run concurrently, and concurrency is not modelled.
- The one-slot `asyncio.Queue` that serialises `send_and_receive` is not modelled, for the same reason.
- Logging is not modelled.
- Writer close and `wait_closed` in `disconnect` are not modelled, because their errors are swallowed there.
- TcpSession.Transmit: a reply longer than 1024 bytes is cut to its first 1024 bytes. The rest, which would stay in the socket for the next read, is dropped. Bytes of a reply that is not read (`read_response=False`) are also not carried over to the next exchange.
- TcpSession.Transmit: an exhausted network script counts as a timeout. Any exception other than a reset is treated like a timeout: no reply, session unchanged.
- The login line is kept as text; its UTF-8 encoding by `.encode()` is not modelled.
- UnitConversion.GasInstant, UnitConversion.GasAccumulated, UnitConversion.FlowRate, UnitConversion.Temperature: values are stored as exact reals, not rounded to one decimal. Floating-point arithmetic and `round(…, 1)` are not modelled. For Celsius, `CelsiusNeedsNoRounding` shows the rounding is the identity on exact values; the Fahrenheit factors are not exact in binary floating point.
- The conversion mutates the state dictionary in place before it fails. That partial mutation is not visible, because a failed dictionary is never stored.
- `AutoVivification` is replaced by plain sequences of day blocks.
- The enums the core never reads are not modelled: `HeatingControl`, `WWSDFlag`, `WWSDMask`, `CommercialLockFlag`, `NFBWaterFlag`, `RecirculationFlag`, `HighTemperature` and `DayOfWeek`.
- The wrapper `sendPowerControlRequest` raises ValueError for an invalid flag. That exception escapes, and is modelled as a `None` result with the client unchanged.
- Every time value inside one call comes from a single `now` argument. The source reads the clock at each step.

