/**
 * The protocol's enumeration tables: each is a closed datatype with its
 * wire code, and a partial inverse from codes (the Python `Enum(code)`
 * lookup, which raises ValueError for an unknown code — None here).
 */
module Codes {
  import opened Wrappers

  /** Byte 9 of every response: which payload follows the header. */
  datatype ControlType = UnknownControl | ChannelInformation | StateInfo | TrendSample | TrendMonth | TrendYear | ErrorCode
  {
    function Code(): int
    {
      match this
      case UnknownControl => 0
      case ChannelInformation => 1
      case StateInfo => 2
      case TrendSample => 3
      case TrendMonth => 4
      case TrendYear => 5
      case ErrorCode => 6
    }
  }

  function ControlTypeOf(code: int): (r: Option<ControlType>)
    ensures r.Some? <==> 0 <= code <= 6
    ensures r.Some? ==> r.value.Code() == code
  {
    if code == 0 then Some(UnknownControl)
    else if code == 1 then Some(ChannelInformation)
    else if code == 2 then Some(StateInfo)
    else if code == 3 then Some(TrendSample)
    else if code == 4 then Some(TrendMonth)
    else if code == 5 then Some(TrendYear)
    else if code == 6 then Some(ErrorCode)
    else None
  }

  /** Byte 12 of a channel-information response: which serial channels are in use. */
  datatype ChannelUse = UnknownUse | Channel1 | Channel2 | Channel12 | Channel3 | Channel13 | Channel23 | Channel123
  {
    function Code(): int
    {
      match this
      case UnknownUse => 0
      case Channel1 => 1
      case Channel2 => 2
      case Channel12 => 3
      case Channel3 => 4
      case Channel13 => 5
      case Channel23 => 6
      case Channel123 => 7
    }
  }

  /** The device models; the model code selects the unit-conversion factors. */
  datatype DeviceSorting =
    | NoDevice | NPE | NCB | NHB | CasNPE | CasNHB | NFB | CasNFB
    | NFC | NPN | CasNPN | NPE2 | CasNPE2 | NCBH | NVW | CasNVW
  {
    function Code(): int
    {
      match this
      case NoDevice => 0
      case NPE => 1
      case NCB => 2
      case NHB => 3
      case CasNPE => 4
      case CasNHB => 5
      case NFB => 6
      case CasNFB => 7
      case NFC => 8
      case NPN => 9
      case CasNPN => 10
      case NPE2 => 11
      case CasNPE2 => 12
      case NCBH => 13
      case NVW => 14
      case CasNVW => 15
    }

    /** The enumeration member's name starts with "CAS_" (a cascaded installation). */
    predicate IsCascade()
    {
      this in {CasNPE, CasNHB, CasNFB, CasNPN, CasNPE2, CasNVW}
    }

    /** NFC, NCB_H, NFB and NVW report instantaneous gas use with ten times the resolution. */
    predicate HasFineGasResolution()
    {
      this in {NFC, NCBH, NFB, NVW}
    }

    /** The models whose temperatures and flow rate the state update rescales. */
    predicate IsScaledModel()
    {
      this in {NPE, NPN, NPE2, NCB, NFC, NCBH, CasNPE, CasNPN, CasNPE2, NFB, NVW, CasNFB, CasNVW}
    }
  }

  function DeviceSortingOf(code: int): (r: Option<DeviceSorting>)
    ensures r.Some? <==> 0 <= code <= 15
    ensures r.Some? ==> r.value.Code() == code
  {
    if code == 0 then Some(NoDevice)
    else if code == 1 then Some(NPE)
    else if code == 2 then Some(NCB)
    else if code == 3 then Some(NHB)
    else if code == 4 then Some(CasNPE)
    else if code == 5 then Some(CasNHB)
    else if code == 6 then Some(NFB)
    else if code == 7 then Some(CasNFB)
    else if code == 8 then Some(NFC)
    else if code == 9 then Some(NPN)
    else if code == 10 then Some(CasNPN)
    else if code == 11 then Some(NPE2)
    else if code == 12 then Some(CasNPE2)
    else if code == 13 then Some(NCBH)
    else if code == 14 then Some(NVW)
    else if code == 15 then Some(CasNVW)
    else None
  }

  /** The model tests on raw codes, as the state update applies them to the code byte. */
  predicate FineGasResolutionCode(code: int)
  {
    DeviceSortingOf(code).Some? && DeviceSortingOf(code).value.HasFineGasResolution()
  }

  predicate ScaledModelCode(code: int)
  {
    DeviceSortingOf(code).Some? && DeviceSortingOf(code).value.IsScaledModel()
  }

  predicate CascadeCode(code: int)
  {
    DeviceSortingOf(code).Some? && DeviceSortingOf(code).value.IsCascade()
  }

  /** The model lists on codes: {6, 8, 13, 14}; every model but 0, 3 and 5; the CAS_ models 4, 5, 7, 10, 12, 15. */
  lemma ModelCodeSets(code: int)
    ensures FineGasResolutionCode(code) <==> code in {6, 8, 13, 14}
    ensures ScaledModelCode(code) <==> 0 <= code <= 15 && code !in {0, 3, 5}
    ensures CascadeCode(code) <==> code in {4, 5, 7, 10, 12, 15}
    ensures CascadeCode(code) && ScaledModelCode(code) <==> code in {4, 7, 10, 12, 15}
  {
  }

  /** The temperature-unit flag of a channel. */
  datatype TemperatureType = UnknownUnit | Celsius | Fahrenheit
  {
    function Code(): int
    {
      match this
      case UnknownUnit => 0
      case Celsius => 1
      case Fahrenheit => 2
    }
  }

  /** The on-demand ("hot button") status; the only tri-state flag. */
  datatype OnDemandFlag = UnknownOnDemand | OnDemandOn | OnDemandOff | Warmup
  {
    function Code(): int
    {
      match this
      case UnknownOnDemand => 0
      case OnDemandOn => 1
      case OnDemandOff => 2
      case Warmup => 3
    }
  }

  function OnDemandFlagOf(code: int): (r: Option<OnDemandFlag>)
    ensures r.Some? <==> 0 <= code <= 3
    ensures r.Some? ==> r.value.Code() == code
  {
    if code == 0 then Some(UnknownOnDemand)
    else if code == 1 then Some(OnDemandOn)
    else if code == 2 then Some(OnDemandOff)
    else if code == 3 then Some(Warmup)
    else None
  }

  /** Power, weekly-control and schedule entry states. */
  datatype OnOffFlag = UnknownOnOff | On | Off
  {
    function Code(): int
    {
      match this
      case UnknownOnOff => 0
      case On => 1
      case Off => 2
    }
  }

  function OnOffFlagOf(code: int): (r: Option<OnOffFlag>)
    ensures r.Some? <==> 0 <= code <= 2
    ensures r.Some? ==> r.value.Code() == code
  {
    if code == 0 then Some(UnknownOnOff)
    else if code == 1 then Some(On)
    else if code == 2 then Some(Off)
    else None
  }

  /** Whether a request only asks for information or changes something. */
  datatype ControlSorting = Info | Control
  {
    function Code(): int
    {
      match this
      case Info => 1
      case Control => 2
    }
  }

  /** What a control request changes. */
  datatype DeviceControl = Power | Heat | WaterTemperature | HeatingWaterTemperature | OnDemand | Weekly | RecirculationTemperature
  {
    function Code(): int
    {
      match this
      case Power => 1
      case Heat => 2
      case WaterTemperature => 3
      case HeatingWaterTemperature => 4
      case OnDemand => 5
      case Weekly => 6
      case RecirculationTemperature => 7
    }
  }
}
