/**
 * Parameter rules of the HC-12 radio module: the operating modes, the UART and
 * over-the-air baud rates, the channel, the transmission power, the parameter
 * set tagged with a mode, and the fixed AT lines the driver sends and expects.
 */
module Config {
  import opened Ascii
  import opened Errors

  /** The operating modes. The driver makes each a marker type that tags `Parameters`. */
  datatype Mode = Fu1 | Fu2 | Fu3 | Fu4 {
    /** Fu1, Fu2 and Fu3 have baud-rate rules; Fu4 has none, so it cannot set or derive a baud rate. */
    predicate HasBaudRateRules() {
      !Fu4?
    }

    /** The mode's numeral, as in its name. */
    function Number(): (n: nat)
      ensures 1 <= n <= 4
    {
      match this
      case Fu1 => 1
      case Fu2 => 2
      case Fu3 => 3
      case Fu4 => 4
    }
  }

  /** The UART baud rates the module supports, slowest first. */
  datatype BaudRate =
    | Bps1200 | Bps2400 | Bps4800 | Bps9600
    | Bps19200 | Bps38400 | Bps57600 | Bps115200
  {
    /** Bits per second. */
    function Bps(): nat {
      match this
      case Bps1200 => 1200
      case Bps2400 => 2400
      case Bps4800 => 4800
      case Bps9600 => 9600
      case Bps19200 => 19200
      case Bps38400 => 38400
      case Bps57600 => 57600
      case Bps115200 => 115200
    }

    /** Position in declaration order, slowest first. */
    function Rank(): (k: nat)
      ensures k < 8
    {
      match this
      case Bps1200 => 0
      case Bps2400 => 1
      case Bps4800 => 2
      case Bps9600 => 3
      case Bps19200 => 4
      case Bps38400 => 5
      case Bps57600 => 6
      case Bps115200 => 7
    }
  }

  /** The declaration order of the baud rates is the order of their speeds. */
  lemma BaudRateRankOrdersSpeed(a: BaudRate, b: BaudRate)
    ensures a.Rank() < b.Rank() <==> a.Bps() < b.Bps()
    ensures a.Rank() == b.Rank() <==> a == b
  {
  }

  /** The default UART rate. */
  function DefaultBaudRate(): (rate: BaudRate)
    ensures rate.Bps() == 9600
  {
    Bps9600
  }

  /** The over-the-air data rates, slowest first. */
  datatype AirBaudRate = Bps5000 | Bps15000 | Bps58000 | Bps236000 | Bps250000 {
    /** Bits per second over the air. */
    function Bps(): nat {
      match this
      case Bps5000 => 5000
      case Bps15000 => 15000
      case Bps58000 => 58000
      case Bps236000 => 236000
      case Bps250000 => 250000
    }
  }

  /** Whether `Parameters` tagged with `mode` accept `rate`: only Fu2 restricts it. */
  function BaudRateAllowed(mode: Mode, rate: BaudRate): (ok: bool)
    requires mode.HasBaudRateRules()
    ensures ok <==> (mode == Fu2 ==> rate.Bps() <= 4800)
  {
    match mode
    case Fu1 => true
    case Fu2 => rate in {Bps1200, Bps2400, Bps4800}
    case Fu3 => true
  }

  /** The air-rate tiers of Fu3: each serves two neighbouring UART rates. */
  const Fu3Tiers: seq<AirBaudRate> := [Bps5000, Bps15000, Bps58000, Bps236000]

  /**
   * The air rate `Parameters` tagged with `mode` use at UART rate `rate`
   * (`get_air_baud_rate`): fixed for Fu1 and Fu2, a table for Fu3.
   */
  function AirBaudRateFor(mode: Mode, rate: BaudRate): (air: AirBaudRate)
    requires mode.HasBaudRateRules()
    ensures mode != Fu3 ==> air == Bps250000
    ensures mode == Fu3 ==> air == Fu3Tiers[rate.Rank() / 2]
    ensures air.Bps() > rate.Bps()
  {
    match mode
    case Fu1 => Bps250000
    case Fu2 => Bps250000
    case Fu3 =>
      match rate
      case Bps1200 => Bps5000
      case Bps2400 => Bps5000
      case Bps4800 => Bps15000
      case Bps9600 => Bps15000
      case Bps19200 => Bps58000
      case Bps38400 => Bps58000
      case Bps57600 => Bps236000
      case Bps115200 => Bps236000
  }

  /** In Fu3 a faster UART never gets a slower air rate. */
  lemma Fu3AirRateMonotone(a: BaudRate, b: BaudRate)
    requires a.Bps() <= b.Bps()
    ensures AirBaudRateFor(Fu3, a).Bps() <= AirBaudRateFor(Fu3, b).Bps()
  {
  }

  /**
   * The 250000 bps sensitivity is not a datasheet figure: it is extrapolated
   * from the 236000 bps one.
   */
  predicate SensitivityIsExtrapolated(air: AirBaudRate) {
    air == Bps250000
  }

  /** Receiver sensitivity in dBm at an air rate (`get_wireless_sensitivity_dbm`). */
  function WirelessSensitivityDbm(air: AirBaudRate): (dbm: int)
    ensures -117 <= dbm <= -100
  {
    match air
    case Bps5000 => -117
    case Bps15000 => -117
    case Bps58000 => -112
    case Bps236000 => -100
    case Bps250000 => -100
  }

  /**
   * A faster air rate never makes the receiver more sensitive: its threshold in
   * dBm never drops. The extrapolated entry repeats its slower neighbour's figure.
   */
  lemma SensitivityWorsensWithAirRate(a: AirBaudRate, b: AirBaudRate)
    requires a.Bps() <= b.Bps()
    ensures WirelessSensitivityDbm(a) <= WirelessSensitivityDbm(b)
    ensures SensitivityIsExtrapolated(b) ==> WirelessSensitivityDbm(b) == WirelessSensitivityDbm(Bps236000)
  {
  }

  /** The channel codes the module accepts. */
  predicate IsChannelCode(code: int) {
    1 <= code <= 127
  }

  /** Why `set_channel` refused: the rejected code. */
  datatype ChannelError = InvalidChannel(channel: U8)

  /** The conversion of a channel error into the crate-wide error (`From<ChannelError>`). */
  function ChannelErrorToError(e: ChannelError): (r: Error)
    ensures r.InvalidChannel? && r.channel == e.channel
  {
    match e
    case InvalidChannel(ch) => Error.InvalidChannel(ch)
  }

  /** No two channel errors become the same crate error. */
  lemma ChannelErrorConversionKeepsCode(e: ChannelError, f: ChannelError)
    ensures ChannelErrorToError(e) == ChannelErrorToError(f) ==> e == f
  {
  }

  /**
   * Carrier frequency of a channel in tenths of MHz: 433.0 MHz plus 0.4 MHz per
   * channel step. The driver computes it in `f32` MHz.
   */
  function FrequencyDeciMhz(code: U8): (f: nat)
    ensures 4330 <= f && (f - 4330) % 4 == 0 && (f - 4330) / 4 == code
  {
    4330 + 4 * code
  }

  /** Valid channels lie in 433.4..483.8 MHz, 0.4 MHz apart and in channel order. */
  lemma FrequencyBand(a: U8, b: U8)
    requires IsChannelCode(a) && IsChannelCode(b)
    ensures 4334 <= FrequencyDeciMhz(a) <= 4838
    ensures a < b <==> FrequencyDeciMhz(a) < FrequencyDeciMhz(b)
    ensures FrequencyDeciMhz(b) - FrequencyDeciMhz(a) == 4 * (b - a)
  {
  }

  /** The frequencies the driver's tests pin: channels 1, 100 and 21. */
  lemma FrequencyExamples()
    ensures FrequencyDeciMhz(1) == 4334
    ensures FrequencyDeciMhz(100) == 4730
    ensures FrequencyDeciMhz(21) == 4414
  {
  }

  /** A radio channel, updated in place only through the validated setter. */
  class Channel {
    var code: U8

    ghost predicate Valid()
      reads this
    {
      IsChannelCode(code)
    }

    /** The tuple constructor `Channel(code)`, used inside the crate; it does not validate. */
    constructor (code: U8)
      ensures this.code == code
    {
      this.code := code;
    }

    /** `Channel::default()`: channel 1. */
    constructor Default()
      ensures Valid() && code == 1
    {
      code := 1;
    }

    /** `set_channel`: accepts 1..127; any other code is refused and the channel is left as it was. */
    method SetChannel(ch: U8) returns (r: Outcome<ChannelError>)
      modifies this
      ensures r.Ok? <==> IsChannelCode(ch)
      ensures r.Ok? ==> code == ch
      ensures r.Err? ==> r.error == ChannelError.InvalidChannel(ch) && code == old(code)
      ensures old(Valid()) || r.Ok? ==> Valid()
    {
      if ch != 0 && ch < 128 {
        code := ch;
        r := Ok;
      } else {
        r := Err(ChannelError.InvalidChannel(ch));
      }
    }
  }

  /** A transmission power code; only codes 1..8 have a table entry. */
  datatype TransmissionPower = TransmissionPower(code: U8) {
    predicate Valid() {
      1 <= code <= 8
    }

    /** Output power in dBm (`get_power_dbm`): 3 dB per code step, from -1 dBm at code 1. */
    function PowerDbm(): (dbm: int)
      requires Valid()
      ensures dbm == 3 * code - 4
    {
      if code == 1 then -1
      else if code == 2 then 2
      else if code == 3 then 5
      else if code == 4 then 8
      else if code == 5 then 11
      else if code == 6 then 14
      else if code == 7 then 17
      else 20
    }
  }

  /** A higher code always means more output power. */
  lemma PowerDbmStrictlyIncreasing(p: TransmissionPower, q: TransmissionPower)
    requires p.Valid() && q.Valid()
    ensures p.code < q.code <==> p.PowerDbm() < q.PowerDbm()
  {
  }

  /** The default power, code 8, is the strongest: 20 dBm. */
  function DefaultTransmissionPower(): (p: TransmissionPower)
    ensures p.Valid() && p.PowerDbm() == 20
    ensures forall q: TransmissionPower | q.Valid() :: q.PowerDbm() <= p.PowerDbm()
  {
    TransmissionPower(8)
  }

  /**
   * The parameter set of one module, tagged with the mode it operates in. The
   * mode never changes: another mode means another `Parameters`.
   */
  class Parameters {
    const mode: Mode
    var baudRate: BaudRate
    var channel: Channel
    var power: TransmissionPower

    /** Every field holds a value the module accepts in this mode. */
    ghost predicate Valid()
      reads this, channel
    {
      channel.Valid() && power.Valid() &&
      (mode.HasBaudRateRules() ==> BaudRateAllowed(mode, baudRate))
    }

    /** The struct literal: the fields are public, so any combination can be built. */
    constructor (mode: Mode, baudRate: BaudRate, channel: Channel, power: TransmissionPower)
      ensures this.mode == mode && this.baudRate == baudRate
      ensures this.channel == channel && this.power == power
    {
      this.mode := mode;
      this.baudRate := baudRate;
      this.channel := channel;
      this.power := power;
    }

    /** `Parameters::<Fu3>::default()`: 9600 bps, channel 1, power 8. */
    constructor DefaultFu3()
      ensures Valid() && fresh(channel)
      ensures mode == Fu3 && baudRate == DefaultBaudRate()
      ensures channel.code == 1 && power == DefaultTransmissionPower()
    {
      mode := Fu3;
      baudRate := DefaultBaudRate();
      channel := new Channel.Default();
      power := DefaultTransmissionPower();
    }

    /**
     * `set_baud_rate`: stores `rate` when the mode allows it and otherwise
     * returns `InvalidBaudRate`; the channel and the power are never touched.
     */
    method SetBaudRate(rate: BaudRate) returns (r: Outcome<Error>)
      requires mode.HasBaudRateRules()
      modifies this
      ensures r.Ok? <==> BaudRateAllowed(mode, rate)
      ensures r.Err? ==> r.error == InvalidBaudRate
      ensures baudRate == if r.Ok? then rate else old(baudRate)
      ensures channel == old(channel) && power == old(power)
      ensures unchanged(channel)
      ensures old(Valid()) ==> Valid()
    {
      match mode
      case Fu1 =>
        baudRate := rate;
        r := Ok;
      case Fu2 =>
        match rate {
          case Bps1200 | Bps2400 | Bps4800 =>
          case _ =>
            return Err(InvalidBaudRate);
        }
        baudRate := rate;
        r := Ok;
      case Fu3 =>
        baudRate := rate;
        r := Ok;
    }

    /** `get_air_baud_rate` of these parameters. */
    function AirBaudRate(): (air: AirBaudRate)
      reads this
      requires mode.HasBaudRateRules()
      ensures air.Bps() > baudRate.Bps()
    {
      AirBaudRateFor(mode, baudRate)
    }
  }

  /** The fixed AT lines of the driver, as the byte arrays it declares. */
  const OK_QUERY: string := "AT\r\n"
  const OK_RESPONSE: string := "Ok\r\n"
  const SLEEP_COMMAND: string := "AT+SLEEP\r\n"
  const REVISION_QUERY: string := "AT+V\r\n"
  const RESET_SETTINGS_COMMAND: string := "AT+DEFAULT\r\n"
  const UPDATE_COMMAND: string := "AT+UPDATE\r\n"

  /** Each fixed line is ASCII, has its declared array length and ends in CR LF. */
  lemma WireConstantsWellFormed()
    ensures IsAscii(OK_QUERY) && |OK_QUERY| == 4 && OK_QUERY[2..] == CRLF
    ensures IsAscii(OK_RESPONSE) && |OK_RESPONSE| == 4 && OK_RESPONSE[2..] == CRLF
    ensures IsAscii(SLEEP_COMMAND) && |SLEEP_COMMAND| == 10 && IsAtLine(SLEEP_COMMAND)
    ensures IsAscii(REVISION_QUERY) && |REVISION_QUERY| == 6 && IsAtLine(REVISION_QUERY)
    ensures IsAscii(RESET_SETTINGS_COMMAND) && |RESET_SETTINGS_COMMAND| == 12 && IsAtLine(RESET_SETTINGS_COMMAND)
    ensures IsAscii(UPDATE_COMMAND) && |UPDATE_COMMAND| == 11 && IsAtLine(UPDATE_COMMAND)
  {
  }
}
