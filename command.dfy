/**
 * Set commands: each parameter rendered as the AT line that sets it, written
 * from offset 0 into a caller's 16-byte buffer, with the byte count returned.
 */
module Command {
  import opened Ascii
  import opened Config

  /** Capacity of the caller's command buffer. */
  const BufferSize: nat := 16

  /** The line that sets parameter `name` to `value`: `AT+<name><value>\r\n`. */
  function SetCommandLine(name: string, value: string): (line: string)
    ensures |line| == |name| + |value| + 5 && IsAtLine(line)
    ensures line[3..3 + |name|] == name && line[3 + |name|..|line| - 2] == value
    ensures IsAscii(name) && IsAscii(value) ==> IsAscii(line)
  {
    "AT+" + name + value + CRLF
  }

  /** Baud rate: `AT+B` and the rate in decimal without leading zeros. */
  function BaudRateCommand(rate: BaudRate): (cmd: string)
    ensures IsAscii(cmd) && IsAtLine(cmd) && 10 <= |cmd| <= 12 <= BufferSize
    ensures cmd[..4] == "AT+B" && AllDigits(cmd[4..|cmd| - 2])
  {
    DecimalLength(rate.Bps(), 6);
    DecimalLengthAtLeast(rate.Bps(), 3);
    SetCommandLine("B", Decimal(rate.Bps()))
  }

  /** The digits of a baud-rate command read back as the rate, with no leading zero. */
  lemma BaudRateCommandRoundTrip(rate: BaudRate)
    ensures var cmd := BaudRateCommand(rate);
      ValueOf(cmd[4..|cmd| - 2]) == rate.Bps() && cmd[4] != '0'
  {
    ValueOfDecimal(rate.Bps());
  }

  /** Channel: `AT+C` and the code as exactly three digits, zero-padded (`{:03}`). */
  function ChannelCommand(code: U8): (cmd: string)
    requires IsChannelCode(code)
    ensures IsAscii(cmd) && IsAtLine(cmd) && |cmd| == 9 <= BufferSize
    ensures cmd[..4] == "AT+C" && AllDigits(cmd[4..7])
  {
    ThreeDigits(code);
    SetCommandLine("C", ZeroPad(Decimal(code), 3))
  }

  /** The three channel digits are hundreds, tens and units of the code. */
  lemma ChannelCommandDigits(code: U8)
    requires IsChannelCode(code)
    ensures ChannelCommand(code)
      == SetCommandLine("C", [DigitChar(code / 100), DigitChar(code / 10 % 10), DigitChar(code % 10)])
  {
    ThreeDigits(code);
  }

  /** The three channel digits read back as the channel code. */
  lemma ChannelCommandRoundTrip(code: U8)
    requires IsChannelCode(code)
    ensures ValueOf(ChannelCommand(code)[4..7]) == code
  {
    ThreeDigits(code);
    ValueOfZeroPad(Decimal(code), 3);
    ValueOfDecimal(code);
  }

  /** Distinct channels have distinct commands. */
  lemma ChannelCommandInjective(a: U8, b: U8)
    requires IsChannelCode(a) && IsChannelCode(b)
    ensures ChannelCommand(a) == ChannelCommand(b) ==> a == b
  {
    ChannelCommandRoundTrip(a);
    ChannelCommandRoundTrip(b);
  }

  /** Mode: `AT+FU` and the mode's numeral. */
  function ModeCommand(mode: Mode): (cmd: string)
    ensures IsAscii(cmd) && IsAtLine(cmd) && |cmd| == 8 <= BufferSize
    ensures cmd[..5] == "AT+FU" && IsDigit(cmd[5]) && DigitValue(cmd[5]) == mode.Number()
  {
    SetCommandLine("FU", [DigitChar(mode.Number())])
  }

  /** Distinct modes have distinct commands. */
  lemma ModeCommandInjective(a: Mode, b: Mode)
    ensures ModeCommand(a) == ModeCommand(b) ==> a == b
  {
  }

  /** Transmission power: `AT+P` and the code, a single digit. */
  function TransmissionPowerCommand(power: TransmissionPower): (cmd: string)
    requires power.Valid()
    ensures IsAscii(cmd) && IsAtLine(cmd) && |cmd| == 7 <= BufferSize
    ensures cmd[..4] == "AT+P" && IsDigit(cmd[4]) && DigitValue(cmd[4]) == power.code
  {
    SetCommandLine("P", [DigitChar(power.code)])
  }

  /** The baud-rate line the driver's test pins: 12 bytes for 115200 bps. */
  lemma BaudRateCommandExample()
    ensures BaudRateCommand(Bps115200) == "AT+B115200\r\n"
  {
  }

  /** The first and last channel lines of the driver's test over all channels. */
  lemma ChannelCommandExamples()
    ensures ChannelCommand(1) == "AT+C001\r\n"
    ensures ChannelCommand(127) == "AT+C127\r\n"
  {
  }

  /** The mode and power lines the driver's tests pin: 8 and 7 bytes. */
  lemma ModeAndPowerCommandExamples()
    ensures ModeCommand(Fu1) == "AT+FU1\r\n"
    ensures TransmissionPowerCommand(TransmissionPower(8)) == "AT+P8\r\n"
  {
  }

  /** `buffer` holds `cmd` from offset 0 and, past it, what `before` held. */
  ghost predicate Rendered(buffer: seq<U8>, before: seq<U8>, cmd: string)
    requires IsAscii(cmd)
  {
    |cmd| <= |buffer| == |before| &&
    buffer[..|cmd|] == Bytes(cmd) && buffer[|cmd|..] == before[|cmd|..]
  }

  /**
   * Writes the set command of `name` and `value` from offset 0: `AT+`, the
   * name, the value and CR LF. Returns the number of bytes written.
   */
  method WriteSetCommand(buffer: array<U8>, name: string, value: string) returns (n: nat)
    requires IsAscii(name) && IsAscii(value) && |name| + |value| + 5 <= buffer.Length
    modifies buffer
    ensures n == |SetCommandLine(name, value)|
    ensures Rendered(buffer[..], old(buffer[..]), SetCommandLine(name, value))
  {
    ghost var before := buffer[..];
    var line := Bytes(SetCommandLine(name, value));
    CopyInto(buffer, 0, line);
    n := |line|;
    assert buffer[..n] == line;
    assert buffer[..][n..] == before[n..];
  }

  /** `make_command` of a baud rate. */
  method MakeBaudRateCommand(rate: BaudRate, buffer: array<U8>) returns (n: nat)
    requires buffer.Length == BufferSize
    modifies buffer
    ensures n == |BaudRateCommand(rate)|
    ensures Rendered(buffer[..], old(buffer[..]), BaudRateCommand(rate))
  {
    DecimalLength(rate.Bps(), 6);
    n := WriteSetCommand(buffer, "B", Decimal(rate.Bps()));
  }

  /** `make_command` of a channel: the digits come from division by 100 and 10. */
  method MakeChannelCommand(code: U8, buffer: array<U8>) returns (n: nat)
    requires IsChannelCode(code) && buffer.Length == BufferSize
    modifies buffer
    ensures n == 9
    ensures Rendered(buffer[..], old(buffer[..]), ChannelCommand(code))
  {
    ChannelCommandDigits(code);
    n := WriteSetCommand(buffer, "C", [DigitChar(code / 100), DigitChar(code / 10 % 10), DigitChar(code % 10)]);
  }

  /** `make_command` of a mode. */
  method MakeModeCommand(mode: Mode, buffer: array<U8>) returns (n: nat)
    requires buffer.Length == BufferSize
    modifies buffer
    ensures n == 8
    ensures Rendered(buffer[..], old(buffer[..]), ModeCommand(mode))
  {
    n := WriteSetCommand(buffer, "FU", [DigitChar(mode.Number())]);
  }

  /** `make_command` of a transmission power. */
  method MakeTransmissionPowerCommand(power: TransmissionPower, buffer: array<U8>) returns (n: nat)
    requires power.Valid() && buffer.Length == BufferSize
    modifies buffer
    ensures n == 7
    ensures Rendered(buffer[..], old(buffer[..]), TransmissionPowerCommand(power))
  {
    n := WriteSetCommand(buffer, "P", [DigitChar(power.code)]);
  }
}
