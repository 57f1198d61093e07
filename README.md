# HC-12 parameter rules and AT-command encoding, in Dafny

This project models the core of a driver for the HC-12 433 MHz serial radio
module. The module is configured with ASCII "AT" lines over its UART. The
core has three parts:

- **Parameter rules** (`config.dfy`, module `Config`). There are four operating
  modes, Fu1 to Fu4. A `Parameters` set is tagged with one mode and holds a UART
  baud rate, a channel and a transmission power. The mode decides which baud
  rates the set accepts and which over-the-air rate follows from it. Fu2 accepts
  only 1200, 2400 and 4800 bps. Fu1 and Fu2 always send at 250000 bps over the
  air. Fu3 maps pairs of neighbouring UART rates to four air-rate tiers. Fu4 has
  no baud-rate rules at all. The module also holds the channel (codes 1..127,
  validated on update), the power table (codes 1..8, -1 to 20 dBm), the receiver
  sensitivity per air rate, and the fixed AT lines the driver sends
  (`AT\r\n`, `AT+SLEEP\r\n`, ...).
- **Set commands** (`command.dfy`, module `Command`). Each parameter is written
  from offset 0 into the caller's 16-byte buffer, and the byte count is
  returned: `AT+B<bps>\r\n`, `AT+C<ddd>\r\n` (three digits, zero-padded),
  `AT+FU<n>\r\n` and `AT+P<n>\r\n`.
- **Queries** (`query.dfy`, module `Query`). The transmission-power query
  overwrites a 7-byte buffer with `AT+RP\r\n`.

Supporting modules:

- `ascii.dfy` (module `Ascii`) holds the byte type `U8`, the bytes of ASCII
  text, decimal numerals and their values, zero padding, and the in-place copy
  into a buffer that every encoder uses.
- `errors.dfy` (module `Errors`) holds the driver's `Error` enum and the
  `Outcome` of a setter (Rust's `Result<(), E>`).

How the Rust is modelled:

- The mode marker types become the datatype `Mode`. `Parameters` carries it as
  an immutable `const mode`.
- The trait impl per marker becomes the dispatch functions `BaudRateAllowed`
  and `AirBaudRateFor`.
- A method that exists only for Fu1 to Fu3 requires `mode.HasBaudRateRules()`.
- `Channel` and `Parameters` are updated in place by the source, so they are
  classes. Their setters have `modifies this` and keep an invariant, `Valid()`.
- `TransmissionPower` has no setter, so it is a value datatype.
- Command and query text is specified as strings. The encoders write the
  matching bytes into an `array<U8>`: `AT+` and the name, then the value,
  then CR LF. The channel encoder computes its three digits by division by
  100 and 10, and a lemma ties them to the zero-padded decimal numeral.

The encoder bodies are not visible, so the tested renderings come from the
tests (`src/command/test.rs`). The rendering of the untested values follows
the same pattern and is this model's assumption (see "## Left out"). The
method bodies are this model's own. Two facts about the source shape the
model:

- Sensitivity in dBm rises from -117 to -100 as the air rate rises
  (src/config/mod.rs:65-69). The receiver gets less sensitive, so the number
  never decreases.
- The 250000 bps sensitivity entry repeats the 236000 bps figure
  (src/config/mod.rs:69). The source marks it as an extrapolation, and
  `SensitivityIsExtrapolated` flags it.

## Model

| member | source | states |
|---|---|---|
| `Config.BaudRateAllowed` | src/config/mod.rs:17-36 | Fu1 and Fu3 accept every rate; Fu2 accepts exactly the rates of at most 4800 bps (1200, 2400, 4800) |
| `Config.Parameters.SetBaudRate` | src/config/mod.rs:17-47 | succeeds iff the mode allows the rate and then stores it; otherwise returns `InvalidBaudRate` and keeps the old rate; channel and power are never touched; keeps `Valid()` |
| `Config.AirBaudRateFor` | src/config/mod.rs:23-60 | Fu1 and Fu2 give 250000 bps whatever the rate; Fu3 gives tier `rank/2` of 5000, 15000, 58000, 236000 (so 1200/2400, 4800/9600, 19200/38400, 57600/115200 share a tier); the air rate always exceeds the UART rate |
| `Config.Parameters.AirBaudRate` | src/config/mod.rs:9 | the air rate of a parameter set exceeds its UART rate |
| `Config.Fu3AirRateMonotone` | src/config/mod.rs:49-60 | in Fu3 a faster UART rate never gets a slower air rate |
| `Config.BaudRateRankOrdersSpeed` | src/config/mod.rs:109-119 | the declaration order of the baud rates is the order of their speeds, and distinct rates have distinct ranks |
| `Config.DefaultBaudRate` | src/config/mod.rs:130-134 | the default UART rate is 9600 bps |
| `Config.WirelessSensitivityDbm` | src/config/mod.rs:63-71 | sensitivity lies between -117 and -100 dBm |
| `Config.SensitivityWorsensWithAirRate` | src/config/mod.rs:63-71 | a faster air rate never gives a lower (better) dBm threshold; the extrapolated 250000 bps entry equals the 236000 bps one |
| `Config.ChannelErrorToError` | src/config/mod.rs:77-83 | `From<ChannelError>` turns a rejected channel into the crate error `InvalidChannel` carrying the same code |
| `Config.ChannelErrorConversionKeepsCode` | src/config/mod.rs:77-83 | the conversion is injective: distinct channel errors become distinct crate errors |
| `Config.Channel.constructor` | src/config/mod.rs:86 | the tuple constructor stores the code as given |
| `Config.Channel.Default` | src/config/mod.rs:88-92 | the default channel is 1 and valid |
| `Config.Channel.SetChannel` | src/config/mod.rs:99-106 | succeeds iff 1 <= ch <= 127 and then stores ch; otherwise returns `InvalidChannel(ch)` with the same code and leaves the channel unchanged; a valid channel stays valid |
| `Config.FrequencyDeciMhz` | src/config/mod.rs:95-97 | the carrier is 433.0 MHz plus 0.4 MHz per channel step (in tenths of MHz), so the channel code can be read back from the frequency |
| `Config.FrequencyBand` | src/config/mod.rs:95-97 | valid channels lie in 433.4..483.8 MHz, in channel order, 0.4 MHz per channel step (in tenths of MHz) |
| `Config.FrequencyExamples` | src/config/mod.rs:205-221 | channels 1, 100 and 21 are at 433.4, 473.0 and 441.4 MHz |
| `Config.TransmissionPower.PowerDbm` | src/config/mod.rs:146-158 | for codes 1..8 the table equals 3·code − 4 dBm |
| `Config.PowerDbmStrictlyIncreasing` | src/config/mod.rs:146-158 | a higher code gives strictly more dBm, and conversely |
| `Config.DefaultTransmissionPower` | src/config/mod.rs:139-143 | the default power is valid, 20 dBm, and no valid code gives more |
| `Config.Parameters.constructor` | src/config/mod.rs:175-181 | the struct literal stores the mode and the three fields as given |
| `Config.Parameters.DefaultFu3` | src/config/mod.rs:183-192 | the Fu3 default is 9600 bps, channel 1 and power 8, and satisfies `Valid()` |
| `Config.WireConstantsWellFormed` | src/config/mod.rs:194-199 | each fixed line has its declared array length (4, 4, 10, 6, 12, 11), is ASCII and ends in CR LF; the sleep, revision, reset and update lines start with `AT+` |
| `Ascii.CopyInto` | hc12-at/src/settings/query/transmission_power.rs:7 | `copy_from_slice`: the bytes land at the given offset in order, and every other byte of the buffer keeps its old value |
| `Ascii.ValueOfDecimal` | src/command/test.rs:13 | reading back the decimal numeral of n gives n |
| `Ascii.ValueOfZeroPad` | src/command/test.rs:23 | zero padding (`{:0width$}`) keeps a numeral's value |
| `Ascii.ThreeDigits` | src/command/test.rs:23 | below 1000 the three-digit padded numeral is hundreds, tens and units |
| `Command.SetCommandLine` | src/command/test.rs:8-43 | every set line is `AT+`, the parameter name, the value, CR LF: name and value sit at fixed offsets and the length is theirs plus 5 |
| `Command.BaudRateCommand` | src/command/test.rs:9-14 | the baud-rate line is ASCII, starts with `AT+B`, then digits, ends in CR LF, and has 10 to 12 bytes, within the 16-byte buffer |
| `Command.BaudRateCommandRoundTrip` | src/command/test.rs:9-14 | the digits of the baud-rate line read back as the rate and have no leading zero |
| `Command.BaudRateCommandExample` | src/command/test.rs:9-14 | 115200 bps renders exactly `AT+B115200\r\n` (12 bytes) |
| `Command.MakeBaudRateCommand` | src/command/test.rs:9-14 | writes the baud-rate line from offset 0, returns its length, and leaves the rest of the buffer as it was |
| `Command.ChannelCommand` | src/command/test.rs:16-27 | the channel line is 9 ASCII bytes: `AT+C`, three digits, CR LF |
| `Command.ChannelCommandDigits` | src/command/test.rs:19-26 | the three digits are the channel's hundreds, tens and units, for every channel 1..127 |
| `Command.ChannelCommandRoundTrip` | src/command/test.rs:19-26 | the digits at offsets 4..6 read back as the channel code |
| `Command.ChannelCommandInjective` | src/command/test.rs:19-26 | distinct channels render distinct lines |
| `Command.ChannelCommandExamples` | src/command/test.rs:19-26 | channel 1 renders `AT+C001\r\n` and channel 127 renders `AT+C127\r\n` |
| `Command.MakeChannelCommand` | src/command/test.rs:16-27 | writes the channel line from offset 0 whatever the buffer held, returns 9, and leaves bytes 9..15 as they were |
| `Command.ModeCommand` | src/command/test.rs:29-35 | the mode line is 8 ASCII bytes: `AT+FU`, the mode's numeral, CR LF |
| `Command.ModeCommandInjective` | src/command/test.rs:29-35 | distinct modes render distinct lines |
| `Command.MakeModeCommand` | src/command/test.rs:29-35 | writes the mode line from offset 0, returns 8, and leaves the rest of the buffer as it was |
| `Command.TransmissionPowerCommand` | src/command/test.rs:37-43 | the power line is 7 ASCII bytes: `AT+P`, the code as one digit, CR LF |
| `Command.ModeAndPowerCommandExamples` | src/command/test.rs:29-43 | mode Fu1 renders `AT+FU1\r\n` (8 bytes) and power 8 renders `AT+P8\r\n` (7 bytes) |
| `Command.MakeTransmissionPowerCommand` | src/command/test.rs:37-43 | writes the power line from offset 0, returns 7, and leaves the rest of the buffer as it was |
| `Query.TransmissionPowerQuery` | hc12-at/src/settings/query/transmission_power.rs:7 | the power query is 7 ASCII bytes, starts with `AT+`, then `RP`, ends in CR LF |
| `Query.MakeTransmissionPowerQuery` | hc12-at/src/settings/query/transmission_power.rs:5-8 | the whole 7-byte buffer ends up equal to `AT+RP\r\n`. The result does not depend on the buffer's prior contents, and no power value is involved, so a second call changes nothing |

## Left out

- `get_freq_mhz` computes in `f32`. The model gives the frequency as an integer in tenths of MHz (`FrequencyDeciMhz`, 4330 + 4·code) and does not model the floating-point rounding.
- `get_power_milliwatt` is an `f32` table and is not modelled.
- The `at_commands` command builder is a library whose code is not part of this model. The real `make_command` bodies and the `parameter::*` types they belong to are not part of this model either. The tested renderings come from the tests, and the encoder bodies are this model's own.
- The `hc12` driver module (UART reads and writes, delays, entering and leaving config and sleep mode) is not part of this model. Its `Read` and `Write` errors appear only as constructors of `Error`.
- Fu4 has no baud-rate rules in the source. `SetBaudRate` and `AirBaudRate` require a mode other than Fu4, and no rule for Fu4 is invented.
- The `unreachable!()` arm of `get_power_dbm` becomes the precondition `Valid()` (codes 1..8).
- `Command.MakeChannelCommand` requires a channel in 1..127, because the test pins the rendering of those codes only (src/command/test.rs:19-26). The source's `Channel(u8)` itself does not validate, and the rendering of 0 or of codes from 128 on is not modelled.
- `Command.BaudRateCommand` extends the one tested line, `AT+B115200\r\n` (src/command/test.rs:13), to all eight rates by the same pattern. The rendering of the other seven rates is this model's assumption.
- `Command.ModeCommand` extends the one tested line, `AT+FU1\r\n` (src/command/test.rs:34), to Fu2, Fu3 and Fu4 by the same pattern. The rendering of those three modes is this model's assumption.
- `Command.TransmissionPowerCommand` extends the one tested line, `AT+P8\r\n` (src/command/test.rs:42), to power codes 1 to 7 by the same pattern. The rendering of those codes is this model's assumption.
- `Command.MakeTransmissionPowerCommand` requires a power code in 1..8, the `TransmissionPower` domain.
- The `MakeCommand` trait's signature is not visible. Every encoder takes a buffer of exactly 16 bytes, the size the tests use.
- The test that renders every channel 1..127 into one reused buffer is covered by a lemma over all channels. The encoder's result does not depend on what the buffer held before.
- `Config.Parameters` owns its `Channel` by value in the source (src/config/mod.rs:178). In the model the `channel` field is a reference, so two parameter sets could share one channel. No contract relies on sharing, but ownership and freedom from aliasing are not captured.
- Rust's `i8` and `i32` results (dBm) are modelled as `int`. All of their values fit those widths.
