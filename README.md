# Measuring station core: dimension sensor, scale probe and log rendering

This project models, in Dafny, the device-facing core of a measuring station. The station has two
serial devices:

- a dimension sensor on a microcontroller, which answers with 4-byte frames
  `[0x2D, sensor id, value, 0x7B]`;
- a scale, which answers a poll with a 5-byte weight reply and may sit on any of several ports
  and link configurations.

The model covers three Go files.

- `devices/arduino.go`, modules `DimensionCodec` and `Arduino`.
  - The pattern search `findValidDataPattern` and the frame parser `parseDimensionsData`.
  - The part of `GetDimensionsFromArduino` that decides on the reply.
  - The command dispatcher `ExecuteArduinoCommand`, with its argument checks and the ping
    classification.
  - `SendCommandToArduino` and the `flush` helper.
- `devices/scale.go`, modules `ScaleProbe` and `ScaleDiscovery`.
  - The weight decoder of `ReadWeight`.
  - The liveness probe with its reply loop and classifier.
  - The ordered walk over the four link configurations and the retry wrapper.
  - The common-port lists and the `COM` filter.
  - The result collector of `connectToScaleParallel`, as a fold over a given arrival order.
- `utils/utils.go`, module `LogFormat`: `FormatDataForLog`, `DecodeArduinoSensorData`,
  `decodeSensorID` and `BoolToString`.

Support modules:

- `Wrappers`: `Option` and `Result`.
- `Bytes`: bytes and the `%d` and `%02X` renderings.
- `Strings`: `strconv.Atoi`, `strings.Split`/`Join`, and prefix and suffix tests.
- `Config`: the opcodes of `config/config.go:4-12`, with the scale's 0x4A and 0x48.
- `Serial`: the port.

The port is a `PortState` value plus a class `Serial.Port` whose methods update it in place:

- writes are appended to `written`;
- reads are answered from a script of read results, each carrying bytes and no error, a timeout
  or another fault;
- open calls succeed or fail by a script and are recorded in `attempts`.

Every loop of the source is a `method` with a `while` loop, except the per-byte hex loop inside
each block of `DecodeArduinoSensorData` (`utils/utils.go:122-124`). That loop is the function
`LogFormat.HexItems`, which the block loop of `LogFormat.DecodeArduinoSensorData` calls. Each
method is proved equal to a function over port states or values, and the properties are lemmas
about those functions.

Only three timed loops become a number of reads: the 600 ms dimension window, the 700 ms ping
window and the 10-turn reply loop of the scale probe. Plain waits are dropped; "## Left out"
lists them.

### Edge cases of the reply handling

- **No 8-frame run.** A buffer of 41 or more bytes with no run of 8 frames is still parsed
  whole. In that case `findValidDataPattern` returns the whole buffer, and the check at
  `devices/arduino.go:115` never rejects for 41 bytes or more:
  - `DimensionCodec.SecondCheckNeverRejects` proves this;
  - `DimensionCodec.NoRunStillParsed` exhibits a 41-byte buffer with no run that decodes to
    (7, 5, 6).
- **Single-byte replies.** A single-byte reply is never accepted, even with a valid first byte.
  The probe accepts only once at least two bytes are in (`devices/scale.go:371`), as
  `ScaleProbe.ShortReplyRejected` states.

### Dead branches in the code

- In `FormatDataForLog`, the `result = decodedData` branch (`utils/utils.go:82-84`) cannot run:
  - a frame starts with the printable byte 0x2D, so decoding implies a quoted text part
    (`LogFormat.FrameMeansText`);
  - the model asserts that branch unreachable.
- The check `i+4 <= len(data)` (`utils/utils.go:72`) always holds.
- The "could not decode" text of `DecodeArduinoSensorData` (`utils/utils.go:134`) is never
  returned (`LogFormat.SensorTextCases`).
- The frame-marker test at `utils/utils.go:49` cannot match 0x2D or 0x7B, because both are
  printable. Only the neighbour conditions can set a byte aside.
- A backslash in the data is copied as it is, so the text part is ambiguous on such data
  (`LogFormat.BackslashAmbiguous`). Without backslashes it reads back exactly
  (`LogFormat.EscapeRoundTrip`).

## Model

| member | source | states |
|---|---|---|
| Bytes.Decimal | devices/scale.go:44 | `%d` of a natural number is a non-empty string of digits, with two or more digits exactly when the number is at least 10 |
| Bytes.DecimalRoundTrip | devices/scale.go:44 | reading the digits of `%d` back gives the number |
| Bytes.DecimalInjective | devices/scale.go:44 | different numbers print differently |
| Bytes.Hex2RoundTrip | utils/utils.go:92 | `%02X` loses nothing: the two upper-case digits parse back to the byte |
| Bytes.Hex2Injective | utils/utils.go:92 | different bytes print differently under `%02X` |
| Strings.Atoi | devices/arduino.go:204 | a value is returned only within the 64-bit range; the empty text is an error |
| Strings.AtoiDecimal | devices/arduino.go:204 | `Atoi` reads back the decimal rendering of any value up to 2^63-1 |
| Strings.AtoiRejectsNonDigit | devices/arduino.go:204-205 | any non-digit makes the conversion fail, except a leading `-` or `+` |
| Strings.AtoiBareSign | devices/arduino.go:204-205 | a lone `-` or `+` is an error |
| Strings.AtoiNegative | devices/arduino.go:204-205 | `-n` reads back as the negative value, down to -2^63, so `set_top_max:-5` reaches the range check as -5 |
| Strings.AtoiPlus | devices/arduino.go:204-205 | a leading `+` is accepted, so `set_top_max:+50` gives 50 |
| Strings.AtoiRejectsHuge | devices/arduino.go:204-205 | a number beyond 64 bits is an error, not a value |
| Strings.Split | devices/arduino.go:127 | at least one piece; the pieces joined by the separator give the command back; no piece contains the separator |
| Strings.SplitHead | devices/arduino.go:127-128 | the command name is the whole text without `:`, otherwise the text before the first `:`, and then there are at least two pieces |
| Strings.SplitSecond | devices/arduino.go:204 | the argument is the text between the first `:` and the next one or the end |
| Strings.SplitAtOne | devices/arduino.go:127 | `a:b`, with neither part containing `:`, splits into exactly `[a, b]` |
| Serial.ReadOn | devices/arduino.go:93-94 | a read changes only the pending input, delivers at most the buffer size, and on a silent line delivers nothing without error |
| Serial.ReadConserves | devices/arduino.go:93-96 | a read loses and invents nothing: delivered bytes followed by the pending bytes are the bytes pending before |
| Serial.OpenOn | devices/scale.go:254-258 | an open succeeds exactly on a closed port whose next scripted outcome is success; every call is recorded in order; written and pending data are untouched |
| Serial.Flushed | devices/arduino.go:239-249 | draining changes only the pending input |
| Serial.FlushDiscardsCleanInput | devices/arduino.go:242-247 | on a line that only delivers data without error, the flush leaves nothing pending |
| Serial.FlushKeepsSuffix | devices/arduino.go:242-247 | what a flush leaves is a suffix of the input that was pending |
| Serial.Flush | devices/arduino.go:239-249 | the read-until-empty-or-error loop leaves the port as `Flushed` says |
| DimensionCodec.RunFrom | devices/arduino.go:255-262 | the run counted from frame `j` is at most `10 - j` frames |
| DimensionCodec.RunFromCovers | devices/arduino.go:255-262 | the run reaches `n` frames exactly when its first `n` frames are well-formed |
| DimensionCodec.QualifiesIff | devices/arduino.go:252-266 | an offset qualifies exactly when a 41-byte window fits and frames 0..7 from it are well-formed |
| DimensionCodec.FirstQualifying | devices/arduino.go:252 | a found offset is at or after the start and leaves room for the 41-byte window |
| DimensionCodec.FirstQualifyingIsFirst | devices/arduino.go:252-270 | the offset found qualifies and no earlier one does; without one, no offset qualifies |
| DimensionCodec.FirstQualifyingFinds | devices/arduino.go:252-266 | the search stops at the first qualifying offset |
| DimensionCodec.PatternWindowCases | devices/arduino.go:251-272 | the result is the input unchanged or `data[i..i+41]` at the smallest qualifying `i` |
| DimensionCodec.PatternWindowWhenNoRun | devices/arduino.go:271 | without a qualifying offset the input comes back unchanged |
| DimensionCodec.PatternWindowAtFirst | devices/arduino.go:253-266 | at the smallest qualifying offset the window is cut there, starts with 0x2D, and frames 0..7 in it are well-formed |
| DimensionCodec.PatternWindowLength | devices/arduino.go:251-272 | input under 41 bytes is returned unchanged; longer input never gives a result under 41 bytes; any cut window has exactly 41 bytes |
| DimensionCodec.CountRun | devices/arduino.go:254-262 | the inner loop counts exactly the run of well-formed frames at the offset |
| DimensionCodec.FindValidDataPattern | devices/arduino.go:251-272 | the scan returns the pattern window |
| DimensionCodec.ParseDimensionsData | devices/arduino.go:274-304 | width is frame 7's value iff frame 7 is well-formed with id 0x0B, else 0; likewise height with frame 8 and 0x16, and length with frame 9 and 0x21 |
| DimensionCodec.DimensionsAreBytes | devices/arduino.go:286 | every dimension is at most 255 |
| DimensionCodec.OnlyFramesSevenToNineMatter | devices/arduino.go:277-301 | buffers that agree on bytes 28..39 parse to the same dimensions |
| DimensionCodec.TrailingBytesIgnored | devices/arduino.go:277 | bytes after the tenth frame are never inspected |
| DimensionCodec.DecodeDimensions | devices/arduino.go:108-123 | the post-read decision gives the all-zero sentinel under 41 bytes, otherwise the parse of the window |
| DimensionCodec.SecondCheckNeverRejects | devices/arduino.go:114-120 | for 41 bytes or more the second length check never rejects: the result is the parse of the pattern window |
| DimensionCodec.NoRunStillParsed | devices/arduino.go:114-120 | a 41-byte buffer with no qualifying offset still parses to non-zero dimensions |
| Arduino.GatherFrom | devices/arduino.go:92-103 | a reading window changes only the pending input |
| Arduino.GatherFromLosesNothing | devices/arduino.go:92-103 | with replies that fit the buffer, arrive without error and get a read each, the window appends exactly the bytes sent, in order |
| Arduino.GatherLosesNothing | devices/arduino.go:89-103 | the window started empty gathers exactly the bytes the device sent |
| Arduino.PollWindow | devices/arduino.go:89-103 | the read-and-append loop leaves the data and the port as `Gather` says |
| Arduino.SendCommand | devices/arduino.go:74-77 | exactly the one opcode byte is written |
| Arduino.GetDimensions | devices/arduino.go:79-124 | flush, write 0x89, read the window, then decide on the bytes gathered |
| Arduino.PingClassification | devices/arduino.go:164-181 | "Нет ответа от Arduino" iff nothing arrived; "Arduino ответил: OK" iff the reply contains `OK`; otherwise the raw reply |
| Arduino.Ping | devices/arduino.go:135-181 | the ping branch flushes, writes 0x77, reads its window and classifies it |
| Arduino.CommandParts | devices/arduino.go:127-128 | the name is the text before the first `:` (all of it without one) and contains no `:`; an argument exists exactly when there is a `:` |
| Arduino.CheckLimit | devices/arduino.go:200-207 | the value passes iff present, an integer and in [1, 255]; no argument gives "Не указано значение", a bad one "Неверное значение (1-255)" |
| Arduino.CheckLimitAccepts | devices/arduino.go:204-209 | `name:n` with 1 <= n <= 255 passes with the value n |
| Arduino.CheckLimitRejectsOutOfRange | devices/arduino.go:205-206 | `name:0` and `name:n` with n above 255 are refused as invalid |
| Arduino.CheckLimitNeedsValue | devices/arduino.go:201-202 | a command without `:` is refused for a missing value |
| Arduino.SetLimit | devices/arduino.go:200-209 | opcode and value are written only after the check passes; otherwise nothing is written |
| Arduino.DispatchCases | devices/arduino.go:126-235 | simple commands write their one opcode and answer their text; threshold commands write `[opcode, value]` or nothing; ping and get_dimensions answer from their windows, with 0x89 sent twice; an unknown name writes nothing and answers "Неизвестная команда" |
| Arduino.TopMaxDispatch | devices/arduino.go:200-209 | a command named `set_top_max` writes 0x90 with its value under the height text |
| Arduino.SetTopMaxValues | devices/arduino.go:200-209 | `set_top_max:n` writes exactly `[0x90, n]` for 1 <= n <= 255 (so for 50) and otherwise nothing (so for 300) |
| Arduino.ExecuteCommand | devices/arduino.go:126-236 | the dispatcher's reply and port effect are those of `Dispatch` |
| Arduino.SimpleCommandOpcodes | config/config.go:4-12 | start, reset_sensors, led_on, led_off and the three thresholds use 0x95, 0x93, 0x66, 0x55, 0x90, 0x91, 0x92 |
| ScaleProbe.DecodeWeight | devices/scale.go:408-418 | the decoded weight never exceeds 655350 |
| ScaleProbe.UnstableReadsZero | devices/scale.go:408-410 | a status byte other than 128 reads as 0 whatever the other bytes are |
| ScaleProbe.WeightModes | devices/scale.go:411-418 | mode 0 gives `256*b3 + b2` (at most 65535), mode 4 ten times that, any other mode 0 |
| ScaleProbe.ModeFourIsTenfold | devices/scale.go:413-415 | the same magnitude weighs ten times more in mode 4 than in mode 0 |
| ScaleProbe.WeightExamples | devices/scale.go:413-415 | magnitude bytes 0x00, 0x01 weigh 256 in mode 0 and 2560 in mode 4 |
| ScaleProbe.DecodeEncodeWeight | devices/scale.go:413 | every mode-0 weight up to 65535 is decoded exactly |
| ScaleProbe.ReadWeight | devices/scale.go:396-418 | writes the request, reads once into 5 bytes, fails iff the read errs or delivers other than 5 bytes, otherwise returns the decoded weight |
| ScaleProbe.ReadWeightWritesRequest | devices/scale.go:397 | exactly the byte 0x4A is written |
| ScaleProbe.ValidFirstByteIsMask | devices/scale.go:375-376 | the eight valid first bytes are exactly those with `b & 0x8F == 0x80` |
| ScaleProbe.ShortReplyRejected | devices/scale.go:371 | a reply of fewer than two bytes is never accepted |
| ScaleProbe.PollFrom | devices/scale.go:325-359 | the reply loop changes only the pending input |
| ScaleProbe.PollBounds | devices/scale.go:325-359 | at most 10 reads; at most 10 bytes, extending what was collected; an early stop with data means 2 bytes are in |
| ScaleProbe.TimeoutsKeepPolling | devices/scale.go:342-348 | with no error other than timeouts the loop never aborts |
| ScaleProbe.FaultAborts | devices/scale.go:349 | a first read failing with another error aborts at once |
| ScaleProbe.PollStep | devices/scale.go:332-358 | one turn: stop with 2 bytes in, abort on a fault, otherwise go on with the bytes added |
| ScaleProbe.AwaitReply | devices/scale.go:322-359 | the read loop ends as `PollFrom` says |
| ScaleProbe.Probe | devices/scale.go:276-393 | the probe changes only what is written and what is pending |
| ScaleProbe.TestCommunication | devices/scale.go:276-393 | flush, write 0x48, await the reply, accept iff at least 2 bytes and a valid first byte or a second byte of 192 |
| ScaleProbe.ProbeKeepsLink | devices/scale.go:276-393 | the probe leaves the link state and the open calls alone and only appends to what was written |
| ScaleProbe.Walk | devices/scale.go:237-273 | the port is left open exactly when a configuration was accepted; that configuration is one of those tried; failure names the port |
| ScaleProbe.TryFirst | devices/scale.go:254-258 | the same for a turn that starts with an open call |
| ScaleProbe.ProbeThen | devices/scale.go:261-267 | the same for a turn on a link just opened: an accepted link is kept, a rejected one closed |
| ScaleProbe.WalkOrder | devices/scale.go:231-273 | configurations are opened in the given order; a success is the one opened last; a failure has opened all of them |
| ScaleProbe.TryFirstOrder | devices/scale.go:237-271 | the same order for a turn |
| ScaleProbe.ProbeThenOrder | devices/scale.go:261-271 | the rest of a turn opens the remaining configurations in order |
| ScaleProbe.TestPortInternal | devices/scale.go:221-274 | the loop over the four configurations ends as `Walk` over 4800-8-E-1, 9600-8-N-1, 2400-8-E-1, 9600-8-E-1 |
| ScaleProbe.RetryFrom | devices/scale.go:188-218 | the port is left open exactly when a probe connected |
| ScaleProbe.RetryOrder | devices/scale.go:188-218 | the retries open configurations walk after walk; a connection is the configuration opened last; without one, every allowed walk was made in full |
| ScaleProbe.RetryError | devices/scale.go:198-218 | a connection is one of the configurations; without one the error is the last walk's, or the initial none when no attempt was allowed |
| ScaleProbe.TestPort | devices/scale.go:185-219 | the retry loop ends as `RetryFrom` from attempt 1 with no error |
| ScaleDiscovery.ComNames | devices/scale.go:43-45 | `COM1` up to `COMn`, in order |
| ScaleDiscovery.PathsAreNotCom | devices/scale.go:48-58 | device paths never start with `COM` |
| ScaleDiscovery.CommonPorts | devices/scale.go:39-62 | Windows gives COM1..COM20 in order; no Linux or macOS name starts with `COM`; any other host gives no ports |
| ScaleDiscovery.WindowsPortsDistinct | devices/scale.go:43-45 | the twenty Windows names are pairwise distinct |
| ScaleDiscovery.CommonPortList | devices/scale.go:39-62 | the append loop builds `CommonPorts` |
| ScaleDiscovery.KeptMembers | devices/scale.go:87-94 | a name survives the filter iff it was a candidate and (on Windows, or it does not start with `COM`) |
| ScaleDiscovery.KeptAppend | devices/scale.go:87-94 | the filter keeps the order: filtering a concatenation filters each part |
| ScaleDiscovery.KeptAll | devices/scale.go:87-94 | a list whose names all pass comes through unchanged |
| ScaleDiscovery.FilterPorts | devices/scale.go:87-94 | the filter loop keeps exactly `Kept` of the names |
| ScaleDiscovery.FallbackPorts | devices/scale.go:74-98 | without enumerated ports a known host probes its common list unchanged; any other host has nothing to probe and gets the error |
| ScaleDiscovery.OnlyComNamesFail | devices/scale.go:88-98 | on a host other than Windows, a list of only `COM` names leaves nothing and is an error |
| ScaleDiscovery.ValidPorts | devices/scale.go:74-98 | port selection gives the filtered candidates, or the error when none is left |
| ScaleDiscovery.FirstConnected | devices/scale.go:151-172 | the index found connected and no earlier one did; without one, none connected |
| ScaleDiscovery.ConnectedNamesMembers | devices/scale.go:164-170 | the ports closed after the winner are exactly the later ones that connected |
| ScaleDiscovery.LastReportedIsLast | devices/scale.go:151-179 | without a connection, the error reported is that of the last arrival that had one |
| ScaleDiscovery.NothingReported | devices/scale.go:178-182 | with no connection and no error, the failure names no error |
| ScaleDiscovery.CloseLate | devices/scale.go:164-170 | the draining loop closes exactly the connected ports among the later arrivals |
| ScaleDiscovery.Collect | devices/scale.go:147-182 | the collector returns the first connected port and closes the later ones, or reports the last error |
| LogFormat.BoolToString | utils/utils.go:8-13 | "Подключен" exactly for true and "Отключен" exactly for false |
| LogFormat.SensorName | utils/utils.go:138-150 | 0x0B, 0x16, 0x21 and 0xBB, and only they, are named WIDTH, HEIGHT, LENGTH and Right Sensor; any other id is `SENSOR_0x` plus two upper-case hex digits that read back as the id |
| LogFormat.SensorNameInjective | utils/utils.go:138-150 | different sensor ids get different names |
| LogFormat.HexItems | utils/utils.go:122-124 | one upper-case `0xHH` item per byte of a block, in order |
| LogFormat.EntryBracketedIff | utils/utils.go:112-127 | an entry is bracketed exactly when its block is not a well-formed frame |
| LogFormat.EntriesUpTo | utils/utils.go:108-128 | entry `k` renders aligned block `k`, one entry per block |
| LogFormat.EntriesIgnoreTail | utils/utils.go:108 | bytes after the last complete block do not change the entries |
| LogFormat.SensorTextCases | utils/utils.go:100-134 | short input is reported with its length; otherwise there are `len/4` entries, at least one, and the "could not decode" text never appears |
| LogFormat.DecodeArduinoSensorData | utils/utils.go:100-135 | the block loop produces `SensorText` |
| LogFormat.EscapeAllAppend | utils/utils.go:34-56 | escaping works byte by byte: the text of a concatenation is the concatenated texts |
| LogFormat.EscapeRoundTrip | utils/utils.go:34-56 | on data without a backslash the text part reads back as the bytes it came from |
| LogFormat.BackslashAmbiguous | utils/utils.go:35-36 | the byte 0x01 and the four bytes `\x01` give the same text |
| LogFormat.FrameMeansText | utils/utils.go:22-37 | data with a frame always has a text byte |
| LogFormat.BinaryPartNotText | utils/utils.go:47-50 | only bytes that do not show as text are set aside |
| LogFormat.StructuredBlocksAreFrames | utils/utils.go:68-76 | the collected blocks are whole well-formed frames (a multiple of 4 bytes), and there are some exactly when a frame starts somewhere |
| LogFormat.DecodedEntriesNamed | utils/utils.go:69-79 | every entry decoded from the collected blocks is a `NAME=value` entry |
| LogFormat.LogTextEnds | utils/utils.go:16-97 | "нет данных" exactly for empty input; any other rendering ends with ` (N байт)` |
| LogFormat.QuotedFirst | utils/utils.go:58-81 | with a text byte the rendering opens with the quoted escaped text |
| LogFormat.HexWithoutText | utils/utils.go:88-95 | without a text byte the rendering is the hexadecimal dump and the length |
| LogFormat.PrintableVerbatim | utils/utils.go:34-66 | printable input is rendered quoted, with nothing decoded after it |
| LogFormat.BinaryPartEmpty | utils/utils.go:47-50 | nothing is set aside from printable input |
| LogFormat.ScanForFrame | utils/utils.go:21-27 | `hasArduinoBlocks` is true exactly when a frame starts at some offset |
| LogFormat.EscapeByte | utils/utils.go:35-55 | each byte's text is its escape, set aside or not; the byte is text iff printable or newline, return or tab |
| LogFormat.EscapeBytes | utils/utils.go:30-56 | the escaping loop builds the text part, the text flag and the set-aside bytes |
| LogFormat.CollectBlocks | utils/utils.go:68-76 | the collecting loop gathers every frame window, overlapping ones included |
| LogFormat.HexDump | utils/utils.go:89-95 | the slot-filling loop gives `[0xHH 0xHH ...]` |
| LogFormat.FormatDataForLog | utils/utils.go:15-98 | the rendering is `LogText` of the data |

## Left out

- The serial library (`go.bug.st/serial`) is not part of this model. Opening, reading and
  writing are the scripted `Serial.Port`; enumeration is a parameter (`None` when it failed).
- `runtime.GOOS` is a parameter.
- Timing. The 600 ms dimension window, the 700 ms ping window and the 10-turn reply loop of
  the scale probe are counts of reads; their 10 ms and 100 ms pauses are dropped. The
  following waits are dropped entirely, because nothing in the model depends on elapsed time:
  - the 1 s wait between scale retries (`devices/scale.go:210-214`);
  - the 300 ms settle delay of the probe (`devices/scale.go:316`);
  - the 200 ms sleep in `ReadWeight` (`devices/scale.go:402`);
  - the 200 ms sleep after each command byte in `SendCommandToArduino` (`devices/arduino.go:76`).
  `SetReadTimeout` calls are not modelled; a read that finds nothing is a scripted timeout or
  an empty result.
- Console output and `logging.BroadcastLog` are left out. `GetDimensionsFromArduino` renders
  chunks with `FormatDataForLog` only to log them, so those calls are not in `GetDimensions`.
- `ConnectToArduino` (`devices/arduino.go:19-72`) is left out entirely. This covers its
  USB-description filter, its 2 s bootloader wait, and its port-by-port PING probe within a 2 s
  window. It needs the serial library's port details, which are not part of this model.
- `getSerialPorts` and `ConnectToScale` are not modelled as whole functions. Their candidate
  list logic is `ScaleDiscovery.Candidates`, `PortsToCheck` and `ValidPorts`.
- Goroutines, the result channel, the wait group, context cancellation and the 30 s deadline
  in `connectToScaleParallel` are left out. `ScaleDiscovery.Collect` takes the arrival order as
  given, and a late connection is closed whether the drain or its own goroutine closes it.
- ScaleProbe.TestCommunication: the `SetReadTimeout` and write errors (`devices/scale.go:285-288,
  309-312`) and the context checks are not modelled, because writes and timeouts cannot fail in
  the port model.
- ScaleProbe.TestPort: the context checks between attempts are not modelled. The system always
  passes 2 retries; the model takes any count, and a count of 0 or less yields
  `NotConnected(None)`, the source's `(nil, nil)`.
- Arduino.Ping: an unexpected reply is returned as its raw bytes (`UnexpectedPing`). Building
  "Arduino ответил: ... ('OK' не найдено)" with `strings.TrimSpace` is not modelled.
- ScaleProbe.ReadWeight: returns whole grams as a natural number rather than `float64`; every
  value the source produces is an integer. The write-error return (`devices/scale.go:397-400`)
  is not modelled, because writes cannot fail in the port model.
- Error values: the error texts of the scale code and the discovery errors are constructors
  (`ScaleError`, `DiscoveryError`), not formatted strings.
- Strings are sequences of characters, not UTF-8 bytes. A printable ASCII byte becomes the
  character with that code, as `string(b)` does for bytes below 128.
