# Humidity box: DAC batching, log rows, fans, sensors and LEDs in Dafny

This project models the sequential logic of a humidity-control rig and proves properties of that model. The rig has two halves.

The measurement PC runs an instrument driver for the multi-channel "Compact 2012" DAC. `performSetValue` collects one voltage request per channel across a batch of calls. On the final call of the batch it hands the requests to the instrument and polls until every channel has arrived (`sync_DACs`). The PC also writes a measurement log, `Csv`, with one tab-separated row per tick and a matching `name=value` console line.

A MicroPython board drives the hardware:
- two ganged humidifier fans and two circulation fans through active-low PWM;
- two SHT31 temperature and humidity sensors on one I2C bus;
- a 21-pixel NeoPixel strip that plays light patterns.

Files:
- `wrappers.dfy`: `Option` and `Result`, which stand in for `None` and raised exceptions.
- `text.dfy`: the parts of Python string handling that the code relies on. These are `strip`, `split(sep)[0]`, slicing, `endswith`, `join`, `'%d'`, `format(i, '5d')` and `int()`. It also holds the round-trip lemmas for them.
- `dac_driver.dfy`: `Driver.performSetValue` and `Driver.sync_DACs`.
  - `requested` is the request map. It is `None` until a first call creates it.
  - `events` records, in order, everything the driver sends to the instrument or the framework.
  - `sync_dac_set_all` is a scripted collaborator. Each poll returns a `PollReply(done, changed)`, and `isStopped` answers from a second script.
- `csv_log.dfy`: the `Csv` class. The file is a sequence of rows, each a sequence of cells. A Python dict is its list of (key, value) pairs in insertion order.
- `pwm.dfy`: the duty mapping, `Fan_pwm`, `Fans_pwm` and the settings applied at module load.
- `sht31.dfy`: the command table, the reply decoding, the unit conversions, `SHT31` and `Sensors_sht31.measure`. The bus records its writes and serves replies from a queue.
- `neo_led.dfy`: the `arra`/`rain` tables, built by the same nested loops, and the patterns on the pixel buffer. Each `np.write()` records a copy of the buffer in `frames`.

Two behaviours of the code are worth stating on their own terms:
- The fan mapping takes an intensity in [0, 1] and returns a 16-bit duty (scaled by 65536, clamped to 65535).
- `measure` has no transport-error path.
  - With `average_n = 0` it divides by zero and stores nothing.
  - With a negative `average_n` it stores 0.

## Model

| member | source | states |
|---|---|---|
| PyText.StripLeftSpec | humidity_controller_2022.py:41 | `lstrip` removes exactly the leading whitespace: the result is a suffix, starts with a non-blank, and everything cut off is blank |
| PyText.StripRightSpec | humidity_controller_2022.py:41 | `rstrip` removes exactly the trailing whitespace, symmetrically |
| PyText.StripKeeps | humidity_controller_2022.py:41 | every character of `s.strip()` occurs in `s` |
| PyText.StripUnchanged | humidity_controller_2022.py:41 | a string with no blank at either end is its own `strip()` |
| PyText.StripAfterSpaces | datafile_csv.py:22 | leading padding never survives `lstrip` |
| PyText.BeforeFirstSpec | humidity_controller_2022.py:41 | `s.split(sep)[0]` is the longest prefix of `s` without `sep`, and is followed by `sep` when shorter than `s` |
| PyText.NatToDecimal | humidity_controller_2022.py:43 | `'%d' % n` is a non-empty digit string without a leading zero |
| PyText.IntToDecimalShape | humidity_controller_2022.py:43 | `'%d' % i` has no blanks around it; it is all digits for i >= 0 and a minus sign then digits for i < 0 |
| PyText.PadLeft | datafile_csv.py:22 | right-justifying gives length max(width, len), ends with the text, and is blank in front |
| PyText.DecimalRoundTrip | humidity_controller_2022.py:41-43 | reading back the digits of `'%d' % n` gives n |
| PyText.IntRoundTrip | humidity_controller_2022.py:41-43 | `int('%d' % i) == i` for every int |
| PyText.FormatD5RoundTrip | datafile_csv.py:22 | `int(format(i, '5d')) == i`: the padding of the time column never changes its value |
| DacDriver.Clamp | humidity_controller_2022.py:45-46 | the voltage lands in [-range, +range] for a non-negative range, in-range values pass unchanged, and out-of-range values saturate at the nearer bound |
| DacDriver.ClampPercent | humidity_controller_2022.py:62 | the threshold lands in [0, 100], in-range values pass unchanged, and the rest saturate |
| DacDriver.ParseChannelDigits | humidity_controller_2022.py:41 | `"DA<d>-voltage"` and `"DA<d>-jumper setting"` parse to the value of d minus 1 |
| DacDriver.ChannelNameRoundTrip | humidity_controller_2022.py:41-43 | formatting `'DA%d-voltage' % (indx0+1)` or the jumper name and parsing it back gives indx0, for every indx0 >= -1 |
| DacDriver.ChannelNameBelowRange | humidity_controller_2022.py:41 | below -1 the name carries a minus sign, the split cuts the number off, and parsing fails |
| DacDriver.ParsedChannelAtLeastMinusOne | humidity_controller_2022.py:41 | no name parses to a channel index below -1 |
| DacDriver.VoltageRequestClamped | humidity_controller_2022.py:41-51 | a request exists exactly when the name parses, the jumper quantity is known and its label is in the gain table; it is for the parsed channel, its gain is the looked-up gain, its voltage is the clamped value, and its sweep rate is the caller's |
| DacDriver.VoltageCallTouchesOneChannel | humidity_controller_2022.py:47-51 | a successful voltage call sends nothing. It stores under the parsed channel exactly the request `VoltageRequest` builds: the clamped value, the caller's sweep rate and the looked-up gain. It returns the stored value. The map keys become the old keys plus that channel, and every other channel's entry is unchanged |
| DacDriver.FailedCallLeavesNoTrace | humidity_controller_2022.py:34-63 | a failure inside the branch chain leaves the request map as the first-call reset left it, and sends nothing |
| DacDriver.JumperRefreshesOwnChannel | humidity_controller_2022.py:52-59 | for any sweep rate, a jumper change returns its value and keeps the map. It sends exactly two events: the jumper is set, then the voltage quantity of the same channel is re-read, and that channel's name parses back to the jumper's channel |
| DacDriver.ThresholdClamped | humidity_controller_2022.py:61-66 | for any sweep rate, the red-LED threshold is sent and returned clamped to [0, 100], in-range values are unchanged, and the map is kept |
| DacDriver.Driver.constructor | humidity_controller_2022.py:7-8 | a new driver has no request map yet and has sent nothing |
| DacDriver.Driver.PerformSetValue | humidity_controller_2022.py:23-66 | the map is reset only on a first call; the branch outcome follows the name; `sync_DACs` runs only on a final call with at least one request; a final call with no map raises |
| DacDriver.Driver.SyncDacs | humidity_controller_2022.py:68-82 | the events sent are exactly the rounds of the poll script up to the first poll that is done or stopped |
| DacDriver.Driver.PollOnce | humidity_controller_2022.py:71-82 | one round is a poll, then the echoes, then a stop query only if the poll was not done; the loop ends exactly when done or stopped |
| DacDriver.Driver.EchoChanges | humidity_controller_2022.py:73-77 | every reported change is echoed once, in order |
| DacDriver.SyncTraceStopsAtFirstExit | humidity_controller_2022.py:78-82 | answers after the first done-or-stopped poll are never read |
| DacDriver.RoundCounts | humidity_controller_2022.py:71-82 | a round polls once, and reads the stop flag once unless the poll was done |
| DacDriver.SyncTraceCounts | humidity_controller_2022.py:70-82 | when poll k is the first to end the loop there are k+1 polls, and k stop queries if poll k was done or k+1 otherwise |
| DacDriver.EchoTargetsChangedChannel | humidity_controller_2022.py:73-77 | each echo targets the voltage quantity of the changed channel, whose name parses back to it, and carries the new value and that channel's sweep rate, or 0.001 without a request |
| CsvLog.Keys | datafile_csv.py:38 | the keys of a dict, in insertion order |
| CsvLog.StoreNewKey | datafile_csv.py:38 | assigning a key the dict lacks appends it at the end |
| CsvLog.LookupAt | datafile_csv.py:49 | looking up a key finds the value stored under it |
| CsvLog.NamesDistinct | datafile_csv.py:21 | the seven column names are pairwise different |
| CsvLog.ColumnFormats | datafile_csv.py:22 | `time` has `'5d'`, `fan` has `'3.0f'`, the temperatures and the other humidities have `'2.1f'`, and `humi_humi_pRH` has no spec |
| CsvLog.Csv.constructor | datafile_csv.py:12-26 | all seven columns start at zero, and the file holds exactly the header of the seven names in order |
| CsvLog.Csv.RowDict | datafile_csv.py:28-39 | the row dict has exactly the seven names as keys in `_names` order, each mapped to its cell; it changes nothing |
| CsvLog.Csv.RowLookup | datafile_csv.py:29-39 | every column name finds its own cell in the row dict |
| CsvLog.Csv.Write | datafile_csv.py:41-43 | exactly one row is appended, holding the cells in column order; earlier rows are unchanged, and the file is flushed once |
| CsvLog.Csv.Text | datafile_csv.py:45-50 | the text is the two-blank join of `name=cell` in column order, the same cells that `write` puts in the file; it changes nothing |
| CsvLog.Csv.TimeCell | datafile_csv.py:22 | the time cell is exactly max(5, length of the numeral) characters: blanks, then the numeral. It reads back as `time` |
| CsvLog.Csv.FloatCells | datafile_csv.py:33-37 | each float column uses its own spec, and `humi_humi_pRH` falls back to `str` |
| Pwm.Truncate | src_micropython/pwm.py:9 | `int()` truncates toward zero: the floor for non-negatives, and for negatives the ceiling, the unique integer in [x, x + 1) |
| Pwm.TruncateMonotone | src_micropython/pwm.py:9 | truncation preserves order |
| Pwm.Duty | src_micropython/pwm.py:8-11 | the duty always lies in [0, 65535] |
| Pwm.DutyEnds | src_micropython/pwm.py:8-11 | intensity 1.0 gives duty 0, and intensity 0.0 gives 65536 clamped to 65535 |
| Pwm.DutyFloor | src_micropython/pwm.py:8-11 | on [0, 1] the duty is min(65535, floor((1 - intensity) * 65536)) |
| Pwm.DutyMonotone | src_micropython/pwm.py:8-11 | more intensity never gives more duty |
| Pwm.DutySaturates | src_micropython/pwm.py:8-11 | intensity >= 1 gives 0, and intensity <= 0 gives 65535 |
| Pwm.FanPwm.constructor | src_micropython/pwm.py:4-6 | a fan is on its pin at its frequency and has no duty written yet |
| Pwm.FanPwm.SetIntensity | src_micropython/pwm.py:7-13 | the duty written is the mapped duty |
| Pwm.FansPwm.constructor | src_micropython/pwm.py:16-18 | two distinct fans, on GPIO 0 and 1, at 25 kHz |
| Pwm.FansPwm.SetFanHumIntensity | src_micropython/pwm.py:19-21 | both fans get the identical duty, and nothing else changes |
| Pwm.LoadModule | src_micropython/pwm.py:23-30 | after import, the humidifier fans and the circulation fan are at duty 65535, and the on/off fan is at duty 0 |
| Sht31.CommandsDistinct | src_micropython/sht31.py:17-28 | every command is two bytes, and the six commands are pairwise different |
| Sht31.Decode | src_micropython/sht31.py:65 | both raw words lie in [0, 65535] |
| Sht31.DecodeEncode | src_micropython/sht31.py:65 | decoding recovers both words whatever the CRC bytes are |
| Sht31.EncodeDecode | src_micropython/sht31.py:65 | a reply is determined by its two words and its two CRC bytes; decoding drops only the CRC bytes |
| Sht31.ConversionRanges | src_micropython/sht31.py:74-78 | Celsius covers [-45, 130], Fahrenheit [-49, 266] and humidity [0, 100], each monotone in the raw word and exact at both ends |
| Sht31.I2cBus.WriteTo | src_micropython/sht31.py:40-44 | a write is recorded with its address |
| Sht31.I2cBus.ReadFrom | src_micropython/sht31.py:46-52 | a read returns the next reply |
| Sht31.NewSht31 | src_micropython/sht31.py:30-38 | a missing bus raises ValueError; otherwise the sensor keeps the bus and the address |
| Sht31.Sht31.RawTempHumi | src_micropython/sht31.py:54-65 | a repeatability outside {1, 2, 3} raises ValueError before any bus traffic, and needs no queued reply; otherwise the table command is sent and the reply decoded |
| Sht31.Sht31.GetTempHumi | src_micropython/sht31.py:67-78 | a repeatability outside {1, 2, 3} raises the same ValueError as `_raw_temp_humi` and touches no bus, even an empty one; otherwise the result is the converted reading of the next reply, in the chosen unit |
| Sht31.SensorsSht31.constructor | src_micropython/sht31.py:82-89 | sensor a is at 0x45 and sensor b at 0x44 on the same bus, and all four values start at 0 |
| Sht31.SensorsSht31.Measure | src_micropython/sht31.py:91-106 | each field becomes the mean of its sensor's readings; 0 rounds raise ZeroDivisionError and store nothing; the bus sees the high-repeatability command to a, then to b, each round |
| Sht31.SensorsSht31.ReadBoth | src_micropython/sht31.py:97-98 | one round reads sensor a, then sensor b, each with the high-repeatability, clock-stretching command, and consumes one reply per sensor |
| Sht31.SensorsSht31.Accumulate | src_micropython/sht31.py:96-102 | the four running sums are the sums of each sensor's readings, with sensor a reading the even replies and sensor b the odd ones |
| Sht31.MeanInRange | src_micropython/sht31.py:103-106 | every stored mean is a plausible reading: in [-45, 130] degrees Celsius and [0, 100] percent |
| Sht31.MeasureOne | src_micropython/sht31.py:91-106 | `measure(1)` stores exactly one reading of each sensor |
| NeoLed.PaletteValid | src_micropython/neo_led.py:10-16 | every predefined colour has components in [0, 255] |
| NeoLed.ArraShape | src_micropython/neo_led.py:24-28 | every table entry is even and in [0, 10], and the table repeats every 15 entries |
| NeoLed.BuildArra | src_micropython/neo_led.py:24-28 | the loops build 76 entries following the sawtooth, and the counter returns to 10 after every period |
| NeoLed.BuildRain | src_micropython/neo_led.py:29-30 | `rain` has len(arra) - 10 entries, with rain[i] = (arra[i], arra[i+10], arra[i+5]) |
| NeoLed.LoadTables | src_micropython/neo_led.py:24-30 | 76 intensities, periodic with period 15, and 66 dim, valid colours |
| NeoLed.FirstMiss | src_micropython/neo_led.py:32-34 | when the rainbow does not fit, the first pixel whose index falls outside `rain` |
| NeoLed.RainbowBounds | src_micropython/neo_led.py:32-40 | with 66 colours, `rainbow(start)` fits exactly for start in [-66, 45], yet `rainbow_run` reaches start 46 |
| NeoLed.Strip.constructor | src_micropython/neo_led.py:6-8 | a 21-pixel buffer, dark, with nothing written yet |
| NeoLed.Strip.Write | src_micropython/neo_led.py:19 | each write records the buffer as a frame |
| NeoLed.Strip.Fill | src_micropython/neo_led.py:44 | every pixel takes the colour |
| NeoLed.Strip.Blink | src_micropython/neo_led.py:18-22 | two frames of the first colour, then two of the second; all pixels end in the second colour |
| NeoLed.Strip.Off | src_micropython/neo_led.py:55-56 | all 21 pixels end at (0, 0, 0), with one frame written |
| NeoLed.Strip.Run | src_micropython/neo_led.py:42-46 | a dot travels from pixel 0 to pixel 20, two identical frames per step; it ends with only pixel 20 in the colour |
| NeoLed.Strip.Trapped | src_micropython/neo_led.py:48-53 | the dot runs up and back down; it ends with only pixel 0 in the colour |
| NeoLed.Strip.Rainbow | src_micropython/neo_led.py:32-35 | it succeeds exactly when every index fits; pixel i takes `rain[i+start]`, with negative indices from the end, and a frame is written per pixel; on failure the pixels before the first bad index are set |
| NeoLed.Strip.RainbowRun | src_micropython/neo_led.py:37-40 | as written it always raises IndexError, at start 46 |
| NeoLed.Strip.RainbowWrapped | src_micropython/neo_led.py:32-35 | the corrected rainbow wraps the index around `rain` and never fails |
| NeoLed.Strip.RainbowRunWrapped | src_micropython/neo_led.py:37-40 | the corrected run completes all 210 steps and ends on the frame of start 209 |
| NeoLed.WrappedAgrees | src_micropython/neo_led.py:32-35 | wherever the source's rainbow fits, the wrapped one shows the same pixels |
| NeoLed.WrappedPeriodic | src_micropython/neo_led.py:37-40 | the wrapped rainbow repeats after len(rain) steps |

## Findings

| source | as written | input that shows it | evidently intended | confidence | as-written member | corrected member |
|---|---|---|---|---|---|---|
| src_micropython/neo_led.py:37-39 | `rainbow_run` calls `rainbow(i)` for i from 0 to 10*leds-1 = 209, and `rainbow` reads `rain[i+start]` with len(rain) = 66 | `rainbow_run(speed)` for any speed: at start 46 pixel 20 reads `rain[66]` and raises IndexError | scroll the rainbow through all 210 steps without failing; wrapping modulo len(rain) is one reading among several (it leaves a seam where rain[65] meets rain[0], which wrapping modulo a multiple of the period 15 would avoid) | medium; not executed | NeoLed.Strip.RainbowRun | NeoLed.Strip.RainbowRunWrapped |

## Left out

- Hardware and timing are not modelled:
  - `time.sleep_ms`
  - the PWM frequency setting
  - the real NeoPixel transfer
  - I2C framing and clock stretching
  - the rate-limited DAC stepping inside `compact_2012_driver.sync_dac_set_all`, which is a scripted collaborator here
- The InstrumentDriver framework calls (`isFirstCall`, `isFinalCall`, `getValue`, `setValue`, `isStopped`, `readValueFromOther`) are parameters, scripts or recorded events. `getValue` on jumper quantities is a map from name to label. `performOpen`, `performClose`, `checkIfSweeping` and `performGetValue` are not modelled, because they only call into the instrument library.
- The gain table `DICT_GAIN_2_VALUE` and `VALUE_PLUS_MIN_MAX_V` live in the instrument library, so they are constructor parameters.
- PyText.StripLeftSpec: "whitespace" is the ASCII set that Python strips, including U+001C to U+001F. The non-ASCII whitespace `str.strip` also removes (U+0085, U+00A0, U+2000 to U+200A and others) is not modelled.
- PyText.StripRightSpec: the same ASCII-only notion of whitespace as StripLeftSpec.
- PyText.StripUnchanged: a string that starts or ends with non-ASCII whitespace counts as unchanged here, while Python's `strip()` would remove that character.
- DacDriver.Driver.PerformSetValue: the jumper labels that `getValue` returns are fixed when the driver is built. In the source, the jumper branch calls `quant.setValue(value)`, so a later `getValue` in the same batch sees the new label and a later voltage call uses the new gain. In the model, the jumper call only records `JumperSet(name, value)`, and later voltage calls still use the original label. Jumper values are also modelled as numbers, not as the label strings the framework passes.
- DacDriver.ParseChannelIndex: Python's `int()` also accepts underscores between digits and non-ASCII digits. The model accepts only ASCII digits with an optional sign.
- DacDriver.Driver.SyncDacs: the loop needs a script in which some poll ends it. A real instrument that never reports done, with a user who never stops, loops forever. That case is not modelled.
- CsvLog.Csv.Write: DictWriter's quoting and its check for extra keys are not modelled. The row dict has exactly the header's keys, so that check never fires.
- CsvLog: float formatting (`'3.0f'`, `'2.1f'`, `str(float)`) is a function the log is built with. Only the integer `'5d'` format is spelled out.
- CsvLog.Csv.constructor: opening the file and the path type check are not modelled. Columns are plain numbers; nothing stops a caller from storing another type in a column.
- Sht31: temperatures, humidities and means are exact reals, not floats. CRC bytes are skipped, as the code does.
- Sht31.SensorsSht31.Measure: the bus is assumed to deliver a six-byte reply for every read. The code has no error handling for a failed read.
- Pwm: the intensity arithmetic is exact over reals, not binary floating point.
- The module-level instantiation of `np`, `sensors` and the fans, and the `__main__` blocks, are not modelled. `NeoLed.Strip` models the strip object itself, and `Pwm.LoadModule` models the fans' setup. The `__main__` test code calls helpers that do not exist in these files.
- No feedback or PID computation is modelled, because the code has none.
