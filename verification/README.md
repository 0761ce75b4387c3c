# Instrument-driver logic of QCoDeS, modelled in Dafny

This project models the parts of six QCoDeS files that do real work: the
command text the drivers build, how they decode replies, and the state they
keep. Everything else in those files is transport setup or parameter tables.
Each driver call is a pure function. It returns the commands written, in
order, as a `seq` of a command datatype or of strings. It also returns the
value returned or the Python exception raised, as `Result`. Where the driver
keeps state, the call returns the new state too. Instrument replies are
arguments.

- `base.dfy` (module `Base`): the exception kinds and the `Result`, `Option`
  and `Exchange` types. It also holds the Python built-ins the drivers rely
  on, restricted to ASCII:
  - `str.strip`/`rstrip`, which remove space, `\t`-`\r` and the separators
    `\x1c`-`\x1f`, and `str.upper`/`lower`;
  - `'{}'`/`'{:X}'` integer formatting;
  - `int(s, 10)` and `int(s, 16)`, which accept a sign, the `0x` prefix in
    base 16, and surrounding space or `\t`-`\r` (but not `\x1c`-`\x1f`);
  - `round` with ties to even.
- `sp927.dfy` (module `SP927`): the Basel SP927 DAC. It covers:
  - channel creation;
  - the volt ↔ code conversion `code = round((V + 10)·838848)`;
  - the `"<chan> <HEX>"` and `"<chan> V?"` commands;
  - `set_all`.
- `cryomagnetics.dfy` (module `Cryomagnetics`): the Cryomagnetics 4G supply.
  It covers:
  - axis selection (`CHAN n`) and sweep-mode validation;
  - the limit commands and the `RE_ANS` field-reply parser;
  - the up/down decision of `_set_field`.
- `yokogawa.dfy` (module `Yokogawa`): the Yokogawa 7651 current source. It
  covers:
  - `float_round` and the output on/off mapping;
  - the bit-4 status decoding;
  - `NDCA` removal and the `S<value>E` command.
- `sd_dig.dfy` (module `SdDig`): the Keysight SD_DIG digitizer. It models the
  per-channel shadow configuration as a sequence of records. Each setter
  stores one value and re-sends its group as an abstract library call. The
  getters overwrite the shadow with the device's report. `daq_read` reads the
  point count and timeout from the shadow.
- `fsw.dfy` (module `Fsw`): the R&S FSW driver. It covers:
  - the start/stop setters and the order in which they write and check;
  - the reply `_strip` helper and `display_grid`.

  An instrument that stores what it is sent (`Window`/`Apply`) shows what a
  rejected call leaves behind.
- `data_set_cache.dfy` (module `DataSetCache`): the dataset cache's load state
  machine. It covers single loads, runs of loads, `data()` and `to_pandas()`.
  The database queries and the pandas conversion are arguments.

## Model

Source paths are relative to the repository root.

| member | source | states |
|---|---|---|
| Base.RunAll | qcodes/instrument_drivers/unibasel/SP927.py:182-183 | A loop of steps that may raise yields the values of the steps before the first failure, in order, and that failure's error; it yields no error exactly when every step succeeded |
| Base.StripPadded | qcodes/instrument_drivers/unibasel/SP927.py:22 | `strip()` of a word surrounded by any ASCII whitespace, the separators `\x1c`-`\x1f` included, returns exactly the word |
| Base.RStripPadded | qcodes/instrument_drivers/rohde_schwarz/FSW.py:86 | `rstrip()` of text followed by whitespace (separators `\x1c`-`\x1f` included) returns the text, when the text does not itself end in whitespace |
| Base.UpperLowerInverse | qcodes/instrument_drivers/cryomagnetics/Cryomagnetics_4G_GPIB.py:79 | Upper-casing the lower-cased name gives back any name without lower-case letters |
| Base.ParseFormatInt | qcodes/instrument_drivers/unibasel/SP927.py:45 | `int(..., base)` of the `{}`/`{:X}` text of any integer, negative included, with any of the whitespace `int()` skips (space, `\t`-`\r`) around it, returns that integer |
| Base.Round | qcodes/instrument_drivers/unibasel/SP927.py:35 | `round` returns an integer within 1/2 of its argument, and an exact tie goes to the even neighbour |
| Base.RoundMonotone | qcodes/instrument_drivers/unibasel/SP927.py:35 | Rounding never reverses the order of two numbers |
| SP927.NewChannel | qcodes/instrument_drivers/unibasel/SP927.py:53-65 | A channel is created exactly when its number lies in 1..8 and `min_val < max_val`. A bad number raises ValueError and is checked first; an empty range then raises AssertionError. The channel keeps the number and range it was given |
| SP927.VoltToCode | qcodes/instrument_drivers/unibasel/SP927.py:24-37 | A voltage converts exactly when `min_val <= volt < max_val`, so the upper bound is excluded; otherwise ValueError. The code lies within 1/2 of `(volt + 10)·838848` |
| SP927.DacParse | qcodes/instrument_drivers/unibasel/SP927.py:18-22 | The cleaned reply neither starts nor ends with whitespace and is no longer than the reply |
| SP927.SetVolt | qcodes/instrument_drivers/unibasel/SP927.py:70-79 | The inclusive validator runs first and the exclusive conversion second, so a set succeeds exactly for `min_val <= volt < max_val`; otherwise ValueError. The one command written reads back as this channel's number and a code within 1/2 of the ideal code |
| SP927.ReadVolt | qcodes/instrument_drivers/unibasel/SP927.py:170-171 | The query is the channel number in decimal followed by ` V?`. The reply (get parser, lines 44-45) converts exactly when its stripped text reads as a hexadecimal integer, and then to `code / 838848 - 10` for that integer; otherwise ValueError |
| SP927.StripBeforeInt | qcodes/instrument_drivers/unibasel/SP927.py:44-45 | `int()` alone rejects a code followed by a separator `\x1c`-`\x1f`, but the reply is stripped first, so it still converts to `code / 838848 - 10` |
| SP927.SetCommandParses | qcodes/instrument_drivers/unibasel/SP927.py:167-168 | For every channel and code, negative ones included, the `"<chan> <CODE>"` text splits at its blank into the decimal channel and the hexadecimal code |
| SP927.CodeToVoltReadsHex | qcodes/instrument_drivers/unibasel/SP927.py:44-45 | A reply holding a code in upper-case hexadecimal, with any whitespace around it, converts to `code / 838848 - 10` |
| SP927.CodeErrorBound | qcodes/instrument_drivers/unibasel/SP927.py:34-45 | A code within 1/2 of the ideal code converts back to within 1/(2·838848) V of the voltage |
| SP927.SetReadRoundTrip | qcodes/instrument_drivers/unibasel/SP927.py:34-45 | For an accepted voltage, the command written carries the channel and the code. Hex-parsing the code back gives the same code exactly, and the code converts back to within 1/(2·838848) V of the request |
| SP927.MaxValRejected | qcodes/instrument_drivers/unibasel/SP927.py:29-32 | The parameter validator (line 70) admits `max_val` but the conversion rejects it with ValueError; `min_val` is accepted |
| SP927.DefaultCodeRange | qcodes/instrument_drivers/unibasel/SP927.py:34-35 | With the default range -10..10 every accepted voltage has a code in 0..20·838848 |
| SP927.VoltToCodeMonotone | qcodes/instrument_drivers/unibasel/SP927.py:34-35 | A higher accepted voltage never gets a lower code |
| SP927.NewSP927 | qcodes/instrument_drivers/unibasel/SP927.py:149-160 | The constructor builds eight channels numbered 1..8 in list order. Each is a valid channel with the default range -10..10 |
| SP927.NewSP927IgnoresRange | qcodes/instrument_drivers/unibasel/SP927.py:156-157 | A DAC constructed for -5..5 V still accepts 7 V: the range taken at line 114 never reaches the channels |
| SP927.NewSP927Ranged | qcodes/instrument_drivers/unibasel/SP927.py:156-157 | Corrected constructor: it succeeds exactly when the range is not empty, and every channel 1..8 is created with the caller's range |
| SP927.NewSP927RangedHonoursRange | qcodes/instrument_drivers/unibasel/SP927.py:156-157 | With the corrected constructor, every channel accepts exactly the voltages in `[min_val, max_val)` |
| SP927.SetAll | qcodes/instrument_drivers/unibasel/SP927.py:174-183 | Channels are set in list order. The commands written are, position by position, those `SetVolt` writes for the leading channels. The walk stops at the first rejected channel with that channel's error. There is no error exactly when every channel was set |
| SP927.SetAllAllOrNothing | qcodes/instrument_drivers/unibasel/SP927.py:182-183 | On the DAC as constructed, `set_all` either writes one command per channel for channels 1..8 in order, all with the same code, or raises ValueError before writing anything |
| SP927.SetAllUniform | qcodes/instrument_drivers/unibasel/SP927.py:174-183 | Over channels 1..8 that share one range, `set_all` either sets every channel in order with the same code or rejects before writing anything |
| SP927.SetAllRangedAllOrNothing | qcodes/instrument_drivers/unibasel/SP927.py:182-183 | With the corrected constructor, `set_all` is all-or-nothing over the caller's range |
| Cryomagnetics.ChanTextParses | qcodes/instrument_drivers/cryomagnetics/Cryomagnetics_4G_GPIB.py:80 | The `CHAN n` text carries the channel number in decimal |
| Cryomagnetics.FirstIndex | qcodes/instrument_drivers/cryomagnetics/Cryomagnetics_4G_GPIB.py:78-79 | A name is found exactly when it is stored. It is found at a position holding it, with no earlier position holding it |
| Cryomagnetics.SelectChannel | qcodes/instrument_drivers/cryomagnetics/Cryomagnetics_4G_GPIB.py:77-82 | Selection succeeds exactly when the upper-cased name is a stored axis; otherwise ValueError and nothing is written. The channel written is one plus the position of the first stored axis equal to the upper-cased name |
| Cryomagnetics.FieldParameterSelectsAxis | qcodes/instrument_drivers/cryomagnetics/Cryomagnetics_4G_GPIB.py:45-65 | Axis `i` is exposed as parameter `lower(axis)_field`, and that parameter selects channel `i + 1`, when the stored name has no lower-case letters and no earlier axis shares it |
| Cryomagnetics.LowerCaseAxisUnreachable | qcodes/instrument_drivers/cryomagnetics/Cryomagnetics_4G_GPIB.py:79 | On any magnet, an axis whose stored name has a lower-case letter is never selected, whatever name is asked for, its own included |
| Cryomagnetics.SetSweep | qcodes/instrument_drivers/cryomagnetics/Cryomagnetics_4G_GPIB.py:129-135 | An unknown axis raises ValueError before anything is written. For a known axis the selection is written first. `SWEEP <MODE>` follows, and None is returned, exactly when the upper-cased mode is one of the six modes; any other mode returns False after the selection alone |
| Cryomagnetics.DirectionMode | qcodes/instrument_drivers/cryomagnetics/Cryomagnetics_4G_GPIB.py:137-147 | The four modes the sweep helpers build are unchanged by upper-casing |
| Cryomagnetics.SweepUp | qcodes/instrument_drivers/cryomagnetics/Cryomagnetics_4G_GPIB.py:137-141 | `set_sweep` always accepts the mode `sweep_up` builds: a known axis gets its selection and then `SWEEP UP`, or `SWEEP UP FAST` when fast |
| Cryomagnetics.SweepDown | qcodes/instrument_drivers/cryomagnetics/Cryomagnetics_4G_GPIB.py:143-147 | The same for `sweep_down`, with `SWEEP DOWN` or `SWEEP DOWN FAST` |
| Cryomagnetics.SetLowLim | qcodes/instrument_drivers/cryomagnetics/Cryomagnetics_4G_GPIB.py:154-156 | A known axis gets its selection and then the lower limit. An unknown axis raises ValueError with nothing written |
| Cryomagnetics.SetUpLim | qcodes/instrument_drivers/cryomagnetics/Cryomagnetics_4G_GPIB.py:163-165 | The same for the upper limit |
| Cryomagnetics.SplitNumberText | qcodes/instrument_drivers/cryomagnetics/Cryomagnetics_4G_GPIB.py:72 | The numeric group of the pattern, taken greedily from sign/digits/dot/digits text, recovers exactly those parts with nothing left over |
| Cryomagnetics.ParseFieldReplyValue | qcodes/instrument_drivers/cryomagnetics/Cryomagnetics_4G_GPIB.py:108-117 | A reply made of a number's text, a letter unit and anything after it parses to the value the number's digits denote |
| Cryomagnetics.ParseFieldReplyNoUnit | qcodes/instrument_drivers/cryomagnetics/Cryomagnetics_4G_GPIB.py:109-111 | A reply without letters does not match, and calling `.groups` on the failed match raises AttributeError |
| Cryomagnetics.ParseFieldReplyNoDigits | qcodes/instrument_drivers/cryomagnetics/Cryomagnetics_4G_GPIB.py:112-115 | A unit with no digits before it, such as `kG`, `-kG` or `.kG`, matches, but `float()` fails and the reading is None |
| Cryomagnetics.GetMagnetOut | qcodes/instrument_drivers/cryomagnetics/Cryomagnetics_4G_GPIB.py:106-117 | An unknown axis raises ValueError with nothing written. Otherwise the selection and `IMAG?` are written and the reply is parsed |
| Cryomagnetics.Approach | qcodes/instrument_drivers/cryomagnetics/Cryomagnetics_4G_GPIB.py:180-187 | After the reading, the upper limit `10·val` and `SWEEP UP` are written exactly when the target in T exceeds a tenth of the kG reading. Otherwise, equality included, the lower limit `10·val` and `SWEEP DOWN` are written. Each is preceded by a selection |
| Cryomagnetics.ApproachIsHelperCalls | qcodes/instrument_drivers/cryomagnetics/Cryomagnetics_4G_GPIB.py:182-187 | The approach is exactly what `set_uplim` and `sweep_up` write, or `set_lowlim` and `sweep_down` |
| Cryomagnetics.SetField | qcodes/instrument_drivers/cryomagnetics/Cryomagnetics_4G_GPIB.py:172-193 | An unknown axis raises ValueError with nothing written. The call succeeds, returning True, exactly when the axis is known and the reply parses to a number |
| Cryomagnetics.SetFieldDirection | qcodes/instrument_drivers/cryomagnetics/Cryomagnetics_4G_GPIB.py:180-187 | With a reading of `kg` kG, the call writes the selection, the reading's selection and `IMAG?`. It then goes up with `ULIM 10·val` exactly when `10·val > kg`, and down with `LLIM 10·val` otherwise |
| Cryomagnetics.SetFieldReadsFirst | qcodes/instrument_drivers/cryomagnetics/Cryomagnetics_4G_GPIB.py:172-180 | Whatever the reply, the call begins with its own selection followed by exactly what `get_magnetout` writes |
| Cryomagnetics.SetFieldWithoutReading | qcodes/instrument_drivers/cryomagnetics/Cryomagnetics_4G_GPIB.py:180 | A reading that is None makes `0.1 * None` raise TypeError after the selection and the query were written |
| Yokogawa.FloatRound | qcodes/instrument_drivers/yokogawa/YKGW7651_current.py:6-16 | The result is an integer nearest to the argument, with ties going to the even integer |
| Yokogawa.FloatRoundTies | qcodes/instrument_drivers/yokogawa/YKGW7651_current.py:16 | 0.5→0, 1.5→2, 2.5→2, -0.5→0, -1.5→-2, 2.4→2, 2.6→3 |
| Yokogawa.RemoveAll | qcodes/instrument_drivers/yokogawa/YKGW7651_current.py:78 | Removing the substring never lengthens the reply |
| Yokogawa.RemoveAllAbsent | qcodes/instrument_drivers/yokogawa/YKGW7651_current.py:78 | A reply that does not contain `NDCA` is unchanged |
| Yokogawa.RemoveAllPrefix | qcodes/instrument_drivers/yokogawa/YKGW7651_current.py:78 | A leading occurrence is removed and the scan resumes after it |
| Yokogawa.RemoveAllSinglePass | qcodes/instrument_drivers/yokogawa/YKGW7651_current.py:78 | `replace` makes one pass: `NDNDCACA` becomes `NDCA`, which still contains `NDCA` |
| Yokogawa.OutputFromValue | qcodes/instrument_drivers/yokogawa/YKGW7651_current.py:43-46 | Only 0 and 1 have names (off and on); any other value raises KeyError |
| Yokogawa.OutputMappingRoundTrip | qcodes/instrument_drivers/yokogawa/YKGW7651_current.py:43-46 | Mapping a name to its value and back gives the name |
| Yokogawa.OutputCommand | qcodes/instrument_drivers/yokogawa/YKGW7651_current.py:42 | The set lambda writes `O1E` exactly for a truthy (non-zero) value and `O0E` otherwise |
| Yokogawa.SetOutput | qcodes/instrument_drivers/yokogawa/YKGW7651_current.py:39-46 | Setting the output writes one command: `O1E` for on and `O0E` for off |
| Yokogawa.SetOutputRoundTrip | qcodes/instrument_drivers/yokogawa/YKGW7651_current.py:62-68 | The command written for a state switches the instrument to that state |
| Yokogawa.AfterHeader | qcodes/instrument_drivers/yokogawa/YKGW7651_current.py:72 | `[5:]` is what follows the first five characters, and is empty for a shorter reply |
| Yokogawa.State | qcodes/instrument_drivers/yokogawa/YKGW7651_current.py:70-74 | It succeeds exactly when the text after the header reads as a decimal integer; otherwise ValueError. The result is 0 or 1, and it is 1 exactly when the word modulo 32 is at least 16, i.e. bit 4 is set |
| Yokogawa.Bit4 | qcodes/instrument_drivers/yokogawa/YKGW7651_current.py:73 | For every integer, negative ones included, `n & 0b10000` is set exactly when `n mod 32 >= 16` |
| Yokogawa.GetOutput | qcodes/instrument_drivers/yokogawa/YKGW7651_current.py:39-46 | Reading the output asks `OC`. It succeeds exactly when the state decodes, and the name returned maps back to the state |
| Yokogawa.GetOutputReadsBit4 | qcodes/instrument_drivers/yokogawa/YKGW7651_current.py:72-74 | A reply made of a 5-character header and a decimal word reads as on exactly when bit 4 of the word is set |
| Yokogawa.GetCurrent | qcodes/instrument_drivers/yokogawa/YKGW7651_current.py:76-78 | Reading the current asks `OD` and returns the number the reply denotes once every `NDCA` is removed; text that is not a number raises ValueError |
| Yokogawa.GetCurrentReadsNumber | qcodes/instrument_drivers/yokogawa/YKGW7651_current.py:77-78 | A reply `NDCA<text>` reads as the number `<text>` denotes, when the text contains no `NDCA` |
| Yokogawa.SetCurrent | qcodes/instrument_drivers/yokogawa/YKGW7651_current.py:80-82 | One command is written, made of `S`, the printed value and `E` |
| Yokogawa.SetCurrentRoundTrip | qcodes/instrument_drivers/yokogawa/YKGW7651_current.py:81 | The text between `S` and `E` is exactly the printed value |
| SdDig.PyIndex | qcodes/instrument_drivers/Keysight/SD_common/SD_DIG.py:438 | A list index `i` is valid exactly when `-n <= i < n`. It selects `i`, or `i + n` for a negative index |
| SdDig.Init | qcodes/instrument_drivers/Keysight/SD_common/SD_DIG.py:53-75 | There is one record per channel, none when the count is not positive. The trigger mode is 0 because the second assignment wins; every other value is the first default |
| SdDig.InitDefaults | qcodes/instrument_drivers/Keysight/SD_common/SD_DIG.py:53-75 | Defaults are full scale 1, threshold 0, timeout -1 and every other value 0. The rising-edge constant leaves no trace |
| SdDig.SetPrescaler | qcodes/instrument_drivers/Keysight/SD_common/SD_DIG.py:431-441 | A bad channel raises IndexError before anything is stored or sent. Otherwise only that channel's prescaler changes, and the prescaler it now holds is sent |
| SdDig.GetPrescaler | qcodes/instrument_drivers/Keysight/SD_common/SD_DIG.py:419-429 | The library is always queried first, and a bad channel raises IndexError after the query. Otherwise the reported value replaces that channel's prescaler and nothing else changes |
| SdDig.SetFullScale | qcodes/instrument_drivers/Keysight/SD_common/SD_DIG.py:459-471 | Only that channel's full scale changes. The channel's current (full scale, impedance, coupling) triple is sent. A bad channel raises IndexError with nothing changed or sent |
| SdDig.SetImpedance | qcodes/instrument_drivers/Keysight/SD_common/SD_DIG.py:485-497 | The same for the impedance |
| SdDig.SetCoupling | qcodes/instrument_drivers/Keysight/SD_common/SD_DIG.py:511-523 | The same for the coupling |
| SdDig.GetFullScale | qcodes/instrument_drivers/Keysight/SD_common/SD_DIG.py:447-457 | The query is made first, then the report replaces only that channel's full scale; a bad channel raises IndexError after the query |
| SdDig.GetImpedance | qcodes/instrument_drivers/Keysight/SD_common/SD_DIG.py:473-483 | The same for the impedance |
| SdDig.GetCoupling | qcodes/instrument_drivers/Keysight/SD_common/SD_DIG.py:499-509 | The same for the coupling |
| SdDig.SetTriggerMode | qcodes/instrument_drivers/Keysight/SD_common/SD_DIG.py:526-537 | Only that channel's trigger mode changes. The call sends the channel's (analog trigger mask, threshold) pair |
| SdDig.GetTriggerMode | qcodes/instrument_drivers/Keysight/SD_common/SD_DIG.py:539-545 | Returns the stored trigger mode with no library call; a bad channel raises IndexError |
| SdDig.SetTriggerThreshold | qcodes/instrument_drivers/Keysight/SD_common/SD_DIG.py:547-558 | Only the threshold changes, and (mask, threshold) is sent |
| SdDig.GetTriggerThreshold | qcodes/instrument_drivers/Keysight/SD_common/SD_DIG.py:560-566 | Returns the stored threshold with no library call; a bad channel raises IndexError |
| SdDig.SetPointsPerCycle | qcodes/instrument_drivers/Keysight/SD_common/SD_DIG.py:569-582 | Only points-per-cycle changes. The channel's (points per cycle, cycles, delay, trigger mode) is sent |
| SdDig.SetNCycles | qcodes/instrument_drivers/Keysight/SD_common/SD_DIG.py:584-598 | The same for the cycle count |
| SdDig.SetDaqTriggerDelay | qcodes/instrument_drivers/Keysight/SD_common/SD_DIG.py:600-613 | The same for the trigger delay |
| SdDig.SetDaqTriggerMode | qcodes/instrument_drivers/Keysight/SD_common/SD_DIG.py:615-628 | The same for the trigger mode, in the array `set_trigger_mode` also writes |
| SdDig.SetDigitalTriggerMode | qcodes/instrument_drivers/Keysight/SD_common/SD_DIG.py:631-643 | Only the digital trigger mode changes. The channel's (digital mode, digital source, analog mask) is sent |
| SdDig.SetDigitalTriggerSource | qcodes/instrument_drivers/Keysight/SD_common/SD_DIG.py:645-657 | The same for the digital trigger source |
| SdDig.SetAnalogTriggerMask | qcodes/instrument_drivers/Keysight/SD_common/SD_DIG.py:659-671 | The same for the analog trigger mask |
| SdDig.SetExtTriggerSource | qcodes/instrument_drivers/Keysight/SD_common/SD_DIG.py:674-685 | Only the external source changes, and (source, behaviour) is sent |
| SdDig.SetExtTriggerBehaviourAsWritten | qcodes/instrument_drivers/Keysight/SD_common/SD_DIG.py:687-698 | As written, every call raises AttributeError and nothing is stored or sent |
| SdDig.SetExtTriggerBehaviour | qcodes/instrument_drivers/Keysight/SD_common/SD_DIG.py:687-698 | Corrected: only the behaviour changes, and (source, behaviour) is sent |
| SdDig.SetNPoints | qcodes/instrument_drivers/Keysight/SD_common/SD_DIG.py:701-708 | Only the point count changes; nothing is sent |
| SdDig.SetTimeout | qcodes/instrument_drivers/Keysight/SD_common/SD_DIG.py:710-717 | Only the timeout changes; nothing is sent |
| SdDig.ReadDaq | qcodes/instrument_drivers/Keysight/SD_common/SD_DIG.py:269-281 | The read sends that DAQ's stored point count and timeout and changes nothing. A bad DAQ number raises IndexError before anything is sent |
| SdDig.ReadDaqAfterInit | qcodes/instrument_drivers/Keysight/SD_common/SD_DIG.py:279 | A fresh DAQ reads with point count 0 and timeout -1 |
| SdDig.ReadDaqUsesSettings | qcodes/instrument_drivers/Keysight/SD_common/SD_DIG.py:279 | The read uses the point count and timeout last stored for that DAQ |
| SdDig.TriggerModeAliasing | qcodes/instrument_drivers/Keysight/SD_common/SD_DIG.py:533 | `set_trigger_mode` (line 533) and `set_daq_trigger_mode` (line 622) write one array, so `get_trigger_mode` reports whichever ran last |
| SdDig.TriggerModeReachesDaqConfig | qcodes/instrument_drivers/Keysight/SD_common/SD_DIG.py:592-596 | A mode stored by `set_trigger_mode` is the mode the next DAQ configuration sends |
| SdDig.TriggerModeNotSent | qcodes/instrument_drivers/Keysight/SD_common/SD_DIG.py:533-535 | Two different modes produce the same library call from `set_trigger_mode` |
| SdDig.InputConfigCarriesEarlierSettings | qcodes/instrument_drivers/Keysight/SD_common/SD_DIG.py:466-469 | The input triple sent by `set_full_scale` carries the impedance and coupling stored before |
| SdDig.GetterOverridesSetter | qcodes/instrument_drivers/Keysight/SD_common/SD_DIG.py:425-427 | After a set and then a get, the shadow is what setting the reported value would have left |
| SdDig.ExtTriggerBehaviourNeverSent | qcodes/instrument_drivers/Keysight/SD_common/SD_DIG.py:694 | As written, after any attempt to set the behaviour on a fresh digitizer, the external configuration still sends behaviour 0 |
| SdDig.ExtTriggerBehaviourSent | qcodes/instrument_drivers/Keysight/SD_common/SD_DIG.py:694-696 | Corrected, the behaviour set is sent together with the source stored before |
| Fsw.SetStartAsWritten | qcodes/instrument_drivers/rohde_schwarz/FSW.py:88-99 | As written, the call always raises: ValueError after the write and the stop query exactly when the start is not below the stop, and otherwise AttributeError from `_update_traces` after the start was also read back |
| Fsw.SetStart | qcodes/instrument_drivers/rohde_schwarz/FSW.py:88-98 | Corrected (without the undefined call): the start is written and the stop is read first. It is accepted exactly when it is below the stop. A rejection raises ValueError after the write; an acceptance reads the start back and warns exactly when it differs |
| Fsw.SetStartAsWrittenRaises | qcodes/instrument_drivers/rohde_schwarz/FSW.py:88-99 | The driver as written and the corrected one write the same commands; exactly the starts the corrected one accepts raise AttributeError as written, and rejections are the same ValueError |
| Fsw.SetStartNeverSucceeds | qcodes/instrument_drivers/rohde_schwarz/FSW.py:99 | A start of 1 Hz against a 2 Hz stop is written and read back, then raises AttributeError as written; corrected, it succeeds without a warning |
| Fsw.SetStop | qcodes/instrument_drivers/rohde_schwarz/FSW.py:101-112 | The start is read first. The stop is accepted exactly when above the start, and a rejection raises ValueError having written nothing. An acceptance writes the stop, reads it back and warns exactly when it differs |
| Fsw.RejectedStopWritesNothing | qcodes/instrument_drivers/rohde_schwarz/FSW.py:102-105 | A rejected stop sends no write, so an instrument keeps its window |
| Fsw.RejectedStartAlreadyWritten | qcodes/instrument_drivers/rohde_schwarz/FSW.py:89-93 | A rejected start has already been written, leaving an instrument with start at or above stop |
| Fsw.AcceptedStopKeepsOrder | qcodes/instrument_drivers/rohde_schwarz/FSW.py:101-111 | An accepted stop, against replies that report the instrument, leaves the window ordered and logs no warning |
| Fsw.StripReply | qcodes/instrument_drivers/rohde_schwarz/FSW.py:84-86 | After `rstrip`, the first and last characters go, leaving nothing when fewer than two remain |
| Fsw.StripReplyQuoted | qcodes/instrument_drivers/rohde_schwarz/FSW.py:84-86 | A quoted reply followed by any trailing whitespace (separators `\x1c`-`\x1f` included), whose closing quote is not whitespace, comes back as the text between the quotes |
| Fsw.DisplayGrid | qcodes/instrument_drivers/rohde_schwarz/FSW.py:78-82 | The command written starts with `DISP:LAY GRID;:DISP:LAY:GRID `, and the rest splits at its comma into the rows and columns given, in decimal |
| DataSetCache.NewCache | qcodes/dataset/data_set_cache.py:22-29 | A fresh cache has empty data, empty read and write status, has not loaded from a completed dataset, and so satisfies the invariant `LoadKeepsConsistent` preserves |
| DataSetCache.Load | qcodes/dataset/data_set_cache.py:35-59 | Once loaded from a completed dataset, a load changes nothing and queries nothing. Otherwise it queries completion and then appends. It takes over the dataset's completed flag and sets its own flag exactly when the dataset is completed, before the append. A successful append replaces statuses and data by what it returns; a failing one raises its error and leaves statuses and data as they were, with the flags already set |
| DataSetCache.LoadKeepsConsistent | qcodes/dataset/data_set_cache.py:44-48 | A load never leaves the cache claiming a completed load on a dataset not seen completed, and never clears the flag |
| DataSetCache.CompletingLoadStillAppends | qcodes/dataset/data_set_cache.py:46-59 | The load that first sees completion sets the flag and still performs its append, taking over its result when it succeeds |
| DataSetCache.FailedCompletingLoadIsFinal | qcodes/dataset/data_set_cache.py:47-58 | When the append raises on the load that first sees completion, the error propagates, the cache is flagged with the data it held before, every later load does nothing, and `data()` returns that stale data |
| DataSetCache.LoadsFlag | qcodes/dataset/data_set_cache.py:44-48 | After a run of loads, the flag is set exactly when it was set before or some load saw completion |
| DataSetCache.LoadsIdleOnceLoaded | qcodes/dataset/data_set_cache.py:44-45 | Once loaded from a completed dataset, any run of loads changes nothing and queries nothing |
| DataSetCache.LoadsAppendCount | qcodes/dataset/data_set_cache.py:44-59 | From a cache not yet loaded from a completed dataset, a run of loads queries completion and appends once per load. This continues up to and including the first load that sees completion, and never after |
| DataSetCache.Data | qcodes/dataset/data_set_cache.py:61-74 | `data()` runs one load, raises what the load raised, and otherwise returns the data it leaves. Once loaded from a completed dataset, that is the data already held |
| DataSetCache.ToPandas | qcodes/dataset/data_set_cache.py:76-90 | `to_pandas()` runs one load and raises exactly when it raised. Otherwise it returns None exactly when the data is None, and the conversion of the data when it is not |
| DataSetCache.ToPandasAgreesWithData | qcodes/dataset/data_set_cache.py:73-89 | `data()` and `to_pandas()` see the same load and raise the same error together; otherwise one is None exactly when the other is, and the frames are the conversion of the data |

## Left out

- Transport and I/O are not modelled: VISA/serial setup, terminators, `connect_message`, IDN, `reset`, `local`/`remote`, and the drivers' `write`/`ask` overloads. A driver call returns the commands it writes, and replies are arguments.
- The Cryomagnetics `_set_field` wait loop (lines 189-191) is left out because it polls in real time. The readback-only calls `get_sweep`, `get_lowlim`, `_get_uplim` and `_get_field` are also left out; `get_lowlim` and `_get_uplim` call the commented-out `_check_ans_unit` (lines 152 and 161). The `<axis>_field` parameter's `get_parser=float` (line 63) is not modelled either: applied to a None reading from `get_magnetout` (see `Cryomagnetics.ParseFieldReplyNoDigits`) it raises TypeError, so such a get of the field fails. The commented-out code at lines 195-272 is left out too.
- Python float formatting (`%f`, `{:e}`, `{:.7f}`) and `float()` are not implemented. They are the `fmt` and `parseFloat` arguments. Arithmetic is on exact reals, so binary floating-point rounding is not modelled. `float_round` takes a number, not text.
- Strings are ASCII. Non-ASCII Unicode whitespace, case mapping and Unicode digits (as `\d` and `int()` accept them) are not modelled, nor are underscores in `int()` literals.
- The Keysight SD1 library and `result_parser` are not part of this model. The library calls are recorded as `LibCall` values and getters return the reported value unchanged. The other `daq_*` pass-throughs, clock and trigger-I/O functions and the parameter tables are not modelled.
- FSW's `_update_traces` (line 99) is defined neither in the driver nor in its base class, so the call raises AttributeError; `Fsw.SetStartAsWritten` models that, and `Fsw.SetStart` models the setter without the call, as the other setters have it commented out. The `logging.warning` on a mismatch is reported as the `true` result and not otherwise modelled. The `float` get parser of `start` and `stop` (lines 41 and 45) is not modelled: the replies arrive as numbers, so the ValueError a non-numeric reply raises there is left out. The setters `_set_npts`, `_set_span` and `_set_center` each write one command with no check, and are not modelled. The `add_function` command table is left out too.
- The sqlite queries `completed` and `append_shaped_parameter_data_to_existing_arrays`, and `_load_to_dataframes`, are not modelled. They are the `completedNow`, `append` and `toFrames` arguments. The append may fail with any error, but the `completed` query and `_load_to_dataframes` are taken not to raise.
- Cryomagnetics.SetSweep: the `logging.warning` for an unknown mode (line 133) is not modelled; the return value False is `Some(false)`, and the None returned after a write is `None`.
- Agilent N5183B, `utils/workarounds.py`, the SD_common package `__init__` and the test files are not part of this model: they hold no driver logic of the kinds above.
- Yokogawa.RemoveAll: its contract only bounds the length. What it removes is stated by `RemoveAllAbsent`, `RemoveAllPrefix` and `RemoveAllSinglePass`. It does not prove that the length drops by a multiple of four.
- SP927.DacParse: its contract states only the shape of the result. That it returns the word inside the whitespace is `Base.StripPadded`.
- Fsw.StripReply: its contract states lengths only. The content is `Fsw.StripReplyQuoted`.

## Findings

| source | as written | input that shows it | evidently intended | confidence | as-written member | corrected member |
|---|---|---|---|---|---|---|
| qcodes/instrument_drivers/Keysight/SD_common/SD_DIG.py:694 | `set_ext_trigger_behaviour` stores into `__external_behaviour`, an attribute never created (the array is `__trigger_behaviour`, line 72), so it raises AttributeError | any call, e.g. behaviour 1 on channel 0 | store into the behaviour shadow, then send (source, behaviour) | not executed | SdDig.SetExtTriggerBehaviourAsWritten (with SdDig.ExtTriggerBehaviourNeverSent) | SdDig.SetExtTriggerBehaviour (with SdDig.ExtTriggerBehaviourSent) |
| qcodes/instrument_drivers/rohde_schwarz/FSW.py:99 | `_set_start` ends with `self._update_traces()`, a method neither the driver nor `VisaInstrument` defines (every other setter has the call commented out), so each accepted start raises AttributeError after the write and the read-back | start 1 Hz with the stop at 2 Hz: written, read back, then AttributeError | leave the call out, as in `_set_stop`, and return normally | not executed | Fsw.SetStartAsWritten (with Fsw.SetStartNeverSucceeds and Fsw.SetStartAsWrittenRaises) | Fsw.SetStart |
| qcodes/instrument_drivers/unibasel/SP927.py:114,157 | the constructor takes `min_val`/`max_val` but creates each channel without them, so every channel gets -10..10 | construct with -5..5 and set 7 V on channel 1: accepted | pass the constructor's range to every channel | not executed | SP927.NewSP927 (with SP927.NewSP927IgnoresRange) | SP927.NewSP927Ranged (with SP927.NewSP927RangedHonoursRange) |
