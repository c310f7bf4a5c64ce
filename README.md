# LabJack reader, modelled in Dafny

This project models the data-collection core of the labjack-controller
package: the `LabjackReader` class that streams interleaved channel
samples off a LabJack device into one flat buffer of doubles and reads
them back as rows. It covers three versions of the reader:

- `labjackcontroller/labtools.py`, the current one. Rows are `n + 2`
  slots wide: the `n` channel values, the device time and the system
  time. `collect_data` stops at the first packet that would overflow the
  buffer. `to_list` and `_reshape_data` recover rows by index arithmetic.
- the copy under `build/lib`, which adds the `Singleton` metaclass, the
  `LJMLibrary.modify_settings` library settings and a device-level
  `modify_settings` that `_setup` routes its trigger and clock writes
  through.
- `labjacktools/labtools.py`, the older reader. Rows are `n + 1` wide
  (values and device time), it reads for a time budget and keeps reading
  once the buffer is full, and it also has `write_data_to_file` and
  `get_data`.

Modules, one per file:

| module | file | what it holds |
|---|---|---|
| `Values` | values.dfy | Option and Result wrappers, the dynamic Python values argument checks look at, the skip marker -9999.0 and `list.count` |
| `ReadBack` | readback.dfy | `get_max_data_index`, `get_max_row`, `_reshape_data` and `to_list` as functions on a snapshot of the reader |
| `StreamFill` | streamfill.dfy | `collect_data`'s buffer fill as a function of the delivered packets, with its properties |
| `Controller` | controller.dfy | `_setup`'s sample-rate clamp and register writes, `to_dataframe`'s labels, and the class `LabjackReader`, whose in-place fill is proved against `StreamFill` |
| `BuildLib` | buildlib.dfy | `Singleton.__call__`, the two `modify_settings` methods, `_setup` routed through them, and the `__init__` guard |
| `LegacyTools` | legacy.dfy | the labjacktools reader, its row loop and reading loop, and the text `write_data_to_file` produces |

Calls into the LabJack library, the clock and the file system are not
modelled as effects. Each becomes a parameter instead:

- whether `openS` and `eStreamStop` succeed;
- the sequence of packets `eStreamRead` delivers;
- the scan rate `eStreamStart` returns;
- the system clock, as a function of the buffer slot its reading lands in;
- Python's `str` of a float.

For the current reader the packets are what the device promises: each one
holds whole scans of `n` values. When the packets run out before the loop
ends, the stream read has raised. The model of the older reader assumes
nothing about packet lengths: a packet shorter than `n` raises IndexError
there, as the source does.

Where a test and the code disagree, the model follows the code.
`tests/labjackcontroller_test.py:83-87` expects
`to_list(mode='relative', num_rows=12)` and
`to_list(mode='range', start=2, end=40)` to raise on a ten-row run. The
code instead returns None for the first and clips the second to the eight
rows stored from row 2 on. `ReadBack.TestSuiteShapes` and
`ReadBack.TestSuiteRanges` state what the code does.

## Model

| member | source | states |
|---|---|---|
| Values.CountOf | labjackcontroller/labtools.py:884-887 | the skip count of a packet is at most its length, and zero exactly when no sample is -9999.0 |
| Values.CountOfAppend | labjacktools/labtools.py:348-349 | skip counts add up over concatenated packets, so the running total is the count over everything read |
| ReadBack.GetMaxDataIndex | labjackcontroller/labtools.py:241-244 | the cursor when it is nonzero, and -1 exactly when nothing is stored |
| ReadBack.GetMaxRow | labjackcontroller/labtools.py:218-225 | raises exactly when no channels are declared; -1 with nothing stored; otherwise the quotient of the cursor by n + 1 |
| ReadBack.GetMaxRowOvercounts | labjackcontroller/labtools.py:225 | as written, the result is the stored row count plus one extra per n + 1 rows |
| ReadBack.GetMaxRowTenRowRun | labjackcontroller/labtools.py:222-225 | on the test suite's one-channel, ten-row run it reports 15 |
| ReadBack.GetMaxRowCorrected | labjackcontroller/labtools.py:218-225 | the intended result: same error and empty cases, otherwise a positive count of rows whose width times the count is exactly the cursor |
| ReadBack.Chunks | labjackcontroller/labtools.py:270-272 | reshaping into rows of width w gives length / w rows, each w wide, which flatten back to the input |
| ReadBack.ReshapeData | labjackcontroller/labtools.py:263-274 | None exactly when there is no array, no data or a negative from_row; otherwise rows from_row up to to_row clipped at the cursor, each n + 2 wide, flattening to the matching slice of the buffer |
| ReadBack.RowBoundaries | labjackcontroller/labtools.py:265-268 | the clipped end and the start both fall on row boundaries inside the filled part |
| ReadBack.ToList | labjackcontroller/labtools.py:338-363 | None while nothing is stored; an error exactly for bad or missing range or row-count arguments, naming which; None for an unknown mode |
| ReadBack.ToListAll | labjackcontroller/labtools.py:342-346 | mode 'all' returns exactly the filled prefix cut into rows |
| ReadBack.ToListRelative | labjackcontroller/labtools.py:356-361 | mode 'relative' with k rows returns None exactly when fewer than k are stored, and otherwise the last k rows: they flatten to the last k row widths of the buffer below the cursor |
| ReadBack.ToListRange | labjackcontroller/labtools.py:347-355 | mode 'range' with 0 <= start < end returns the rows from start up to end clipped at the last stored row; they flatten to exactly that stretch of the buffer |
| ReadBack.CorrectedMaxRowMatchesToList | labjackcontroller/labtools.py:218-225 | the corrected get_max_row equals the number of rows 'all' returns |
| ReadBack.ReshapeIgnoresUnfilledSlots | labjackcontroller/labtools.py:263-272 | read-back depends only on the slots below the cursor |
| ReadBack.TestSuiteShapes | tests/labjackcontroller_test.py:72-84 | on a one-channel, ten-row run: 'all' gives 10 rows, 'relative' 5 gives 5, rows are 3 wide, 'relative' 12 gives None |
| ReadBack.TestSuiteRanges | tests/labjackcontroller_test.py:80-93 | 'range' 2..4 gives 2 rows, 2..40 gives 8, and a start of -30 raises |
| ReadBack.TestSuiteNoData | tests/labjackcontroller_test.py:65-70 | with no data, every mode gives None |
| StreamFill.PacketRowsLength | labjackcontroller/labtools.py:856-877 | the slots the row loop writes for a packet are exactly what the overflow guard reserves, (len / n) * (n + 2) |
| StreamFill.PacketRowsUnfold | labjackcontroller/labtools.py:860-877 | the slots from offset i on are the scan at i with its two times, then the slots for the scans after it |
| StreamFill.FillFrom | labjackcontroller/labtools.py:848-889 | the fill only extends the buffer and accepts packets in order |
| StreamFill.FillStep | labjackcontroller/labtools.py:856-889 | a packet that fits is stored whole and its markers counted before the next packet is read |
| StreamFill.FillFacts | labjackcontroller/labtools.py:848-858 | a whole run stays within capacity, ends on a row boundary, is Full exactly when the cursor reached the size, and ends the stream only after every packet |
| StreamFill.FillWithinCapacity | labjackcontroller/labtools.py:856-858 | the cursor never passes the buffer size |
| StreamFill.FillRowAligned | labjackcontroller/labtools.py:860-877 | the cursor stays a multiple of n + 2 |
| StreamFill.FillSkips | labjackcontroller/labtools.py:884-889 | the skip total counts the markers of exactly the accepted packets |
| StreamFill.FillStops | labjackcontroller/labtools.py:848-858 | the run stops because the buffer is full, because the first rejected packet would overflow, or because the stream ended |
| StreamFill.PacketRowsAsScans | labjackcontroller/labtools.py:860-877 | read back in rows of n + 2, a packet's slots are its scans, each followed by its two times |
| StreamFill.TimedScansLength | labjackcontroller/labtools.py:860 | a packet of len values gives len / n rows |
| StreamFill.TimedScanOne | labjackcontroller/labtools.py:866-877 | row j holds scan j, the device time at offset j * n and the clock reading of its last slot |
| StreamFill.TimedScanAt | labjackcontroller/labtools.py:866-877 | every row of a packet holds its scan and that scan's two times |
| StreamFill.PacketRowsReadBack | labjackcontroller/labtools.py:860-877 | what to_list reads back from a packet's slots is its scans in order, each with device time `ratio * (packet + offset / len)` and the system time |
| Controller.EffectiveSampleRate | labjackcontroller/labtools.py:479-486 | the sample rate never exceeds scan_rate * n; -1 becomes that maximum, anything above it becomes the maximum, and every other value is kept |
| Controller.EffectiveSampleRateIdempotent | labjackcontroller/labtools.py:482-486 | clamping twice is clamping once |
| Controller.RangeNames | labjackcontroller/labtools.py:509 | one `<channel>_RANGE` name per input, in order |
| Controller.StreamConfigNames | labjackcontroller/labtools.py:508-510 | the negative-channel register, the range registers, then settling and resolution |
| Controller.StreamConfigValues | labjackcontroller/labtools.py:511-512 | GND, the maximum voltages in order, then settling and resolution |
| Controller.StreamConfigFrames | labjackcontroller/labtools.py:508-517 | names and values pair up exactly when every input has a maximum voltage |
| Controller.Pair | labjackcontroller/labtools.py:516-517 | eWriteNames writes each name with the value at the same position |
| Controller.SetupWrites | labjackcontroller/labtools.py:498-517 | a T7 first resets the trigger index and clock source to 0; then, in order, AIN_ALL_NEGATIVE_CH gets GND, each input's range register gets its voltage, and STREAM_SETTLING_US and STREAM_RESOLUTION_INDEX get the settling time and resolution |
| Controller.DataFrameColumnsMatchRows | labjackcontroller/labtools.py:395-397 | every row to_list returns has exactly one entry per to_dataframe column label |
| Controller.CountSkips | labjackcontroller/labtools.py:884-887 | the loop counts exactly the -9999.0 markers of the packet |
| Controller.LabjackReader.constructor | labjackcontroller/labtools.py:70-87 | no channels, no array, cursor 0, connection closed |
| Controller.LabjackReader.OpenConnection | labjackcontroller/labtools.py:412-416 | opens only when closed; the flag is up afterwards unless opening failed |
| Controller.LabjackReader.CloseStream | labjackcontroller/labtools.py:434-444 | the flag drops exactly when stopping succeeds; a failure is swallowed |
| Controller.LabjackReader.WriteScan | labjackcontroller/labtools.py:869-877 | one row appended at the cursor: values, device time, clock reading; nothing past it changes |
| Controller.LabjackReader.WriteRows | labjackcontroller/labtools.py:860-877 | the per-row loop appends exactly the packet's rows and advances the cursor by the guard's reservation |
| Controller.LabjackReader.WriteNextScan | labjackcontroller/labtools.py:866-877 | one pass of the row loop keeps the stored prefix plus the rows still to write unchanged |
| Controller.LabjackReader.AcceptPacket | labjackcontroller/labtools.py:856-889 | one pass of the packet loop is one step of the fill specification |
| Controller.LabjackReader.StreamInto | labjackcontroller/labtools.py:848-895 | the buffer below the cursor is the fill of the packets, the skip total is its count, and slots above keep their allocation values |
| Controller.LabjackReader.CollectData | labjackcontroller/labtools.py:813-916 | every outcome: open failure, allocation failure, no channels, stream failure, or the fill with skips per channel, plus the final connection flag |
| BuildLib.Instance.constructor | build/lib/labjackcontroller/labtools.py:22-23 | the instance records its class and arguments |
| BuildLib.Singleton.constructor | build/lib/labjackcontroller/labtools.py:18 | the instance cache starts empty |
| BuildLib.Singleton.Call | build/lib/labjackcontroller/labtools.py:20-24 | a cached class gives the cached object and leaves the cache as is; a new class gets a fresh object that is cached |
| BuildLib.CallTwice | build/lib/labjackcontroller/labtools.py:20-24 | two calls for one class give the same object, built from the first call's arguments |
| BuildLib.LibrarySetting | build/lib/labjackcontroller/labtools.py:60-63 | exactly the three boolean keywords name a library setting |
| BuildLib.LibraryWrites | build/lib/labjackcontroller/labtools.py:58-77 | at most one write per keyword, each of value 0 or 1 |
| BuildLib.LibraryWritesSnoc | build/lib/labjackcontroller/labtools.py:58-77 | keywords are handled one after another, independently |
| BuildLib.LibraryWritesOnlyKnownKeys | build/lib/labjackcontroller/labtools.py:60-67 | only the three settings are ever written; other keywords, stream_timeout included, write nothing |
| BuildLib.LJMLibrary.constructor | build/lib/labjackcontroller/labtools.py:80 | the library object starts with no settings written |
| BuildLib.LJMLibrary.ModifySettings | build/lib/labjackcontroller/labtools.py:58-77 | the loop issues exactly the library writes of its keywords, in order |
| BuildLib.BooleanRegister | build/lib/labjackcontroller/labtools.py:317-325 | the eight power keywords name POWER_ registers |
| BuildLib.DioEfLine | build/lib/labjackcontroller/labtools.py:345-353 | a trigger name is accepted exactly when it is DIO_EF0..DIO_EF7, and gives that line |
| BuildLib.TriggerIndex | build/lib/labjackcontroller/labtools.py:338-367 | None gives 0; DIO_EFk gives 2000 + k; another string is a ValueError and a non-string a TypeError |
| BuildLib.TriggerIndexOfEachLine | build/lib/labjackcontroller/labtools.py:345-359 | each of the eight lines selects its own index |
| BuildLib.ClockSource | build/lib/labjackcontroller/labtools.py:368-379 | internal gives 0, external 2, anything else a ValueError |
| BuildLib.DeviceSettingsFrom | build/lib/labjackcontroller/labtools.py:315-384 | the method as written writes at most one register per keyword |
| BuildLib.BooleanSettingRaises | build/lib/labjackcontroller/labtools.py:327-329 | a boolean keyword raises KeyError for its register name and writes nothing |
| BuildLib.LedOnRaises | build/lib/labjackcontroller/labtools.py:321-329 | `modify_settings(led_on=True)` raises KeyError and leaves the LED alone |
| BuildLib.DeviceSettingsIntendedFrom | build/lib/labjackcontroller/labtools.py:315-384 | the corrected method writes at most one register per keyword |
| BuildLib.BooleanSettingWritesIntended | build/lib/labjackcontroller/labtools.py:327-335 | corrected, a boolean keyword writes 1 or 0 to its power register and raises nothing |
| BuildLib.IntendedAgreesWithoutBooleans | build/lib/labjackcontroller/labtools.py:337-384 | the correction changes nothing for calls without boolean keywords |
| BuildLib.Device.ModifySettings | build/lib/labjackcontroller/labtools.py:315-384 | the loop issues exactly the as-written writes, in order, and ends with the as-written exception |
| BuildLib.SetupWritesAgree | build/lib/labjackcontroller/labtools.py:725-750 | routed through modify_settings, `_setup` issues the same device writes as labjackcontroller's direct writes, and turns off the same library setting |
| BuildLib.TriggerOffRun | build/lib/labjackcontroller/labtools.py:338-343 | `triggered_stream=None` writes trigger index 0 and raises nothing |
| BuildLib.ClockInternalRun | build/lib/labjackcontroller/labtools.py:368-379 | `stream_clock="internal"` writes clock source 0 and raises nothing |
| BuildLib.RetryOffWrites | build/lib/labjackcontroller/labtools.py:60-72 | `retry_on_transaction_err=False` writes 0 to LJM_RETRY_ON_TRANSACTION_ID_MISMATCH |
| BuildLib.InitNeverRejects | build/lib/labjackcontroller/labtools.py:116-120 | the guard as written never raises |
| BuildLib.InitAcceptsNonStrings | build/lib/labjackcontroller/labtools.py:116-120 | a numeric device type with no connection or identifier, or a U3, gets through |
| BuildLib.InitIntendedGuard | build/lib/labjackcontroller/labtools.py:116-120 | the intended guard accepts exactly a T7 or T4 with string connection and identifier |
| LegacyTools.ScanRowsFit | labjacktools/labtools.py:325-338 | the row loop never writes past the buffer: a row is stored only when all its slots fit |
| LegacyTools.ScanRowsAligned | labjacktools/labtools.py:325-338 | a packet of whole scans adds whole rows of n + 1 |
| LegacyTools.ScanRowsKeepSamples | labjacktools/labtools.py:325-338 | with room for them, rows over the whole packet hold every sample, in order, one time per row |
| LegacyTools.AsWrittenMatchesIntended | labjacktools/labtools.py:325 | with two or more channels, the `len - 1` bound changes nothing |
| LegacyTools.UnitRowsOfPrefix | labjacktools/labtools.py:325-334 | with one channel, the rows below a bound depend only on the samples below it |
| LegacyTools.SingleChannelDropsLastSample | labjacktools/labtools.py:325 | as written, one channel stores every sample of a packet but the last, even with room |
| LegacyTools.IntendedKeepsEverySample | labjacktools/labtools.py:325-338 | the intended loop stores every sample of a packet that fits, in rows of n + 1 |
| LegacyTools.SingleChannelExample | labjacktools/labtools.py:325-338 | packet [1.0, 2.0] on one channel: as written only 1.0 is stored, as intended both are |
| LegacyTools.RunFrom | labjacktools/labtools.py:307-372 | the reading loop only extends the stored slots; a packet shorter than n ends it with IndexError after its rows are stored |
| LegacyTools.ShortPacketEndsRun | labjacktools/labtools.py:325-353 | a packet shorter than the channel count raises IndexError after storing its partial row, and no later packet is read |
| LegacyTools.RunWithinCapacity | labjacktools/labtools.py:328-329 | the stored slots never exceed the buffer, however many packets are read |
| LegacyTools.RunRowAligned | labjacktools/labtools.py:325-338 | the cursor stays a multiple of n + 1 |
| LegacyTools.RunSkips | labjacktools/labtools.py:345-349 | a run that raises nothing counts the markers of every packet read, stored or not |
| LegacyTools.RunErrors | labjacktools/labtools.py:317-372 | exactly when the loop raises: a zero scan rate or a zero step at the first packet; otherwise at the first packet that does not pass, a zero scans_per_read when it has two or more values, else IndexError when it is shorter than n; no exception exactly when every packet passes; a zero divisor stores nothing |
| LegacyTools.LegacySetupIsT7Setup | labjacktools/labtools.py:265-284 | whatever the device, the older reader writes what the newer one writes for a T7 |
| LegacyTools.FileCheck | labjacktools/labtools.py:146-159 | write_data_to_file goes ahead exactly when there is a nonempty buffer, a valid mode, a nonempty string filename, and a buffer of whole rows; otherwise the first failing check's error, in source order: TypeError without a buffer, NoData, BadMode, BadFilename, TypeError without channels, ReshapeError |
| LegacyTools.FileLineCount | labjacktools/labtools.py:156-166 | the file has a header and then one line per row |
| LegacyTools.HeaderReadsBack | labjacktools/labtools.py:162 | splitting the header at spaces gives the channels and "time" back |
| LegacyTools.RowLineReadsBack | labjacktools/labtools.py:165-166 | splitting a row line at spaces gives that row's value texts back |
| LegacyTools.LabjackReader.constructor | labjacktools/labtools.py:40-51 | no channels, buffer or cursor; connection closed |
| LegacyTools.LabjackReader.GetMaxDataIndex | labjacktools/labtools.py:67-70 | the cursor when it exists and is nonzero, otherwise -1 |
| LegacyTools.LabjackReader.OpenStream | labjacktools/labtools.py:85-93 | opens only when closed; a failed open exits the process |
| LegacyTools.LabjackReader.CloseStream | labjacktools/labtools.py:115-124 | the flag drops exactly when the stream was open and stopping succeeds |
| LegacyTools.LabjackReader.GetData | labjacktools/labtools.py:193-199 | None exactly when there is no buffer; with a buffer it always raises TypeError |
| LegacyTools.LabjackReader.WriteRow | labjacktools/labtools.py:332-338 | one row appended at the cursor: the values, then the time |
| LegacyTools.LabjackReader.StoreScan | labjacktools/labtools.py:325-338 | one pass of the row loop keeps the stored prefix plus the rows still to write unchanged |
| LegacyTools.LabjackReader.StorePacket | labjacktools/labtools.py:325-338 | the row loop appends exactly the packet's rows as written and nothing past them |
| LegacyTools.LabjackReader.ReadPacket | labjacktools/labtools.py:307-353 | one pass of the reading loop is one step of the run specification, ending it with IndexError for a packet shorter than n |
| LegacyTools.LabjackReader.ReadPackets | labjacktools/labtools.py:307-372 | the reading loop stores exactly the run specification's slots, counts its skips and ends with its exception; zeros stay above the cursor |
| LegacyTools.LabjackReader.CollectData | labjacktools/labtools.py:253-375 | every outcome, for packets of any length: exit on failed open, allocation failure, a loop exception (including IndexError for a short packet), a read failure, no channels, or the run with skipped scans per channel; the buffer below the cursor is the run, zeros above |
| LegacyTools.LabjackReader.WriteDataToFile | labjacktools/labtools.py:146-166 | the first failing check's error, or exactly the header followed by one line per row of the whole buffer |

## Left out

- The time-driven loop of the older `collect_data` is not modelled. The packets read before its time budget ran out are a parameter.
- In both readers the buffer size is a parameter. The float product `int(seconds * scan_rate * width)` is not computed.
- Printing, verbose progress lines and the run summary are left out. Only the skipped-scans figure is modelled, and only where it can raise.
- Controller.LabjackReader.CollectData: the elapsed time it also returns is not modelled, because it comes from the clock. The result is the skipped samples per channel.
- The system clock is an opaque function of the buffer slot its reading is stored in. Its values are never compared.
- LabJack error codes are not modelled: register writes, library writes and `eWriteNames` are assumed to return no error. The `error` variable that `modify_settings` reads before any write assigned it is modelled.
- The recovery path of `_stream_read` (reopening and reading again) is not modelled. A stream read that raises before the loop ends is modelled by running out of packets.
- `namesToAddresses` and `eStreamStart` are not modelled. `eStreamStart`'s returned scan rate is a positive parameter.
- `find_max_freq`, `__str__`, `__repr__`, `get_connection_status` and `close_connection` are not modelled. Neither are the metadata fields and the pandas object `to_dataframe` builds; only its column labels are.
- `collect_data` does not log the register writes of `_setup`. `SetupWrites` states them as a function.
- The multiprocessing sharing of `RawArray` and `Value` is not modelled. The buffer is a plain array and the cursor a field.
- LegacyTools.LabjackReader.WriteDataToFile: the method returns the lines instead of writing them. Two file effects are not modelled: opening in `w` or `w+` truncates the file before the reshape check can fail, and `r+` on a missing file raises.
- `str(float)` is an abstract `show` function. Whether a value's text contains a space is a precondition of the read-back lemmas.
- ReadBack.ReshapeData requires `to_row >= 0`, which every `to_list` call meets. A direct call with a negative `to_row` is not modelled.
- Identity comparisons with `is` on strings are modelled as equality.
- Floating-point values are modelled as reals, so rounding is not.
- The modelled reader methods follow the code as written. The corrected definitions in the findings below stand beside them and are related to them by lemmas.

## Findings

| source | as written | input that shows it | evidently intended | confidence | as-written member | corrected member |
|---|---|---|---|---|---|---|
| labjackcontroller/labtools.py:225 | `get_max_row` divides the cursor by `n + 1`, while rows are `n + 2` wide (line 265) | one channel, ten rows stored (cursor 30): reports 15 | the number of stored rows, cursor / (n + 2) = 10 | not executed | ReadBack.GetMaxRowOvercounts, ReadBack.GetMaxRowTenRowRun | ReadBack.GetMaxRowCorrected, ReadBack.CorrectedMaxRowMatchesToList |
| build/lib/labjackcontroller/labtools.py:116-120 | `... or (device_type != "T7" or device_type != "T4")` is always true, so the guard never raises (also labjackcontroller/labtools.py:64-68) | `LabjackReader(7, None, None)` is accepted | raise unless all three are strings and the type is T7 or T4 (the two types the guard names; DIGIT, which the docstring at line 96 also lists, is not among the guard's literals and is left out) | not executed | BuildLib.InitNeverRejects, BuildLib.InitAcceptsNonStrings | BuildLib.InitIntendedGuard |
| build/lib/labjackcontroller/labtools.py:328 | a boolean keyword's value is looked up as `kwargs[setting]`, under the register name | `modify_settings(led_on=True)` raises KeyError | `kwargs[kwarg]`: write 1 or 0 to the power register | not executed | BuildLib.BooleanSettingRaises, BuildLib.LedOnRaises | BuildLib.BooleanSettingWritesIntended, BuildLib.IntendedAgreesWithoutBooleans |
| labjacktools/labtools.py:325 | row offsets run over `range(0, len(ret[0]) - 1, step_size)` | one channel, packet [1.0, 2.0], room for both: only 1.0 is stored | `range(0, len(ret[0]), step_size)` | not executed | LegacyTools.SingleChannelDropsLastSample, LegacyTools.SingleChannelExample | LegacyTools.IntendedKeepsEverySample, LegacyTools.AsWrittenMatchesIntended |
