# Air-quality monitor core in Dafny

This project models the two parts of an ESP32 air-quality monitor whose
behaviour can be stated exactly.

**The AQI engine** (`main/aqi.cpp` and `main/aqi.h`):
- It turns particulate readings (PM10, PM2.5) into an air-quality index under one of two breakpoint standards:
  - EPA, the US scale;
  - MEP, the Chinese HJ 633-2012 scale as the code writes it.
- The engine holds a shared scale of seven index bins, 0-50 up to 401-500. For each algorithm it also holds a map from pollutant to seven concentration bins.
- The sub-index of one reading:
  1. Look the table up: -1 if the algorithm has none, -2 if the pollutant has none.
  2. Scan for the first closed bin that contains the concentration.
  3. Clamp the bin position to the last index bin.
  4. Interpolate linearly, and truncate toward zero as `static_cast<int>` does.
- The overall index is the running maximum of the sub-indices, starting from 0.

**The character display driver** (`main/lcd_ascii.c`, with constants from `main/lcd_ascii.h`):
- It drives an HD44780 controller in 4-bit mode through an I2C port expander.
- The model records every byte the driver hands to the expander, in order, in the display object's `sent` field.

Files:
- `aqi_types.dfy`: the declarations of `aqi.h`.
- `aqi.dfy`:
  - the tables exactly as the source writes them;
  - the specification functions `Bins`, `FirstContaining`, `Trunc`, `SubIndexOf`, `SubIndex` and `OverallIndex`;
  - class `AQI`. Its constructor fills `indices` and `algos` step by step. Its two loops are proved equal to the specification functions.
- `aqi_properties.dfy`: what the engine promises, proved as lemmas about the specification functions.
- `lcd_ascii.dfy`:
  - the byte encoders as functions over `bv8`;
  - class `Lcd`, which stands for `struct lcd_ascii`;
  - the driver procedures as methods over a possibly-null `Lcd?`, each proved to append a given byte sequence to `sent`;
  - lemmas about the encoding.
- `wrappers.dfy`: `Option`, which stands for a possibly-NULL `const char*`.

Modelling choices:
- C++ `float` is modelled as exact `real`. `static_cast<int>` is `Trunc`, written out as truncation toward zero.
- The display's byte values are `bv8`. Its `uint8_t` row and column arguments are numbers in 0..255 (`Byte`), and the narrowing to a byte is written out with `% 256`.

Two behaviours of the code worth knowing:
- **No matching bin.** A concentration that no bin contains is not interpolated over the last bin's end points. The code keeps `bpLo = 0` and `bpHi = 1` (main/aqi.cpp:26-27), so such a reading gets `trunc(99 c + 401)`. See `SubIndexOutsideEveryBin` and `AboveCeilingOvershoots`.
- **Monotonicity.** The sub-index is not monotone in the concentration: EPA PM2.5 12.0, 12.05 and 12.1 give 50, 1593 and 51. See `GapBreaksMonotonicity`.

## Model

| member | source | states |
|---|---|---|
| Aqi.TablesWellFormed | main/aqi.cpp:130-182 | each of the four concentration tables has as many bins as the index scale (7), each with lo < hi, and each ends below the start of the next |
| Aqi.Bins | main/aqi.cpp:12-24 | the lookup fails with "unknown algorithm" exactly when the algorithm has no table, and with "unknown pollutant" exactly when the algorithm has a table without that pollutant; a table found is well formed |
| Aqi.FirstContaining | main/aqi.cpp:28-36 | the scan position is that of a bin containing the concentration, with no earlier bin containing it, or the table length when no bin does |
| Aqi.Trunc | main/aqi.cpp:47 | the result is the integer nearest the value on the side of zero (truncation toward zero, for both signs) |
| Aqi.OverallIndex | main/aqi.cpp:50-59 | the result is at least 0 and every sub-index; it is 0 or equal to one of the sub-indices |
| Aqi.LastBinIsCeiling | main/aqi.cpp:81-82 | in a well-formed table every bin is a proper interval whose high bound is at most the last bin's high bound |
| Aqi.AQI.constructor | main/aqi.cpp:3-8 | the engine keeps the given algorithm (EPA by default, main/aqi.h:46) and holds exactly the index scale and the algorithm tables |
| Aqi.AQI.InitIndices | main/aqi.cpp:109-121 | after clearing and appending, the index scale is the seven bins 0-50 ... 401-500 in order |
| Aqi.AQI.InitAlgos | main/aqi.cpp:123-187 | after clearing and inserting, the map holds exactly EPA and MEP, each with exactly the PM10 and PM2.5 tables as written |
| Aqi.AQI.GetIntermediateIndex | main/aqi.cpp:10-48 | the loop-based lookup, scan, clamp and interpolation return exactly the specification sub-index: -1, -2, or the truncated interpolation over the first containing bin (or over 0..1 when none does) |
| Aqi.AQI.GetIndex | main/aqi.cpp:50-59 | the running-maximum loop returns exactly the overall index of the readings |
| Aqi.AQI.GetConcentration | main/aqi.cpp:61-65 | the unimplemented inverse answers 0 for every index |
| Aqi.AQI.GetMaxConcentration | main/aqi.cpp:67-83 | with a table, the last bin's high bound, which bounds every bin's high bound; without a table for the algorithm or the pollutant, 0 |
| Aqi.AQI.GetPrecision | main/aqi.cpp:85-95 | the display step is positive and at most 1, and below 1 exactly for PM2.5 |
| Aqi.AQI.GetUnits | main/aqi.cpp:97-107 | a unit exists exactly for the pollutants every algorithm has a table for, and it is "µg/m³"; otherwise none (NULL) |
| AqiProperties.SentinelsHaveNoTable | main/aqi.h:26-36 | only EPA and MEP have tables; the None algorithm gives "unknown algorithm", the None pollutant "unknown pollutant", and PM10 and PM2.5 are found under both algorithms |
| AqiProperties.IndexScale | main/aqi.cpp:113-120 | the index scale has seven bins from 0 to 500, each a proper interval, each starting one above the end of the previous |
| AqiProperties.EarlierBinEndsBelow | main/aqi.cpp:130-182 | in a well-formed table every earlier bin ends below the start of every later one |
| AqiProperties.FirstContainingFindsBin | main/aqi.cpp:29-36 | in a well-formed table a concentration in bin k is found by the scan at position k, so the bins never overlap |
| AqiProperties.TruncWithin | main/aqi.cpp:47 | truncating a value between two whole non-negative bounds stays between them and keeps a whole bound exactly |
| AqiProperties.InterpolateWithin | main/aqi.cpp:42-45 | over a proper concentration bin, the interpolation line stays within the index bin and meets its ends at the bin's ends |
| AqiProperties.SubIndexOfInBin | main/aqi.cpp:29-47 | against a well-formed table a concentration in bin k gets a sub-index within index bin k, equal to its low bound at the bin's low bound and to its high bound at the bin's high bound |
| AqiProperties.SubIndexInBin | main/aqi.cpp:10-47 | the same, for a reading under an algorithm and pollutant that have a table |
| AqiProperties.SubIndexOnScale | main/aqi.cpp:10-47 | a concentration that some bin contains gets a sub-index on the 0-500 scale |
| AqiProperties.SubIndexOutsideEveryBin | main/aqi.cpp:26-47 | a concentration in no bin gets exactly trunc(99 c + 401), at least 401 when c is non-negative |
| AqiProperties.AboveCeilingOvershoots | main/aqi.cpp:26-47 | a concentration above the last bin's high bound gets trunc(99 c + 401), which is above 500 |
| AqiProperties.BoundaryExamples | main/aqi.cpp:144-152 | EPA PM2.5 at 0, 35.4 and 150.4 gives 0, 100 and 200, and the cases of OtherBoundaryExamples hold |
| AqiProperties.OtherBoundaryExamples | main/aqi.cpp:130-138 | MEP PM10 at 50 gives 50; EPA PM10 at its ceiling 604 gives 500 |
| AqiProperties.GapBreaksMonotonicity | main/aqi.cpp:26-27 | EPA PM2.5 12.0 gives 50, 12.05 (between two bins) gives 1593, and 12.1 gives 51 |
| AqiProperties.TablesFitPrecision | main/aqi.cpp:130-182 | every table bound is a whole multiple of its pollutant's display precision; except MEP PM2.5, consecutive bins are exactly one precision step apart |
| AqiProperties.InsideSomeGap | main/aqi.cpp:29-36 | a concentration between the first bin's low bound and the last bin's high bound that no bin contains lies strictly inside a gap between neighbouring bins |
| AqiProperties.OnGridReadingFindsBin | main/aqi.cpp:29-36 | except under MEP for PM2.5, a reading that is a multiple of its display precision and lies between 0 and the ceiling is always in a bin |
| AqiProperties.MepPm25GridReadingInGap | main/aqi.cpp:174-182 | MEP PM2.5 35.5 is a multiple of the PM2.5 precision, yet lies in no bin (scan position 7) and gets 3915 |
| AqiProperties.OverallIndexOfNothing | main/aqi.cpp:52 | with no readings the overall index is 0 |
| AqiProperties.OverallIndexOfSubset | main/aqi.cpp:50-59 | readings drawn from those of another list never give a larger overall index |
| AqiProperties.OverallIndexOrderFree | main/aqi.cpp:50-59 | two lists with the same readings, in any order and with any repetition, give the same overall index |
| AqiProperties.OverallIndexOfPermutation | main/aqi.cpp:50-59 | a permutation of the readings gives the same overall index |
| AqiProperties.FailedReadingNeverWins | main/aqi.cpp:55-56 | a reading with a negative sub-index (an error -1 or -2) leaves the overall index unchanged, appended or prepended |
| AqiProperties.NoTableRatesZero | main/aqi.cpp:12-14 | under an algorithm without a table every list of readings rates 0 |
| AqiProperties.MaxConcentrationValues | main/aqi.cpp:67-83 | the ceilings are EPA PM10 604, EPA PM2.5 500.4, MEP PM10 600 and MEP PM2.5 500; 0 for the None algorithm and the None pollutant |
| AqiProperties.SubIndexAtCeiling | main/aqi.cpp:67-83 | a concentration equal to the ceiling gets exactly 500 |
| LcdAscii.CheckArg | main/lcd_ascii.c:14 | the argument check fails with ESP_ERR_INVALID_ARG exactly for a null handle |
| LcdAscii.DisplayFunction | main/lcd_ascii.c:62-66 | the 2-line bit is set iff rows > 1; the 5x10-dot bit is set iff the big font is asked for on one row; no other bit is set |
| LcdAscii.ClampRowAsWritten | main/lcd_ascii.c:174-175 | as written: a row up to the row count passes unchanged; a row above it becomes the last row |
| LcdAscii.ClampRow | main/lcd_ascii.c:174-175 | corrected: on a display of 1 to 256 rows the result is a row the display has; a row below the count passes; any other becomes the last row |
| LcdAscii.DdramAddress | main/lcd_ascii.c:173-176 | for a column below 20 the address stays below 0x80 and decodes back to exactly that column and row |
| LcdAscii.Strlen | main/lcd_ascii.c:136 | the length counts the bytes before the first NUL, or all of them when there is none |
| LcdAscii.CharsShown | main/lcd_ascii.c:136-144 | the count sent is at most the text length, at most 16 and at most the column count, and is one of these; for a negative column count it is 0, as the loop then runs no times |
| LcdAscii.Lcd.constructor | main/lcd_ascii.c:40-102 | lcd_init keeps the geometry and the chosen function-set flags; it ends with the backlight on, the display on without cursor or blink, and left entry; it has sent exactly the power-on sequence |
| LcdAscii.WriteData | main/lcd_ascii.c:233-238 | null check; otherwise one byte is appended: the value with the backlight bit ORed in |
| LcdAscii.PulseEnable | main/lcd_ascii.c:239-247 | null check; otherwise the data is appended with ENABLE raised and then with ENABLE cleared |
| LcdAscii.WriteNibble | main/lcd_ascii.c:226-232 | null check; otherwise the nibble is appended, followed by its enable pulse |
| LcdAscii.Send | main/lcd_ascii.c:208-225 | null check; otherwise the four frames of the byte are appended: high nibble with and without ENABLE, then low nibble likewise, all with the flags and the backlight |
| LcdAscii.Command | main/lcd_ascii.c:203-207 | null check; otherwise the instruction is sent with flags 0 |
| LcdAscii.Clear | main/lcd_ascii.c:113-119 | null check; otherwise the Clear Display instruction is sent |
| LcdAscii.Home | main/lcd_ascii.c:120-126 | null check; otherwise the Return Home instruction is sent |
| LcdAscii.SetDisplayControl | main/lcd_ascii.c:148-152 | null check; otherwise the display-control instruction with the given flags is sent |
| LcdAscii.Display | main/lcd_ascii.c:153-158 | null check; otherwise the display-control instruction with the mode is sent, and the result is Ok |
| LcdAscii.BacklightAsWritten | main/lcd_ascii.c:159-164 | as written: the mode goes out ORed with the stored backlight bit, and the stored bit is unchanged |
| LcdAscii.Backlight | main/lcd_ascii.c:159-164 | corrected: the stored backlight bit becomes the mode, and the byte written carries exactly that bit |
| LcdAscii.CursorPosAsWritten | main/lcd_ascii.c:170-177 | as written: null check; otherwise the Set DDRAM Address instruction for the column and the row clamped only when it exceeds the row count is sent |
| LcdAscii.CursorPos | main/lcd_ascii.c:170-177 | null check; otherwise the Set DDRAM Address instruction for the column and the corrected clamped row is sent |
| LcdAscii.Printf | main/lcd_ascii.c:127-147 | null check; otherwise, for an already formatted buffer, the characters before the first NUL, cut to the column count and to 16, are each sent as data, in order |
| LcdAscii.Cursor | main/lcd_ascii.c:165-169 | only the null check |
| LcdAscii.ScrollDisplay | main/lcd_ascii.c:178-182 | only the null check |
| LcdAscii.TextDirection | main/lcd_ascii.c:183-187 | only the null check |
| LcdAscii.ShiftInc | main/lcd_ascii.c:188-192 | only the null check |
| LcdAscii.ShiftDec | main/lcd_ascii.c:193-197 | only the null check |
| LcdAscii.CreateChar | main/lcd_ascii.c:198-202 | only the null check |
| LcdAscii.NibblesRoundTrip | main/lcd_ascii.c:211-212 | the high nibble ORed with the low nibble shifted back is the original byte, for every byte |
| LcdAscii.WireByteCarriesBacklight | main/lcd_ascii.c:236 | every byte written carries the stored backlight bits, and outside them exactly the value's bits |
| LcdAscii.CursorCommandAddress | main/lcd_ascii.c:176 | the cursor instruction has the Set DDRAM Address bit set, and its other seven bits are the position's DDRAM address |
| LcdAscii.PulseEnableLatches | main/lcd_ascii.c:242-244 | the pulse raises ENABLE and then lowers it, all other lines staying at data OR backlight |
| LcdAscii.FramesPulseEnable | main/lcd_ascii.c:214-217 | frames 0 and 2 have ENABLE set; frames 1 and 3 equal them with ENABLE cleared |
| LcdAscii.FramesControlLines | main/lcd_ascii.c:214-217 | in all four frames the register-select, read/write and backlight lines are those of flags OR backlight, so commands (flags 0) and text (register select) reach different registers |
| LcdAscii.FramesCarryFlags | main/lcd_ascii.c:214-217 | all four frames carry every bit of flags OR backlight |
| LcdAscii.FramesRoundTrip | main/lcd_ascii.c:208-217 | when the flags and backlight stay off D7-D4, the controller reassembles exactly the byte sent from the two latched nibbles |
| LcdAscii.TextRoundTrip | main/lcd_ascii.c:143-144 | text sent character by character with a backlight bit off the data lines reaches the controller unchanged |
| LcdAscii.InitSequenceCommands | main/lcd_ascii.c:69-99 | the power-on sequence is 41 bytes; byte 15 puts the 4-bit switch (0x2) on the data lines; the controller receives the function set with the chosen flags, and last Return Home |
| LcdAscii.ClampRowAsWrittenLetsRowCountThrough | main/lcd_ascii.c:174-176 | as written, a row equal to the row count passes the clamp: row 4 of a four-row display indexes past the four row offsets, and row 2 of a two-row display is not a row of it |
| LcdAscii.CursorPosRowCountAsWritten | main/lcd_ascii.c:173-176 | as written, column 0 of row 2 on a two-row display is sent to address 0x14 (instruction 0x94), a row the display lacks; with the correction to 0x40 (instruction 0xC0), the last row |
| LcdAscii.ClampRowInTable | main/lcd_ascii.c:173-176 | with the corrected clamp, on a display of 1 to 4 rows every row lands on a row of the display, inside the row table |
| LcdAscii.BacklightOffIgnoredAsWritten | main/lcd_ascii.c:159-164 | as written, switching off with the backlight on still writes the backlight bit, and every later frame carries it |
| LcdAscii.BacklightOffTakesEffect | main/lcd_ascii.c:159-164 | with the correction, switching off clears the backlight line in the byte written and in every later frame whose flags leave it clear |

## Left out

- I2C transfers and their errors are not modelled: `write_8`, `write_data`, the device mutex, and `i2c_dev_create_mutex`. The model has every transfer succeed and records its bytes in `sent`. Whether `ESP_ERROR_CHECK` aborts is therefore not modelled.
- The sleeps between writes are not modelled, nor the `ESP_LOG*` logging. They carry no data.
- The `sprintf` formatting in `lcd_printf` (main/lcd_ascii.c:130-135) is not modelled. It passes a `va_list` where arguments are expected, and it can overrun the 16-byte buffer. `Printf` takes the already formatted buffer as its argument.
- `lcd_free` is not modelled. Freeing memory and deleting the mutex have no counterpart in the model.
- The `malloc` in `lcd_init` is not modelled, nor the copying of the I2C address, port and pin configuration. None of them is read by the encoding.
- `LcdAscii.Lcd.constructor` assigns `display_ctrl` and `display_mode` before the first send. `lcd_init` assigns them just before the commands that use them, and no earlier send reads them, so the bytes sent are the same.
- `LcdAscii.CursorPos` requires that the clamped row index the four-entry row table. With the corrected clamp that holds whenever the display has one to four rows; `LcdAscii.CursorPosAsWritten` needs the same of the as-written clamp, which a row equal to a row count of four violates. The source reads out of bounds otherwise, which is undefined behaviour in C.
- `LcdAscii.DdramAddress`: the position is decoded back only for columns below 20, the widest display the row offsets allow.
- IEEE `float` rounding is not modelled: literals such as 12.1f or 35.4f, the float division, and the overflow of `static_cast<int>` for values outside the `int` range. The model computes in exact reals.
- A negative concentration lies in no bin, so it gets trunc(99 c + 401). At or below -402/99 that is negative, and for c = -4.065 it is -1, the same value as the unknown-algorithm error code. The model keeps that collision as the code has it. The overall index ignores such a value, just as it ignores the error codes (`FailedReadingNeverWins`).
- `Aqi.AQI.GetPrecision`: the contract characterises the step (positive, at most 1, below 1 exactly for PM2.5). The exact values 1 and 0.1 are used by `TablesFitPrecision` and `MepPm25GridReadingInGap`.
- `Aqi.AQI.GetUnits`: the unit is a Dafny string of five characters; the C result is a NUL-terminated UTF-8 `const char*` of seven bytes, and its byte encoding is not modelled.
- main/main.cpp is not part of this model (the sensor polling loop, bus enumeration and printing), nor are main/http_server.c, main/system.c and main/utils.c. They are hardware and network I/O behind libraries.

## Findings

| source | as written | input that shows it | evidently intended | confidence | as-written member | corrected member |
|---|---|---|---|---|---|---|
| main/lcd_ascii.c:174-175 | the row is clamped only when `row > num_rows`, so `row == num_rows` passes | `lcd_cursor_pos(lcd, 0, 4)` on a four-row display indexes `row_offsets[4]`, past the table; row 2 on a two-row display addresses a row it does not have | clamp when `row >= num_rows`, so the row is always one the display has | not executed | LcdAscii.ClampRowAsWritten, LcdAscii.CursorPosAsWritten, LcdAscii.ClampRowAsWrittenLetsRowCountThrough, LcdAscii.CursorPosRowCountAsWritten | LcdAscii.ClampRow, LcdAscii.ClampRowInTable, LcdAscii.CursorPos |
| main/lcd_ascii.c:159-164 | `lcd_backlight` writes `mode` through `lcd_write_data`, which ORs in the stored `backlight` (on since `lcd_init`), and never updates it | `lcd_backlight(lcd, LCD_BACKLIGHT_OFF)` after `lcd_init` writes 0x08: the backlight stays on, and every later transfer keeps it on | store the mode as the new backlight bit and write it, so off takes effect | not executed | LcdAscii.BacklightAsWritten, LcdAscii.BacklightOffIgnoredAsWritten | LcdAscii.Backlight, LcdAscii.BacklightOffTakesEffect |
