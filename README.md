# Solar logger: row-store append and daily orchestration, in Dafny

This project models the core of a small solar-panel logger. Every ten
minutes during daylight the logger samples an inverter's web interface and
appends the sample to a Google Sheet.

It covers three pieces of the program:

- **`SheetReader`** (src/sheet_manager.py). The worksheet is a map from
  cell address to text. Cell F1 holds the number of the last row written.
  `update_row` reads F1 and writes cursor+1 back to it. It then reads F1
  again and writes the timestamp and every supplied column into that row.
  Every `update_acell` may be refused; a refused write raises, so the rest
  of the call does not run.
- **`SolarData`** (runner.py). The startup decision, the sunrise poll and
  the noon-guarded main loop. Each iteration reads four values, then
  appends one sheet row and one CSV row. The inverter status and the clock
  are a finite sequence of readings, one per check. Every `time.sleep(600)`
  is one tick.
- **The legacy loop** (main.py): `cur_time`, `waitloop` and `runningloop`.
  This older protocol caches the cursor once. It writes the data cells
  before F1, so a failed iteration rewrites the same row.

Each operation that changes state is a method of a class: `Worksheet`,
`SheetReader`, `SolarData` and `App`. The composite methods equate their
result and new state with a pure function of the old state: `UpdateRow`
with `UpdateRowEffect`, `PutColumns` with `ColumnsEffect`, `Catch` with
`CatchEffect`, `Attempt` with `AttemptEffect`, `Iterate` with
`Iteration`, `MainLoop` with `MainLoopEffect` (which runs `Loop`), `Run`
with `RunEffect`, `Pass` with `StepEffect`, `RunningLoop` with
`RunningLoopEffect` (which runs `RunLoop`) and `WaitLoop` with
`WaitLoopEffect`. The single-step methods
(`UpdateAcell`, `SetCurPos`, `LogIpAddress`, `IpAddress`, `WaitOnSunrise`,
`WriteRow`) state their new state directly. The lemmas state the source's
promises about the pure functions.

The model follows the code as written. Several behaviours of the code are
easy to misread:

- A weather failure loses the whole row. Cloud cover is fetched before
  `update_row`, inside the same `try`. The `get_cloud_levels` docstring
  (src/weather.py:49) promises -1 on error, but the method raises
  `WeatherAPIError` instead (src/weather.py:56).
- A `WeatherAPIError` is a `BaseException`, so `except Exception` does not
  catch it. It ends `main_loop` and `run` after the `finally` sleep, with no
  closing log line.
- `SheetReader` has no `write_cell`, so runner.py:149 raises on every
  iteration. The raise comes after the sheet and CSV writes. The external IP
  is therefore never fetched and cell K2 is never written.
- A non-numeric F1 is not a startup failure. `int()` raises inside
  `update_row` and the main loop catches it, once per iteration.
- The loop ends on the inverter's `is_online()` reading together with the
  hour. It does not test the microinverter count that the `main_loop`
  docstring (runner.py:108-110) describes.
- `cur_time("f")` keeps 18 characters of `str(datetime.now())`. That drops
  the units digit of the seconds (`CurTimeDropsSecondsDigit`).

## Model

| member | source | states |
|---|---|---|
| Cells.ParseInt | src/sheet_manager.py:105 | Python `int()` on a signed decimal text, None where it raises ValueError |
| Cells.IntToString | src/sheet_manager.py:106 | Python `str()` of an integer: an optional minus and the shortest decimal digits |
| SheetManager.ReadCursor | src/sheet_manager.py:105 | `int(self.cur_pos)`: None when F1 is empty or not a number |
| Cells.ParseIntToString | src/sheet_manager.py:105-106 | `int(str(n)) == n`: the cursor written back as text reads back as the same number |
| Cells.IntToStringInjective | src/sheet_manager.py:106 | distinct cursor values are written as distinct texts |
| Cells.Worksheet.Acell | src/sheet_manager.py:63 | `acell(c).value` is the text of `c`, None exactly when `c` is empty |
| Cells.Worksheet.UpdateAcell | src/sheet_manager.py:110 | an accepted write sets exactly that cell; a refused write changes nothing |
| SheetManager.DataWrites | src/sheet_manager.py:112-113 | one write per supplied column, in the dict's order, each into its column of the given row |
| SheetManager.RowWrites | src/sheet_manager.py:108-113 | the timestamp write and the data writes all land in the same row |
| SheetManager.RowPlan | src/sheet_manager.py:105-113 | F1 := str(cursor+1) comes first, and every later write of the call is in row cursor+1 |
| SheetManager.UpdateRowEffect | src/sheet_manager.py:102-113 | an unreadable F1 raises before any write and leaves the sheet unchanged; the call completes iff F1 is numeric and all writes are accepted |
| SheetManager.ColumnsEffect | src/sheet_manager.py:112-113 | the column writes in dict order up to the first refused one; Done iff every column write is accepted |
| SheetManager.UpdateRowSteps | src/sheet_manager.py:105-113 | write by write: refused at F1 means no change; refused at the timestamp means only F1 changed; otherwise the column loop runs on the sheet those two writes left |
| SheetManager.ColumnsFrame | src/sheet_manager.py:112-113 | the column loop changes no cell outside the supplied columns of its row |
| SheetManager.ColumnsComplete | src/sheet_manager.py:112-113 | with distinct columns, all accepted, every column of the row holds its value |
| SheetManager.UpdateRowFrame | src/sheet_manager.py:105-113 | only F1 and the row cursor+1 cells named by the timestamp column and the data keys can change |
| SheetManager.UpdateRowComplete | src/sheet_manager.py:105-113 | a fully accepted call leaves F1 = cursor+1 and row cursor+1 holding the timestamp and every value |
| SheetManager.CursorAdvancesFirst | src/sheet_manager.py:105-106 | refused at the first write means the sheet is unchanged; otherwise F1 reads cursor+1, however many later writes fail |
| SheetManager.NoRowReuse | src/sheet_manager.py:105-110 | once a call has advanced F1, the next call writes nothing in the first call's row |
| SheetManager.AppendAll | src/sheet_manager.py:105-113 | the sheet after successive update_row calls, in order, each with all its writes accepted |
| SheetManager.AppendAllCursor | src/sheet_manager.py:105-106 | N successful calls starting from cursor c leave F1 = c+N |
| SheetManager.AppendAllRows | src/sheet_manager.py:105-113 | N successful calls starting from cursor c fill rows c+1..c+N with their samples, in call order |
| SheetManager.AppendStep | src/sheet_manager.py:105-113 | one more successful call keeps rows c+1..c+n and adds row c+n+1 |
| SheetManager.RowSurvivesUpdate | src/sheet_manager.py:105-113 | a row other than cursor+1 keeps its sample through a call |
| SheetManager.SheetReader.constructor | src/sheet_manager.py:37-42 | timestamp column A, IP cells K2 and L2, no IP recorded yet |
| SheetManager.SheetReader.CurPos | src/sheet_manager.py:57-63 | the getter returns exactly the text of F1 |
| SheetManager.SheetReader.SetCurPos | src/sheet_manager.py:65-67 | the setter writes exactly F1; read back, the getter returns the new value |
| SheetManager.SheetReader.UpdateRow | src/sheet_manager.py:85-113 | the outcome and new sheet are `UpdateRowEffect` of the old sheet |
| SheetManager.SheetReader.PutColumns | src/sheet_manager.py:112-113 | the column loop writes each column in order and stops at the first refused write |
| SheetManager.SheetReader.LogIpAddress | src/sheet_manager.py:74-83 | a new IP is written to the cell and recorded; the same IP writes nothing; a refused write records nothing |
| Runner.IsPastNoon | runner.py:98-102 | the hour is past 12, so the 12 o'clock hour still counts as morning |
| Runner.Exits | runner.py:118 | the while test fails exactly when the inverter is offline and it is past noon |
| Runner.Fault | runner.py:122-125 | the first of the four readings, in call order, that raised |
| Runner.Escapes | runner.py:151 | the iteration lets an error out iff the first failing reading raised a BaseException, which `except Exception` does not catch |
| Runner.RowData | runner.py:129-134 | the dict passed to update_row: B, C, D, E holding wh, mi_online, watts and cloud cover, in that order |
| Runner.CsvOf | runner.py:136-144 | the CSV row: timestamp, wh, mi_online, cur_kw_output, cloud_cover |
| Runner.CatchEffect | runner.py:151-152 | an Exception adds the exception log line; a BaseException escapes with the world unchanged |
| Runner.AttemptEffect | runner.py:121-152 | a failed reading goes to the except clause before any write; otherwise update_row, the CSV append and the log line, then the missing write_cell raises |
| Runner.FullIterationAppendsRow | runner.py:121-152 | with all readings and writes succeeding and F1 = n, the iteration leaves F1 = n+1, row n+1 holding the timestamp and the four values, the CSV one sample longer, and the log ending in the data line and the exception line |
| Runner.MainLoopEffect | runner.py:117-156 | logs the loop entry, then runs the while loop from the first check |
| Runner.Finish | runner.py:181 | a normal end of main_loop logs the closing line; an escaping error skips it |
| Runner.RunEffect | runner.py:158-181 | online at launch: main_loop at once; offline in the morning: the sunrise wait, then main_loop; offline past noon: only the shutdown log lines |
| Runner.Iteration | runner.py:119-154 | one tick per iteration; escapes iff the first failing reading raised a BaseException; a caught iteration always ends logging an exception; a CSV row is appended only after the sheet row completed; any failed reading leaves sheet and CSV unchanged; with all four readings the sheet is `UpdateRowEffect` of the row they form; the log only grows, and starts with the morning-offline error line iff the re-check is offline before noon |
| Runner.Loop | runner.py:118-156 | the loop ends only at a check that is offline and past noon (hour > 12), or when an iteration lets a BaseException out; every earlier check continued; one tick per iteration run |
| Runner.FirstOnline | runner.py:92-96 | the sunrise poll stops exactly at the first online reading; elapsed readings alone never end it |
| Runner.FirstOnlineAt | runner.py:94-96 | the first online reading is the one the poll stops at |
| Runner.OnlineStartSkipsWait | runner.py:164-166 | online at launch: main_loop starts at once, and no sunrise reading is consumed |
| Runner.LateStartWritesNothing | runner.py:172-181 | offline at launch past noon: no wait, no loop, no write, no sleep, normal end |
| Runner.MorningStartWithoutSunrise | runner.py:174-175 | offline in the morning with no online reading: the loop never starts and nothing is written |
| Runner.MorningStartWaits | runner.py:174-177 | offline in the morning: main_loop starts right after the first online reading, one tick per offline reading before it |
| Runner.WeatherFailureLosesRow | runner.py:125-134 | a failing cloud-cover call leaves sheet and CSV unchanged; the run crashes iff it raised a BaseException |
| Runner.IterationFrame | runner.py:129-134 | an iteration writes no cell outside columns A-E other than F1 |
| Runner.LoopFrame | runner.py:118-154 | main_loop writes no cell outside columns A-E other than F1 |
| Runner.ExtIpCellNeverWritten | runner.py:148-149 | cell K2 keeps its content through a whole run |
| Runner.SolarData.constructor | runner.py:53-70 | state SUNRISE_WAIT, nothing logged or written, no IP recorded |
| Runner.SolarData.IpAddress | runner.py:72-78 | returns the fetched address, logs only a change, and always records it |
| Runner.SolarData.WaitOnSunrise | runner.py:92-96 | stops at `FirstOnline`, one tick per offline reading |
| Runner.SolarData.Catch | runner.py:151-152 | an Exception is logged and the iteration goes on to the sleep; a BaseException escapes |
| Runner.SolarData.Attempt | runner.py:121-152 | the try block's effect on sheet, CSV and log |
| Runner.SolarData.Iterate | runner.py:119-154 | the new state is `Iteration` of the old one |
| Runner.SolarData.MainLoop | runner.py:104-156 | the new state is `MainLoopEffect` of the old one |
| Runner.SolarData.Run | runner.py:158-181 | the new state is `RunEffect` of the old one |
| Legacy.Slice | main.py:113 | Python `s[0:n]`: a prefix of length min(n, len(s)) |
| Legacy.CurTime | main.py:110-121 | "s" gives at most 8 characters of the time; any other code gives at most 18 of the date and time |
| Legacy.CurTimeOtherCodes | main.py:117-119 | an unknown code behaves like "f" |
| Legacy.IsDateTimeText | main.py:114-115 | the shape of `str(datetime.now())`: "YYYY-MM-DD HH:MM:SS" with optional microseconds |
| Legacy.CurTimeDropsSecondsDigit | main.py:114-116 | on a `str(datetime.now())` text, the 18-character slice keeps the date, hours, minutes and the seconds' tens digit, and drops the seconds' units digit |
| Legacy.RowPlan | main.py:324-333 | five distinct cells: B, A, C, D of row last_pos+1 holding watt-hours, timestamp, inverters and watts, in that order, then F1 := last_pos+1 last |
| Legacy.Cursor | main.py:324 | `int(last_pos)`: None when the cached text is missing or not a number |
| Legacy.SeesSunset | main.py:311-315 | sunset is set when the inverter count is 0, which is reached only after the watts call succeeded |
| Legacy.StepEffect | main.py:309-338 | sunset is set iff the inverter reading is 0 and the watts call succeeded; the cached cursor moves only after all five writes, to last_pos+1 |
| Legacy.RunLoop | main.py:308-345 | the loop ends in SystemExit iff some iteration sees zero inverters, at the first such one, with no sleep after it |
| Legacy.ShutDown | main.py:271-274 | waitloop(2) logs and raises SystemExit |
| Legacy.RunningLoopEffect | main.py:293-345 | logs, reads F1 once into the cached cursor, then runs the loop from the first iteration |
| Legacy.WaitLoopEffect | main.py:252-279 | code 0 polls for sunrise, 1 and -1 run runningloop, 2 shuts down, any other code only logs |
| Legacy.FirstActive | main.py:259-265 | the sunrise poll stops at the first positive or raising status reading |
| Legacy.CursorWrittenLast | main.py:329-334 | an iteration failing partway leaves F1 and the cached cursor as they were |
| Legacy.StepWritesRow | main.py:324-334 | a fully accepted iteration fills B, A, C, D of row last_pos+1 and sets F1 to last_pos+1 |
| Legacy.PartialFailureRewritesRow | main.py:324-338 | after a partial failure the next successful iteration writes the same row again |
| Legacy.PartialWritesPrefix | main.py:329-333 | refused after k writes, the first k of B, A, C, D in row last_pos+1 hold the new sample and the others and F1 keep their old content |
| Legacy.StepFrame | main.py:324-333 | an iteration changes no cell other than F1 and columns A-D of row last_pos+1 |
| Legacy.StepCursor | main.py:324-335 | after an iteration the cached cursor is unchanged or reads one more than before |
| Legacy.RunLoopFrame | main.py:308-342 | through the whole loop every row up to the starting cursor, and every cell outside columns A-D other than F1, keeps its content |
| Legacy.BadCursorWritesNothing | main.py:324 | an unreadable cached cursor writes nothing |
| Legacy.SunsetIterationStillWrites | main.py:314-345 | the iteration that reads zero inverters still writes its row, then SystemExit with no sleep |
| Legacy.SunrisePollReturnsTrue | main.py:256-265 | waitloop(0) returns True at the first positive status reading, one sleep per earlier reading, with no write |
| Legacy.WaitLoopDispatch | main.py:267-279 | waitloop(-1) ends and writes like waitloop(1); any other unknown code only logs |
| Legacy.StepLogIndependent | main.py:309-338 | an iteration's writes, cursor and sunset flag do not depend on the log |
| Legacy.RunLoopLogIndependent | main.py:308-342 | the loop's outcome, writes and ticks do not depend on the log |
| Legacy.App.WriteRow | main.py:329-333 | the five writes in order, stopping at the first refused one |
| Legacy.App.Pass | main.py:309-338 | the new state is `StepEffect` of the old one |
| Legacy.App.RunningLoop | main.py:293-345 | the new state is `RunningLoopEffect` of the old one: F1 read once, then the loop, then waitloop(2) |
| Legacy.App.WaitLoop | main.py:252-279 | the new state is `WaitLoopEffect` of the old one: code 0 polls until a positive reading, 1 and -1 run runningloop, 2 raises SystemExit, others log |

## Left out

- Scraping and HTTP: the inverter readers, `SolarReader`, `requests`,
  the XPath queries and the weather API are not modelled. Their results are
  inputs: `Reading` and `Reply` in the runner, and `Reply<T>` in the
  legacy loop. `SolarReader.is_online()` and the clock are assumed never
  to raise.
- One reading per check: the `run` startup test takes its online flag and
  hour from one reading. The loop test at runner.py:118 also uses one
  reading. The anomaly test at runner.py:119 has its own reading (`recheck`)
  and only logs.
- Clocks: `datetime.now()`, `strftime` and `time.time()` are input texts.
  `time.sleep(600)` is a tick.
- Observations run out: a run that uses up its readings ends as `Horizon`
  or `Unfinished`. The model covers finite prefixes of a run.
- Floating point: the kW-to-W conversions and the cloud-cover percentage
  are not modelled. Readings are the texts written to the cells.
- Cells.ParseInt: Python's `int()` also accepts surrounding whitespace,
  `_` between digits and non-ASCII decimal digits (such as full-width
  digits). `ParseInt` rejects those texts, which `str()` never produces.
- Cell addresses: the model treats `col + str(row)` as `Cell(col, row)`. A
  cursor of -1 or less gives an address such as `A0` or `A-3`. The sheet
  service would refuse it, but the model accepts it as a cell.
- gspread's conversion of numbers on write is not modelled. Every value is
  the text written.
- CSV: `CSVWriter.write_row` either appends the whole row or raises. A
  partially written line is not modelled.
- Logging: only which line is logged, in order, for runner.py and main.py.
  Message text, levels and tracebacks are dropped.
- SheetManager.SheetReader.LogIpAddress: does not model the `log.info` line
  of src/sheet_manager.py:82. `SheetReader` keeps no log in this model.
- Cell reads: `acell('F1')` at src/sheet_manager.py:63 (reached from lines
  105 and 108) and at main.py:300 is assumed never to fail. Only writes can
  be refused.
- Credentials: OAuth authorisation and token refresh (`gc`, `worksheet`
  properties) are a no-op.
- `SheetReader._ip_address` and `SolarData._ip_address` fetch the public IP
  over HTTP. The fetched text is a parameter.
- main.py `init`, `debug_loop`, `internet_on`, `local_internet_on`,
  `apache_status` and the `__main__` sequence are not modelled. `init` is
  never called. The others are network checks or bootstrap.
- main.py line 266 (`waitloop(1)` after the sunrise poll) cannot be
  reached, because that loop only ends by returning or raising.
- main.py `first_loop`: both branches make the same `get_data_today` call,
  so the flag is not kept.
- runner.py and main.py argument parsing, the logger setup, the JSON
  config, and module-level setup are not modelled.
