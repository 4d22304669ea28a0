/** The daily orchestrator SolarData: decide at startup whether to run, wait for
    sunrise, then poll the inverters every ten minutes until a check finds them
    offline after noon, writing each sample to the sheet and to the CSV log.
    The inverter and the clock are a finite sequence of readings, one per check;
    every ten-minute sleep is one tick. */
module Runner {
  import opened Cells
  import opened SheetManager

  /** The State enum: SolarData assigns SunriseWait once and never updates it;
      the phases live in the control flow of Run. */
  datatype State = SunriseWait | SysOnline | Sunset

  /** One check of the inverter status and the clock. */
  datatype Reading = Reading(online: bool, hour: int)

  /** is_past_noon: the hour is 13 or later, so 12:00-12:59 is still morning. */
  predicate IsPastNoon(hour: int)
  {
    hour > 12
  }

  /** A check that ends main_loop: offline and past noon. */
  predicate Exits(c: Reading)
  {
    !c.online && IsPastNoon(c.hour)
  }

  /** The answer of one call into the inverter or weather readers: a value, an
      Exception, or a BaseException such as WeatherAPIError. */
  datatype Reply = Value(v: string) | Raised | RaisedBase

  /** What one iteration of main_loop meets: the re-check of the anomaly test,
      the four readings in call order, the sheet timestamp and how many of the
      sheet writes the store accepts, the CSV timestamp and whether the append
      succeeds. */
  datatype Poll = Poll(recheck: Reading, wh: Reply, mis: Reply, watts: Reply, cloud: Reply,
                       stamp: string, accepted: nat, csvStamp: string, csvOk: bool)

  /** One test of the while condition and the iteration it admits. */
  datatype Check = Check(test: Reading, poll: Poll)

  /** One line of the CSV log: timestamp, wh, mi_online, cur_kw_output, cloud_cover. */
  datatype CsvRow = CsvRow(stamp: string, wh: string, mis: string, watts: string, cloud: string)

  /** The log lines the orchestrator emits. */
  datatype Note =
    | Started | OnlineAtStartup | WaitingForSunrise | SunriseSeen | EnteringMainLoop
    | OfflineInMorning | DataWritten | LoopException | SigningOff | StartedAfterSunset
    | RunEnding | IpChanged(ip: string)

  /** Everything the orchestrator changes: the sheet, the CSV rows, the log, the sleeps. */
  datatype World = World(cells: Sheet, csv: seq<CsvRow>, log: seq<Note>, ticks: nat)

  datatype LoopEnd = SunsetAt(at: nat) | CrashedAt(at: nat) | Horizon

  datatype RunEnd = Finished | Crashed | Unfinished

  const WhCol := "B"
  const MiCol := "C"
  const CurKwCol := "D"
  const WeatherCol := "E"
  const ExtIpCell := Cell("K", 2)

  /** The first of the four readings that is not a value, if any. */
  function Fault(p: Poll): Option<Reply>
  {
    if !p.wh.Value? then Some(p.wh)
    else if !p.mis.Value? then Some(p.mis)
    else if !p.watts.Value? then Some(p.watts)
    else if !p.cloud.Value? then Some(p.cloud)
    else None
  }

  /** A BaseException leaves the iteration: the first failing reading raised one. */
  predicate Escapes(p: Poll)
  {
    Fault(p) == Some(RaisedBase)
  }

  /** The dict passed to update_row, in insertion order. */
  function RowData(p: Poll): seq<Column>
    requires Fault(p).None?
  {
    [(WhCol, p.wh.v), (MiCol, p.mis.v), (CurKwCol, p.watts.v), (WeatherCol, p.cloud.v)]
  }

  function CsvOf(p: Poll): CsvRow
    requires Fault(p).None?
  {
    CsvRow(p.csvStamp, p.wh.v, p.mis.v, p.watts.v, p.cloud.v)
  }

  /** A failed step inside the try: an Exception is logged, a BaseException escapes. */
  function CatchEffect(w: World, reply: Reply): (World, bool)
  {
    if reply.RaisedBase? then (w, true) else (w.(log := w.log + [LoopException]), false)
  }

  /** The try block of one iteration and its except clause: read, write the
      sheet row, append the CSV row, log, then the write_cell lookup that
      SheetReader does not define, which raises. */
  function AttemptEffect(w: World, p: Poll): (World, bool)
  {
    match Fault(p)
    case Some(reply) => CatchEffect(w, reply)
    case None =>
      var (outcome, cells) := UpdateRowEffect(w.cells, "A", p.stamp, RowData(p), p.accepted);
      var w1 := w.(cells := cells);
      if outcome.Failed? || !p.csvOk then CatchEffect(w1, Raised)
      else CatchEffect(w1.(csv := w1.csv + [CsvOf(p)], log := w1.log + [DataWritten]), Raised)
  }

  /** One iteration of main_loop: the anomaly test, the try block, and the sleep
      in the finally clause. The flag says a BaseException escaped. */
  function Iteration(w: World, p: Poll): (r: (World, bool))
    ensures r.0.ticks == w.ticks + 1
    ensures r.1 <==> Escapes(p)
    ensures !r.1 ==> |r.0.log| > 0 && r.0.log[|r.0.log| - 1] == LoopException
    ensures r.0.csv == w.csv
         || (Fault(p).None? && r.0.csv == w.csv + [CsvOf(p)]
             && UpdateRowEffect(w.cells, "A", p.stamp, RowData(p), p.accepted).0 == Done)
    ensures Fault(p).Some? ==> r.0.cells == w.cells && r.0.csv == w.csv
    ensures Fault(p).None? ==> r.0.cells == UpdateRowEffect(w.cells, "A", p.stamp, RowData(p), p.accepted).1
    ensures |w.log| <= |r.0.log| && r.0.log[..|w.log|] == w.log
    ensures (|w.log| < |r.0.log| && r.0.log[|w.log|] == OfflineInMorning)
        <==> (!IsPastNoon(p.recheck.hour) && !p.recheck.online)
  {
    var log := if !IsPastNoon(p.recheck.hour) && !p.recheck.online then w.log + [OfflineInMorning] else w.log;
    var (body, escaped) := AttemptEffect(w.(log := log), p);
    (body.(ticks := body.ticks + 1), escaped)
  }

  /** Checks i..j-1 all let the loop go on and none of their iterations lets a
      BaseException out. */
  predicate Continues(day: seq<Check>, i: nat, j: nat)
    requires i <= j <= |day|
  {
    forall k :: i <= k < j ==> !Exits(day[k].test) && !Escapes(day[k].poll)
  }

  /** The while loop of main_loop from check `i` on: it ends at the first check
      that is offline past noon, or when an iteration lets a BaseException out. */
  function Loop(w: World, day: seq<Check>, i: nat): (r: (LoopEnd, World))
    requires i <= |day|
    ensures match r.0
      case SunsetAt(at) =>
        i <= at < |day| && Exits(day[at].test) && Continues(day, i, at)
        && r.1.ticks == w.ticks + (at - i)
        && |r.1.log| > 0 && r.1.log[|r.1.log| - 1] == SigningOff
      case CrashedAt(at) =>
        i <= at < |day| && !Exits(day[at].test) && Escapes(day[at].poll) && Continues(day, i, at)
        && r.1.ticks == w.ticks + (at - i) + 1
      case Horizon =>
        Continues(day, i, |day|) && r.1.ticks == w.ticks + (|day| - i)
    decreases |day| - i
  {
    if i == |day| then (Horizon, w)
    else if Exits(day[i].test) then (SunsetAt(i), w.(log := w.log + [SigningOff]))
    else
      var (next, escaped) := Iteration(w, day[i].poll);
      if escaped then (CrashedAt(i), next) else Loop(next, day, i + 1)
  }

  /** main_loop: log the entry, then loop. */
  function MainLoopEffect(w: World, day: seq<Check>): (LoopEnd, World)
  {
    Loop(w.(log := w.log + [EnteringMainLoop]), day, 0)
  }

  /** The first online reading at or after `i`; None when every remaining reading is offline. */
  function FirstOnline(dawn: seq<Reading>, i: nat): (r: Option<nat>)
    requires i <= |dawn|
    ensures r.Some? ==> i <= r.value < |dawn| && dawn[r.value].online
    ensures r.Some? ==> forall k :: i <= k < r.value ==> !dawn[k].online
    ensures r.None? <==> forall k :: i <= k < |dawn| ==> !dawn[k].online
    decreases |dawn| - i
  {
    if i == |dawn| then None
    else if dawn[i].online then Some(i)
    else FirstOnline(dawn, i + 1)
  }

  /** How run reports the end of main_loop. */
  function Finish(r: (LoopEnd, World)): (RunEnd, World)
  {
    match r.0
    case SunsetAt(_) => (Finished, r.1.(log := r.1.log + [RunEnding]))
    case CrashedAt(_) => (Crashed, r.1)
    case Horizon => (Unfinished, r.1)
  }

  /** run: the startup decision on the first reading, the sunrise wait over
      `dawn`, and main_loop over `day`. */
  function RunEffect(w: World, start: Reading, dawn: seq<Reading>, day: seq<Check>): (RunEnd, World)
  {
    var w0 := w.(log := w.log + [Started]);
    if start.online then
      Finish(MainLoopEffect(w0.(log := w0.log + [OnlineAtStartup]), day))
    else if !IsPastNoon(start.hour) then
      var w1 := w0.(log := w0.log + [WaitingForSunrise]);
      match FirstOnline(dawn, 0)
      case None => (Unfinished, w1.(ticks := w1.ticks + |dawn|))
      case Some(k) =>
        Finish(MainLoopEffect(w1.(log := w1.log + [SunriseSeen], ticks := w1.ticks + k), day))
    else
      (Finished, w0.(log := w0.log + [StartedAfterSunset, RunEnding]))
  }

  /** Online at launch: main_loop starts at once, and no sunrise reading is taken. */
  lemma OnlineStartSkipsWait(w: World, start: Reading, dawn1: seq<Reading>, dawn2: seq<Reading>, day: seq<Check>)
    requires start.online
    ensures RunEffect(w, start, dawn1, day) == RunEffect(w, start, dawn2, day)
    ensures RunEffect(w, start, dawn1, day) == Finish(MainLoopEffect(w.(log := w.log + [Started, OnlineAtStartup]), day))
  {
    assert w.log + [Started] + [OnlineAtStartup] == w.log + [Started, OnlineAtStartup];
  }

  /** Offline at launch and past noon: neither the wait nor the loop runs; the
      sheet, the CSV log and the clock are untouched and the run ends normally. */
  lemma LateStartWritesNothing(w: World, start: Reading, dawn: seq<Reading>, day: seq<Check>)
    requires !start.online && IsPastNoon(start.hour)
    ensures var r := RunEffect(w, start, dawn, day);
      r.0 == Finished && r.1.cells == w.cells && r.1.csv == w.csv && r.1.ticks == w.ticks
  {
  }

  /** The first online reading is the one FirstOnline finds. */
  lemma FirstOnlineAt(dawn: seq<Reading>, k: nat)
    requires k < |dawn| && dawn[k].online
    requires forall j :: 0 <= j < k ==> !dawn[j].online
    ensures FirstOnline(dawn, 0) == Some(k)
  {
    assert FirstOnline(dawn, 0).Some?;
  }

  /** Offline at launch in the morning with no online reading: the loop never
      starts and the sheet is untouched. */
  lemma MorningStartWithoutSunrise(w: World, start: Reading, dawn: seq<Reading>, day: seq<Check>)
    requires !start.online && !IsPastNoon(start.hour)
    requires forall k :: 0 <= k < |dawn| ==> !dawn[k].online
    ensures RunEffect(w, start, dawn, day).0 == Unfinished
    ensures RunEffect(w, start, dawn, day).1.cells == w.cells
    ensures RunEffect(w, start, dawn, day).1.csv == w.csv
  {
    assert FirstOnline(dawn, 0).None?;
  }

  /** Offline at launch in the morning: main_loop starts right after the first
      online reading `k`, k ticks later. */
  lemma MorningStartWaits(w: World, start: Reading, dawn: seq<Reading>, day: seq<Check>, k: nat)
    requires !start.online && !IsPastNoon(start.hour)
    requires k < |dawn| && dawn[k].online
    requires forall j :: 0 <= j < k ==> !dawn[j].online
    ensures RunEffect(w, start, dawn, day)
      == Finish(MainLoopEffect(w.(log := w.log + [Started, WaitingForSunrise, SunriseSeen], ticks := w.ticks + k), day))
  {
    FirstOnlineAt(dawn, k);
    assert w.log + [Started] + [WaitingForSunrise] + [SunriseSeen] == w.log + [Started, WaitingForSunrise, SunriseSeen];
  }

  /** A weather failure, caught or not, loses the whole sample: neither the
      sheet nor the CSV log changes in that iteration. */
  lemma WeatherFailureLosesRow(w: World, p: Poll)
    requires p.wh.Value? && p.mis.Value? && p.watts.Value? && !p.cloud.Value?
    ensures Iteration(w, p).0.cells == w.cells && Iteration(w, p).0.csv == w.csv
    ensures Iteration(w, p).1 <==> p.cloud == RaisedBase
  {
  }

  /** An iteration whose four readings succeed and whose sheet and CSV writes are
      all accepted moves F1 from n to n+1 and fills row n+1: the timestamp in A,
      then wh, mi_online, cur_kw_output and cloud_cover in B to E. The CSV gains
      the same sample; the write_cell lookup then raises and is logged. */
  lemma FullIterationAppendsRow(w: World, p: Poll, n: int)
    requires Fault(p).None? && ReadCursor(w.cells) == Some(n)
    requires p.accepted >= 6 && p.csvOk
    ensures var r := Iteration(w, p);
      !r.1
      && ReadCursor(r.0.cells) == Some(n + 1)
      && RowHolds(r.0.cells, n + 1, "A", p.stamp, RowData(p))
      && r.0.csv == w.csv + [CsvOf(p)]
      && r.0.log[|r.0.log| - 2..] == [DataWritten, LoopException]
  {
    UpdateRowComplete(w.cells, "A", p.stamp, RowData(p), p.accepted);
  }

  /** A cell outside columns A-E, other than F1, is never written by an iteration. */
  lemma IterationFrame(w: World, p: Poll, c: Cell)
    requires c != CursorCell && c.col !in {"A", WhCol, MiCol, CurKwCol, WeatherCol}
    ensures Agree(w.cells, Iteration(w, p).0.cells, c)
  {
    if Fault(p).None? {
      var data := RowData(p);
      UpdateRowFrame(w.cells, "A", p.stamp, data, p.accepted, c);
    }
  }

  /** A cell outside columns A-E, other than F1, keeps its content through main_loop. */
  lemma {:induction false} LoopFrame(w: World, day: seq<Check>, i: nat, c: Cell)
    requires i <= |day|
    requires c != CursorCell && c.col !in {"A", WhCol, MiCol, CurKwCol, WeatherCol}
    ensures Agree(w.cells, Loop(w, day, i).1.cells, c)
    decreases |day| - i
  {
    if i < |day| && !Exits(day[i].test) {
      var (next, escaped) := Iteration(w, day[i].poll);
      IterationFrame(w, day[i].poll, c);
      if !escaped {
        LoopFrame(next, day, i + 1, c);
      }
    }
  }

  /** The external IP cell K2 is never written during a run: main_loop fails
      on write_cell before the address is fetched. */
  lemma ExtIpCellNeverWritten(w: World, start: Reading, dawn: seq<Reading>, day: seq<Check>)
    ensures Agree(w.cells, RunEffect(w, start, dawn, day).1.cells, ExtIpCell)
  {
    var w0 := w.(log := w.log + [Started]);
    if start.online {
      var w1 := w0.(log := w0.log + [OnlineAtStartup]);
      LoopFrame(w1.(log := w1.log + [EnteringMainLoop]), day, 0, ExtIpCell);
    } else if !IsPastNoon(start.hour) {
      var w1 := w0.(log := w0.log + [WaitingForSunrise]);
      match FirstOnline(dawn, 0)
      case None =>
      case Some(k) =>
        var w2 := w1.(log := w1.log + [SunriseSeen], ticks := w1.ticks + k);
        LoopFrame(w2.(log := w2.log + [EnteringMainLoop]), day, 0, ExtIpCell);
    }
  }

  /** SolarData: the sheet writer it drives, the State it never advances, the CSV
      rows it has appended, its log, the sleeps it has taken and the last IP
      address it fetched. */
  class SolarData {
    const sheetReader: SheetReader
    const state: State
    var csv: seq<CsvRow>
    var log: seq<Note>
    var ticks: nat
    var prevIp: Option<string>

    constructor (reader: SheetReader)
      ensures sheetReader == reader && state == SunriseWait
      ensures csv == [] && log == [] && ticks == 0 && prevIp == None
    {
      sheetReader := reader;
      state := SunriseWait;
      csv := [];
      log := [];
      ticks := 0;
      prevIp := None;
    }

    /** The part of the state that the spec functions describe. */
    function Snapshot(): World
      reads this, sheetReader.worksheet
    {
      World(sheetReader.worksheet.cells, csv, log, ticks)
    }

    /** _ip_address: returns the fetched address, logs a change, and always records it. */
    method IpAddress(fetched: string) returns (ip: string)
      modifies this`prevIp, this`log
      ensures ip == fetched && prevIp == Some(fetched)
      ensures log == old(log) + (if old(prevIp) != Some(fetched) then [IpChanged(fetched)] else [])
    {
      ip := fetched;
      if Some(ip) != prevIp {
        log := log + [IpChanged(ip)];
      }
      prevIp := Some(ip);
    }

    /** wait_on_sunrise: one reading per check, a tick after each offline one. */
    method WaitOnSunrise(dawn: seq<Reading>) returns (seen: Option<nat>)
      modifies this`log, this`ticks
      ensures seen == FirstOnline(dawn, 0)
      ensures log == old(log) + [WaitingForSunrise]
      ensures ticks == old(ticks) + (if seen.Some? then seen.value else |dawn|)
    {
      log := log + [WaitingForSunrise];
      var i := 0;
      while i < |dawn| && !dawn[i].online
        invariant i <= |dawn|
        invariant FirstOnline(dawn, i) == FirstOnline(dawn, 0)
        invariant ticks == old(ticks) + i
        invariant log == old(log) + [WaitingForSunrise]
      {
        ticks := ticks + 1;
        i := i + 1;
      }
      if i == |dawn| {
        return None;
      }
      return Some(i);
    }

    /** The except clause for a failed step: log an Exception, or let a BaseException out. */
    method Catch(reply: Reply) returns (escaped: bool)
      modifies this`log
      ensures (Snapshot(), escaped) == CatchEffect(old(Snapshot()), reply)
    {
      escaped := reply.RaisedBase?;
      if !escaped {
        log := log + [LoopException];
      }
    }

    /** The try block of one iteration. */
    method Attempt(p: Poll) returns (escaped: bool)
      modifies this`csv, this`log, sheetReader.worksheet
      ensures (Snapshot(), escaped) == AttemptEffect(old(Snapshot()), p)
    {
      var cur_wh := p.wh;
      if !cur_wh.Value? {
        escaped := Catch(cur_wh);
        return;
      }
      var cur_mis := p.mis;
      if !cur_mis.Value? {
        escaped := Catch(cur_mis);
        return;
      }
      var cur_watts := p.watts;
      if !cur_watts.Value? {
        escaped := Catch(cur_watts);
        return;
      }
      var cloud_cover := p.cloud;
      if !cloud_cover.Value? {
        escaped := Catch(cloud_cover);
        return;
      }
      var data := [(WhCol, cur_wh.v), (MiCol, cur_mis.v), (CurKwCol, cur_watts.v), (WeatherCol, cloud_cover.v)];
      var outcome := sheetReader.UpdateRow(data, "A", p.stamp, p.accepted);
      if outcome.Failed? || !p.csvOk {
        escaped := Catch(Raised);
        return;
      }
      csv := csv + [CsvRow(p.csvStamp, cur_wh.v, cur_mis.v, cur_watts.v, cloud_cover.v)];
      log := log + [DataWritten];
      // write_cell is not an attribute of SheetReader: the lookup raises AttributeError.
      escaped := Catch(Raised);
    }

    /** One iteration: the anomaly test, the try block, the sleep in finally. */
    method Iterate(p: Poll) returns (escaped: bool)
      modifies this`csv, this`log, this`ticks, sheetReader.worksheet
      ensures (Snapshot(), escaped) == Iteration(old(Snapshot()), p)
    {
      if !IsPastNoon(p.recheck.hour) && !p.recheck.online {
        log := log + [OfflineInMorning];
      }
      escaped := Attempt(p);
      ticks := ticks + 1;
    }

    /** main_loop over the checks in `day`. */
    method MainLoop(day: seq<Check>) returns (end: LoopEnd)
      modifies this`csv, this`log, this`ticks, sheetReader.worksheet
      ensures (end, Snapshot()) == MainLoopEffect(old(Snapshot()), day)
    {
      log := log + [EnteringMainLoop];
      ghost var goal := Loop(Snapshot(), day, 0);
      var i := 0;
      while i < |day| && (day[i].test.online || !IsPastNoon(day[i].test.hour))
        invariant i <= |day|
        invariant Loop(Snapshot(), day, i) == goal
        decreases |day| - i
      {
        var escaped := Iterate(day[i].poll);
        if escaped {
          return CrashedAt(i);
        }
        i := i + 1;
      }
      if i == |day| {
        return Horizon;
      }
      log := log + [SigningOff];
      return SunsetAt(i);
    }

    /** run: the startup decision, the sunrise wait and main_loop. */
    method Run(start: Reading, dawn: seq<Reading>, day: seq<Check>) returns (end: RunEnd)
      modifies this`csv, this`log, this`ticks, sheetReader.worksheet
      ensures (end, Snapshot()) == RunEffect(old(Snapshot()), start, dawn, day)
    {
      log := log + [Started];
      var loopEnd: LoopEnd;
      if start.online {
        log := log + [OnlineAtStartup];
        loopEnd := MainLoop(day);
      } else if !IsPastNoon(start.hour) {
        var seen := WaitOnSunrise(dawn);
        if seen.None? {
          return Unfinished;
        }
        log := log + [SunriseSeen];
        loopEnd := MainLoop(day);
      } else {
        log := log + [StartedAfterSunset, RunEnding];
        return Finished;
      }
      match loopEnd
      case SunsetAt(_) =>
        log := log + [RunEnding];
        end := Finished;
      case CrashedAt(_) =>
        end := Crashed;
      case Horizon =>
        end := Unfinished;
    }
  }
}
