/** The older orchestrator of main.py: waitloop polls for sunrise and dispatches
    on a phase code; runningloop caches the cursor once, writes each sample's
    cells B, A, C, D and only then F1, and stops right after the first
    iteration that reads zero microinverters. Scraper calls are replies that
    either yield a value or raise; every sleep is one tick. */
module Legacy {
  import opened Cells

  /** One scraper call: its value, or an Exception (network, XPath, int()). */
  datatype Reply<T> = Got(v: T) | Fails

  /** The log lines of the legacy loop. */
  datatype Note =
    | SettingUp | Ready | DataWritten | LoopFailed | PreparingForNight
    | WaitingForSunrise | StartingUp | ShuttingDown | JumpingToDaytime | ShouldNotSeeThis

  /** What the legacy loop changes: the sheet, the log, the sleeps. */
  datatype World = World(cells: Sheet, log: seq<Note>, ticks: nat)

  /** How a call of waitloop or runningloop ends: returning True, returning
      None, raising SystemExit, letting a scraper exception out, or running out
      of readings. */
  datatype End = ReturnedTrue | ReturnedNone | SystemExit | Raised | Horizon

  function Min(a: nat, b: nat): nat { if a < b then a else b }

  /** Python's s[0:n]. */
  function Slice(s: string, n: nat): (r: string)
    ensures |r| == Min(n, |s|) && r <= s
  {
    if |s| <= n then s else s[..n]
  }

  /** cur_time: "s" slices the str() of the time of day to 8 characters; "f"
      and every other code slice the str() of the date and time to 18. */
  function CurTime(format: string, timeText: string, dateTimeText: string): (r: string)
    ensures format == "s" ==> |r| == Min(8, |timeText|) && r <= timeText
    ensures format != "s" ==> |r| == Min(18, |dateTimeText|) && r <= dateTimeText
  {
    if format == "s" then Slice(timeText, 8)
    else if format == "f" then Slice(dateTimeText, 18)
    else Slice(dateTimeText, 18)
  }

  /** Any code other than "s" gives the "f" result. */
  lemma CurTimeOtherCodes(format: string, timeText: string, dateTimeText: string)
    requires format != "s"
    ensures CurTime(format, timeText, dateTimeText) == CurTime("f", timeText, dateTimeText)
  {
  }

  /** The shape of str(datetime.now()): "YYYY-MM-DD HH:MM:SS", optionally
      followed by ".ffffff". */
  predicate IsDateTimeText(s: string)
  {
    |s| >= 19
    && s[4] == '-' && s[7] == '-' && s[10] == ' ' && s[13] == ':' && s[16] == ':'
    && forall i :: 0 <= i < 19 && i !in {4, 7, 10, 13, 16} ==> IsDigit(s[i])
  }

  /** The two-digit seconds field of a date-time text. */
  function Seconds(s: string): (sec: string)
    requires IsDateTimeText(s)
    ensures |sec| == 2 && IsDigit(sec[0]) && IsDigit(sec[1])
  {
    s[17..19]
  }

  /** cur_time("f") keeps the date, the hours and minutes and the tens digit of
      the seconds, and drops the seconds' units digit: the result is one
      character short of a whole "YYYY-MM-DD HH:MM:SS". */
  lemma CurTimeDropsSecondsDigit(timeText: string, dateTimeText: string)
    requires IsDateTimeText(dateTimeText)
    ensures var r := CurTime("f", timeText, dateTimeText);
      |r| == 18 && r[..17] == dateTimeText[..17] && r[16] == ':'
      && r[17] == Seconds(dateTimeText)[0]
      && r + [Seconds(dateTimeText)[1]] == dateTimeText[..19]
  {
    assert 17 !in {4, 7, 10, 13, 16} && 18 !in {4, 7, 10, 13, 16};
  }

  /** One iteration's readings and sinks: inverters online, current watts,
      today's watt-hours, the date-time text for the timestamp, how many of the
      five cell writes the store accepts, and the re-read of today's
      watt-hours for the closing log line. */
  datatype Tick = Tick(mi: Reply<int>, kw: Reply<string>, wh: Reply<string>,
                       clock: string, accepted: nat, report: Reply<string>)

  /** The order in which an iteration writes the row's columns: watt-hours,
      timestamp, inverters online, current watts. */
  const WriteOrder := ["B", "A", "C", "D"]

  /** The writes of one iteration with cached cursor n: B, A, C, D of row n+1, then F1. */
  function RowPlan(n: int, wh: string, stamp: string, mi: int, kw: string): (ws: seq<Write>)
    ensures |ws| == 5 && ws[4] == Write(CursorCell, IntToString(n + 1))
    ensures forall k :: 0 <= k < 4 ==> ws[k].cell == Cell(WriteOrder[k], n + 1)
    ensures ws[0].value == wh && ws[1].value == stamp && ws[2].value == IntToString(mi) && ws[3].value == kw
    ensures forall k :: 0 <= k < 4 ==> ws[k].cell.row == n + 1 && ws[k].cell != CursorCell
    ensures forall j, k :: 0 <= j < k < 5 ==> ws[j].cell != ws[k].cell
  {
    [Write(Cell("B", n + 1), wh), Write(Cell("A", n + 1), stamp), Write(Cell("C", n + 1), IntToString(mi)),
     Write(Cell("D", n + 1), kw), Write(CursorCell, IntToString(n + 1))]
  }

  /** int(last_pos): None when the cached text is missing or not a number. */
  function Cursor(lastPos: Option<string>): Option<int>
  {
    if lastPos.None? then None else ParseInt(lastPos.value)
  }

  /** The zero-inverter test that sets sunset: reached only when the watts call succeeded. */
  predicate SeesSunset(t: Tick)
  {
    t.mi == Got(0) && t.kw.Got?
  }

  /** The try block and except clause of one runningloop iteration, before the
      finally clause: the new world, the new cached cursor text, and sunset. */
  function StepEffect(w: World, lastPos: Option<string>, t: Tick): (r: (World, Option<string>, bool))
    ensures r.2 <==> SeesSunset(t)
    ensures r.0.ticks == w.ticks
    ensures r.1 != lastPos ==>
      Cursor(lastPos).Some? && t.accepted >= 5 && r.1 == Some(IntToString(Cursor(lastPos).value + 1))
  {
    var failed := w.(log := w.log + [LoopFailed]);
    if t.mi.Fails? || t.kw.Fails? then (failed, lastPos, false)
    else
      var sunset := t.mi.v == 0;
      if t.wh.Fails? || Cursor(lastPos).None? then (failed, lastPos, sunset)
      else
        var n := Cursor(lastPos).value;
        var plan := RowPlan(n, t.wh.v, CurTime("f", "", t.clock), t.mi.v, t.kw.v);
        if t.accepted < |plan| then (failed.(cells := Apply(w.cells, plan[..t.accepted])), lastPos, sunset)
        else
          var written := w.(cells := Apply(w.cells, plan));
          var note := if t.report.Fails? then LoopFailed else DataWritten;
          (written.(log := written.log + [note]), Some(IntToString(n + 1)), sunset)
  }

  /** Log and raise SystemExit: waitloop(2). */
  function ShutDown(w: World): (End, World)
  {
    (SystemExit, w.(log := w.log + [ShuttingDown]))
  }

  /** The while loop of runningloop from iteration `i` on, with cached cursor
      text `lastPos`: the loop stops after the first iteration that reads zero
      inverters, with no sleep after it, and then shuts down. */
  function RunLoop(w: World, lastPos: Option<string>, day: seq<Tick>, i: nat): (r: (End, World))
    requires i <= |day|
    ensures r.0 == SystemExit || r.0 == Horizon
    ensures r.0 == Horizon <==> forall k :: i <= k < |day| ==> !SeesSunset(day[k])
    ensures r.0 == Horizon ==> r.1.ticks == w.ticks + (|day| - i)
    ensures r.0 == SystemExit ==>
      (exists at :: i <= at < |day| && SeesSunset(day[at])
         && (forall k :: i <= k < at ==> !SeesSunset(day[k])) && r.1.ticks == w.ticks + (at - i))
    decreases |day| - i
  {
    if i == |day| then (Horizon, w)
    else
      var (next, lp, sunset) := StepEffect(w, lastPos, day[i]);
      if sunset then ShutDown(next.(log := next.log + [PreparingForNight]))
      else RunLoop(next.(ticks := next.ticks + 1), lp, day, i + 1)
  }

  /** runningloop: log, read F1 once into last_pos, then loop. */
  function RunningLoopEffect(w: World, day: seq<Tick>): (End, World)
  {
    var lastPos := if CursorCell in w.cells then Some(w.cells[CursorCell]) else None;
    RunLoop(w.(log := w.log + [SettingUp, Ready]), lastPos, day, 0)
  }

  /** The first status reading at or after `i` that ends the sunrise poll: a
      positive count or a raised exception. */
  function FirstActive(polls: seq<Reply<int>>, i: nat): (r: Option<nat>)
    requires i <= |polls|
    ensures r.Some? ==> i <= r.value < |polls| && !(polls[r.value].Got? && polls[r.value].v <= 0)
    ensures r.Some? ==> forall k :: i <= k < r.value ==> polls[k].Got? && polls[k].v <= 0
    ensures r.None? <==> forall k :: i <= k < |polls| ==> polls[k].Got? && polls[k].v <= 0
    decreases |polls| - i
  {
    if i == |polls| then None
    else if !(polls[i].Got? && polls[i].v <= 0) then Some(i)
    else FirstActive(polls, i + 1)
  }

  /** waitloop(code): 0 polls for sunrise, 1 and -1 run runningloop, 2 shuts
      down, anything else only logs. */
  function WaitLoopEffect(w: World, code: int, polls: seq<Reply<int>>, day: seq<Tick>): (End, World)
  {
    if code == 0 then
      var w1 := w.(log := w.log + [WaitingForSunrise]);
      match FirstActive(polls, 0)
      case None => (Horizon, w1.(ticks := w1.ticks + |polls|))
      case Some(k) => (if polls[k].Got? then ReturnedTrue else Raised, w1.(ticks := w1.ticks + k))
    else if code == 1 then RunningLoopEffect(w.(log := w.log + [StartingUp]), day)
    else if code == 2 then ShutDown(w)
    else if code == -1 then RunningLoopEffect(w.(log := w.log + [JumpingToDaytime]), day)
    else (ReturnedNone, w.(log := w.log + [ShouldNotSeeThis]))
  }

  /** Cell F1 is written last: an iteration that fails partway leaves F1 and the
      cached cursor as they were. */
  lemma CursorWrittenLast(w: World, lastPos: Option<string>, t: Tick)
    requires t.accepted < 5
    ensures Agree(w.cells, StepEffect(w, lastPos, t).0.cells, CursorCell)
    ensures StepEffect(w, lastPos, t).1 == lastPos
  {
    if t.mi.Got? && t.kw.Got? && t.wh.Got? && Cursor(lastPos).Some? {
      var n := Cursor(lastPos).value;
      var plan := RowPlan(n, t.wh.v, CurTime("f", "", t.clock), t.mi.v, t.kw.v);
      ApplyUntouched(w.cells, plan[..t.accepted], CursorCell);
    }
  }

  /** A fully accepted iteration with cached cursor n fills B, A, C, D of row
      n+1 and sets F1 and the cache to n+1. */
  lemma StepWritesRow(w: World, lastPos: Option<string>, t: Tick)
    requires t.mi.Got? && t.kw.Got? && t.wh.Got? && Cursor(lastPos).Some? && t.accepted >= 5
    ensures var n := Cursor(lastPos).value;
      var r := StepEffect(w, lastPos, t);
      var c := r.0.cells;
      r.1 == Some(IntToString(n + 1))
      && Cell("B", n + 1) in c && c[Cell("B", n + 1)] == t.wh.v
      && Cell("A", n + 1) in c && c[Cell("A", n + 1)] == CurTime("f", "", t.clock)
      && Cell("C", n + 1) in c && c[Cell("C", n + 1)] == IntToString(t.mi.v)
      && Cell("D", n + 1) in c && c[Cell("D", n + 1)] == t.kw.v
      && CursorCell in c && ParseInt(c[CursorCell]) == Some(n + 1)
  {
    var n := Cursor(lastPos).value;
    var plan := RowPlan(n, t.wh.v, CurTime("f", "", t.clock), t.mi.v, t.kw.v);
    ApplyLastWrite(w.cells, plan, 0);
    ApplyLastWrite(w.cells, plan, 1);
    ApplyLastWrite(w.cells, plan, 2);
    ApplyLastWrite(w.cells, plan, 3);
    ApplyLastWrite(w.cells, plan, 4);
    ParseIntToString(n + 1);
  }

  /** A failed iteration rewrites the same row: after an iteration refused
      partway, the next fully accepted one writes row n+1 again, over whatever
      the failed one left there. */
  lemma PartialFailureRewritesRow(w: World, lastPos: Option<string>, t1: Tick, t2: Tick)
    requires Cursor(lastPos).Some? && t1.accepted < 5
    requires t2.mi.Got? && t2.kw.Got? && t2.wh.Got? && t2.accepted >= 5
    ensures var n := Cursor(lastPos).value;
      var first := StepEffect(w, lastPos, t1);
      var second := StepEffect(first.0, first.1, t2);
      first.1 == lastPos
      && Cell("B", n + 1) in second.0.cells && second.0.cells[Cell("B", n + 1)] == t2.wh.v
      && Cell("C", n + 1) in second.0.cells && second.0.cells[Cell("C", n + 1)] == IntToString(t2.mi.v)
  {
    var first := StepEffect(w, lastPos, t1);
    CursorWrittenLast(w, lastPos, t1);
    StepWritesRow(first.0, first.1, t2);
  }

  /** An iteration whose writes are refused after the first `accepted` of them
      leaves those first cells of B, A, C, D in row n+1 holding the new sample,
      and the rest of them and F1 as they were. */
  lemma PartialWritesPrefix(w: World, lastPos: Option<string>, t: Tick)
    requires t.mi.Got? && t.kw.Got? && t.wh.Got? && Cursor(lastPos).Some? && t.accepted < 5
    ensures var n := Cursor(lastPos).value;
      var plan := RowPlan(n, t.wh.v, CurTime("f", "", t.clock), t.mi.v, t.kw.v);
      var c := StepEffect(w, lastPos, t).0.cells;
      (forall j :: 0 <= j < t.accepted ==>
         Cell(WriteOrder[j], n + 1) in c && c[Cell(WriteOrder[j], n + 1)] == plan[j].value)
      && (forall j :: t.accepted <= j < 4 ==> Agree(w.cells, c, Cell(WriteOrder[j], n + 1)))
      && Agree(w.cells, c, CursorCell)
  {
    var n := Cursor(lastPos).value;
    var plan := RowPlan(n, t.wh.v, CurTime("f", "", t.clock), t.mi.v, t.kw.v);
    var done := plan[..t.accepted];
    assert StepEffect(w, lastPos, t).0.cells == Apply(w.cells, done);
    forall j | 0 <= j < t.accepted
      ensures Cell(WriteOrder[j], n + 1) in Apply(w.cells, done)
      ensures Apply(w.cells, done)[Cell(WriteOrder[j], n + 1)] == plan[j].value
    {
      ApplyLastWrite(w.cells, done, j);
    }
    forall j | t.accepted <= j < 4
      ensures Agree(w.cells, Apply(w.cells, done), Cell(WriteOrder[j], n + 1))
    {
      ApplyUntouched(w.cells, done, Cell(WriteOrder[j], n + 1));
    }
    ApplyUntouched(w.cells, done, CursorCell);
  }

  /** An iteration writes no cell other than F1 and columns A-D of row
      last_pos+1: every other cell keeps its content. */
  lemma StepFrame(w: World, lastPos: Option<string>, t: Tick, c: Cell)
    requires c != CursorCell
    requires Cursor(lastPos).Some? ==> c.row != Cursor(lastPos).value + 1 || c.col !in {"A", "B", "C", "D"}
    ensures Agree(w.cells, StepEffect(w, lastPos, t).0.cells, c)
  {
    if t.mi.Got? && t.kw.Got? && t.wh.Got? && Cursor(lastPos).Some? {
      var plan := RowPlan(Cursor(lastPos).value, t.wh.v, CurTime("f", "", t.clock), t.mi.v, t.kw.v);
      ApplyUntouched(w.cells, plan[..Min(t.accepted, |plan|)], c);
      assert Min(t.accepted, |plan|) == |plan| ==> plan[..|plan|] == plan;
    }
  }

  /** The cursor cached after an iteration reads the old one or one more. */
  lemma StepCursor(w: World, lastPos: Option<string>, t: Tick)
    ensures var lp := StepEffect(w, lastPos, t).1;
      lp == lastPos || (Cursor(lastPos).Some? && Cursor(lp) == Some(Cursor(lastPos).value + 1))
  {
    if StepEffect(w, lastPos, t).1 != lastPos {
      ParseIntToString(Cursor(lastPos).value + 1);
    }
  }

  /** Every row up to the cached cursor, and every cell outside columns A-D,
      keeps its content through the whole of runningloop's loop, except F1:
      the loop only ever writes rows past the cursor it started from. */
  lemma {:induction false} RunLoopFrame(w: World, lastPos: Option<string>, day: seq<Tick>, i: nat, c: Cell)
    requires i <= |day| && c != CursorCell
    requires Cursor(lastPos).Some? ==> c.row <= Cursor(lastPos).value || c.col !in {"A", "B", "C", "D"}
    ensures Agree(w.cells, RunLoop(w, lastPos, day, i).1.cells, c)
    decreases |day| - i
  {
    if i < |day| {
      var (next, lp, sunset) := StepEffect(w, lastPos, day[i]);
      StepFrame(w, lastPos, day[i], c);
      if !sunset {
        StepCursor(w, lastPos, day[i]);
        RunLoopFrame(next.(ticks := next.ticks + 1), lp, day, i + 1, c);
      }
    }
  }

  /** With an unreadable cached cursor nothing is written: int() raises first. */
  lemma BadCursorWritesNothing(w: World, lastPos: Option<string>, t: Tick)
    requires Cursor(lastPos).None?
    ensures StepEffect(w, lastPos, t).0.cells == w.cells
    ensures StepEffect(w, lastPos, t).1 == lastPos
  {
  }

  /** The iteration that reads zero inverters still writes its row, then the
      loop ends in SystemExit with no sleep after it. */
  lemma SunsetIterationStillWrites(w: World, lastPos: Option<string>, day: seq<Tick>, i: nat)
    requires i < |day| && SeesSunset(day[i]) && day[i].wh.Got? && Cursor(lastPos).Some? && day[i].accepted >= 5
    ensures var r := RunLoop(w, lastPos, day, i);
      var n := Cursor(lastPos).value;
      r.0 == SystemExit && r.1.ticks == w.ticks
      && Cell("C", n + 1) in r.1.cells && r.1.cells[Cell("C", n + 1)] == "0"
  {
    StepWritesRow(w, lastPos, day[i]);
  }

  /** waitloop(0) returns True at the first positive status reading `k`, after
      one sleep per earlier reading, and writes nothing. */
  lemma SunrisePollReturnsTrue(w: World, polls: seq<Reply<int>>, day: seq<Tick>, k: nat)
    requires k < |polls| && polls[k].Got? && polls[k].v > 0
    requires forall j :: 0 <= j < k ==> polls[j].Got? && polls[j].v <= 0
    ensures var r := WaitLoopEffect(w, 0, polls, day);
      r.0 == ReturnedTrue && r.1.ticks == w.ticks + k && r.1.cells == w.cells
  {
    assert FirstActive(polls, 0).Some?;
  }

  /** waitloop(-1) is waitloop(1) apart from its log line, and any code other
      than -1, 0, 1 and 2 only logs. */
  lemma WaitLoopDispatch(w: World, code: int, polls: seq<Reply<int>>, day: seq<Tick>)
    ensures WaitLoopEffect(w, -1, polls, day).0 == WaitLoopEffect(w, 1, polls, day).0
    ensures WaitLoopEffect(w, -1, polls, day).1.cells == WaitLoopEffect(w, 1, polls, day).1.cells
    ensures code !in {-1, 0, 1, 2} ==>
      WaitLoopEffect(w, code, polls, day) == (ReturnedNone, w.(log := w.log + [ShouldNotSeeThis]))
  {
    var lp := if CursorCell in w.cells then Some(w.cells[CursorCell]) else None;
    RunLoopLogIndependent(w.(log := w.log + [JumpingToDaytime, SettingUp, Ready]),
                          w.(log := w.log + [StartingUp, SettingUp, Ready]), lp, day, 0);
    assert w.log + [JumpingToDaytime] + [SettingUp, Ready] == w.log + [JumpingToDaytime, SettingUp, Ready];
    assert w.log + [StartingUp] + [SettingUp, Ready] == w.log + [StartingUp, SettingUp, Ready];
  }

  /** An iteration's writes, cursor and sunset flag do not depend on the log. */
  lemma StepLogIndependent(w1: World, w2: World, lastPos: Option<string>, t: Tick)
    requires w1.cells == w2.cells && w1.ticks == w2.ticks
    ensures var r1, r2 := StepEffect(w1, lastPos, t), StepEffect(w2, lastPos, t);
      r1.0.cells == r2.0.cells && r1.0.ticks == r2.0.ticks && r1.1 == r2.1 && r1.2 == r2.2
  {
  }

  /** The loop's outcome, sheet and clock do not depend on the log it starts with. */
  lemma {:induction false} RunLoopLogIndependent(w1: World, w2: World, lastPos: Option<string>, day: seq<Tick>, i: nat)
    requires i <= |day| && w1.cells == w2.cells && w1.ticks == w2.ticks
    ensures RunLoop(w1, lastPos, day, i).0 == RunLoop(w2, lastPos, day, i).0
    ensures RunLoop(w1, lastPos, day, i).1.cells == RunLoop(w2, lastPos, day, i).1.cells
    ensures RunLoop(w1, lastPos, day, i).1.ticks == RunLoop(w2, lastPos, day, i).1.ticks
    decreases |day| - i
  {
    if i < |day| {
      var r1, r2 := StepEffect(w1, lastPos, day[i]), StepEffect(w2, lastPos, day[i]);
      StepLogIndependent(w1, w2, lastPos, day[i]);
      var n1, n2 := r1.0.(ticks := r1.0.ticks + 1), r2.0.(ticks := r2.0.ticks + 1);
      if !r1.2 {
        assert RunLoop(w1, lastPos, day, i) == RunLoop(n1, r1.1, day, i + 1);
        assert RunLoop(w2, lastPos, day, i) == RunLoop(n2, r1.1, day, i + 1);
        RunLoopLogIndependent(n1, n2, r1.1, day, i + 1);
      }
    }
  }

  /** The module-level state of main.py that the loops use: the worksheet, the
      log and the clock. */
  class App {
    const worksheet: Worksheet
    var log: seq<Note>
    var ticks: nat

    constructor (ws: Worksheet)
      ensures worksheet == ws && log == [] && ticks == 0
    {
      worksheet := ws;
      log := [];
      ticks := 0;
    }

    function Snapshot(): World
      reads this, worksheet
    {
      World(worksheet.cells, log, ticks)
    }

    /** Lines 329-333: the five update_acell calls in order, stopping at the
        first refused one. */
    method WriteRow(ghost plan: seq<Write>, n: int, wh: string, stamp: string, mi: int, kw: string, accepted: nat)
      returns (ok: bool)
      requires plan == RowPlan(n, wh, stamp, mi, kw)
      modifies worksheet
      ensures ok <==> accepted >= 5
      ensures ok ==> worksheet.cells == Apply(old(worksheet.cells), plan)
      ensures !ok ==> worksheet.cells == Apply(old(worksheet.cells), plan[..accepted])
    {
      ghost var s := worksheet.cells;
      assert plan[..0] == [];
      ok := worksheet.UpdateAcell(Cell("B", n + 1), wh, 0 < accepted);
      if !ok { return; }
      ApplyPrefixStep(s, plan, 0);
      ok := worksheet.UpdateAcell(Cell("A", n + 1), stamp, 1 < accepted);
      if !ok { return; }
      ApplyPrefixStep(s, plan, 1);
      ok := worksheet.UpdateAcell(Cell("C", n + 1), IntToString(mi), 2 < accepted);
      if !ok { return; }
      ApplyPrefixStep(s, plan, 2);
      ok := worksheet.UpdateAcell(Cell("D", n + 1), kw, 3 < accepted);
      if !ok { return; }
      ApplyPrefixStep(s, plan, 3);
      ok := worksheet.UpdateAcell(CursorCell, IntToString(n + 1), 4 < accepted);
      if !ok { return; }
      ApplyPrefixStep(s, plan, 4);
      assert plan[..5] == plan;
    }

    /** The try block and except clause of one runningloop iteration. Both
        branches of the first_loop test make the same get_data_today call, so
        the flag changes nothing and is not kept. */
    method Pass(lastPos: Option<string>, t: Tick) returns (newPos: Option<string>, sunset: bool)
      modifies this`log, worksheet
      ensures (Snapshot(), newPos, sunset) == StepEffect(old(Snapshot()), lastPos, t)
    {
      newPos := lastPos;
      sunset := false;
      var mi_online := t.mi;
      if mi_online.Fails? {
        log := log + [LoopFailed];
        return;
      }
      var cur_kw_generation := t.kw;
      if cur_kw_generation.Fails? {
        log := log + [LoopFailed];
        return;
      }
      if mi_online.v == 0 {
        sunset := true;
      }
      var cur_data := t.wh;
      var n := Cursor(lastPos);
      if cur_data.Fails? || n.None? {
        log := log + [LoopFailed];
        return;
      }
      var stamp := CurTime("f", "", t.clock);
      ghost var plan := RowPlan(n.value, cur_data.v, stamp, mi_online.v, cur_kw_generation.v);
      var ok := WriteRow(plan, n.value, cur_data.v, stamp, mi_online.v, cur_kw_generation.v, t.accepted);
      if !ok {
        log := log + [LoopFailed];
        return;
      }
      newPos := Some(IntToString(n.value + 1));
      log := log + [if t.report.Fails? then LoopFailed else DataWritten];
    }

    /** runningloop: read F1 once, iterate until an iteration sees zero
        inverters (sleeping after every other one), then waitloop(2). */
    method RunningLoop(day: seq<Tick>) returns (end: End)
      modifies this`log, this`ticks, worksheet
      ensures (end, Snapshot()) == RunningLoopEffect(old(Snapshot()), day)
      decreases 1
    {
      log := log + [SettingUp, Ready];
      var lastPos := worksheet.Acell(CursorCell);
      ghost var goal := RunLoop(Snapshot(), lastPos, day, 0);
      var sunset := false;
      var i := 0;
      while !sunset
        invariant i <= |day|
        invariant !sunset ==> RunLoop(Snapshot(), lastPos, day, i) == goal
        invariant sunset ==> ShutDown(Snapshot().(log := log + [PreparingForNight])) == goal
        decreases |day| - i, if sunset then 0 else 1
      {
        if i == |day| {
          return Horizon;
        }
        lastPos, sunset := Pass(lastPos, day[i]);
        if !sunset {
          ticks := ticks + 1;
        }
        i := i + 1;
      }
      log := log + [PreparingForNight];
      end := WaitLoop(2, [], []);
    }

    /** waitloop(code) over the status readings `polls` and, when it enters
        runningloop, the iterations `day`. */
    method WaitLoop(code: int, polls: seq<Reply<int>>, day: seq<Tick>) returns (end: End)
      modifies this`log, this`ticks, worksheet
      ensures (end, Snapshot()) == WaitLoopEffect(old(Snapshot()), code, polls, day)
      decreases if code == 2 then 0 else 2
    {
      if code == 0 {
        log := log + [WaitingForSunrise];
        var i := 0;
        while i < |polls|
          invariant i <= |polls|
          invariant FirstActive(polls, i) == FirstActive(polls, 0)
          invariant ticks == old(ticks) + i
          invariant log == old(log) + [WaitingForSunrise]
          invariant worksheet.cells == old(worksheet.cells)
        {
          var status := polls[i];
          if status.Fails? {
            return Raised;
          }
          if status.v > 0 {
            return ReturnedTrue;
          }
          ticks := ticks + 1;
          i := i + 1;
        }
        return Horizon;
      } else if code == 1 {
        log := log + [StartingUp];
        end := RunningLoop(day);
      } else if code == 2 {
        log := log + [ShuttingDown];
        return SystemExit;
      } else if code == -1 {
        log := log + [JumpingToDaytime];
        end := RunningLoop(day);
      } else {
        log := log + [ShouldNotSeeThis];
        return ReturnedNone;
      }
    }
  }
}
