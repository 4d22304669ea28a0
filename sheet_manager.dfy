/** The row-store append protocol of SheetReader: the last row written is kept
    in cell F1; every update_row reads it, writes it back incremented, and only
    then fills the new row's timestamp and data cells one write at a time. */
module SheetManager {
  import opened Cells

  datatype Error =
    | CursorUnreadable      // int() on an empty or non-numeric F1 raises
    | WriteRefused(at: Cell) // update_acell raised; no later write of the call runs

  datatype Outcome = Done | Failed(error: Error)

  /** A column letter and the value update_row puts in that column, in the
      insertion order of the caller's dict. */
  type Column = (string, string)

  /** The cursor: F1 read as an integer, None when it is empty or not numeric. */
  function ReadCursor(s: Sheet): Option<int>
  {
    if CursorCell in s then ParseInt(s[CursorCell]) else None
  }

  /** One write per supplied column, in `row`, in the caller's order. */
  function DataWrites(row: int, data: seq<Column>): (ws: seq<Write>)
    ensures |ws| == |data|
    ensures forall k :: 0 <= k < |data| ==> ws[k] == Write(Cell(data[k].0, row), data[k].1)
    decreases |data|
  {
    if data == [] then []
    else DataWrites(row, data[..|data| - 1]) + [Write(Cell(data[|data| - 1].0, row), data[|data| - 1].1)]
  }

  /** The timestamp write, then one write per supplied column, all in `row`. */
  function RowWrites(row: int, tsCol: string, now: string, data: seq<Column>): (ws: seq<Write>)
    ensures |ws| == |data| + 1
    ensures forall k :: 0 <= k < |ws| ==> ws[k].cell.row == row
  {
    [Write(Cell(tsCol, row), now)] + DataWrites(row, data)
  }

  /** Every write of one update_row call that has read cursor `cur`, in order. */
  function RowPlan(cur: int, tsCol: string, now: string, data: seq<Column>): (ws: seq<Write>)
    ensures |ws| == |data| + 2
    ensures ws[0] == Write(CursorCell, IntToString(cur + 1))
    ensures forall k :: 1 <= k < |ws| ==> ws[k].cell.row == cur + 1
  {
    [Write(CursorCell, IntToString(cur + 1))] + RowWrites(cur + 1, tsCol, now, data)
  }

  /** The outcome of update_row and the sheet it leaves, when the store accepts
      the first `accepted` writes of the call and refuses the next one. */
  function UpdateRowEffect(s: Sheet, tsCol: string, now: string, data: seq<Column>, accepted: nat)
    : (r: (Outcome, Sheet))
    ensures ReadCursor(s).None? ==> r == (Failed(CursorUnreadable), s)
    ensures r.0 == Done <==> ReadCursor(s).Some? && accepted >= |data| + 2
  {
    match ReadCursor(s)
    case None => (Failed(CursorUnreadable), s)
    case Some(cur) =>
      var plan := RowPlan(cur, tsCol, now, data);
      if accepted >= |plan| then (Done, Apply(s, plan))
      else (Failed(WriteRefused(plan[accepted].cell)), Apply(s, plan[..accepted]))
  }

  /** The column loop of update_row on its own: the outcome and the sheet after
      the data writes into `row`, the first `accepted` of them accepted. */
  function ColumnsEffect(s: Sheet, row: int, data: seq<Column>, accepted: nat): (Outcome, Sheet)
  {
    var ws := DataWrites(row, data);
    if accepted >= |ws| then (Done, Apply(s, ws))
    else (Failed(WriteRefused(ws[accepted].cell)), Apply(s, ws[..accepted]))
  }

  /** update_row with a readable cursor, write by write: F1 first, then the
      timestamp cell, then the column loop on the sheet those two writes left. */
  lemma UpdateRowSteps(s: Sheet, cur: int, tsCol: string, now: string, data: seq<Column>, accepted: nat)
    requires ReadCursor(s) == Some(cur)
    ensures accepted == 0 ==>
      UpdateRowEffect(s, tsCol, now, data, accepted) == (Failed(WriteRefused(CursorCell)), s)
    ensures accepted == 1 ==>
      UpdateRowEffect(s, tsCol, now, data, accepted)
        == (Failed(WriteRefused(Cell(tsCol, cur + 1))), s[CursorCell := IntToString(cur + 1)])
    ensures accepted >= 2 ==>
      UpdateRowEffect(s, tsCol, now, data, accepted)
        == ColumnsEffect(s[CursorCell := IntToString(cur + 1)][Cell(tsCol, cur + 1) := now],
                         cur + 1, data, accepted - 2)
  {
    var plan := RowPlan(cur, tsCol, now, data);
    if accepted == 0 {
      assert plan[..0] == [];
    } else if accepted == 1 {
      assert plan[..1] == [] + [plan[0]];
      ApplySnoc(s, [], plan[0]);
    } else {
      ColumnsAfterHead(s, plan, cur + 1, data, accepted - 2);
    }
  }

  /** The column loop continues from the sheet the cursor and timestamp writes left. */
  lemma ColumnsAfterHead(s: Sheet, plan: seq<Write>, row: int, data: seq<Column>, n: nat)
    requires |plan| == |data| + 2 && plan[2..] == DataWrites(row, data)
    ensures var rest := ColumnsEffect(Apply(s, plan[..2]), row, data, n);
      (if n >= |data| then (Done, Apply(s, plan)) else (Failed(WriteRefused(plan[n + 2].cell)), Apply(s, plan[..n + 2])))
        == rest
    ensures Apply(s, plan[..2]) == s[plan[0].cell := plan[0].value][plan[1].cell := plan[1].value]
  {
    var head, tail := plan[..2], plan[2..];
    assert head == [plan[0]] + [plan[1]];
    ApplySnoc(s, [], plan[0]);
    ApplySnoc(s, [plan[0]], plan[1]);
    if n >= |tail| {
      ApplyConcat(s, head, tail);
      assert head + tail == plan;
    } else {
      ApplyConcat(s, head, tail[..n]);
      assert head + tail[..n] == plan[..n + 2];
    }
  }

  /** `c` is one of the cells update_row writes in `row`. */
  predicate InRow(c: Cell, row: int, tsCol: string, data: seq<Column>)
  {
    c.row == row && (c.col == tsCol || exists k :: 0 <= k < |data| && data[k].0 == c.col)
  }

  /** The row's columns are distinct and none of them is the cursor's column. */
  predicate ColumnsOk(tsCol: string, data: seq<Column>)
  {
    tsCol != CursorCell.col
    && (forall k :: 0 <= k < |data| ==> data[k].0 != tsCol && data[k].0 != CursorCell.col)
    && (forall j, k :: 0 <= j < k < |data| ==> data[j].0 != data[k].0)
  }

  /** `row` holds the timestamp in `tsCol` and every supplied value in its column. */
  predicate RowHolds(s: Sheet, row: int, tsCol: string, now: string, data: seq<Column>)
  {
    Cell(tsCol, row) in s && s[Cell(tsCol, row)] == now
    && forall k :: 0 <= k < |data| ==> Cell(data[k].0, row) in s && s[Cell(data[k].0, row)] == data[k].1
  }

  /** Only F1 and the row cursor+1 cells named by the timestamp column and the
      data keys can change; every other cell keeps its content. */
  lemma UpdateRowFrame(s: Sheet, tsCol: string, now: string, data: seq<Column>, accepted: nat, c: Cell)
    requires c != CursorCell
    requires ReadCursor(s).Some? ==> !InRow(c, ReadCursor(s).value + 1, tsCol, data)
    ensures Agree(s, UpdateRowEffect(s, tsCol, now, data, accepted).1, c)
  {
    if ReadCursor(s).Some? {
      var plan := RowPlan(ReadCursor(s).value, tsCol, now, data);
      var done := if accepted >= |plan| then plan else plan[..accepted];
      forall k | 0 <= k < |done| ensures done[k].cell != c {
        if k >= 2 {
          assert done[k].cell.col == data[k - 2].0;
        }
      }
      ApplyUntouched(s, done, c);
    }
  }

  /** A cell that none of the column writes targets keeps its content. */
  lemma ColumnsFrame(s: Sheet, row: int, data: seq<Column>, n: nat, c: Cell)
    requires forall k :: 0 <= k < |data| ==> Cell(data[k].0, row) != c
    ensures Agree(s, ColumnsEffect(s, row, data, n).1, c)
  {
    var ws := DataWrites(row, data);
    var done := if n >= |ws| then ws else ws[..n];
    assert Untouched(done, c);
    ApplyUntouched(s, done, c);
  }

  /** With every column write accepted and distinct columns, each column of
      `row` holds its value. */
  lemma ColumnsComplete(s: Sheet, row: int, data: seq<Column>, n: nat)
    requires n >= |data|
    requires forall j, k :: 0 <= j < k < |data| ==> data[j].0 != data[k].0
    ensures var r := ColumnsEffect(s, row, data, n);
      r.0 == Done
      && forall k :: 0 <= k < |data| ==> Cell(data[k].0, row) in r.1 && r.1[Cell(data[k].0, row)] == data[k].1
  {
    var ws := DataWrites(row, data);
    forall k | 0 <= k < |data|
      ensures Cell(data[k].0, row) in Apply(s, ws) && Apply(s, ws)[Cell(data[k].0, row)] == data[k].1
    {
      ApplyLastWrite(s, ws, k);
    }
  }

  /** A call whose writes are all accepted moves the cursor to cursor+1 and
      fills row cursor+1 with the timestamp and every supplied value. */
  lemma UpdateRowComplete(s: Sheet, tsCol: string, now: string, data: seq<Column>, accepted: nat)
    requires ReadCursor(s).Some? && accepted >= |data| + 2 && ColumnsOk(tsCol, data)
    ensures var r := UpdateRowEffect(s, tsCol, now, data, accepted);
      r.0 == Done
      && ReadCursor(r.1) == Some(ReadCursor(s).value + 1)
      && RowHolds(r.1, ReadCursor(s).value + 1, tsCol, now, data)
  {
    var cur := ReadCursor(s).value;
    UpdateRowSteps(s, cur, tsCol, now, data, accepted);
    var head := s[CursorCell := IntToString(cur + 1)][Cell(tsCol, cur + 1) := now];
    ColumnsComplete(head, cur + 1, data, accepted - 2);
    ColumnsFrame(head, cur + 1, data, accepted - 2, CursorCell);
    ColumnsFrame(head, cur + 1, data, accepted - 2, Cell(tsCol, cur + 1));
    ParseIntToString(cur + 1);
  }

  /** F1 is written before any cell of the row: a call refused at its first write
      leaves the sheet as it was, and a call that gets past it has moved the
      cursor to cursor+1 however many of the row's writes then fail. */
  lemma CursorAdvancesFirst(s: Sheet, tsCol: string, now: string, data: seq<Column>, accepted: nat)
    requires ReadCursor(s).Some? && ColumnsOk(tsCol, data)
    ensures accepted == 0 ==>
      UpdateRowEffect(s, tsCol, now, data, accepted) == (Failed(WriteRefused(CursorCell)), s)
    ensures accepted > 0 ==>
      ReadCursor(UpdateRowEffect(s, tsCol, now, data, accepted).1) == Some(ReadCursor(s).value + 1)
  {
    var cur := ReadCursor(s).value;
    UpdateRowSteps(s, cur, tsCol, now, data, accepted);
    ParseIntToString(cur + 1);
    if accepted >= 2 {
      var head := s[CursorCell := IntToString(cur + 1)][Cell(tsCol, cur + 1) := now];
      ColumnsFrame(head, cur + 1, data, accepted - 2, CursorCell);
    }
  }

  /** No overwrite after a partial failure: once a call has advanced the cursor,
      the next call writes nothing in the row of the first call, whatever became
      of that row's writes; a call refused at F1 changed nothing at all. */
  lemma NoRowReuse(s: Sheet, tsCol: string,
                   now1: string, data1: seq<Column>, accepted1: nat,
                   now2: string, data2: seq<Column>, accepted2: nat)
    requires ReadCursor(s).Some? && ColumnsOk(tsCol, data1)
    ensures var first := UpdateRowEffect(s, tsCol, now1, data1, accepted1).1;
      var second := UpdateRowEffect(first, tsCol, now2, data2, accepted2).1;
      (accepted1 == 0 ==> first == s)
      && (accepted1 > 0 ==>
            forall c: Cell :: c.row == ReadCursor(s).value + 1 && c != CursorCell ==> Agree(first, second, c))
  {
    var cur := ReadCursor(s).value;
    var first := UpdateRowEffect(s, tsCol, now1, data1, accepted1).1;
    CursorAdvancesFirst(s, tsCol, now1, data1, accepted1);
    if accepted1 > 0 {
      forall c: Cell | c.row == cur + 1 && c != CursorCell
        ensures Agree(first, UpdateRowEffect(first, tsCol, now2, data2, accepted2).1, c)
      {
        UpdateRowFrame(first, tsCol, now2, data2, accepted2, c);
      }
    }
  }

  /** The arguments of one update_row call: its timestamp and its columns. */
  datatype RowInput = RowInput(now: string, data: seq<Column>)

  /** The sheet after update_row calls for `batch`, in order, each accepted in full. */
  function AppendAll(s: Sheet, tsCol: string, batch: seq<RowInput>): Sheet
    decreases |batch|
  {
    if batch == [] then s
    else
      var last := batch[|batch| - 1];
      UpdateRowEffect(AppendAll(s, tsCol, batch[..|batch| - 1]), tsCol, last.now, last.data, |last.data| + 2).1
  }

  /** N successful calls starting from cursor c leave c+N in F1. */
  lemma {:induction false} AppendAllCursor(s: Sheet, tsCol: string, batch: seq<RowInput>)
    requires ReadCursor(s).Some? && BatchOk(tsCol, batch)
    ensures ReadCursor(AppendAll(s, tsCol, batch)) == Some(ReadCursor(s).value + |batch|)
    decreases |batch|
  {
    if batch != [] {
      var n := |batch| - 1;
      var init, last := batch[..n], batch[n];
      assert BatchOk(tsCol, init) && ColumnsOk(tsCol, last.data);
      var prev := AppendAll(s, tsCol, init);
      AppendAllCursor(s, tsCol, init);
      assert AppendAll(s, tsCol, batch) == UpdateRowEffect(prev, tsCol, last.now, last.data, |last.data| + 2).1;
      UpdateRowComplete(prev, tsCol, last.now, last.data, |last.data| + 2);
    }
  }

  /** N successful calls starting from cursor c fill rows c+1..c+N in call order. */
  lemma {:induction false} AppendAllRows(s: Sheet, tsCol: string, batch: seq<RowInput>)
    requires ReadCursor(s).Some? && BatchOk(tsCol, batch)
    ensures RowsHold(AppendAll(s, tsCol, batch), ReadCursor(s).value, tsCol, batch)
    decreases |batch|
  {
    if batch != [] {
      var c := ReadCursor(s).value;
      var n := |batch| - 1;
      var init, last := batch[..n], batch[n];
      var prev := AppendAll(s, tsCol, init);
      assert BatchOk(tsCol, init) && ColumnsOk(tsCol, last.data);
      AppendAllRows(s, tsCol, init);
      AppendAllCursor(s, tsCol, init);
      assert AppendAll(s, tsCol, batch) == UpdateRowEffect(prev, tsCol, last.now, last.data, |last.data| + 2).1;
      assert init + [last] == batch;
      AppendStep(prev, c, tsCol, init, last);
    }
  }

  /** One more full update_row after rows c+1..c+n keeps them and adds row c+n+1. */
  lemma AppendStep(prev: Sheet, c: int, tsCol: string, init: seq<RowInput>, last: RowInput)
    requires ReadCursor(prev) == Some(c + |init|)
    requires RowsHold(prev, c, tsCol, init)
    requires BatchOk(tsCol, init) && ColumnsOk(tsCol, last.data)
    ensures RowsHold(UpdateRowEffect(prev, tsCol, last.now, last.data, |last.data| + 2).1, c, tsCol, init + [last])
  {
    var next := UpdateRowEffect(prev, tsCol, last.now, last.data, |last.data| + 2).1;
    UpdateRowComplete(prev, tsCol, last.now, last.data, |last.data| + 2);
    var batch := init + [last];
    forall i | 0 <= i < |batch|
      ensures RowHolds(next, c + 1 + i, tsCol, batch[i].now, batch[i].data)
    {
      if i < |init| {
        RowSurvivesUpdate(prev, tsCol, last.now, last.data, |last.data| + 2, c + 1 + i, init[i]);
      }
    }
  }

  predicate BatchOk(tsCol: string, batch: seq<RowInput>)
  {
    forall i :: 0 <= i < |batch| ==> ColumnsOk(tsCol, batch[i].data)
  }

  /** Rows c+1.. hold the samples of `batch`, in order. */
  predicate RowsHold(t: Sheet, c: int, tsCol: string, batch: seq<RowInput>)
  {
    forall i :: 0 <= i < |batch| ==> RowHolds(t, c + 1 + i, tsCol, batch[i].now, batch[i].data)
  }

  /** A row other than cursor+1 that holds a sample still holds it after update_row. */
  lemma RowSurvivesUpdate(s: Sheet, tsCol: string, now: string, data: seq<Column>, accepted: nat,
                          row: int, held: RowInput)
    requires ReadCursor(s).Some? && row != ReadCursor(s).value + 1
    requires ColumnsOk(tsCol, held.data)
    requires RowHolds(s, row, tsCol, held.now, held.data)
    ensures RowHolds(UpdateRowEffect(s, tsCol, now, data, accepted).1, row, tsCol, held.now, held.data)
  {
    var t := UpdateRowEffect(s, tsCol, now, data, accepted).1;
    UpdateRowFrame(s, tsCol, now, data, accepted, Cell(tsCol, row));
    forall k | 0 <= k < |held.data|
      ensures Cell(held.data[k].0, row) in t && t[Cell(held.data[k].0, row)] == held.data[k].1
    {
      UpdateRowFrame(s, tsCol, now, data, accepted, Cell(held.data[k].0, row));
    }
  }

  /** SheetReader: the worksheet it writes, the last IP address it logged, and
      its fixed cell names. Credential refresh before each access is a no-op
      here. */
  class SheetReader {
    const worksheet: Worksheet
    var prevIp: Option<string>
    const tsCol: string
    const extIpCell: Cell
    const intIpCell: Cell

    constructor (ws: Worksheet)
      ensures worksheet == ws && prevIp == None
      ensures tsCol == "A" && extIpCell == Cell("K", 2) && intIpCell == Cell("L", 2)
    {
      worksheet := ws;
      tsCol := "A";
      extIpCell := Cell("K", 2);
      intIpCell := Cell("L", 2);
      prevIp := None;
    }

    /** The cur_pos getter: exactly the text of F1, None when F1 is empty. */
    function CurPos(): (v: Option<string>)
      reads worksheet
      ensures v.Some? <==> CursorCell in worksheet.cells
      ensures v.Some? ==> v.value == worksheet.cells[CursorCell]
    {
      worksheet.Acell(CursorCell)
    }

    /** The cur_pos setter: writes exactly F1; read back, the getter returns `v`. */
    method SetCurPos(v: string, accepted: bool) returns (ok: bool)
      modifies worksheet
      ensures ok == accepted
      ensures ok ==> CurPos() == Some(v)
      ensures worksheet.cells == if ok then old(worksheet.cells)[CursorCell := v] else old(worksheet.cells)
    {
      ok := worksheet.UpdateAcell(CursorCell, v, accepted);
    }

    /** update_row: read the cursor, write cursor+1 back to F1, read F1 again
        for the row, then write the timestamp and each column into that row. */
    method UpdateRow(data: seq<Column>, tsCol: string, now: string, accepted: nat) returns (r: Outcome)
      modifies worksheet
      ensures (r, worksheet.cells) == UpdateRowEffect(old(worksheet.cells), tsCol, now, data, accepted)
    {
      var raw := CurPos();
      if raw.None? {
        return Failed(CursorUnreadable);
      }
      var parsed := ParseInt(raw.value);
      if parsed.None? {
        return Failed(CursorUnreadable);
      }
      var cur := parsed.value;
      UpdateRowSteps(old(worksheet.cells), cur, tsCol, now, data, accepted);
      var ok := SetCurPos(IntToString(cur + 1), 0 < accepted);
      if !ok {
        return Failed(WriteRefused(CursorCell));
      }
      var pos := CurPos();
      ParseIntToString(cur + 1);
      var row := ParseInt(pos.value).value;
      ok := worksheet.UpdateAcell(Cell(tsCol, row), now, 1 < accepted);
      if !ok {
        return Failed(WriteRefused(Cell(tsCol, row)));
      }
      r := PutColumns(row, data, accepted - 2);
    }

    /** The loop over the caller's columns: one write per column into `row`,
        in order, ended by the first refused write. */
    method PutColumns(row: int, data: seq<Column>, accepted: nat) returns (r: Outcome)
      modifies worksheet
      ensures (r, worksheet.cells) == ColumnsEffect(old(worksheet.cells), row, data, accepted)
    {
      ghost var ws := DataWrites(row, data);
      for i := 0 to |data|
        invariant i <= accepted
        invariant worksheet.cells == Apply(old(worksheet.cells), ws[..i])
      {
        var (col, value) := data[i];
        var ok := worksheet.UpdateAcell(Cell(col, row), value, i < accepted);
        if !ok {
          return Failed(WriteRefused(Cell(col, row)));
        }
        assert ws[..i + 1] == ws[..i] + [ws[i]];
        ApplySnoc(old(worksheet.cells), ws[..i], ws[i]);
      }
      assert ws[..|data|] == ws;
      return Done;
    }

    /** log_ip_address: writes `ip` (the address just fetched) into `cell` and
        records it only when it differs from the last one recorded, so a second
        call with the same address writes nothing. A refused write raises before
        the record is updated. */
    method LogIpAddress(cell: Cell, ip: string, accepted: bool) returns (r: Outcome)
      modifies this`prevIp, worksheet
      ensures old(prevIp) == Some(ip) ==>
        r == Done && prevIp == old(prevIp) && worksheet.cells == old(worksheet.cells)
      ensures old(prevIp) != Some(ip) && accepted ==>
        r == Done && prevIp == Some(ip) && worksheet.cells == old(worksheet.cells)[cell := ip]
      ensures old(prevIp) != Some(ip) && !accepted ==>
        r == Failed(WriteRefused(cell)) && prevIp == old(prevIp) && worksheet.cells == old(worksheet.cells)
    {
      r := Done;
      if prevIp != Some(ip) {
        var ok := worksheet.UpdateAcell(cell, ip, accepted);
        if !ok {
          return Failed(WriteRefused(cell));
        }
        prevIp := Some(ip);
      }
    }
  }
}
