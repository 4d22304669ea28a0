/** The worksheet that both sheet writers address cell by cell: cells named by a
    column and a row ("F1" is Cell("F", 1)), the fold of a sequence of single-cell
    writes, and Python's int()/str() on the decimal text the cursor cell holds. */
module Cells {

  datatype Option<T> = None | Some(value: T)

  /** An A1-style cell address: column letters and a row number. */
  datatype Cell = Cell(col: string, row: int)

  /** The worksheet: the text held by every non-empty cell. */
  type Sheet = map<Cell, string>

  /** The cell that persists the number of the last row written. */
  const CursorCell := Cell("F", 1)

  /** One update_acell call: put `value` into `cell`. */
  datatype Write = Write(cell: Cell, value: string)

  /** True when no write of `ws` targets `c`. */
  predicate Untouched(ws: seq<Write>, c: Cell)
  {
    forall k :: 0 <= k < |ws| ==> ws[k].cell != c
  }

  /** True when `c` is empty in both sheets or holds the same text in both. */
  predicate Agree(s: Sheet, t: Sheet, c: Cell)
  {
    (c in s <==> c in t) && (c in s ==> s[c] == t[c])
  }

  /** The sheet after the writes `ws`, performed from first to last. */
  function Apply(s: Sheet, ws: seq<Write>): Sheet
    decreases |ws|
  {
    if ws == [] then s
    else Apply(s, ws[..|ws| - 1])[ws[|ws| - 1].cell := ws[|ws| - 1].value]
  }

  /** A cell that no write targets keeps its content. */
  lemma {:induction false} ApplyUntouched(s: Sheet, ws: seq<Write>, c: Cell)
    requires Untouched(ws, c)
    ensures Agree(s, Apply(s, ws), c)
    decreases |ws|
  {
    if ws != [] {
      ApplyUntouched(s, ws[..|ws| - 1], c);
    }
  }

  /** A cell holds the value of the last write that targets it. */
  lemma {:induction false} ApplyLastWrite(s: Sheet, ws: seq<Write>, k: nat)
    requires k < |ws|
    requires forall j :: k < j < |ws| ==> ws[j].cell != ws[k].cell
    ensures ws[k].cell in Apply(s, ws) && Apply(s, ws)[ws[k].cell] == ws[k].value
    decreases |ws|
  {
    if k < |ws| - 1 {
      ApplyLastWrite(s, ws[..|ws| - 1], k);
    }
  }

  /** Performing one more write after `ws` updates exactly that write's cell. */
  lemma ApplySnoc(s: Sheet, ws: seq<Write>, w: Write)
    ensures Apply(s, ws + [w]) == Apply(s, ws)[w.cell := w.value]
  {
    assert (ws + [w])[..|ws|] == ws;
  }

  /** Performing the first k+1 writes is performing the first k, then write k. */
  lemma ApplyPrefixStep(s: Sheet, ws: seq<Write>, k: nat)
    requires k < |ws|
    ensures Apply(s, ws[..k + 1]) == Apply(s, ws[..k])[ws[k].cell := ws[k].value]
  {
    assert ws[..k + 1] == ws[..k] + [ws[k]];
    ApplySnoc(s, ws[..k], ws[k]);
  }

  /** Performing `a` and then `b` is performing `a + b`. */
  lemma {:induction false} ApplyConcat(s: Sheet, a: seq<Write>, b: seq<Write>)
    ensures Apply(Apply(s, a), b) == Apply(s, a + b)
    decreases |b|
  {
    if b == [] {
      assert a + b == a;
    } else {
      var init, w := b[..|b| - 1], b[|b| - 1];
      ApplyConcat(s, a, init);
      assert a + b == (a + init) + [w];
      ApplySnoc(s, a + init, w);
    }
  }

  // Python's int() and str() on the decimal text of the cursor.

  predicate IsDigit(ch: char) { '0' <= ch <= '9' }

  predicate AllDigits(s: string) { forall i :: 0 <= i < |s| ==> IsDigit(s[i]) }

  function DigitChar(d: nat): (ch: char)
    requires d < 10
    ensures IsDigit(ch)
  {
    ('0' as int + d) as char
  }

  /** The number written by a string of decimal digits, most significant first. */
  function DecimalValue(s: string): nat
    requires AllDigits(s)
    decreases |s|
  {
    if s == [] then 0
    else DecimalValue(s[..|s| - 1]) * 10 + (s[|s| - 1] as int - '0' as int)
  }

  /** The shortest decimal digit string of `n`. */
  function Decimal(n: nat): (s: string)
    ensures |s| > 0 && AllDigits(s)
    ensures |s| > 1 ==> s[0] != '0'
    decreases n
  {
    if n < 10 then [DigitChar(n)] else Decimal(n / 10) + [DigitChar(n % 10)]
  }

  /** int(s) for a string made of an optional sign and decimal digits; None where
      Python raises ValueError. */
  function ParseInt(s: string): Option<int>
  {
    if |s| > 1 && (s[0] == '-' || s[0] == '+') && AllDigits(s[1..]) then
      var m: int := DecimalValue(s[1..]);
      Some(if s[0] == '-' then -m else m)
    else if |s| > 0 && AllDigits(s) then Some(DecimalValue(s))
    else None
  }

  /** str(n) for an integer. */
  function IntToString(n: int): (s: string)
    ensures |s| > 0
  {
    if n < 0 then "-" + Decimal(-n) else Decimal(n)
  }

  lemma {:induction false} DecimalRoundTrip(n: nat)
    ensures DecimalValue(Decimal(n)) == n
    decreases n
  {
    if n >= 10 {
      DecimalRoundTrip(n / 10);
      var s := Decimal(n);
      assert s[..|s| - 1] == Decimal(n / 10);
    }
  }

  /** int(str(n)) == n: the cursor written back as text reads back as the same number. */
  lemma ParseIntToString(n: int)
    ensures ParseInt(IntToString(n)) == Some(n)
  {
    if n < 0 {
      DecimalRoundTrip(-n);
      assert IntToString(n)[1..] == Decimal(-n);
    } else {
      DecimalRoundTrip(n);
    }
  }

  /** str is injective, so distinct cursor values are distinct texts. */
  lemma IntToStringInjective(m: int, n: int)
    requires IntToString(m) == IntToString(n)
    ensures m == n
  {
    ParseIntToString(m);
    ParseIntToString(n);
  }

  /** A gspread worksheet: cells read and written one at a time. Each write
      either lands or is refused by the remote service (`accepted`). */
  class Worksheet {
    var cells: Sheet

    constructor (initial: Sheet)
      ensures cells == initial
    {
      cells := initial;
    }

    /** acell(c).value: the cell's text, None for an empty cell. */
    function Acell(c: Cell): (v: Option<string>)
      reads this
      ensures v.Some? <==> c in cells
      ensures v.Some? ==> v.value == cells[c]
    {
      if c in cells then Some(cells[c]) else None
    }

    /** update_acell(c, v): the cell takes `v` when the service accepts the write;
        otherwise the call raises and the sheet is unchanged. */
    method UpdateAcell(c: Cell, v: string, accepted: bool) returns (ok: bool)
      modifies this
      ensures ok == accepted
      ensures cells == if accepted then old(cells)[c := v] else old(cells)
    {
      ok := accepted;
      if ok {
        cells := cells[c := v];
      }
    }
  }
}
