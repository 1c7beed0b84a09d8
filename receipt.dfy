/**
  The page layout of the receipt (store/views.py, `generate_receipt_pdf`).
  Only the vertical cursor is modelled: the header sits at fixed offsets
  from the top of the first page, the item rows go down 18 points at a
  time, and a row that leaves the cursor below 80 points from the bottom
  starts a new page whose cursor is 50 points below its top. The drawing
  itself (fonts, strings, lines) is done by ReportLab and is not modelled;
  the page height is an integer parameter.
 */
module Receipt {
  import opened Wrappers

  /** A4's 841.89-point height, in whole points. */
  const A4Height: int := 842

  /** Below this cursor a new page is started. */
  const BottomMargin: int := 80

  /** The QR note's fixed line, near the bottom of the last page. */
  const QrNoteY: int := 60

  /** Vertical distance between two item rows. */
  const RowStep: int := 18

  /** The first row's cursor: the table header is at height - 165 and the rows start 20 lower. */
  function FirstRow(height: int): int {
    height - 165 - 20
  }

  /** The cursor on a page begun inside the item loop. */
  function PageTop(height: int): int {
    height - 50
  }

  /** After drawing a row at y: `y -= 18`, and `if y < 80` a new page at the top. */
  function NextCursor(height: int, y: int): int {
    if y - RowStep < BottomMargin then PageTop(height) else y - RowStep
  }

  /** The cursor before row i is drawn; for i = the number of rows, the cursor after the loop. */
  function Cursor(height: int, i: nat): int {
    if i == 0 then FirstRow(height) else NextCursor(height, Cursor(height, i - 1))
  }

  /** How many `showPage` calls drawing n rows makes inside the loop. */
  function Breaks(height: int, n: nat): nat {
    if n == 0 then 0
    else Breaks(height, n - 1) + (if Cursor(height, n - 1) - RowStep < BottomMargin then 1 else 0)
  }

  /**
    What the receipt's layout comes to: the cursor of every item row, the
    cursor of the total row (10 points below the cursor after the loop),
    the number of pages (one more than the breaks, for the final
    `showPage`), and the QR note, present exactly when the order has a QR
    code (its stored name; the note prints the file's URL).
   */
  datatype Layout = Layout(rowYs: seq<int>, totalY: int, pages: nat, qrNote: Option<string>)

  function ReceiptLayout(height: int, rows: nat, qrCode: Option<string>): Layout {
    Layout(seq(rows, i requires 0 <= i < rows => Cursor(height, i)), Cursor(height, rows) - 10, Breaks(height, rows) + 1, qrCode)
  }

  /** `y = height - 165; y -= 20; for item in order.items.all(): ...draw at y...; y -= 18; if y < 80: showPage; y = height - 50`. */
  method LayOutRows(height: int, rows: nat) returns (ys: seq<int>, y: int, breaks: nat)
    ensures |ys| == rows
    ensures forall i :: 0 <= i < rows ==> ys[i] == Cursor(height, i)
    ensures y == Cursor(height, rows)
    ensures breaks == Breaks(height, rows)
  {
    y := height - 165;
    y := y - 20;
    ys := [];
    breaks := 0;
    for i := 0 to rows
      invariant |ys| == i
      invariant forall j :: 0 <= j < i ==> ys[j] == Cursor(height, j)
      invariant y == Cursor(height, i)
      invariant breaks == Breaks(height, i)
    {
      ys := ys + [y];
      y := y - 18;
      if y < 80 {
        breaks := breaks + 1;
        y := height - 50;
      }
    }
  }

  /**
    When the page is tall enough for the first row to clear the margin
    (height - 185 >= 80), every row is drawn at a cursor at least 80 and at
    most 50 points below the top.
   */
  lemma {:induction false} CursorBounds(height: int, i: nat)
    requires FirstRow(height) >= BottomMargin
    ensures BottomMargin <= Cursor(height, i) <= PageTop(height)
    ensures Cursor(height, i + 1) == Cursor(height, i) - RowStep || Cursor(height, i + 1) == PageTop(height)
  {
    if i > 0 {
      CursorBounds(height, i - 1);
    }
  }

  /**
    On such a page the total row stays at least 10 points above the QR
    note's line, and every item row lies above it too.
   */
  lemma TotalAboveQrNote(height: int, rows: nat, qrCode: Option<string>)
    requires FirstRow(height) >= BottomMargin
    ensures var l := ReceiptLayout(height, rows, qrCode);
      && l.totalY >= QrNoteY + 10
      && forall i :: 0 <= i < |l.rowYs| ==> l.rowYs[i] >= QrNoteY + 20
  {
    CursorBounds(height, rows);
    var l := ReceiptLayout(height, rows, qrCode);
    forall i | 0 <= i < |l.rowYs| ensures l.rowYs[i] >= QrNoteY + 20 {
      CursorBounds(height, i);
    }
  }

  /** Rows that fit on the first page. */
  function FirstPageRows(height: int): nat
    requires FirstRow(height) >= BottomMargin
  {
    (FirstRow(height) - BottomMargin) / RowStep + 1
  }

  /** Rows that fit on every later page. */
  function FullPageRows(height: int): nat
    requires FirstRow(height) >= BottomMargin
  {
    (PageTop(height) - BottomMargin) / RowStep + 1
  }

  /**
    The cursor in closed form: the first page takes FirstPageRows rows 18
    apart from the first row down; after that each page takes FullPageRows
    rows from its top down.
   */
  function ClosedCursor(height: int, i: nat): int
    requires FirstRow(height) >= BottomMargin
  {
    var r1, r2 := FirstPageRows(height), FullPageRows(height);
    if i < r1 then FirstRow(height) - RowStep * i
    else PageTop(height) - RowStep * ((i - r1) % r2)
  }

  function ClosedBreaks(height: int, n: nat): nat
    requires FirstRow(height) >= BottomMargin
  {
    var r1, r2 := FirstPageRows(height), FullPageRows(height);
    if n < r1 then 0 else 1 + (n - r1) / r2
  }

  lemma ModStep(a: nat, m: nat)
    requires m > 0
    ensures (a + 1) % m == if a % m + 1 < m then a % m + 1 else 0
    ensures (a + 1) / m == if a % m + 1 < m then a / m else a / m + 1
  {
    var q, r := a / m, a % m;
    assert a == m * q + r;
    if r + 1 < m {
      assert a + 1 == m * q + (r + 1);
      DivModUnique(a + 1, m, q, r + 1);
    } else {
      assert a + 1 == m * (q + 1) + 0;
      DivModUnique(a + 1, m, q + 1, 0);
    }
  }

  lemma DivModUnique(a: nat, m: nat, q: nat, r: nat)
    requires m > 0 && r < m && a == m * q + r
    ensures a / m == q && a % m == r
  {
    var q', r' := a / m, a % m;
    assert a == m * q' + r';
    if q' < q {
      assert m * q' + m <= m * q by {
        MulMono(m, q' + 1, q);
      }
    } else if q' > q {
      assert m * q + m <= m * q' by {
        MulMono(m, q + 1, q');
      }
    }
  }

  lemma MulMono(m: nat, a: nat, b: nat)
    requires a <= b
    ensures m * a <= m * b
  {
  }

  lemma PageRowsFacts(height: int)
    requires FirstRow(height) >= BottomMargin
    ensures RowStep * (FirstPageRows(height) - 1) <= FirstRow(height) - BottomMargin < RowStep * FirstPageRows(height)
    ensures RowStep * (FullPageRows(height) - 1) <= PageTop(height) - BottomMargin < RowStep * FullPageRows(height)
  {
  }

  /** One step of the loop on the first page. */
  lemma ClosedStepFirstPage(height: int, k: nat)
    requires FirstRow(height) >= BottomMargin && k + 1 < FirstPageRows(height)
    ensures ClosedCursor(height, k) - RowStep >= BottomMargin
    ensures ClosedCursor(height, k + 1) == ClosedCursor(height, k) - RowStep
    ensures ClosedBreaks(height, k + 1) == ClosedBreaks(height, k) == 0
  {
    PageRowsFacts(height);
  }

  /** The step that leaves the first page. */
  lemma ClosedStepFirstBreak(height: int, k: nat)
    requires FirstRow(height) >= BottomMargin && k + 1 == FirstPageRows(height)
    ensures ClosedCursor(height, k) - RowStep < BottomMargin
    ensures ClosedCursor(height, k + 1) == PageTop(height)
    ensures ClosedBreaks(height, k) == 0 && ClosedBreaks(height, k + 1) == 1
  {
    PageRowsFacts(height);
  }

  /** A step on a later page, which ends it when its last row is drawn. */
  lemma ClosedStepLater(height: int, k: nat)
    requires FirstRow(height) >= BottomMargin && k >= FirstPageRows(height)
    ensures ClosedCursor(height, k + 1) == NextCursor(height, ClosedCursor(height, k))
    ensures ClosedBreaks(height, k + 1)
         == ClosedBreaks(height, k) + (if ClosedCursor(height, k) - RowStep < BottomMargin then 1 else 0)
  {
    PageRowsFacts(height);
    var r1, r2 := FirstPageRows(height), FullPageRows(height);
    var a := k - r1;
    ModStep(a, r2);
    assert k + 1 - r1 == a + 1;
    var j := a % r2;
    if j + 1 < r2 {
      assert RowStep * (j + 1) <= RowStep * (r2 - 1);
    } else {
      assert j == r2 - 1;
    }
  }

  /** The cursor of the item loop agrees with the closed form, row for row, and so do the breaks. */
  lemma {:induction false} CursorClosedForm(height: int, i: nat)
    requires FirstRow(height) >= BottomMargin
    ensures Cursor(height, i) == ClosedCursor(height, i)
    ensures Breaks(height, i) == ClosedBreaks(height, i)
  {
    if i > 0 {
      var k := i - 1;
      CursorClosedForm(height, k);
      if k + 1 < FirstPageRows(height) {
        ClosedStepFirstPage(height, k);
      } else if k + 1 == FirstPageRows(height) {
        ClosedStepFirstBreak(height, k);
      } else {
        ClosedStepLater(height, k);
      }
    }
  }

  /**
    On an A4 page, 40 item rows take two pages: one break after the 33rd
    row, and the total row lands on the second page.
   */
  lemma A4FortyRows()
    ensures Breaks(A4Height, 40) == 1
    ensures ReceiptLayout(A4Height, 40, None).pages == 2
    ensures Cursor(A4Height, 40) == 666
  {
    assert FirstPageRows(A4Height) == 33 && FullPageRows(A4Height) == 40;
    CursorClosedForm(A4Height, 40);
  }
}
