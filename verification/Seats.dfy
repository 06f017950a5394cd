/**
 Seat labels: written by the server when it generates the seats of a ticket, read by the web client
 to draw them.  Rows count A, ..., Z, AA, AB, ...: base 26 without a zero.
 */
module Seats {

  // ---------- row letters ----------

  function Letter(d: nat): (c: char)
    requires d < 26
    ensures 'A' <= c <= 'Z'
  {
    ('A' as int + d) as char
  }

  predicate Letters(s: string) {
    forall i :: 0 <= i < |s| ==> 'A' <= s[i] <= 'Z'
  }

  ghost function RowLabel(n: nat): (s: string)
    ensures s != [] && Letters(s)
  {
    if n < 26 then [Letter(n)] else RowLabel(n / 26 - 1) + [Letter(n % 26)]
  }

  /** The number that letters spell when A is 1 and Z is 26. */
  ghost function RowNumber(s: string): (v: nat)
    requires Letters(s)
    ensures s != [] ==> v >= 1
  {
    if s == [] then 0 else RowNumber(s[..|s| - 1]) * 26 + (s[|s| - 1] as int - 64)
  }

  lemma RowNumberSnoc(s: string, c: char)
    requires Letters(s) && 'A' <= c <= 'Z'
    ensures Letters(s + [c]) && RowNumber(s + [c]) == RowNumber(s) * 26 + (c as int - 64)
  {
  }

  lemma {:induction false} LabelNumber(n: nat)
    ensures RowNumber(RowLabel(n)) == n + 1
  {
    if n < 26 {
      RowNumberSnoc("", Letter(n));
      assert "" + [Letter(n)] == [Letter(n)];
    } else {
      LabelNumber(n / 26 - 1);
      RowNumberSnoc(RowLabel(n / 26 - 1), Letter(n % 26));
    }
  }

  /** Every string of letters is the label of one row. */
  lemma {:induction false} NumberLabel(s: string)
    requires s != [] && Letters(s)
    ensures RowLabel(RowNumber(s) - 1) == s
    decreases |s|
  {
    var front, last := s[..|s| - 1], s[|s| - 1];
    assert s == front + [last];
    var d := last as int - 65;
    assert RowNumber(s) - 1 == RowNumber(front) * 26 + d && Letter(d) == last;
    if front == [] {
      assert s == [last];
    } else {
      NumberLabel(front);
      assert (RowNumber(front) * 26 + d) / 26 == RowNumber(front) && (RowNumber(front) * 26 + d) % 26 == d;
    }
  }

  /** `rowName`: the last letter first, until nothing is left. */
  method RowName(row: nat) returns (s: string)
    ensures s == RowLabel(row)
  {
    var n: int := row;
    s := [];
    var first := true;
    while first || n >= 0
      invariant n >= -1 && (first ==> n == row && s == [])
      invariant n < 0 ==> s == RowLabel(row)
      invariant n >= 0 ==> RowLabel(n) + s == RowLabel(row)
      decreases n + 1, first
    {
      first := false;
      s := [Letter(n % 26)] + s;
      n := n / 26 - 1;
    }
  }

  // ---------- column digits ----------

  predicate Digits(s: string) {
    forall i :: 0 <= i < |s| ==> '0' <= s[i] <= '9'
  }

  function Digit(d: nat): (c: char)
    requires d < 10
    ensures '0' <= c <= '9'
  {
    ('0' as int + d) as char
  }

  function Decimal(n: nat): (s: string)
    ensures s != [] && Digits(s)
  {
    if n < 10 then [Digit(n)] else Decimal(n / 10) + [Digit(n % 10)]
  }

  function DecimalValue(s: string): (v: nat)
    requires Digits(s)
  {
    if s == [] then 0 else DecimalValue(s[..|s| - 1]) * 10 + (s[|s| - 1] as int - '0' as int)
  }

  lemma {:induction false} DecimalRoundTrip(n: nat)
    ensures DecimalValue(Decimal(n)) == n
  {
    if n >= 10 {
      DecimalRoundTrip(n / 10);
      assert (Decimal(n / 10) + [Digit(n % 10)])[..|Decimal(n / 10)|] == Decimal(n / 10);
    }
  }

  // ---------- labels ----------

  datatype Place = Place(row: int, col: int)

  ghost function Label(row: nat, column: nat): string {
    RowLabel(row) + Decimal(column)
  }

  /** How many letters a label begins with. */
  function LetterPrefix(s: string): (k: nat)
    ensures k <= |s| && Letters(s[..k])
    ensures k < |s| ==> !('A' <= s[k] <= 'Z')
  {
    if s == [] || !('A' <= s[0] <= 'Z') then 0
    else
      assert s[..1 + LetterPrefix(s[1..])] == [s[0]] + s[1..][..LetterPrefix(s[1..])];
      1 + LetterPrefix(s[1..])
  }

  /** Letters, at least one, and then digits, at least one. */
  predicate WellFormed(s: string) {
    0 < LetterPrefix(s) < |s| && Digits(s[LetterPrefix(s)..])
  }

  ghost function Parsed(s: string): Place {
    if !WellFormed(s) then Place(0, 0)
    else Place(RowNumber(s[..LetterPrefix(s)]) - 1, DecimalValue(s[LetterPrefix(s)..]) - 1)
  }

  lemma {:induction false} PrefixIs(letters: string, digits: string)
    requires Letters(letters) && Digits(digits)
    ensures LetterPrefix(letters + digits) == |letters|
    ensures (letters + digits)[..|letters|] == letters && (letters + digits)[|letters|..] == digits
  {
    if letters == [] {
      assert letters + digits == digits;
    } else {
      PrefixIs(letters[1..], digits);
      assert (letters + digits)[1..] == letters[1..] + digits;
    }
  }

  /** The client reads back the row and the column that the server wrote. */
  lemma LabelRoundTrip(row: nat, column: nat)
    ensures Parsed(Label(row, column)) == Place(row, column - 1)
  {
    PrefixIs(RowLabel(row), Decimal(column));
    LabelNumber(row);
    DecimalRoundTrip(column);
  }

  lemma LabelsDiffer(row: nat, column: nat, row': nat, column': nat)
    ensures Label(row, column) == Label(row', column') <==> row == row' && column == column'
  {
    LabelRoundTrip(row, column);
    LabelRoundTrip(row', column');
  }

  method Parse(text: string) returns (p: Place)
    ensures p == Parsed(text)
  {
    if !WellFormed(text) { return Place(0, 0); }
    var rowStr := text[..LetterPrefix(text)];
    var row := 0;
    for i := 0 to |rowStr|
      invariant row == RowNumber(rowStr[..i])
    {
      assert rowStr[..i + 1][..i] == rowStr[..i];
      row := row * 26 + (rowStr[i] as int - 64);
    }
    assert rowStr[..|rowStr|] == rowStr;
    return Place(row - 1, DecimalValue(text[LetterPrefix(text)..]) - 1);
  }

  // ---------- generating the seats of a ticket ----------

  datatype Seat = Seat(text: string, rowLabel: string, colNum: nat)

  function Columns(total: int): (cols: nat)
    ensures cols >= 10
  {
    if total <= 50 then 10 else if total <= 200 then 15 else 20
  }

  /** Seat i of a ticket, counted row by row. */
  ghost function SeatAt(cols: nat, i: nat): Seat
    requires cols > 0
  {
    Seat(Label(i / cols, i % cols + 1), RowLabel(i / cols), i % cols + 1)
  }

  lemma AtLeast(k: int, d: nat)
    requires k >= 1
    ensures k * d >= d
  {
  }

  lemma Distribute(a: int, b: int, d: nat)
    ensures (a - b) * d == a * d - b * d
  {
  }

  lemma Position(cols: nat, r: nat, c: nat)
    requires c < cols
    ensures (r * cols + c) / cols == r && (r * cols + c) % cols == c
  {
    var x := r * cols + c;
    Divide(x, cols);
    Distribute(r, x / cols, cols);
    Distribute(x / cols, r, cols);
    if r > x / cols { AtLeast(r - x / cols, cols); }
    if x / cols > r { AtLeast(x / cols - r, cols); }
  }

  lemma Rows(cols: nat, total: nat, rows: nat)
    requires cols > 0 && rows == (total + cols - 1) / cols
    ensures rows * cols >= total
  {
  }

  method Generate(totalSeats: int) returns (seats: seq<Seat>)
    ensures |seats| == if totalSeats <= 0 then 0 else totalSeats
    ensures forall i :: 0 <= i < |seats| ==> seats[i] == SeatAt(Columns(totalSeats), i)
  {
    seats := [];
    if totalSeats <= 0 { return; }
    var cols := Columns(totalSeats);
    var rows := (totalSeats + cols - 1) / cols;
    Rows(cols, totalSeats, rows);
    var r := 0;
    while r < rows && |seats| < totalSeats
      invariant 0 <= r <= rows && |seats| <= totalSeats
      invariant |seats| == r * cols || |seats| == totalSeats
      invariant forall i :: 0 <= i < |seats| ==> seats[i] == SeatAt(cols, i)
    {
      var rowLabel := RowName(r);
      var c := 1;
      while c <= cols && |seats| < totalSeats
        invariant 1 <= c <= cols + 1 && |seats| <= totalSeats
        invariant |seats| == r * cols + (c - 1)
        invariant forall i :: 0 <= i < |seats| ==> seats[i] == SeatAt(cols, i)
      {
        Position(cols, r, c - 1);
        seats := seats + [Seat(rowLabel + Decimal(c), rowLabel, c)];
        c := c + 1;
      }
      r := r + 1;
    }
  }

  /** All labels differ, so no row of the batch insert is ignored, and no row of seats is too long. */
  lemma GeneratedSeats(total: nat, i: nat, j: nat)
    requires i < j < total
    ensures
      var cols := Columns(total);
      && SeatAt(cols, i).text != SeatAt(cols, j).text
      && 1 <= SeatAt(cols, i).colNum <= cols
      && (SeatAt(cols, i).rowLabel == SeatAt(cols, j).rowLabel <==> i / cols == j / cols)
      && Parsed(SeatAt(cols, i).text) == Place(i / cols, i % cols)
  {
    var cols := Columns(total);
    LabelsDiffer(i / cols, i % cols + 1, j / cols, j % cols + 1);
    LabelRoundTrip(i / cols, i % cols + 1);
    LabelNumber(i / cols);
    LabelNumber(j / cols);
    Divide(i, cols);
    Divide(j, cols);
  }

  lemma Divide(i: nat, cols: nat)
    requires cols > 0
    ensures i == (i / cols) * cols + i % cols && i % cols < cols
  {
  }
}
