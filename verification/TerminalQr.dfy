/** The pairing QR code as terminal text: two rows of modules to a line of half blocks. */
module TerminalQr {
  type Row = seq<bool>

  function Cell(top: bool, bottom: bool): char {
    if top && bottom then '\U{2588}' else if top then '\U{2580}' else if bottom then '\U{2584}' else ' '
  }

  function Shorter(a: nat, b: nat): nat {
    if a < b then a else b
  }

  // `zip` stops at the shorter row.
  function Line(top: Row, bottom: Row): string {
    seq(Shorter(|top|, |bottom|), i requires 0 <= i < |top| && i < |bottom| => Cell(top[i], bottom[i]))
  }

  function Blank(width: nat): Row {
    seq(width, _ => false)
  }

  function LineCount(height: nat): nat {
    (height + 1) / 2
  }

  // Row `r`, or the blank one that stands below an odd last row.
  function RowAt(matrix: seq<Row>, r: nat): Row
    requires 0 < r <= |matrix| || r < |matrix|
  {
    if r < |matrix| then matrix[r] else Blank(|matrix[r - 1]|)
  }

  function LineAt(matrix: seq<Row>, k: nat): string
    requires k < LineCount(|matrix|)
  {
    Line(matrix[2 * k], RowAt(matrix, 2 * k + 1))
  }

  function Packed(matrix: seq<Row>): seq<string> {
    seq(LineCount(|matrix|), k requires 0 <= k < LineCount(|matrix|) => LineAt(matrix, k))
  }

  // `"\n".join(rows)`
  function Join(rows: seq<string>): string {
    if rows == [] then ""
    else if |rows| == 1 then rows[0]
    else rows[0] + "\n" + Join(rows[1..])
  }

  method Render(matrix: seq<Row>) returns (text: string)
    ensures text == Join(Packed(matrix))
  {
    var rows: seq<string> := [];
    var index := 0;
    while index < |matrix|
      invariant index == 2 * |rows| && |rows| <= LineCount(|matrix|)
      invariant forall k :: 0 <= k < |rows| ==> rows[k] == LineAt(matrix, k)
    {
      var top := matrix[index];
      var bottom := if index + 1 < |matrix| then matrix[index + 1] else Blank(|top|);
      assert bottom == RowAt(matrix, index + 1);
      var line := "";
      while |line| < Shorter(|top|, |bottom|)
        invariant |line| <= Shorter(|top|, |bottom|)
        invariant forall i :: 0 <= i < |line| ==> line[i] == Line(top, bottom)[i]
      {
        var topDark, bottomDark := top[|line|], bottom[|line|];
        if topDark && bottomDark {
          line := line + ['\U{2588}'];
        } else if topDark {
          line := line + ['\U{2580}'];
        } else if bottomDark {
          line := line + ['\U{2584}'];
        } else {
          line := line + [' '];
        }
      }
      assert line == LineAt(matrix, |rows|);
      rows := rows + [line];
      index := index + 2;
    }
    assert rows == Packed(matrix);
    text := Join(rows);
  }

  // ----- reading it back

  predicate Upper(c: char) {
    c == '\U{2588}' || c == '\U{2580}'
  }

  predicate Lower(c: char) {
    c == '\U{2588}' || c == '\U{2584}'
  }

  // `text.split("\n")`
  function Split(text: string): (rows: seq<string>)
    ensures rows != []
  {
    if text == "" then [""]
    else
      var rest := Split(text[1..]);
      if text[0] == '\n' then [""] + rest else [[text[0]] + rest[0]] + rest[1..]
  }

  function UnpackRow(line: string, lower: bool): Row {
    seq(|line|, i requires 0 <= i < |line| => if lower then Lower(line[i]) else Upper(line[i]))
  }

  function Unpack(lines: seq<string>, height: nat): seq<Row>
    requires LineCount(height) <= |lines|
  {
    seq(height, r requires 0 <= r < height => UnpackRow(lines[r / 2], r % 2 == 1))
  }

  predicate Rectangular(matrix: seq<Row>, width: nat) {
    forall r :: 0 <= r < |matrix| ==> |matrix[r]| == width
  }

  lemma {:induction false} SplitLine(line: string, rest: string)
    requires '\n' !in line
    ensures Split(line) == [line]
    ensures Split(line + "\n" + rest) == [line] + Split(rest)
  {
    if line == "" {
      assert line + "\n" + rest == "\n" + rest;
      assert ("\n" + rest)[1..] == rest;
    } else {
      SplitLine(line[1..], rest);
      assert (line + "\n" + rest)[1..] == line[1..] + "\n" + rest;
      assert [line[0]] + line[1..] == line;
    }
  }

  // Lines without line breaks are recovered exactly.
  lemma {:induction false} SplitJoin(rows: seq<string>)
    requires rows != [] && forall k :: 0 <= k < |rows| ==> '\n' !in rows[k]
    ensures Split(Join(rows)) == rows
  {
    if |rows| == 1 {
      SplitLine(rows[0], "");
    } else {
      SplitLine(rows[0], Join(rows[1..]));
      SplitJoin(rows[1..]);
    }
  }

  lemma LineHasNoBreak(top: Row, bottom: Row)
    ensures '\n' !in Line(top, bottom)
  {
    forall i | 0 <= i < |Line(top, bottom)| ensures Line(top, bottom)[i] != '\n' {
      assert Line(top, bottom)[i] == Cell(top[i], bottom[i]);
    }
  }

  // The text splits into one line for every two rows.
  lemma {:induction false} SplitsCleanly(matrix: seq<Row>)
    requires matrix != []
    ensures Split(Join(Packed(matrix))) == Packed(matrix)
  {
    forall k | 0 <= k < LineCount(|matrix|) ensures '\n' !in Packed(matrix)[k] {
      LineHasNoBreak(matrix[2 * k], RowAt(matrix, 2 * k + 1));
    }
    SplitJoin(Packed(matrix));
  }

  lemma UnpackLine(top: Row, bottom: Row)
    requires |top| == |bottom|
    ensures UnpackRow(Line(top, bottom), false) == top && UnpackRow(Line(top, bottom), true) == bottom
  {
  }

  lemma UnpackRowAt(matrix: seq<Row>, width: nat, r: nat)
    requires Rectangular(matrix, width) && r < 2 * LineCount(|matrix|)
    ensures UnpackRow(Packed(matrix)[r / 2], r % 2 == 1) == RowAt(matrix, r)
  {
    var k := r / 2;
    assert Packed(matrix)[k] == LineAt(matrix, k);
    UnpackLine(matrix[2 * k], RowAt(matrix, 2 * k + 1));
  }

  // Given the height, the text holds exactly the rows it was made from, odd heights included.
  lemma {:induction false} RenderReadsBack(matrix: seq<Row>, width: nat)
    requires Rectangular(matrix, width)
    ensures LineCount(|matrix|) <= |Split(Join(Packed(matrix)))|
    ensures Unpack(Split(Join(Packed(matrix))), |matrix|) == matrix
  {
    if matrix != [] {
      SplitsCleanly(matrix);
      forall r | 0 <= r < |matrix| ensures Unpack(Packed(matrix), |matrix|)[r] == matrix[r] {
        UnpackRowAt(matrix, width, r);
      }
    }
  }

  // The same rows, or one more blank row below an odd height.
  predicate LooksLike(m: seq<Row>, n: seq<Row>)
    requires 0 < |m| <= |n|
  {
    m == n || (|m| % 2 == 1 && n == m + [Blank(|m[|m| - 1]|)])
  }

  lemma SameLinesSameRows(m: seq<Row>, n: seq<Row>, width: nat, width': nat)
    requires Rectangular(m, width) && Rectangular(n, width') && 0 < |m| <= |n| && Packed(m) == Packed(n)
    ensures LooksLike(m, n)
  {
    assert LineCount(|m|) == LineCount(|n|) by {
      assert |Packed(m)| == LineCount(|m|) && |Packed(n)| == LineCount(|n|);
    }
    forall r | 0 <= r < |n| ensures RowAt(m, r) == n[r] {
      UnpackRowAt(m, width, r);
      UnpackRowAt(n, width', r);
    }
    assert forall r :: 0 <= r < |m| ==> m[r] == RowAt(m, r);
    if |n| == |m| {
      assert m == n;
    } else {
      assert n[|m|] == RowAt(m, |m|);
      assert n == m + [RowAt(m, |m|)];
    }
  }

  lemma BlankRowIsInvisible(m: seq<Row>)
    requires |m| % 2 == 1
    ensures Packed(m + [Blank(|m[|m| - 1]|)]) == Packed(m)
  {
    var n := m + [Blank(|m[|m| - 1]|)];
    forall k | 0 <= k < LineCount(|m|) ensures LineAt(m, k) == LineAt(n, k) {
      assert m[2 * k] == n[2 * k] && RowAt(m, 2 * k + 1) == RowAt(n, 2 * k + 1);
    }
  }

  // Two codes print the same text exactly when they are the same up to a blank last row.
  lemma {:induction false} RenderInjective(m: seq<Row>, n: seq<Row>, width: nat, width': nat)
    requires Rectangular(m, width) && Rectangular(n, width') && 0 < |m| <= |n|
    ensures Join(Packed(m)) == Join(Packed(n)) <==> LooksLike(m, n)
  {
    if Join(Packed(m)) == Join(Packed(n)) {
      SplitsCleanly(m);
      SplitsCleanly(n);
      SameLinesSameRows(m, n, width, width');
    } else if |m| % 2 == 1 {
      BlankRowIsInvisible(m);
    }
  }
}
