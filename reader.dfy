/**
 * Reader: whole-file readers. `read_csv` keeps the rows whose csv line number is at least
 * start_line and, when max_read_lines is not None, only the first max_read_lines of those.
 * `read_anyfile` returns the whole text (or its lines without newlines) when max_read_lines is
 * None, and otherwise the max_read_lines lines that follow the first start_line - 1.
 */
module Reader {
  import opened Wrappers
  import opened PyValues
  import opened Exceptions
  import opened Text

  // ---------------------------------------------------------------------------------------
  // read_csv
  // ---------------------------------------------------------------------------------------

  /**
   * A parsed row: the list (csv.reader) or dict (csv.DictReader) it gives, and the reader's
   * `line_num` after reading it (the physical lines consumed so far, the header line included).
   */
  datatype CsvRow = CsvRow(record: Value, lineNum: int)

  /** The records of the rows at or after line `startLine`, in order. */
  function Eligible(rows: seq<CsvRow>, startLine: int): (r: seq<Value>)
    ensures |r| <= |rows|
  {
    if rows == [] then []
    else (if rows[0].lineNum >= startLine then [rows[0].record] else []) + Eligible(rows[1..], startLine)
  }

  lemma {:induction false} EligibleAppend(a: seq<CsvRow>, b: seq<CsvRow>, startLine: int)
    ensures Eligible(a + b, startLine) == Eligible(a, startLine) + Eligible(b, startLine)
  {
    if a == [] {
      assert a + b == b;
    } else {
      var h := if a[0].lineNum >= startLine then [a[0].record] else [];
      assert (a + b)[0] == a[0];
      assert (a + b)[1..] == a[1..] + b;
      assert Eligible(a + b, startLine) == h + Eligible(a[1..] + b, startLine);
      EligibleAppend(a[1..], b, startLine);
      var x, y := Eligible(a[1..], startLine), Eligible(b, startLine);
      assert h + (x + y) == (h + x) + y;
    }
  }

  /** The records of all rows, in order. */
  function Records(rows: seq<CsvRow>): (r: seq<Value>)
    ensures |r| == |rows| && forall i :: 0 <= i < |rows| ==> r[i] == rows[i].record
  {
    seq(|rows|, i requires 0 <= i < |rows| => rows[i].record)
  }

  /** Every row at or after start_line is kept. */
  lemma {:induction false} EligibleKeeps(rows: seq<CsvRow>, startLine: int, i: int)
    requires 0 <= i < |rows| && rows[i].lineNum >= startLine
    ensures rows[i].record in Eligible(rows, startLine)
  {
    if i > 0 {
      assert rows[1..][i - 1] == rows[i];
      EligibleKeeps(rows[1..], startLine, i - 1);
    }
  }

  /** Rows before start_line are dropped: nothing is kept when every row is before it. */
  lemma {:induction false} EligibleNone(rows: seq<CsvRow>, startLine: int)
    requires forall i :: 0 <= i < |rows| ==> rows[i].lineNum < startLine
    ensures Eligible(rows, startLine) == []
  {
    if rows != [] {
      assert forall i :: 0 <= i < |rows| - 1 ==> rows[1..][i] == rows[i + 1];
      EligibleNone(rows[1..], startLine);
    }
  }

  /** When every row is at or after start_line, every record is kept, in order. */
  lemma {:induction false} EligibleAll(rows: seq<CsvRow>, startLine: int)
    requires forall i :: 0 <= i < |rows| ==> rows[i].lineNum >= startLine
    ensures Eligible(rows, startLine) == Records(rows)
  {
    if rows != [] {
      assert forall i :: 0 <= i < |rows| - 1 ==> rows[1..][i] == rows[i + 1];
      EligibleAll(rows[1..], startLine);
      assert Records(rows) == [rows[0].record] + Records(rows[1..]);
    }
  }

  /** What `read_csv` returns: every eligible record, or only the first max_read_lines of them. */
  function CsvSelection(rows: seq<CsvRow>, startLine: int, maxReadLines: Option<int>): seq<Value>
  {
    var e := Eligible(rows, startLine);
    if maxReadLines.None? then e else e[..Min(|e|, Max(maxReadLines.value, 0))]
  }

  /** A bound keeps a prefix of the unbounded answer, and a bound at least as large as it changes nothing. */
  lemma CsvBoundIsPrefix(rows: seq<CsvRow>, startLine: int, k: int)
    ensures var all := CsvSelection(rows, startLine, None);
            var some := CsvSelection(rows, startLine, Some(k));
            |some| == Min(|all|, Max(k, 0)) && some == all[..|some|]
    ensures k >= |rows| ==> CsvSelection(rows, startLine, Some(k)) == CsvSelection(rows, startLine, None)
  {
  }

  /** `read_csv`: refuse an unknown line type, then collect the selected rows. */
  method ReadCsv(lineType: string, rows: seq<CsvRow>, startLine: int, maxReadLines: Option<int>)
    returns (r: Result<seq<Value>, Error>)
    ensures lineType != "list" && lineType != "dict" ==> r == Failure(ArgValueError("each_line_type must be list or dict"))
    ensures lineType == "list" || lineType == "dict" ==> r == Success(CsvSelection(rows, startLine, maxReadLines))
  {
    if lineType != "list" && lineType != "dict" {
      return Failure(ArgValueError("each_line_type must be list or dict"));
    }
    var res := CollectCsv(rows, startLine, maxReadLines);
    return Success(res);
  }

  /**
   * The loop of `read_csv`: skip the rows before start_line; without a bound keep every other row;
   * with one, count each kept row and stop at the first that takes the count past the bound.
   */
  method CollectCsv(rows: seq<CsvRow>, startLine: int, maxReadLines: Option<int>) returns (res: seq<Value>)
    ensures res == CsvSelection(rows, startLine, maxReadLines)
  {
    res := [];
    var count := 0;
    var i := 0;
    ghost var bound := if maxReadLines.Some? then Max(maxReadLines.value, 0) else |rows|;
    while i < |rows|
      invariant 0 <= i <= |rows|
      invariant res == Eligible(rows[..i], startLine)
      invariant maxReadLines.Some? ==> count == |res| <= bound
    {
      var row := rows[i];
      EligibleAppend(rows[..i], [row], startLine);
      assert rows[..i + 1] == rows[..i] + [row];
      if row.lineNum < startLine {
        i := i + 1;
        continue;
      }
      if maxReadLines.None? {
        res := res + [row.record];
        i := i + 1;
        continue;
      }
      count := count + 1;
      if count <= maxReadLines.value {
        res := res + [row.record];
      } else {
        CsvStop(rows, i, startLine, bound);
        break;
      }
      i := i + 1;
    }
    if i == |rows| {
      assert rows[..i] == rows;
    }
  }

  /** Stopping at row `i` keeps exactly the first `bound` eligible records. */
  lemma CsvStop(rows: seq<CsvRow>, i: int, startLine: int, bound: int)
    requires 0 <= i < |rows| && rows[i].lineNum >= startLine
    requires |Eligible(rows[..i], startLine)| == bound
    ensures |Eligible(rows, startLine)| > bound
    ensures Eligible(rows, startLine)[..bound] == Eligible(rows[..i], startLine)
  {
    assert rows == rows[..i] + rows[i..];
    EligibleAppend(rows[..i], rows[i..], startLine);
    assert rows[i..][0] == rows[i];
  }

  // ---------------------------------------------------------------------------------------
  // read_anyfile
  // ---------------------------------------------------------------------------------------

  /** Lines skipped before reading starts: start_line - 1, at least 0, at most every line. */
  function SkipCount(lines: seq<string>, startLine: int): nat
  {
    Min(Max(startLine - 1, 0), |lines|)
  }

  /**
   * Lines the bounded loop asks for: `range(1, k + start_line + 1)` leaves k reading turns when
   * start_line >= 1, and only k + start_line when start_line < 1.
   */
  function ReadCount(startLine: int, k: int): nat
  {
    if startLine >= 1 then Max(k, 0) else Max(k + startLine, 0)
  }

  /** The lines a bounded read returns. */
  function AnyfileLines(content: string, startLine: int, k: int): (r: seq<string>)
    ensures var lines := Lines(content);
            |r| == Min(ReadCount(startLine, k), |lines| - SkipCount(lines, startLine))
  {
    var lines := Lines(content);
    var s := SkipCount(lines, startLine);
    lines[s..Min(s + ReadCount(startLine, k), |lines|)]
  }

  /** What `read_anyfile` returns. */
  function AnyfileResult(content: string, startLine: int, maxReadLines: Option<int>, lineByLine: bool): Value
  {
    if maxReadLines.None? then
      if lineByLine then VList(seq(|Lines(content)|, i requires 0 <= i < |Lines(content)| =>
                                     VStr(StripNewlines(Lines(content)[i]))))
      else VStr(content)
    else
      var picked := AnyfileLines(content, startLine, maxReadLines.value);
      if lineByLine then VList(seq(|picked|, i requires 0 <= i < |picked| => VStr(picked[i])))
      else VStr(Concat(picked))
  }

  /** A bounded read from the first line whose bound covers every line gives the whole text back. */
  lemma BoundedCoversAll(content: string, k: int)
    requires k >= |Lines(content)|
    ensures AnyfileResult(content, 1, Some(k), false) == AnyfileResult(content, 1, None, false)
  {
    var lines := Lines(content);
    assert lines[0..|lines|] == lines;
    LinesConcat(content);
  }

  /**
   * Reading k lines from line `startLine` and then k2 lines from where that stopped returns,
   * joined, the same lines as one read of k + k2 lines.
   */
  lemma ConsecutiveReads(content: string, startLine: int, k: nat, k2: nat)
    requires startLine >= 1
    ensures AnyfileLines(content, startLine, k) + AnyfileLines(content, startLine + k, k2) ==
            AnyfileLines(content, startLine, k + k2)
  {
    var lines := Lines(content);
    var n := |lines|;
    var s := SkipCount(lines, startLine);
    var mid := Min(s + k, n);
    var e := Min(mid + k2, n);
    assert SkipCount(lines, startLine + k) == mid;
    assert AnyfileLines(content, startLine, k) == lines[s..mid];
    assert AnyfileLines(content, startLine + k, k2) == lines[mid..e];
    assert AnyfileLines(content, startLine, k + k2) == lines[s..e];
    SliceJoin(lines, s, mid, e);
  }

  /** Adjacent slices join into one. */
  lemma SliceJoin<T>(xs: seq<T>, a: nat, b: nat, c: nat)
    requires a <= b <= c <= |xs|
    ensures xs[a..b] + xs[b..c] == xs[a..c]
  {
  }

  /**
   * `read_anyfile`: the whole text, or its lines stripped of newlines, when max_read_lines is None;
   * otherwise the `range(1, max_read_lines + start_line + 1)` loop that skips and then reads lines.
   */
  method ReadAnyfile(content: string, startLine: int, maxReadLines: Option<int>, lineByLine: bool)
    returns (r: Value)
    ensures r == AnyfileResult(content, startLine, maxReadLines, lineByLine)
  {
    var lines := Lines(content);
    if maxReadLines.None? {
      if !lineByLine {
        return VStr(content);
      }
      var stripped: seq<Value> := [];
      var j := 0;
      while j < |lines|
        invariant 0 <= j <= |lines|
        invariant |stripped| == j && forall q :: 0 <= q < j ==> stripped[q] == VStr(StripNewlines(lines[q]))
      {
        stripped := stripped + [VStr(StripNewlines(lines[j]))];
        j := j + 1;
      }
      return VList(stripped);
    }
    var k := maxReadLines.value;
    var picked := ReadBounded(lines, startLine, k);
    if !lineByLine {
      return VStr(Concat(picked));
    }
    var out: seq<Value> := [];
    var j := 0;
    while j < |picked|
      invariant 0 <= j <= |picked|
      invariant |out| == j && forall q :: 0 <= q < j ==> out[q] == VStr(picked[q])
    {
      out := out + [VStr(picked[j])];
      j := j + 1;
    }
    return VList(out);
  }

  /** The bounded loop: `lines` are what successive readline calls return before the empty string. */
  method ReadBounded(lines: seq<string>, startLine: int, k: int) returns (res: seq<string>)
    ensures res == lines[SkipCount(lines, startLine)..Min(SkipCount(lines, startLine) + ReadCount(startLine, k), |lines|)]
  {
    ghost var b := Max(startLine, 1);
    ghost var s0 := Min(b - 1, |lines|);
    res := [];
    var pos := 0;
    var count := 0;
    var i := 1;
    while i < k + startLine + 1
      invariant 1 <= i
      invariant i <= b ==> pos == Min(i - 1, |lines|) && res == [] && count == 0
      invariant i >= b ==> count == i - b && pos == s0 + count <= |lines| && res == lines[s0..pos]
      invariant count <= Max(k, 0)
      invariant i <= Max(k + startLine + 1, 1)
      decreases k + startLine + 1 - i
    {
      if i < startLine {
        if pos == |lines| {
          break;
        }
        pos := pos + 1;
        i := i + 1;
        continue;
      }
      if count < k {
        count := count + 1;
        if pos == |lines| {
          break;
        }
        res := res + [lines[pos]];
        pos := pos + 1;
      } else {
        break;
      }
      i := i + 1;
    }
  }
}
