/**
 * async_csv_writer and async_anyfile_writer: objects that append the records of successive
 * `write(data)` calls to an open file. The csv writer decides its header once: from the headers
 * given at construction (in dict mode they are never written out), or on the first write from
 * the keys of its first record (dict mode, written as a header row) or not at all (list mode).
 * Falsy records are skipped, and a record `writerow` cannot take raises after the rows before it
 * have been written. The file is modelled as the sequence of rows (csv) or the text (anyfile)
 * written since it was opened with mode "w".
 */
module AsyncWriter {
  import opened Wrappers
  import opened PyValues
  import opened Exceptions
  import opened Text
  import opened CsvRows

  // ---------------------------------------------------------------------------------------
  // async_csv_writer
  // ---------------------------------------------------------------------------------------

  /** The `self.writer` attribute: absent until headers are known, then a csv.writer or a DictWriter. */
  datatype WriterKind = NoWriter | ListWriter | DictWriter(fieldnames: Value)

  datatype CsvState = CsvState(writer: WriterKind, hasHeaders: bool, out: seq<CsvOutRow>, totalCount: nat)

  predicate ValidLineType(lineType: string)
  {
    lineType == "list" || lineType == "dict"
  }

  /**
   * What every reachable state satisfies: a writer exists exactly when the headers are known,
   * nothing is written before that, a header row can only be the first row, and `total_count`
   * counts the data rows.
   */
  predicate Disciplined(st: CsvState)
  {
    && (st.hasHeaders <==> !st.writer.NoWriter?)
    && (!st.hasHeaders ==> st.out == [] && st.totalCount == 0)
    && HeaderOnlyFirst(st.out)
    && st.totalCount == |st.out| - (if st.out != [] && st.out[0].HeaderRow? then 1 else 0)
  }

  /**
   * The constructor: an unknown line type is refused; headers given in list mode make
   * `csv.writer(f, fieldnames=...)` raise TypeError; headers given in dict mode make a DictWriter
   * whose header row is never written.
   */
  function OpenCsv(lineType: string, headers: Value): (r: Result<CsvState, Error>)
    ensures !ValidLineType(lineType) ==> r == Failure(ArgValueError("each_line_type must be list or dict"))
    ensures ValidLineType(lineType) && lineType == "list" && Truthy(headers) ==> r == Failure(TypeError)
    ensures r.Success? <==> ValidLineType(lineType) && !(lineType == "list" && Truthy(headers))
    ensures r.Success? ==> Disciplined(r.value) && r.value.out == [] && r.value.totalCount == 0
    ensures r.Success? ==> (r.value.hasHeaders <==> Truthy(headers))
    ensures r.Success? && Truthy(headers) ==> r.value.writer == DictWriter(headers)
  {
    if !ValidLineType(lineType) then Failure(ArgValueError("each_line_type must be list or dict"))
    else if !Truthy(headers) then Success(CsvState(NoWriter, false, [], 0))
    else if lineType == "list" then Failure(TypeError)
    else Success(CsvState(DictWriter(headers), true, [], 0))
  }

  /**
   * `_get_headers(data)`: list mode takes a plain csv.writer and writes no header; dict mode writes
   * the keys of the first record as the header row, failing like `data[0].keys()` would.
   */
  function HeadersFixed(lineType: string, st: CsvState, data: seq<Value>): (r: Result<CsvState, Error>)
    requires ValidLineType(lineType)
    ensures lineType == "list" ==> r == Success(st.(writer := ListWriter, hasHeaders := true))
    ensures lineType == "dict" && FirstKeys(data).Failure? ==> r == Failure(FirstKeys(data).error)
    ensures lineType == "dict" && FirstKeys(data).Success? ==>
              r == Success(st.(writer := DictWriter(FirstKeys(data).value), hasHeaders := true,
                               out := st.out + [HeaderRow(FirstKeys(data).value)]))
  {
    if lineType == "list" then Success(st.(writer := ListWriter, hasHeaders := true))
    else
      match FirstKeys(data)
      case Failure(e) => Failure(e)
      case Success(h) => Success(st.(writer := DictWriter(h), hasHeaders := true, out := st.out + [HeaderRow(h)]))
  }

  /** The rows written for the records of one call: a data row for each truthy record, in order. */
  function Emitted(items: seq<Value>): (r: seq<CsvOutRow>)
    ensures |r| <= |items|
    ensures forall k :: 0 <= k < |r| ==> r[k].DataRow? && Truthy(r[k].record) && r[k].record in items
    ensures forall k :: 0 <= k < |items| && Truthy(items[k]) ==> DataRow(items[k]) in r
  {
    if items == [] then []
    else (if Truthy(items[0]) then [DataRow(items[0])] else []) + Emitted(items[1..])
  }

  /** Emitting is a homomorphism: records written in two runs give the rows of one run over both. */
  lemma {:induction false} EmittedAppend(a: seq<Value>, b: seq<Value>)
    ensures Emitted(a + b) == Emitted(a) + Emitted(b)
  {
    if a == [] {
      assert a + b == b;
    } else {
      assert (a + b)[0] == a[0];
      assert (a + b)[1..] == a[1..] + b;
      EmittedAppend(a[1..], b);
    }
  }

  /** One more record at the end adds its row when it is truthy. */
  lemma EmittedSnoc(a: seq<Value>, x: Value)
    ensures Emitted(a + [x]) == Emitted(a) + (if Truthy(x) then [DataRow(x)] else [])
  {
    EmittedAppend(a, [x]);
    assert [x][1..] == [];
  }

  /** A list whose every record is truthy is written in full. */
  lemma {:induction false} EmittedAllTruthy(items: seq<Value>)
    requires forall k :: 0 <= k < |items| ==> Truthy(items[k])
    ensures Emitted(items) == DataRows(items)
  {
    if items != [] {
      EmittedAllTruthy(items[1..]);
    }
  }

  /** The csv object behind `self.writer` once the headers are known. */
  function Through(w: WriterKind): RowWriter
  {
    if w.DictWriter? then FieldWriter(w.fieldnames) else PlainWriter
  }

  /** The index of the first truthy record `writerow` raises for, or the number of records when there is none. */
  function FirstRefused(w: WriterKind, items: seq<Value>): (i: nat)
    ensures i <= |items|
  {
    if items == [] || (Truthy(items[0]) && RowError(Through(w), items[0]).Some?) then 0
    else 1 + FirstRefused(w, items[1..])
  }

  /** Every record before the first refused one is falsy or taken; the first refused one is truthy and raised for. */
  lemma {:induction false} FirstRefusedSpec(w: WriterKind, items: seq<Value>)
    ensures forall k :: 0 <= k < FirstRefused(w, items) ==> !Truthy(items[k]) || RowError(Through(w), items[k]).None?
    ensures FirstRefused(w, items) < |items| ==>
              Truthy(items[FirstRefused(w, items)]) && RowError(Through(w), items[FirstRefused(w, items)]).Some?
  {
    if items != [] && !(Truthy(items[0]) && RowError(Through(w), items[0]).Some?) {
      FirstRefusedSpec(w, items[1..]);
      assert forall k :: 1 <= k < |items| ==> items[k] == items[1..][k - 1];
    }
  }

  /** Before the first refused record, a record is refused exactly when it is the first refused one. */
  lemma FirstRefusedAt(w: WriterKind, items: seq<Value>, i: nat)
    requires i <= FirstRefused(w, items) && i < |items|
    ensures Truthy(items[i]) && RowError(Through(w), items[i]).Some? <==> FirstRefused(w, items) == i
  {
    FirstRefusedSpec(w, items);
  }

  /** When no record of `a` is refused, the first refused record of `a + b` is the first refused one of `b`. */
  lemma {:induction false} FirstRefusedAppend(w: WriterKind, a: seq<Value>, b: seq<Value>)
    requires FirstRefused(w, a) == |a|
    ensures FirstRefused(w, a + b) == |a| + FirstRefused(w, b)
  {
    if a == [] {
      assert a + b == b;
    } else {
      assert (a + b)[0] == a[0];
      assert (a + b)[1..] == a[1..] + b;
      FirstRefusedAppend(w, a[1..], b);
    }
  }

  /** With every record truthy, the first refused record is the first one `writerow` raises for. */
  lemma {:induction false} FirstRefusedAllTruthy(w: WriterKind, items: seq<Value>)
    requires forall k :: 0 <= k < |items| ==> Truthy(items[k])
    ensures FirstRefused(w, items) == FirstUnwritable(Through(w), items)
  {
    if items != [] {
      FirstRefusedAllTruthy(w, items[1..]);
    }
  }

  /**
   * `write(data)`: refuse a non-list; fix the headers on the first call; then write a row for
   * every truthy record and count it, until `writerow` raises for one. A failure before the loop
   * leaves the file and the writer as they were; a raise inside the loop keeps the header fixed
   * and the rows written and counted before it.
   */
  function WriteCsv(lineType: string, st: CsvState, data: Value): (r: (CsvState, Outcome<Error>))
    requires ValidLineType(lineType)
    ensures !data.VList? ==> r == (st, Fail(ArgValueError("input data type must be list")))
    ensures data.VList? && !st.hasHeaders && HeadersFixed(lineType, st, data.items).Failure? ==>
              r == (st, Fail(HeadersFixed(lineType, st, data.items).error))
    ensures data.VList? && st.hasHeaders ==> r.0.writer == st.writer
    ensures data.VList? && (st.hasHeaders || HeadersFixed(lineType, st, data.items).Success?) ==>
              var i := FirstRefused(r.0.writer, data.items);
              && r.0.hasHeaders
              && (r.1.Pass? <==> i == |data.items|)
              && (r.1.Fail? ==> RowError(Through(r.0.writer), data.items[i]) == Some(r.1.error))
    ensures data.VList? && st.hasHeaders ==>
              var rows := Emitted(data.items[..FirstRefused(st.writer, data.items)]);
              r.0 == st.(out := st.out + rows, totalCount := st.totalCount + |rows|)
    ensures Disciplined(st) ==> Disciplined(r.0)
    ensures data.VList? && lineType == "dict" && !st.hasHeaders && FirstKeys(data.items).Success? ==>
              var h := FirstKeys(data.items).value;
              r.0.writer == DictWriter(h) &&
              r.0.out == st.out + [HeaderRow(h)] + Emitted(data.items[..FirstRefused(DictWriter(h), data.items)])
    ensures data.VList? && lineType == "list" && !st.hasHeaders ==>
              r.0.writer == ListWriter && r.0.out == st.out + Emitted(data.items[..FirstRefused(ListWriter, data.items)])
  {
    if !data.VList? then (st, Fail(ArgValueError("input data type must be list")))
    else
      var ready := if st.hasHeaders then Success(st) else HeadersFixed(lineType, st, data.items);
      match ready
      case Failure(e) => (st, Fail(e))
      case Success(s) => FirstRefusedSpec(s.writer, data.items); Written(s, data.items)
  }

  /** The loop of one call: the rows before the first refused record appended and counted, and what it raised. */
  function Written(s: CsvState, items: seq<Value>): (CsvState, Outcome<Error>)
  {
    FirstRefusedSpec(s.writer, items);
    var i := FirstRefused(s.writer, items);
    (Appended(s, items[..i]), if i < |items| then Fail(RowError(Through(s.writer), items[i]).value) else Pass)
  }

  /** The loop stopped at record `i`: the rows before it are written and its error is raised. */
  lemma WrittenStopsAt(s: CsvState, items: seq<Value>, i: nat, e: Error)
    requires FirstRefused(s.writer, items) == i < |items| && RowError(Through(s.writer), items[i]) == Some(e)
    ensures Written(s, items) == (Appended(s, items[..i]), Fail(e))
  {
  }

  /** The rows of some records appended to the file, and counted. */
  function Appended(s: CsvState, items: seq<Value>): CsvState
  {
    s.(out := s.out + Emitted(items), totalCount := s.totalCount + |Emitted(items)|)
  }

  lemma AppendedTwice(s: CsvState, a: seq<Value>, b: seq<Value>)
    ensures Appended(Appended(s, a), b) == Appended(s, a + b)
  {
    var ea, eb := Emitted(a), Emitted(b);
    assert Emitted(a + b) == ea + eb by {
      EmittedAppend(a, b);
    }
    assert (s.out + ea) + eb == s.out + (ea + eb);
  }

  /** One more record of the call: its row is appended and counted when it is truthy. */
  lemma AppendedSnoc(s: CsvState, items: seq<Value>, i: nat)
    requires i < |items|
    ensures var p := Appended(s, items[..i]);
            Appended(s, items[..i + 1]) ==
            if Truthy(items[i]) then p.(out := p.out + [DataRow(items[i])], totalCount := p.totalCount + 1) else p
  {
    assert items[..i + 1] == items[..i] + [items[i]];
    EmittedSnoc(items[..i], items[i]);
  }

  /** The loop ran through every record: all their rows are appended and nothing is raised. */
  lemma WrittenAll(s: CsvState, items: seq<Value>)
    requires FirstRefused(s.writer, items) == |items|
    ensures Written(s, items) == (Appended(s, items), Pass)
  {
    assert items[..|items|] == items;
  }

  /** A loop that raises nothing, then another one, writes what one loop over both writes. */
  lemma WrittenTwice(s: CsvState, a: seq<Value>, b: seq<Value>)
    requires Written(s, a).1.Pass?
    ensures Written(Written(s, a).0, b) == Written(s, a + b)
  {
    var w := s.writer;
    FirstRefusedAppend(w, a, b);
    var j := FirstRefused(w, b);
    assert (a + b)[..|a| + j] == a[..|a|] + b[..j];
    AppendedTwice(s, a[..|a|], b[..j]);
    if j < |b| {
      assert (a + b)[|a| + j] == b[j];
    }
  }

  /**
   * When writing `a` raises nothing, writing `b` after it leaves the same file, counters and
   * exception as writing `a + b` at once (the headers come from the first record either way).
   */
  lemma WriteCsvTwice(lineType: string, st: CsvState, a: seq<Value>, b: seq<Value>)
    requires ValidLineType(lineType) && WriteCsv(lineType, st, VList(a)).1.Pass?
    ensures WriteCsv(lineType, WriteCsv(lineType, st, VList(a)).0, VList(b)) == WriteCsv(lineType, st, VList(a + b))
  {
    var ready := if st.hasHeaders then st else HeadersFixed(lineType, st, a).value;
    if !st.hasHeaders {
      if lineType == "dict" {
        assert a != [] && (a + b)[0] == a[0];
        assert FirstKeys(a + b) == FirstKeys(a);
      }
      assert HeadersFixed(lineType, st, a + b) == HeadersFixed(lineType, st, a);
    }
    assert WriteCsv(lineType, st, VList(a)) == Written(ready, a);
    assert WriteCsv(lineType, st, VList(a + b)) == Written(ready, a + b);
    WrittenTwice(ready, a, b);
  }

  /** With headers given at construction no header row is ever written: a write appends data rows only. */
  lemma DeclaredHeadersNeverWritten(headers: Value, data: seq<Value>)
    requires Truthy(headers)
    ensures var st := OpenCsv("dict", headers).value;
            var out := WriteCsv("dict", st, VList(data)).0.out;
            out == Emitted(data[..FirstRefused(DictWriter(headers), data)]) &&
            forall k :: 0 <= k < |out| ==> out[k].DataRow?
  {
  }

  /** A fresh dict writer cannot take an empty first batch: `data[0]` raises IndexError. */
  lemma EmptyFirstWriteFails()
    ensures var st := OpenCsv("dict", VNone).value;
            WriteCsv("dict", st, VList([])) == (st, Fail(IndexError))
  {
  }

  /** `write([[1], [2], 5])` on a fresh list writer writes and counts two rows, then raises csv.Error for the 5. */
  lemma PartialWriteKeepsRows()
    ensures var st := OpenCsv("list", VNone).value;
            var r := WriteCsv("list", st, VList([VList([VInt(1)]), VList([VInt(2)]), VInt(5)]));
            r.0.out == [DataRow(VList([VInt(1)])), DataRow(VList([VInt(2)]))] && r.0.totalCount == 2 &&
            r.1 == Fail(CsvError)
  {
    var items := [VList([VInt(1)]), VList([VInt(2)]), VInt(5)];
    RefusedThird(items);
    assert items[..2] == [VList([VInt(1)]), VList([VInt(2)])];
    EmittedAllTruthy(items[..2]);
  }

  lemma RefusedThird(items: seq<Value>)
    requires items == [VList([VInt(1)]), VList([VInt(2)]), VInt(5)]
    ensures FirstRefused(ListWriter, items) == 2
  {
    assert items[1..][1..] == [VInt(5)];
    assert RowError(Through(ListWriter), VInt(5)) == Some(CsvError);
    assert FirstRefused(ListWriter, items[1..][1..]) == 0;
  }

  class CsvWriter {
    const lineType: string
    const headers: Value
    var writer: WriterKind
    var hasHeaders: bool
    var out: seq<CsvOutRow>
    var totalCount: nat

    function St(): CsvState
      reads this
    {
      CsvState(writer, hasHeaders, out, totalCount)
    }

    predicate Valid()
      reads this
    {
      ValidLineType(lineType) && Disciplined(St())
    }

    constructor (lineType: string, headers: Value, st: CsvState)
      ensures this.lineType == lineType && this.headers == headers && St() == st
    {
      this.lineType := lineType;
      this.headers := headers;
      writer, hasHeaders, out, totalCount := st.writer, st.hasHeaders, st.out, st.totalCount;
    }

    /** `async_csv_writer(...)`. */
    static method Create(lineType: string, headers: Value) returns (r: Result<CsvWriter, Error>)
      ensures r.Failure? <==> OpenCsv(lineType, headers).Failure?
      ensures r.Failure? ==> r.error == OpenCsv(lineType, headers).error
      ensures r.Success? ==> fresh(r.value) && r.value.Valid() && r.value.St() == OpenCsv(lineType, headers).value
      ensures r.Success? ==> r.value.lineType == lineType && r.value.headers == headers
    {
      if lineType != "list" && lineType != "dict" {
        return Failure(ArgValueError("each_line_type must be list or dict"));
      }
      var st: CsvState;
      if Truthy(headers) {
        if lineType == "list" {
          return Failure(TypeError);
        }
        st := CsvState(DictWriter(headers), true, [], 0);
      } else {
        st := CsvState(NoWriter, false, [], 0);
      }
      var w := new CsvWriter(lineType, headers, st);
      return Success(w);
    }

    /** `_get_headers(data)`. */
    method GetHeaders(data: seq<Value>) returns (r: Outcome<Error>)
      requires ValidLineType(lineType)
      modifies this
      ensures r.Fail? <==> HeadersFixed(lineType, old(St()), data).Failure?
      ensures r.Fail? ==> r.error == HeadersFixed(lineType, old(St()), data).error && St() == old(St())
      ensures r.Pass? ==> St() == HeadersFixed(lineType, old(St()), data).value
    {
      if lineType == "list" {
        writer := ListWriter;
      } else {
        if data == [] {
          return Fail(IndexError);
        }
        if !data[0].VDict? {
          return Fail(AttributeError);
        }
        var fields := VList(Keys(data[0].entries));
        writer := DictWriter(fields);
        out := out + [HeaderRow(fields)];
      }
      hasHeaders := true;
      return Pass;
    }

    /** `write(data)`: the new state, kept also when the call raises, and the exception. */
    method Write(data: Value) returns (r: Outcome<Error>)
      requires Valid()
      modifies this
      ensures Valid()
      ensures (St(), r) == WriteCsv(lineType, old(St()), data)
    {
      if !data.VList? {
        return Fail(ArgValueError("input data type must be list"));
      }
      if !hasHeaders {
        var g := GetHeaders(data.items);
        if g.Fail? {
          return g;
        }
      }
      r := WriteRows(data.items);
    }

    /** The loop of `write`: skip falsy records, write and count the others, and stop at the first one `writerow` raises for. */
    method WriteRows(items: seq<Value>) returns (r: Outcome<Error>)
      modifies this
      ensures (St(), r) == Written(old(St()), items)
    {
      ghost var s := St();
      var w := writer;
      ghost var stop := FirstRefused(w, items);
      var i := 0;
      while i < |items|
        invariant 0 <= i <= stop
        invariant St() == Appended(s, items[..i])
      {
        var line := items[i];
        FirstRefusedAt(w, items, i);
        AppendedSnoc(s, items, i);
        if !Truthy(line) {
          i := i + 1;
          continue;
        }
        var e := RowError(Through(w), line);
        if e.Some? {
          WrittenStopsAt(s, items, i, e.value);
          return Fail(e.value);
        }
        out := out + [DataRow(line)];
        totalCount := totalCount + 1;
        i := i + 1;
      }
      WrittenAll(s, items);
      return Pass;
    }
  }

  // ---------------------------------------------------------------------------------------
  // async_anyfile_writer
  // ---------------------------------------------------------------------------------------

  datatype AnyState = AnyState(content: string, totalCount: nat)

  /** `str(line)` for every record, falsy ones included. */
  function Strs(items: seq<Value>): (r: seq<string>)
    ensures |r| == |items|
  {
    seq(|items|, k requires 0 <= k < |items| => Str(items[k]))
  }

  /** The text written for some lines: each followed by a newline. */
  function Rendered(lines: seq<string>): string
  {
    if lines == [] then "" else lines[0] + "\n" + Rendered(lines[1..])
  }

  /** `write(data)` of the anyfile writer. */
  function WriteAny(st: AnyState, data: Value): (r: Result<AnyState, Error>)
    ensures !data.VList? ==> r == Failure(ArgValueError("input data type must be list"))
    ensures data.VList? ==> r.Success? && r.value.totalCount == st.totalCount + |data.items|
  {
    if !data.VList? then Failure(ArgValueError("input data type must be list"))
    else Success(AnyState(st.content + Rendered(Strs(data.items)), st.totalCount + |data.items|))
  }

  /** One more line at the end. */
  lemma RenderedSnoc(a: seq<string>, x: string)
    ensures Rendered(a + [x]) == Rendered(a) + (x + "\n")
  {
    RenderedAppend(a, [x]);
    assert [x][1..] == [];
  }

  /** Writing line `i` extends the text of the lines before it. */
  lemma RenderedExtend(base: string, lines: seq<string>, i: nat)
    requires i < |lines|
    ensures base + Rendered(lines[..i]) + (lines[i] + "\n") == base + Rendered(lines[..i + 1])
  {
    RenderedSnoc(lines[..i], lines[i]);
    assert lines[..i + 1] == lines[..i] + [lines[i]];
  }

  lemma {:induction false} RenderedAppend(a: seq<string>, b: seq<string>)
    ensures Rendered(a + b) == Rendered(a) + Rendered(b)
  {
    if a == [] {
      assert a + b == b;
    } else {
      assert (a + b)[0] == a[0];
      assert (a + b)[1..] == a[1..] + b;
      RenderedAppend(a[1..], b);
    }
  }

  /** Two writes give the text and the count of one write of both lists. */
  lemma WriteAnyTwice(st: AnyState, a: seq<Value>, b: seq<Value>)
    ensures WriteAny(WriteAny(st, VList(a)).value, VList(b)) == WriteAny(st, VList(a + b))
  {
    var sa, sb := Strs(a), Strs(b);
    assert Strs(a + b) == sa + sb;
    RenderedAppend(sa, sb);
    assert (st.content + Rendered(sa)) + Rendered(sb) == st.content + (Rendered(sa) + Rendered(sb));
  }

  /**
   * Reading the text back line by line returns each written line with its newline, when the
   * lines hold no newline of their own.
   */
  lemma {:induction false} RenderedLines(lines: seq<string>)
    requires forall k :: 0 <= k < |lines| ==> '\n' !in lines[k]
    ensures Lines(Rendered(lines)) == seq(|lines|, k requires 0 <= k < |lines| => lines[k] + "\n")
  {
    if lines != [] {
      RenderedLines(lines[1..]);
      LinesOfLine(lines[0], Rendered(lines[1..]));
    }
  }

  /** So a list of newline-free strings written out reads back as those strings, one per line. */
  lemma WrittenStringsReadBack(items: seq<Value>)
    requires forall k :: 0 <= k < |items| ==> items[k].VStr? && '\n' !in items[k].s
    ensures Lines(WriteAny(AnyState("", 0), VList(items)).value.content) ==
            seq(|items|, k requires 0 <= k < |items| => items[k].s + "\n")
  {
    var ss := seq(|items|, k requires 0 <= k < |items| => items[k].s);
    assert Strs(items) == ss by {
      forall k | 0 <= k < |items|
        ensures Strs(items)[k] == ss[k]
      {
        assert Strs(items)[k] == Str(items[k]);
      }
    }
    RenderedLines(ss);
    assert WriteAny(AnyState("", 0), VList(items)).value.content == Rendered(ss) by {
      assert "" + Rendered(ss) == Rendered(ss);
    }
  }

  class AnyfileWriter {
    var content: string
    var totalCount: nat

    function St(): AnyState
      reads this
    {
      AnyState(content, totalCount)
    }

    /** `async_anyfile_writer(...)`: the file opened with mode "w" starts empty. */
    constructor ()
      ensures St() == AnyState("", 0)
    {
      content, totalCount := "", 0;
    }

    method Write(data: Value) returns (r: Outcome<Error>)
      modifies this
      ensures r.Fail? <==> WriteAny(old(St()), data).Failure?
      ensures r.Fail? ==> r.error == WriteAny(old(St()), data).error && St() == old(St())
      ensures r.Pass? ==> St() == WriteAny(old(St()), data).value
    {
      if !data.VList? {
        return Fail(ArgValueError("input data type must be list"));
      }
      var items := data.items;
      ghost var s := St();
      var i := 0;
      while i < |items|
        invariant 0 <= i <= |items|
        invariant content == s.content + Rendered(Strs(items)[..i]) && totalCount == s.totalCount + i
      {
        var line := Str(items[i]);
        RenderedExtend(s.content, Strs(items), i);
        content := content + (line + "\n");
        totalCount := totalCount + 1;
        i := i + 1;
      }
      assert Strs(items)[..i] == Strs(items);
      return Pass;
    }
  }
}
