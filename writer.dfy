/**
 * Writer: whole-file writers. `write_csv` writes an optional header row and then one row per
 * record, stopping at the first record `writerow` raises for; `write_json` accepts a dict or a
 * list; `write_anyfile` writes a str as it is. A file is modelled as what it holds after being
 * opened with mode "w": the rows (csv) or the text.
 */
module Writer {
  import opened Wrappers
  import opened PyValues
  import opened Exceptions
  import opened CsvRows
  import AsyncWriter
  import Reader
  import Text

  /**
   * The `for line in data: writerow(line)` loop over every record, falsy ones included: the rows
   * of the records before the first one `writerow` raises for, and that record's exception.
   */
  function Records(w: RowWriter, items: seq<Value>): (r: (seq<CsvOutRow>, Outcome<Error>))
    ensures r.0 == DataRows(items[..FirstUnwritable(w, items)])
    ensures r.1.Pass? <==> forall k :: 0 <= k < |items| ==> RowError(w, items[k]).None?
    ensures r.1.Fail? ==> |r.0| < |items| && RowError(w, items[|r.0|]) == Some(r.1.error)
  {
    FirstUnwritableSpec(w, items);
    var i := FirstUnwritable(w, items);
    (DataRows(items[..i]), if i < |items| then Fail(RowError(w, items[i]).value) else Pass)
  }

  /**
   * What `write_csv` does. A non-list or an unknown line type raises before the file is opened
   * (Failure). Otherwise the file is opened and the result is the rows it ends up holding, with
   * the exception raised after them, if any. In list mode a truthy `headers` is written first; in
   * dict mode a header row is always written, from `headers` when truthy and otherwise from the
   * keys of the first record; `writeheader` raises TypeError when it cannot pair the names with
   * themselves. Then every record is written until `writerow` raises for one.
   */
  function CsvFile(lineType: string, headers: Value, data: Value): (r: Result<(seq<CsvOutRow>, Outcome<Error>), Error>)
    ensures !data.VList? ==> r == Failure(ArgValueError("data must be list type"))
    ensures data.VList? && lineType != "list" && lineType != "dict" ==>
              r == Failure(ArgValueError("each_line_type must be list or dict"))
    ensures data.VList? && (lineType == "list" || lineType == "dict") ==> r.Success?
    ensures data.VList? && lineType == "list" && Truthy(headers) && RowError(PlainWriter, headers).Some? ==>
              r.value == ([], Fail(CsvError))
    ensures data.VList? && lineType == "list" && !(Truthy(headers) && RowError(PlainWriter, headers).Some?) ==>
              r.value == ((if Truthy(headers) then [HeaderRow(headers)] else []) + Records(PlainWriter, data.items).0,
                          Records(PlainWriter, data.items).1)
    ensures data.VList? && lineType == "dict" && !Truthy(headers) && FirstKeys(data.items).Failure? ==>
              r.value == ([], Fail(FirstKeys(data.items).error))
    ensures data.VList? && lineType == "dict" && Truthy(headers) && FieldNames(headers).None? ==>
              r.value == ([], Fail(TypeError))
    ensures data.VList? && lineType == "dict" && (Truthy(headers) || FirstKeys(data.items).Success?) ==>
              var h := if Truthy(headers) then headers else FirstKeys(data.items).value;
              FieldNames(h).Some? ==>
              r.value == ([HeaderRow(h)] + Records(FieldWriter(h), data.items).0, Records(FieldWriter(h), data.items).1)
    ensures r.Success? ==> HeaderOnlyFirst(r.value.0)
    ensures r.Success? && r.value.1.Pass? ==>
              |r.value.0| >= |data.items| && r.value.0[|r.value.0| - |data.items|..] == DataRows(data.items)
  {
    if !data.VList? then Failure(ArgValueError("data must be list type"))
    else if lineType != "list" && lineType != "dict" then Failure(ArgValueError("each_line_type must be list or dict"))
    else if lineType == "list" then
      if Truthy(headers) && RowError(PlainWriter, headers).Some? then Success(([], Fail(CsvError)))
      else
        var body := Records(PlainWriter, data.items);
        Success(((if Truthy(headers) then [HeaderRow(headers)] else []) + body.0, body.1))
    else
      var fields := if Truthy(headers) then Success(headers) else FirstKeys(data.items);
      match fields
      case Failure(e) => Success(([], Fail(e)))
      case Success(h) =>
        if FieldNames(h).None? then Success(([], Fail(TypeError)))
        else
          var body := Records(FieldWriter(h), data.items);
          Success(([HeaderRow(h)] + body.0, body.1))
  }

  /** `write_csv`: the checks, the header, then the `for line in data: writerow(line)` loop. */
  method WriteCsv(data: Value, lineType: string, headers: Value) returns (r: Result<(seq<CsvOutRow>, Outcome<Error>), Error>)
    ensures r == CsvFile(lineType, headers, data)
  {
    if !data.VList? {
      return Failure(ArgValueError("data must be list type"));
    }
    if lineType != "list" && lineType != "dict" {
      return Failure(ArgValueError("each_line_type must be list or dict"));
    }
    var out: seq<CsvOutRow> := [];
    var w: RowWriter;
    if lineType == "list" {
      w := PlainWriter;
      if Truthy(headers) {
        if RowError(w, headers).Some? {
          return Success(([], Fail(CsvError)));
        }
        out := [HeaderRow(headers)];
      }
    } else {
      var fields := headers;
      if !Truthy(headers) {
        var keys := FirstKeys(data.items);
        if keys.Failure? {
          return Success(([], Fail(keys.error)));
        }
        fields := keys.value;
      }
      if FieldNames(fields).None? {
        return Success(([], Fail(TypeError)));
      }
      w := FieldWriter(fields);
      out := [HeaderRow(fields)];
    }
    var body := WriteRecords(w, data.items);
    return Success((out + body.0, body.1));
  }

  /** The loop of `write_csv`: write every record until `writerow` raises for one. */
  method WriteRecords(w: RowWriter, items: seq<Value>) returns (r: (seq<CsvOutRow>, Outcome<Error>))
    ensures r == Records(w, items)
  {
    var out: seq<CsvOutRow> := [];
    FirstUnwritableSpec(w, items);
    var i := 0;
    while i < |items|
      invariant 0 <= i <= FirstUnwritable(w, items)
      invariant out == DataRows(items[..i])
    {
      var e := RowError(w, items[i]);
      if e.Some? {
        return (out, Fail(e.value));
      }
      assert DataRows(items[..i + 1]) == DataRows(items[..i]) + [DataRow(items[i])];
      out := out + [DataRow(items[i])];
      i := i + 1;
    }
    assert items[..i] == items;
    return (out, Pass);
  }

  /**
   * With no headers in list mode, and records that are all truthy, one bulk write leaves the same
   * rows and raises the same exception as a fresh async csv writer given the same records; the
   * bulk writer also writes falsy records.
   */
  lemma BulkListMatchesAsync(items: seq<Value>)
    requires forall k :: 0 <= k < |items| ==> Truthy(items[k])
    ensures var st := AsyncWriter.OpenCsv("list", VNone).value;
            var w := AsyncWriter.WriteCsv("list", st, VList(items));
            CsvFile("list", VNone, VList(items)) == Success((w.0.out, w.1))
  {
    var i := FirstUnwritable(PlainWriter, items);
    AsyncWriter.FirstRefusedAllTruthy(AsyncWriter.ListWriter, items);
    AsyncWriter.EmittedAllTruthy(items[..i]);
  }

  /** The same in dict mode without declared headers: both write the first record's keys, then the records. */
  lemma BulkDictMatchesAsync(items: seq<Value>)
    requires items != [] && items[0].VDict?
    requires forall k :: 0 <= k < |items| ==> Truthy(items[k])
    ensures var st := AsyncWriter.OpenCsv("dict", VNone).value;
            var w := AsyncWriter.WriteCsv("dict", st, VList(items));
            FieldNames(FirstKeys(items).value).Some? ==> CsvFile("dict", VNone, VList(items)) == Success((w.0.out, w.1))
  {
    var h := FirstKeys(items).value;
    if FieldNames(h).Some? {
      var st := AsyncWriter.CsvState(AsyncWriter.NoWriter, false, [], 0);
      assert AsyncWriter.OpenCsv("dict", VNone) == Success(st);
      var i := FirstUnwritable(FieldWriter(h), items);
      AsyncWriter.FirstRefusedAllTruthy(AsyncWriter.DictWriter(h), items);
      AsyncWriter.EmittedAllTruthy(items[..i]);
      var w := AsyncWriter.WriteCsv("dict", st, VList(items));
      assert w.0.out == [HeaderRow(h)] + DataRows(items[..i]);
    }
  }

  /** `write_json`'s check: only a dict or a list is accepted. */
  function JsonAccepted(data: Value): (r: Outcome<Error>)
    ensures r.Pass? <==> data.VDict? || data.VList?
    ensures r.Fail? ==> r.error == ArgValueError("data must be dict type")
  {
    if !data.VDict? && !data.VList? then Fail(ArgValueError("data must be dict type")) else Pass
  }

  /** `write_anyfile`: a str becomes the whole file; anything else is refused. */
  function AnyfileText(data: Value): (r: Result<string, Error>)
    ensures r.Success? <==> data.VStr?
    ensures r.Failure? ==> r.error == ArgValueError("data must be str type")
  {
    if !data.VStr? then Failure(ArgValueError("data must be str type")) else Success(data.s)
  }

  /**
   * A written text reads back unchanged with `read_anyfile`: unbounded, or bounded from the first
   * line with a bound that covers every line.
   */
  lemma AnyfileRoundTrip(s: string, k: int)
    requires k >= |Text.Lines(s)|
    ensures AnyfileText(VStr(s)).Success?
    ensures Reader.AnyfileResult(AnyfileText(VStr(s)).value, 1, None, false) == VStr(s)
    ensures Reader.AnyfileResult(AnyfileText(VStr(s)).value, 1, Some(k), false) == VStr(s)
  {
    Reader.BoundedCoversAll(s, k);
  }
}
