/**
 * The rows a csv writer emits, kept as values: the header row (`writeheader`, or a `writerow`
 * of the header list) and data rows handed to `writerow`. How the csv module formats a row is
 * not modelled.
 */
module CsvRows {
  import opened Wrappers
  import opened PyValues
  import opened Exceptions

  datatype CsvOutRow = HeaderRow(fields: Value) | DataRow(record: Value)

  /** `list(data[0].keys())`: IndexError on an empty list, AttributeError when the first record is not a dict. */
  function FirstKeys(data: seq<Value>): (r: Result<Value, Error>)
    ensures data == [] ==> r == Failure(IndexError)
    ensures data != [] && !data[0].VDict? ==> r == Failure(AttributeError)
    ensures data != [] && data[0].VDict? ==>
              r.Success? && r.value.VList? && |r.value.items| == |data[0].entries| &&
              forall i :: 0 <= i < |data[0].entries| ==> r.value.items[i] == data[0].entries[i].0
  {
    if data == [] then Failure(IndexError)
    else if !data[0].VDict? then Failure(AttributeError)
    else Success(VList(Keys(data[0].entries)))
  }

  /** Data rows for the records of a list, in order. */
  function DataRows(items: seq<Value>): (r: seq<CsvOutRow>)
    ensures |r| == |items| && forall i :: 0 <= i < |items| ==> r[i] == DataRow(items[i])
  {
    seq(|items|, i requires 0 <= i < |items| => DataRow(items[i]))
  }

  /** No header row anywhere but possibly at the front. */
  predicate HeaderOnlyFirst(out: seq<CsvOutRow>)
  {
    forall i :: 0 < i < |out| ==> out[i].DataRow?
  }

  /** The csv object rows go through: a plain `csv.writer(f)` or a `csv.DictWriter(f, fieldnames)`. */
  datatype RowWriter = PlainWriter | FieldWriter(fieldnames: Value)

  /**
   * The names `rowdict.keys() - fieldnames` takes away: what iterating the field names yields, or
   * None when that raises TypeError because they are not iterable or hold an unhashable name.
   */
  function FieldNames(fieldnames: Value): Option<seq<Value>>
  {
    match fieldnames
    case VList(xs) => if forall k :: 0 <= k < |xs| ==> Hashable(xs[k]) then Some(xs) else None
    case VStr(s) => Some(seq(|s|, k requires 0 <= k < |s| => VStr([s[k]])))
    case VDict(es) => Some(Keys(es))
    case _ => None
  }

  /** A key is one of the names when it names the same slot as one of them. */
  predicate Named(names: seq<Value>, key: Value)
  {
    exists j :: 0 <= j < |names| && SameKey(names[j], key)
  }

  /**
   * What `writerow(row)` raises, if anything. csv.writer iterates the row, and raises csv.Error
   * when it is not iterable (a str, a list and a dict are). A DictWriter first asks for
   * `row.keys()` (AttributeError for a non-dict), then subtracts the field names (TypeError when
   * that cannot be done), and raises ValueError when a key is left over.
   */
  function RowError(w: RowWriter, row: Value): Option<Error>
  {
    match w
    case PlainWriter => if row.VStr? || row.VList? || row.VDict? then None else Some(CsvError)
    case FieldWriter(fieldnames) =>
      if !row.VDict? then Some(AttributeError)
      else match FieldNames(fieldnames)
        case None => Some(TypeError)
        case Some(names) =>
          if forall k :: 0 <= k < |row.entries| ==> Named(names, row.entries[k].0) then None else Some(ValueError)
  }

  /** The cases of `writerow`: which rows each writer takes, and what it raises for the others. */
  lemma RowErrorCases(w: RowWriter, row: Value)
    ensures w.PlainWriter? ==> (RowError(w, row).None? <==> row.VStr? || row.VList? || row.VDict?)
    ensures w.PlainWriter? && RowError(w, row).Some? ==> RowError(w, row).value == CsvError
    ensures w.FieldWriter? && !row.VDict? ==> RowError(w, row) == Some(AttributeError)
    ensures w.FieldWriter? && row.VDict? && FieldNames(w.fieldnames).None? ==> RowError(w, row) == Some(TypeError)
    ensures w.FieldWriter? && row.VDict? && FieldNames(w.fieldnames).Some? ==>
              (RowError(w, row).None? <==>
                 forall k :: 0 <= k < |row.entries| ==> Named(FieldNames(w.fieldnames).value, row.entries[k].0)) &&
              (RowError(w, row).Some? ==> RowError(w, row).value == ValueError)
  {
  }

  /** The index of the first row `writerow` raises for, or the number of rows when it takes them all. */
  function FirstUnwritable(w: RowWriter, rows: seq<Value>): (i: nat)
    ensures i <= |rows|
  {
    if rows == [] || RowError(w, rows[0]).Some? then 0 else 1 + FirstUnwritable(w, rows[1..])
  }

  /** Every row before the first unwritable one is taken, and that one is raised for. */
  lemma {:induction false} FirstUnwritableSpec(w: RowWriter, rows: seq<Value>)
    ensures forall k :: 0 <= k < FirstUnwritable(w, rows) ==> RowError(w, rows[k]).None?
    ensures FirstUnwritable(w, rows) < |rows| ==> RowError(w, rows[FirstUnwritable(w, rows)]).Some?
  {
    if rows != [] && RowError(w, rows[0]).None? {
      FirstUnwritableSpec(w, rows[1..]);
      assert forall k :: 1 <= k < |rows| ==> rows[k] == rows[1..][k - 1];
    }
  }
}
