/**
 * async_csv_reader: hands out the rows of a CSV file in batches of batch_size, stops after
 * max_read_lines rows when that bound is set, and seeks back to the start of the file when a
 * pass ends, so that the same object can be iterated again. The csv reader object is built once:
 * in dict mode it has consumed the header line during the first pass and keeps its field names,
 * so every later pass reads the header line back as a record of its own before the data rows.
 */
module AsyncCsvReader {
  import opened Wrappers
  import opened PyValues
  import opened Exceptions
  import opened Batching

  /** `each_line_type`: a `csv.DictReader` or a `csv.reader` over the file. */
  datatype LineType = DictLines | ListLines

  /**
   * The reader's construction arguments and its file. `source` is what the csv reader yields from
   * a fresh start: in list mode every line as a list, in dict mode the records of the lines after
   * the header. `header` is the field names the header line gives in dict mode; it is empty in
   * list mode and when the file has no header (it is empty, or its first line is blank).
   */
  datatype Config = Config(lineType: LineType, header: seq<string>, source: seq<Value>, batchSize: int, maxReadLines: Option<int>)

  /**
   * The reader's mutable fields; `pos` is the file offset, counted in rows of the current pass,
   * and `rewound` says that the file has been sought back to its start at least once.
   */
  datatype State = State(pos: nat, finished: bool, eachList: seq<Value>, totalCount: nat, rewound: bool)

  /** The state after construction. */
  const Initial: State := State(0, false, [], 0, false)

  /** The state after `_reinit_vals` has ended a pass: the same, but the file has been rewound. */
  const Restart: State := State(0, false, [], 0, true)

  /** `dict(zip(fieldnames, row))` for the header line read as data: each field name maps to itself. */
  function HeaderRecord(header: seq<string>): Value
  {
    VDict(SelfPairs(header))
  }

  function SelfPairs(fields: seq<string>): seq<(Value, Value)>
  {
    if fields == [] then []
    else
      var f := VStr(fields[|fields| - 1]);
      DictSet(SelfPairs(fields[..|fields| - 1]), f, f)
  }

  /** In the header record every field name finds itself, and no other string is a key. */
  lemma {:induction false} HeaderRecordGet(fields: seq<string>, f: string)
    ensures Get(HeaderRecord(fields).entries, VStr(f)) == if f in fields then Some(VStr(f)) else None
  {
    if fields != [] {
      var init := fields[..|fields| - 1];
      var last := fields[|fields| - 1];
      assert fields == init + [last];
      HeaderRecordGet(init, f);
      if last == f {
        DictSetHit(SelfPairs(init), VStr(last), VStr(last), VStr(f));
      } else {
        DictSetMiss(SelfPairs(init), VStr(last), VStr(last), VStr(f));
      }
    }
  }

  /**
   * The rows a pass reads from the start of the file: once the file has been rewound, a dict reader
   * with field names no longer skips the header line, which becomes the first record.
   */
  function Rows(c: Config, rewound: bool): (r: seq<Value>)
    ensures |r| == RowCount(c, rewound)
  {
    if Rereads(c, rewound) then [HeaderRecord(c.header)] + c.source else c.source
  }

  /** The header line comes back as a record: dict mode, a header, and a rewound file. */
  predicate Rereads(c: Config, rewound: bool)
  {
    c.lineType == DictLines && c.header != [] && rewound
  }

  function RowCount(c: Config, rewound: bool): nat
  {
    if Rereads(c, rewound) then |c.source| + 1 else |c.source|
  }

  /** Rows one pass delivers. */
  function Quota(c: Config, rewound: bool): nat
  {
    Limit(RowCount(c, rewound), c.maxReadLines)
  }

  /** File offset once a pass has delivered its last row: the loop draws one row more when the bound stops it. */
  function EndPos(c: Config, rewound: bool): nat
  {
    if Quota(c, rewound) < RowCount(c, rewound) then Quota(c, rewound) + 1 else Quota(c, rewound)
  }

  /** The states between two calls: the accumulator is empty, and a finished pass has delivered its quota. */
  predicate ValidState(c: Config, st: State)
  {
    && st.eachList == []
    && st.totalCount <= Quota(c, st.rewound)
    && (if st.finished then st.totalCount == Quota(c, st.rewound) && st.pos == EndPos(c, st.rewound) else st.pos == st.totalCount)
  }

  function Remaining(c: Config, st: State): nat
    requires ValidState(c, st)
  {
    if st.finished then 0 else Quota(c, st.rewound) - st.totalCount + 1
  }

  /** One `__anext__` call: the new state and what the caller receives. */
  function Step(c: Config, st: State): (r: (State, Pull))
    requires ValidState(c, st)
    ensures ValidState(c, r.0)
    ensures r.1.EndOfPass? ==> r.0 == Restart
    ensures st.finished ==> r.1.EndOfPass?
    ensures r.1.Batch? ==> r.0.rewound == st.rewound
    ensures r.1.Batch? ==> 1 <= |r.1.records| <= FullSize(c.batchSize)
    ensures r.1.Batch? ==> st.totalCount < r.0.totalCount <= Quota(c, st.rewound) <= |Rows(c, st.rewound)|
    ensures r.1.Batch? ==> r.1.records == Rows(c, st.rewound)[st.totalCount..r.0.totalCount]
    ensures r.1.Batch? && |r.1.records| < FullSize(c.batchSize) ==> r.0.finished
    ensures r.1.Batch? ==> Remaining(c, r.0) < Remaining(c, st)
  {
    var k := st.totalCount;
    var n := FullSize(c.batchSize);
    if st.finished || k == Quota(c, st.rewound) then (Restart, EndOfPass)
    else
      var m := Min(n, Quota(c, st.rewound) - k);
      if m == n then (State(k + m, false, [], k + m, st.rewound), Batch(Rows(c, st.rewound)[k..k + m]))
      else (State(EndPos(c, st.rewound), true, [], Quota(c, st.rewound), st.rewound), Batch(Rows(c, st.rewound)[k..k + m]))
  }

  /** A call with at least a batch of the quota left returns the next batch_size rows. */
  lemma StepFull(c: Config, st: State)
    requires ValidState(c, st) && !st.finished
    requires Quota(c, st.rewound) - st.totalCount >= FullSize(c.batchSize)
    ensures var m := st.totalCount + FullSize(c.batchSize);
            Step(c, st) == (State(m, false, [], m, st.rewound), Batch(Rows(c, st.rewound)[st.totalCount..m]))
  {
  }

  /** A call with less than a batch of the quota left returns the rest and finishes the pass. */
  lemma StepLast(c: Config, st: State)
    requires ValidState(c, st) && !st.finished
    requires 0 < Quota(c, st.rewound) - st.totalCount < FullSize(c.batchSize)
    ensures Step(c, st) == (State(EndPos(c, st.rewound), true, [], Quota(c, st.rewound), st.rewound), Batch(Rows(c, st.rewound)[st.totalCount..Quota(c, st.rewound)]))
  {
  }

  /** A call once the quota has been delivered signals end-of-pass and rewinds. */
  lemma StepEnd(c: Config, st: State)
    requires ValidState(c, st) && st.totalCount == Quota(c, st.rewound)
    ensures Step(c, st) == (Restart, EndOfPass)
  {
  }

  /** The batches of calls made until end-of-pass is signalled, and the state after that signal. */
  function Pass(c: Config, st: State): (r: (seq<seq<Value>>, State))
    requires ValidState(c, st)
    ensures r.1 == Restart
    decreases Remaining(c, st)
  {
    var (next, p) := Step(c, st);
    if p.EndOfPass? then ([], next)
    else
      var rest := Pass(c, next);
      ([p.records] + rest.0, rest.1)
  }

  /** The rest of a pass is the reference chunking of the rows not yet delivered. */
  lemma {:induction false} PassIsChunks(c: Config, st: State)
    requires ValidState(c, st) && !st.finished
    ensures Pass(c, st).0 == Chunks(Rows(c, st.rewound)[st.totalCount..Quota(c, st.rewound)], FullSize(c.batchSize))
    decreases Remaining(c, st)
  {
    var k := st.totalCount;
    var n := FullSize(c.batchSize);
    if k < Quota(c, st.rewound) {
      ChunksOfSlice(Rows(c, st.rewound), k, Quota(c, st.rewound) - k, n);
      if Quota(c, st.rewound) - k >= n {
        var next := PassFull(c, st);
        PassIsChunks(c, next);
      } else {
        PassShort(c, st);
      }
    }
  }

  /** A call with less than a batch of the quota left delivers the rest, and the pass ends. */
  lemma PassShort(c: Config, st: State)
    requires ValidState(c, st) && !st.finished
    requires 0 < Quota(c, st.rewound) - st.totalCount < FullSize(c.batchSize)
    ensures Pass(c, st).0 == [Rows(c, st.rewound)[st.totalCount..Quota(c, st.rewound)]]
  {
    var next := Step(c, st).0;
    assert next.finished;
    assert Pass(c, next).0 == [];
  }

  /** A call with at least a batch of the quota left delivers a full batch, and the pass goes on. */
  lemma PassFull(c: Config, st: State) returns (next: State)
    requires ValidState(c, st) && !st.finished
    requires Quota(c, st.rewound) - st.totalCount >= FullSize(c.batchSize)
    ensures ValidState(c, next) && !next.finished && next.rewound == st.rewound
    ensures next.totalCount == st.totalCount + FullSize(c.batchSize)
    ensures Pass(c, st).0 == [Rows(c, st.rewound)[st.totalCount..st.totalCount + FullSize(c.batchSize)]] + Pass(c, next).0
  {
    next := Step(c, st).0;
  }

  /** A pass from the start of the file delivers the first rows it reads, up to the bound, in batches. */
  lemma WholePass(c: Config, st: State)
    requires st.pos == 0 && !st.finished && st.eachList == [] && st.totalCount == 0
    ensures ValidState(c, st)
    ensures Flatten(Pass(c, st).0) ==
            if BoundSet(c.maxReadLines) then Rows(c, st.rewound)[..Min(|Rows(c, st.rewound)|, Max(c.maxReadLines.value, 0))]
            else Rows(c, st.rewound)
    ensures forall i :: 0 <= i < |Pass(c, st).0| ==> 1 <= |Pass(c, st).0[i]| <= FullSize(c.batchSize)
    ensures forall i :: 0 <= i < |Pass(c, st).0| - 1 ==> |Pass(c, st).0[i]| == FullSize(c.batchSize)
  {
    var rows := Rows(c, st.rewound);
    PassIsChunks(c, st);
    FlattenChunks(rows[..Quota(c, st.rewound)], FullSize(c.batchSize));
    ChunkSizes(rows[..Quota(c, st.rewound)], FullSize(c.batchSize));
    assert rows == rows[..|rows|];
  }

  /**
   * A first pass delivers the first min(N, max_read_lines) rows, or all N rows when the bound is
   * None or 0, each exactly once and in order, in batches of batch_size (at least one) of which
   * only the last may be shorter.
   */
  lemma FirstPass(c: Config)
    ensures Flatten(Pass(c, Initial).0) ==
            if BoundSet(c.maxReadLines) then c.source[..Min(|c.source|, Max(c.maxReadLines.value, 0))]
            else c.source
    ensures forall i :: 0 <= i < |Pass(c, Initial).0| ==> 1 <= |Pass(c, Initial).0[i]| <= FullSize(c.batchSize)
    ensures forall i :: 0 <= i < |Pass(c, Initial).0| - 1 ==> |Pass(c, Initial).0[i]| == FullSize(c.batchSize)
  {
    WholePass(c, Initial);
  }

  /** In list mode, or without a header, the pass after a pass yields the same batches again. */
  lemma Replay(c: Config)
    requires c.lineType == ListLines || c.header == []
    ensures Pass(c, Pass(c, Initial).1) == Pass(c, Initial)
  {
    PassIsChunks(c, Initial);
    PassIsChunks(c, Restart);
  }

  /**
   * In dict mode with a header, the second pass reads the header line back as a record: it
   * delivers the first min(N + 1, max_read_lines) rows of the header record followed by the data
   * records, starting with the header record whenever it delivers anything, and every later pass
   * repeats it.
   */
  lemma DictSecondPass(c: Config)
    requires c.lineType == DictLines && c.header != []
    ensures var again := [HeaderRecord(c.header)] + c.source;
            Flatten(Pass(c, Pass(c, Initial).1).0) ==
            if BoundSet(c.maxReadLines) then again[..Min(|again|, Max(c.maxReadLines.value, 0))]
            else again
    ensures Pass(c, Pass(c, Initial).1).0 != [] ==> Pass(c, Pass(c, Initial).1).0[0][0] == HeaderRecord(c.header)
    ensures Pass(c, Pass(c, Pass(c, Initial).1).1) == Pass(c, Pass(c, Initial).1)
  {
    WholePass(c, Restart);
    var second := Pass(c, Restart).0;
    if second != [] {
      assert |second[0]| >= 1;
      assert Flatten(second) == second[0] + Flatten(second[1..]);
    }
  }

  /** 25 rows, batch_size 10, no bound: batches of 10, 10 and 5 on the first pass. */
  lemma TwentyFiveRows(c: Config)
    requires |c.source| == 25 && c.batchSize == 10 && c.maxReadLines == None
    ensures |Pass(c, Initial).0| == 3
    ensures |Pass(c, Initial).0[0]| == 10 && |Pass(c, Initial).0[1]| == 10 && |Pass(c, Initial).0[2]| == 5
  {
    PassIsChunks(c, Initial);
    var s := c.source[0..25];
    assert Chunks(s, 10) == [s[..10]] + Chunks(s[10..], 10);
    assert Chunks(s[10..], 10) == [s[10..][..10]] + Chunks(s[10..][10..], 10);
    assert Chunks(s[10..][10..], 10) == [s[10..][10..]];
  }

  class CsvReader {
    const lineType: LineType
    const header: seq<string>
    const source: seq<Value>
    const batchSize: int
    const maxReadLines: Option<int>
    var pos: nat
    var finished: bool
    var eachList: seq<Value>
    var totalCount: nat
    var rewound: bool

    function Cfg(): Config
    {
      Config(lineType, header, source, batchSize, maxReadLines)
    }

    function St(): State
      reads this
    {
      State(pos, finished, eachList, totalCount, rewound)
    }

    predicate Valid()
      reads this
    {
      ValidState(Cfg(), St())
    }

    /** `__init__` once each_line_type has been accepted and the file opened. */
    constructor (lineType: LineType, header: seq<string>, source: seq<Value>, batchSize: int, maxReadLines: Option<int>)
      ensures Cfg() == Config(lineType, header, source, batchSize, maxReadLines) && St() == Initial
    {
      this.lineType := lineType;
      this.header := header;
      this.source := source;
      this.batchSize := batchSize;
      this.maxReadLines := maxReadLines;
      pos, finished, eachList, totalCount, rewound := 0, false, [], 0, false;
    }

    /** `async_csv_reader(...)`: each_line_type must be "dict" or "list". */
    static method Create(eachLineType: string, header: seq<string>, source: seq<Value>, batchSize: int, maxReadLines: Option<int>)
      returns (r: Result<CsvReader, Error>)
      ensures r.Failure? <==> eachLineType != "dict" && eachLineType != "list"
      ensures r.Failure? ==> r.error == ArgValueError("each_line_type must be dict or list")
      ensures r.Success? ==> fresh(r.value) && r.value.Valid() && r.value.St() == Initial
      ensures r.Success? ==> r.value.Cfg() == Config(if eachLineType == "dict" then DictLines else ListLines, header, source, batchSize, maxReadLines)
    {
      if eachLineType != "dict" && eachLineType != "list" {
        return Failure(ArgValueError("each_line_type must be dict or list"));
      }
      var reader := new CsvReader(if eachLineType == "dict" then DictLines else ListLines, header, source, batchSize, maxReadLines);
      return Success(reader);
    }

    /** `_ret_each`: hand over the accumulator and start a fresh one. */
    method RetEach() returns (each: seq<Value>)
      modifies this
      ensures each == old(eachList) && eachList == []
      ensures pos == old(pos) && finished == old(finished) && totalCount == old(totalCount) && rewound == old(rewound)
    {
      each := eachList;
      eachList := [];
    }

    /** `_reinit_vals`: back to the start of the file with nothing delivered. */
    method ReinitVals()
      modifies this
      ensures St() == Restart
    {
      finished := false;
      totalCount := 0;
      pos := 0;
      rewound := true;
      eachList := [];
    }

    /** `__anext__`. */
    method Next() returns (p: Pull)
      requires Valid()
      modifies this
      ensures (St(), p) == Step(Cfg(), old(St()))
      ensures Valid()
    {
      if finished {
        ReinitVals();
        return EndOfPass;
      }
      p := DrawBatch();
    }

    /** The reading loop of `__anext__` on an unfinished pass, over the rows the csv reader yields from here. */
    method DrawBatch() returns (p: Pull)
      requires Valid() && !finished
      modifies this
      ensures (St(), p) == Step(Cfg(), old(St()))
      ensures Valid()
    {
      ghost var s0 := St();
      ghost var k := totalCount;
      var rows := Rows(Cfg(), rewound);
      ghost var q := Quota(Cfg(), s0.rewound);
      while pos < |rows|
        invariant rewound == s0.rewound && rows == Rows(Cfg(), s0.rewound)
        invariant !finished && pos == totalCount && k <= totalCount <= q
        invariant eachList == rows[k..totalCount]
        invariant |eachList| < FullSize(batchSize)
      {
        var line := rows[pos];
        pos := pos + 1;
        if BoundSet(maxReadLines) && totalCount >= maxReadLines.value {
          finished := true;
          break;
        }
        SliceSnoc(rows, k, totalCount);
        eachList := eachList + [line];
        totalCount := totalCount + 1;
        if |eachList| >= batchSize {
          StepFull(Cfg(), s0);
          assert St() == Step(Cfg(), s0).0.(eachList := eachList);
          var each := RetEach();
          return Batch(each);
        }
      }
      assert totalCount == q && pos == EndPos(Cfg(), s0.rewound);
      if eachList != [] {
        finished := true;
        StepLast(Cfg(), s0);
        assert St() == Step(Cfg(), s0).0.(eachList := eachList);
        var each := RetEach();
        return Batch(each);
      }
      StepEnd(Cfg(), s0);
      ReinitVals();
      return EndOfPass;
    }
  }
}
