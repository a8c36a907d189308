/**
 * async_anyfile_reader: hands out the lines of a text file in batches of batch_size (each line raw,
 * or stripped of surrounding whitespace with trim_each_line), stops after max_read_lines lines when
 * that bound is set, and seeks back to the start of the file when a pass ends.
 */
module AsyncAnyfileReader {
  import opened Wrappers
  import opened PyValues
  import opened Exceptions
  import opened Batching
  import opened Text

  /** The decoded text of the file, batch_size, max_read_lines and trim_each_line. */
  datatype Config = Config(content: string, batchSize: int, maxReadLines: Option<int>, trimEachLine: bool)

  /** The reader's mutable fields; `pos` is the file offset, counted in lines. */
  datatype State = State(pos: nat, finished: bool, eachList: seq<Value>, totalCount: nat)

  const Initial: State := State(0, false, [], 0)

  function FileLines(c: Config): seq<string>
  {
    Lines(c.content)
  }

  /** What `readline` returns at line offset `pos`: the line, or "" at the end of the file. */
  function ReadLine(lines: seq<string>, pos: nat): string
  {
    if pos < |lines| then lines[pos] else ""
  }

  /** The record stored for one line. */
  function Record(c: Config, line: string): Value
  {
    if c.trimEachLine then VStr(Strip(line)) else VStr(line)
  }

  /** The record of every line of the file, in order. */
  function Records(c: Config): (rs: seq<Value>)
    ensures |rs| == |FileLines(c)|
  {
    seq(|FileLines(c)|, i requires 0 <= i < |FileLines(c)| => Record(c, FileLines(c)[i]))
  }

  /** Lines one pass delivers. */
  function Quota(c: Config): nat
  {
    Limit(|FileLines(c)|, c.maxReadLines)
  }

  /** The states between two calls: the accumulator is empty and the offset is the number of lines delivered. */
  predicate ValidState(c: Config, st: State)
  {
    && st.eachList == []
    && st.totalCount <= Quota(c)
    && st.pos == st.totalCount
    && (st.finished ==> st.totalCount == Quota(c))
  }

  function Remaining(c: Config, st: State): nat
    requires ValidState(c, st)
  {
    if st.finished then 0 else Quota(c) - st.totalCount + 1
  }

  /**
   * One `__anext__` call. The loop runs `range(0, batch_size)` and tests the bound before it reads,
   * so no line is drawn past the bound, and a batch_size below one ends every pass at once.
   */
  function Step(c: Config, st: State): (r: (State, Pull))
    requires ValidState(c, st)
    ensures ValidState(c, r.0)
    ensures r.1.EndOfPass? ==> r.0 == Initial
    ensures st.finished || c.batchSize < 1 ==> r.1.EndOfPass?
    ensures r.1.Batch? ==> 1 <= |r.1.records| <= c.batchSize
    ensures r.1.Batch? ==> st.totalCount < r.0.totalCount <= Quota(c) <= |Records(c)|
    ensures r.1.Batch? ==> r.1.records == Records(c)[st.totalCount..r.0.totalCount]
    ensures r.1.Batch? && |r.1.records| < c.batchSize ==> r.0.finished
    ensures r.1.Batch? ==> Remaining(c, r.0) < Remaining(c, st)
  {
    var k := st.totalCount;
    if st.finished || c.batchSize < 1 || k == Quota(c) then (Initial, EndOfPass)
    else
      var m := Min(c.batchSize, Quota(c) - k);
      if m == c.batchSize then (State(k + m, false, [], k + m), Batch(Records(c)[k..k + m]))
      else (State(Quota(c), true, [], Quota(c)), Batch(Records(c)[k..k + m]))
  }

  /** A call with at least a batch of the quota left returns the records of the next batch_size lines. */
  lemma StepFull(c: Config, st: State)
    requires ValidState(c, st) && !st.finished && c.batchSize >= 1
    requires Quota(c) - st.totalCount >= c.batchSize
    ensures var m := st.totalCount + c.batchSize;
            Step(c, st) == (State(m, false, [], m), Batch(Records(c)[st.totalCount..m]))
  {
  }

  /** A call with less than a batch of the quota left returns the rest and finishes the pass. */
  lemma StepLast(c: Config, st: State)
    requires ValidState(c, st) && !st.finished && c.batchSize >= 1
    requires 0 < Quota(c) - st.totalCount < c.batchSize
    ensures Step(c, st) == (State(Quota(c), true, [], Quota(c)), Batch(Records(c)[st.totalCount..Quota(c)]))
  {
  }

  /** The batches of calls made until end-of-pass is signalled, and the state after that signal. */
  function Pass(c: Config, st: State): (r: (seq<seq<Value>>, State))
    requires ValidState(c, st)
    ensures r.1 == Initial
    decreases Remaining(c, st)
  {
    var (next, p) := Step(c, st);
    if p.EndOfPass? then ([], next)
    else
      var rest := Pass(c, next);
      ([p.records] + rest.0, rest.1)
  }

  /** The rest of a pass is the reference chunking of the lines not yet delivered (nothing when batch_size < 1). */
  lemma {:induction false} PassIsChunks(c: Config, st: State)
    requires ValidState(c, st) && !st.finished && c.batchSize >= 1
    ensures Pass(c, st).0 == Chunks(Records(c)[st.totalCount..Quota(c)], c.batchSize)
    decreases Remaining(c, st)
  {
    var k := st.totalCount;
    var n := c.batchSize;
    if k < Quota(c) {
      ChunksOfSlice(Records(c), k, Quota(c) - k, n);
      if Quota(c) - k >= n {
        var next := PassFull(c, st);
        PassIsChunks(c, next);
      } else {
        PassShort(c, st);
      }
    }
  }

  /** A call with less than a batch of the quota left delivers the rest, and the pass ends. */
  lemma PassShort(c: Config, st: State)
    requires ValidState(c, st) && !st.finished && c.batchSize >= 1
    requires 0 < Quota(c) - st.totalCount < c.batchSize
    ensures Pass(c, st).0 == [Records(c)[st.totalCount..Quota(c)]]
  {
    var next := Step(c, st).0;
    assert next.finished;
    assert Pass(c, next).0 == [];
  }

  /** A call with at least a batch of the quota left delivers a full batch, and the pass goes on. */
  lemma PassFull(c: Config, st: State) returns (next: State)
    requires ValidState(c, st) && !st.finished && c.batchSize >= 1
    requires Quota(c) - st.totalCount >= c.batchSize
    ensures ValidState(c, next) && !next.finished && next.totalCount == st.totalCount + c.batchSize
    ensures Pass(c, st).0 == [Records(c)[st.totalCount..st.totalCount + c.batchSize]] + Pass(c, next).0
  {
    next := Step(c, st).0;
  }

  /**
   * A full pass delivers the records of the first min(N, max_read_lines) lines, or of all N lines
   * when the bound is None or 0, each once and in order, in batches of batch_size of which only
   * the last may be shorter; each record is the line itself, or line.strip() with trim_each_line.
   */
  lemma FirstPass(c: Config)
    requires c.batchSize >= 1
    ensures Flatten(Pass(c, Initial).0) == Records(c)[..Quota(c)]
    ensures Quota(c) == if BoundSet(c.maxReadLines) then Min(|FileLines(c)|, Max(c.maxReadLines.value, 0))
                        else |FileLines(c)|
    ensures forall i :: 0 <= i < |Pass(c, Initial).0| ==> 1 <= |Pass(c, Initial).0[i]| <= c.batchSize
    ensures forall i :: 0 <= i < |Pass(c, Initial).0| - 1 ==> |Pass(c, Initial).0[i]| == c.batchSize
  {
    PassIsChunks(c, Initial);
    FlattenChunks(Records(c)[..Quota(c)], c.batchSize);
    ChunkSizes(Records(c)[..Quota(c)], c.batchSize);
  }

  /** A line drawn before the end of the file is never empty, so only the end of the file reads as "". */
  lemma LineAt(c: Config, j: nat)
    requires j < |FileLines(c)|
    ensures FileLines(c)[j] != "" && Records(c)[j] == Record(c, FileLines(c)[j])
  {
    LinesShape(c.content);
  }

  /** Each delivered record is the stripped line with trim_each_line, and the raw line otherwise. */
  lemma RecordOfLine(c: Config, i: nat)
    requires i < |FileLines(c)|
    ensures Records(c)[i] == if c.trimEachLine then VStr(Strip(FileLines(c)[i])) else VStr(FileLines(c)[i])
  {
  }

  /** With batch_size below one every call signals end-of-pass and nothing is ever read. */
  lemma NoBatchSize(c: Config)
    requires c.batchSize < 1
    ensures Pass(c, Initial).0 == []
  {
  }

  /** The pass after a pass starts from the same state, so an unchanged file yields the same batches again. */
  lemma Replay(c: Config)
    ensures Pass(c, Pass(c, Initial).1) == Pass(c, Initial)
  {
  }

  /** `readline` returns "" only at the end of the file, and the end of the file is within the quota only when it is the quota. */
  lemma EmptyReadIsEnd(c: Config, pos: nat)
    requires pos <= Quota(c) && ReadLine(FileLines(c), pos) == ""
    ensures pos == Quota(c) && pos == |FileLines(c)|
  {
    if pos < |FileLines(c)| {
      LineAt(c, pos);
    }
  }

  /** Drawing the line at `j` extends the delivered records by that line's record. */
  lemma RecordsSnoc(c: Config, k: nat, j: nat)
    requires k <= j < |FileLines(c)|
    ensures Records(c)[k..j + 1] == Records(c)[k..j] + [Record(c, ReadLine(FileLines(c), j))]
  {
  }

  class AnyfileReader {
    const content: string
    const batchSize: int
    const maxReadLines: Option<int>
    const trimEachLine: bool
    var pos: nat
    var finished: bool
    var eachList: seq<Value>
    var totalCount: nat

    function Cfg(): Config
    {
      Config(content, batchSize, maxReadLines, trimEachLine)
    }

    function St(): State
      reads this
    {
      State(pos, finished, eachList, totalCount)
    }

    predicate Valid()
      reads this
    {
      ValidState(Cfg(), St())
    }

    /** `__init__`: the file is opened at once. */
    constructor (content: string, batchSize: int, maxReadLines: Option<int>, trimEachLine: bool)
      ensures Cfg() == Config(content, batchSize, maxReadLines, trimEachLine) && St() == Initial
      ensures Valid()
    {
      this.content := content;
      this.batchSize := batchSize;
      this.maxReadLines := maxReadLines;
      this.trimEachLine := trimEachLine;
      pos, finished, eachList, totalCount := 0, false, [], 0;
    }

    /** `_ret_each`: hand over the accumulator and start a fresh one. */
    method RetEach() returns (each: seq<Value>)
      modifies this
      ensures each == old(eachList) && eachList == []
      ensures pos == old(pos) && finished == old(finished) && totalCount == old(totalCount)
    {
      each := eachList;
      eachList := [];
    }

    /** `_reinit_vals`: back to the start of the file with nothing delivered. */
    method ReinitVals()
      modifies this
      ensures St() == Initial
    {
      finished := false;
      totalCount := 0;
      pos := 0;
      eachList := [];
    }

    /** `__anext__`. */
    method Next() returns (p: Pull)
      requires Valid()
      modifies this
      ensures Valid()
      ensures (St(), p) == Step(Cfg(), old(St()))
    {
      if finished {
        ReinitVals();
        return EndOfPass;
      }
      p := DrawBatch();
    }

    /** The reading loop of `__anext__` on an unfinished pass. */
    method DrawBatch() returns (p: Pull)
      requires Valid() && !finished
      modifies this
      ensures Valid()
      ensures (St(), p) == Step(Cfg(), old(St()))
    {
      var lines := Lines(content);
      ghost var s0 := St();
      ghost var k := totalCount;
      var i := 0;
      while i < batchSize
        invariant !finished && pos == totalCount && k <= totalCount <= Quota(Cfg())
        invariant i == totalCount - k && (i == 0 || i < batchSize)
        invariant eachList == Records(Cfg())[k..totalCount]
      {
        if BoundSet(maxReadLines) && totalCount >= maxReadLines.value {
          assert totalCount == Quota(Cfg());
          finished := true;
          break;
        }
        var line := ReadLine(lines, pos);
        if line == "" {
          EmptyReadIsEnd(Cfg(), pos);
          finished := true;
          break;
        }
        RecordsSnoc(Cfg(), k, pos);
        pos := pos + 1;
        eachList := eachList + [Record(Cfg(), line)];
        totalCount := totalCount + 1;
        if |eachList| >= batchSize {
          var each := RetEach();
          StepFull(Cfg(), s0);
          return Batch(each);
        }
        i := i + 1;
      }
      assert batchSize < 1 || totalCount == Quota(Cfg());
      if eachList != [] {
        finished := true;
        var each := RetEach();
        StepLast(Cfg(), s0);
        return Batch(each);
      }
      ReinitVals();
      return EndOfPass;
    }
  }
}
