/**
 * async_mongo_reader: hands out the documents a query cursor yields in batches of batch_size. On
 * the first call it opens the cursor, counts the matching documents and bounds the pass by
 * min(max_read_lines, count). When a pass ends it resets its counters but keeps the cursor, so a
 * later pass continues where the cursor stopped instead of starting again.
 */
module AsyncMongoReader {
  import opened Wrappers
  import opened PyValues
  import opened Exceptions
  import opened Batching

  /**
   * What the reader works on: the documents the cursor of `find(query)` yields, in order; the
   * answers of count_documents(query) and of estimated_document_count(); batch_size and max_read_lines.
   */
  datatype Config = Config(docs: seq<Value>, query: Value, matchedCount: nat, estimatedCount: nat,
                           batchSize: int, maxReadLines: Option<int>)

  /** The reader's mutable fields; `cursorPos` counts the documents drawn from the cursor. */
  datatype State = State(initFlag: bool, cursorPos: nat, finished: bool, eachList: seq<Value>,
                         doneLinesNum: nat, maxReadLines: Option<int>, docsCount: nat)

  /** The state after construction: no cursor yet. */
  function Initial(c: Config): State
  {
    State(false, 0, false, [], 0, c.maxReadLines, 0)
  }

  /** count_documents when a filter is given, estimated_document_count otherwise. */
  function Count(c: Config): nat
  {
    if Truthy(c.query) then c.matchedCount else c.estimatedCount
  }

  /** `_init_client`: a fresh cursor, the count, and the bound resolved against it. */
  function Opened(c: Config, st: State): State
  {
    st.(initFlag := true, cursorPos := 0, docsCount := Count(c),
        maxReadLines := Some(ResolveBound(st.maxReadLines, Count(c))), doneLinesNum := 0)
  }

  function AfterInit(c: Config, st: State): State
  {
    if st.initFlag then st else Opened(c, st)
  }

  predicate ValidState(c: Config, st: State)
  {
    && st.eachList == []
    && st.cursorPos <= |c.docs|
    && (st.initFlag ==> st.maxReadLines.Some?)
    && (!st.initFlag ==> st == Initial(c))
  }

  /** Documents the bound still lets this pass take; every remaining one when no bound is in force. */
  function Room(c: Config, st: State): nat
    requires st.cursorPos <= |c.docs|
  {
    if BoundSet(st.maxReadLines) then Max(st.maxReadLines.value - st.doneLinesNum, 0)
    else |c.docs| - st.cursorPos
  }

  /** Documents the rest of this pass delivers. */
  function Quota(c: Config, st: State): nat
    requires st.cursorPos <= |c.docs|
  {
    Min(Room(c, st), |c.docs| - st.cursorPos)
  }

  function Remaining(c: Config, st: State): nat
    requires ValidState(c, st)
  {
    if !st.initFlag then |c.docs| + 2 else if st.finished then 0 else |c.docs| - st.cursorPos + 1
  }

  /**
   * The drawing loop of `__anext__` on an opened cursor and an unfinished pass. The bound is
   * examined after a document has been drawn, so a pass stopped by the bound leaves the cursor one
   * document further on.
   */
  function Draw(c: Config, s: State): (r: (State, Pull))
    requires ValidState(c, s) && s.initFlag && !s.finished
    ensures ValidState(c, r.0) && r.0.initFlag && r.0.maxReadLines == s.maxReadLines
    ensures r.1.EndOfPass? <==> Quota(c, s) == 0
    ensures r.1.EndOfPass? ==> r.0 == s.(cursorPos := Min(s.cursorPos + 1, |c.docs|), doneLinesNum := 0)
    ensures r.1.Batch? ==> |r.1.records| == Min(FullSize(c.batchSize), Quota(c, s))
    ensures r.1.Batch? ==> r.1.records == c.docs[s.cursorPos..s.cursorPos + |r.1.records|]
    ensures r.1.Batch? && |r.1.records| == FullSize(c.batchSize) ==>
              r.0 == s.(cursorPos := s.cursorPos + |r.1.records|, doneLinesNum := s.doneLinesNum + |r.1.records|)
    ensures r.1.Batch? && |r.1.records| < FullSize(c.batchSize) ==>
              r.0 == s.(cursorPos := Min(s.cursorPos + |r.1.records| + 1, |c.docs|),
                        doneLinesNum := s.doneLinesNum + |r.1.records|, finished := true)
  {
    var p := s.cursorPos;
    var n := FullSize(c.batchSize);
    var m := Min(n, Quota(c, s));
    if m == 0 then (s.(cursorPos := Min(p + 1, |c.docs|), doneLinesNum := 0), EndOfPass)
    else if m == n then (s.(cursorPos := p + m, doneLinesNum := s.doneLinesNum + m), Batch(c.docs[p..p + m]))
    else
      (s.(cursorPos := Min(p + m + 1, |c.docs|), doneLinesNum := s.doneLinesNum + m, finished := true),
       Batch(c.docs[p..p + m]))
  }

  /**
   * One `__anext__` call: open the cursor on the first call; a finished pass answers end-of-pass
   * and `_reinit_vals` resets the counters without rewinding the cursor.
   */
  function Step(c: Config, st: State): (r: (State, Pull))
    requires ValidState(c, st)
    ensures ValidState(c, r.0)
    ensures r.0.initFlag && r.0.maxReadLines == AfterInit(c, st).maxReadLines
    ensures r.1.EndOfPass? ==> !r.0.finished && r.0.doneLinesNum == 0
    ensures r.1.Batch? ==> 1 <= |r.1.records| <= FullSize(c.batchSize)
    ensures r.1.Batch? ==> AfterInit(c, st).cursorPos + |r.1.records| <= r.0.cursorPos <= |c.docs|
    ensures r.1.Batch? ==> r.1.records == c.docs[AfterInit(c, st).cursorPos..AfterInit(c, st).cursorPos + |r.1.records|]
    ensures r.1.Batch? && |r.1.records| < FullSize(c.batchSize) ==> r.0.finished
    ensures r.1.Batch? ==> Remaining(c, r.0) < Remaining(c, st)
  {
    var s := AfterInit(c, st);
    if s.finished then (s.(finished := false, eachList := [], doneLinesNum := 0), EndOfPass)
    else Draw(c, s)
  }

  /** The batches of calls made until end-of-pass is signalled, and the state after that signal. */
  function Pass(c: Config, st: State): (r: (seq<seq<Value>>, State))
    requires ValidState(c, st)
    ensures ValidState(c, r.1) && r.1.initFlag && !r.1.finished && r.1.doneLinesNum == 0
    ensures r.1.maxReadLines == AfterInit(c, st).maxReadLines
    decreases Remaining(c, st)
  {
    var step := Step(c, st);
    if step.1.EndOfPass? then ([], step.0)
    else
      var rest := Pass(c, step.0);
      ([step.1.records] + rest.0, rest.1)
  }

  /** The documents the rest of this pass delivers. */
  function Window(c: Config, st: State): (w: seq<Value>)
    requires st.cursorPos <= |c.docs|
    ensures |w| == Quota(c, st)
  {
    c.docs[st.cursorPos..st.cursorPos + Quota(c, st)]
  }

  /** No quota left: the call draws one more document (if any), resets the counters and ends the pass. */
  lemma PassEmpty(c: Config, st: State)
    requires ValidState(c, st) && st.initFlag && !st.finished && Quota(c, st) == 0
    ensures Pass(c, st).0 == []
    ensures Pass(c, st).1 == st.(cursorPos := Min(st.cursorPos + 1, |c.docs|), doneLinesNum := 0)
  {
    assert Step(c, st) == Draw(c, st);
  }

  /** Less than a batch of quota left: one short batch, then end of pass. */
  lemma PassShort(c: Config, st: State)
    requires ValidState(c, st) && st.initFlag && !st.finished && 0 < Quota(c, st) < FullSize(c.batchSize)
    ensures Pass(c, st).0 == [c.docs[st.cursorPos..st.cursorPos + Quota(c, st)]]
    ensures Pass(c, st).1 == st.(cursorPos := Min(st.cursorPos + Quota(c, st) + 1, |c.docs|), doneLinesNum := 0)
  {
    var step := Draw(c, st);
    assert Step(c, st) == step;
    assert step.0.finished;
  }

  /** At least a batch of quota left: a full batch, and the pass goes on from the advanced cursor. */
  lemma PassFull(c: Config, st: State) returns (next: State)
    requires ValidState(c, st) && st.initFlag && !st.finished && Quota(c, st) >= FullSize(c.batchSize)
    ensures ValidState(c, next) && next.initFlag && !next.finished
    ensures next == st.(cursorPos := st.cursorPos + FullSize(c.batchSize), doneLinesNum := st.doneLinesNum + FullSize(c.batchSize))
    ensures Quota(c, next) == Quota(c, st) - FullSize(c.batchSize)
    ensures Pass(c, st).0 == [c.docs[st.cursorPos..st.cursorPos + FullSize(c.batchSize)]] + Pass(c, next).0
    ensures Pass(c, st).1 == Pass(c, next).1
  {
    var step := Draw(c, st);
    assert Step(c, st) == step;
    next := step.0;
  }

  /** After a full batch the window is what followed that batch. */
  lemma WindowAfterFull(c: Config, st: State, n: nat, next: State)
    requires st.cursorPos <= |c.docs| && n <= Quota(c, st)
    requires next == st.(cursorPos := st.cursorPos + n, doneLinesNum := st.doneLinesNum + n)
    ensures Window(c, st)[..n] == c.docs[st.cursorPos..st.cursorPos + n]
    ensures Quota(c, next) == Quota(c, st) - n
    ensures Window(c, next) == Window(c, st)[n..]
  {
    var p, q := st.cursorPos, Quota(c, st);
    assert Quota(c, next) == q - n;
    assert Window(c, st)[..n] == c.docs[p..p + n];
    assert Window(c, next) == c.docs[p + n..p + q];
  }

  /** The rest of a pass from an opened cursor is the reference chunking of the next Quota documents. */
  lemma {:induction false} PassIsChunks(c: Config, st: State)
    requires ValidState(c, st) && st.initFlag && !st.finished
    ensures Pass(c, st).0 == Chunks(Window(c, st), FullSize(c.batchSize))
    decreases |c.docs| - st.cursorPos
  {
    var n := FullSize(c.batchSize);
    var q := Quota(c, st);
    var w := Window(c, st);
    if q == 0 {
      PassEmpty(c, st);
      assert w == [];
    } else if q < n {
      PassShort(c, st);
      assert Chunks(w, n) == [w];
    } else {
      var next := FullStepChunks(c, st);
      PassIsChunks(c, next);
    }
  }

  /** A full batch prepends that batch to the chunking of the rest of the window. */
  lemma FullStepChunks(c: Config, st: State) returns (next: State)
    requires ValidState(c, st) && st.initFlag && !st.finished && Quota(c, st) >= FullSize(c.batchSize)
    ensures ValidState(c, next) && next.initFlag && !next.finished && st.cursorPos < next.cursorPos
    ensures Pass(c, next).0 == Chunks(Window(c, next), FullSize(c.batchSize)) ==>
            Pass(c, st).0 == Chunks(Window(c, st), FullSize(c.batchSize))
  {
    var n := FullSize(c.batchSize);
    next := PassFull(c, st);
    var rest := Pass(c, next).0;
    WindowAfterFull(c, st, n, next);
    if rest == Chunks(Window(c, next), n) {
      ChunksCons(Window(c, st), n, rest);
    }
  }

  /** After the pass the cursor stands one document past those delivered, unless the documents ran out. */
  lemma {:induction false} PassEnd(c: Config, st: State)
    requires ValidState(c, st) && st.initFlag && !st.finished
    ensures Pass(c, st).1 ==
            st.(cursorPos := Min(st.cursorPos + Quota(c, st) + 1, |c.docs|), doneLinesNum := 0)
    decreases |c.docs| - st.cursorPos
  {
    var q := Quota(c, st);
    if q == 0 {
      PassEmpty(c, st);
    } else if q < FullSize(c.batchSize) {
      PassShort(c, st);
    } else {
      var next := PassFull(c, st);
      PassEnd(c, next);
    }
  }

  /** The first call opens the cursor with a quota of FirstQuota documents; a pass from construction is a pass from there. */
  lemma {:induction false} OpenAtStart(c: Config) returns (s0: State)
    ensures s0 == Opened(c, Initial(c)) && ValidState(c, s0) && s0.initFlag && !s0.finished
    ensures s0.cursorPos == 0 && Quota(c, s0) == FirstQuota(c)
    ensures Pass(c, Initial(c)) == Pass(c, s0)
  {
    s0 := Opened(c, Initial(c));
    assert Step(c, Initial(c)) == Step(c, s0);
  }

  /** Documents the first pass delivers: min(N, bound) with bound = min(max_read_lines, count), or all N when the bound is 0. */
  function FirstQuota(c: Config): nat
  {
    var b := ResolveBound(c.maxReadLines, Count(c));
    if b != 0 then Min(|c.docs|, Max(b, 0)) else |c.docs|
  }

  /**
   * The first pass delivers the first FirstQuota documents, each once and in order, in batches of
   * batch_size (at least one) of which only the last may be shorter.
   */
  lemma FirstPass(c: Config)
    ensures Flatten(Pass(c, Initial(c)).0) == c.docs[..FirstQuota(c)]
    ensures forall i :: 0 <= i < |Pass(c, Initial(c)).0| ==> 1 <= |Pass(c, Initial(c)).0[i]| <= FullSize(c.batchSize)
    ensures forall i :: 0 <= i < |Pass(c, Initial(c)).0| - 1 ==> |Pass(c, Initial(c)).0[i]| == FullSize(c.batchSize)
  {
    var s0 := OpenAtStart(c);
    PassIsChunks(c, s0);
    var d := c.docs[..FirstQuota(c)];
    assert Window(c, s0) == d;
    FlattenChunks(d, FullSize(c.batchSize));
    ChunkSizes(d, FullSize(c.batchSize));
  }

  /** After the first pass the cursor stands one document past the delivered ones, unless the documents ran out. */
  lemma FirstPassCursor(c: Config)
    ensures Pass(c, Initial(c)).1 == Opened(c, Initial(c)).(cursorPos := Min(FirstQuota(c) + 1, |c.docs|))
  {
    var s0 := OpenAtStart(c);
    PassEnd(c, s0);
  }

  /**
   * The second pass does not start over: it continues from where the cursor stopped, so it
   * delivers documents that follow the first pass's.
   */
  lemma SecondPass(c: Config)
    ensures var s1 := Pass(c, Initial(c)).1;
            s1.cursorPos == Min(FirstQuota(c) + 1, |c.docs|) &&
            Flatten(Pass(c, s1).0) == c.docs[s1.cursorPos..s1.cursorPos + Quota(c, s1)]
  {
    FirstPassCursor(c);
    var s1 := Pass(c, Initial(c)).1;
    PassIsChunks(c, s1);
    FlattenChunks(Window(c, s1), FullSize(c.batchSize));
  }

  /** Once the first pass has taken every document, the second pass delivers none. */
  lemma SecondPassEmpty(c: Config)
    requires FirstQuota(c) == |c.docs|
    ensures Pass(c, Pass(c, Initial(c)).1).0 == []
  {
    FirstPassCursor(c);
    var s1 := Pass(c, Initial(c)).1;
    PassIsChunks(c, s1);
    assert Window(c, s1) == [];
  }

  class MongoReader {
    const docs: seq<Value>
    const query: Value
    const matchedCount: nat
    const estimatedCount: nat
    const batchSize: int
    const requestedMaxReadLines: Option<int>
    var initFlag: bool
    var cursorPos: nat
    var finished: bool
    var eachList: seq<Value>
    var doneLinesNum: nat
    var maxReadLines: Option<int>
    var docsCount: nat

    function Cfg(): Config
    {
      Config(docs, query, matchedCount, estimatedCount, batchSize, requestedMaxReadLines)
    }

    function St(): State
      reads this
    {
      State(initFlag, cursorPos, finished, eachList, doneLinesNum, maxReadLines, docsCount)
    }

    predicate Valid()
      reads this
    {
      ValidState(Cfg(), St())
    }

    constructor (docs: seq<Value>, query: Value, matchedCount: nat, estimatedCount: nat,
                 batchSize: int, maxReadLines: Option<int>)
      ensures Cfg() == Config(docs, query, matchedCount, estimatedCount, batchSize, maxReadLines)
      ensures St() == Initial(Cfg())
    {
      this.docs := docs;
      this.query := query;
      this.matchedCount := matchedCount;
      this.estimatedCount := estimatedCount;
      this.batchSize := batchSize;
      this.requestedMaxReadLines := maxReadLines;
      this.maxReadLines := maxReadLines;
      initFlag, cursorPos, finished, eachList, doneLinesNum, docsCount := false, 0, false, [], 0, 0;
    }

    /** `async_mongo_reader(...)`: host, port and database must all be given (truthy). */
    static method Create(host: Value, port: Value, database: Value, docs: seq<Value>, query: Value,
                         matchedCount: nat, estimatedCount: nat, batchSize: int, maxReadLines: Option<int>)
      returns (r: Result<MongoReader, Error>)
      ensures r.Failure? <==> !Truthy(host) || !Truthy(port) || !Truthy(database)
      ensures r.Failure? ==> r.error == ParamsError("lack of mongodb's host or port or database")
      ensures r.Success? ==> fresh(r.value) && r.value.Valid() && r.value.St() == Initial(r.value.Cfg())
      ensures r.Success? ==> r.value.Cfg() == Config(docs, query, matchedCount, estimatedCount, batchSize, maxReadLines)
    {
      if !Truthy(host) || !Truthy(port) || !Truthy(database) {
        return Failure(ParamsError("lack of mongodb's host or port or database"));
      }
      var reader := new MongoReader(docs, query, matchedCount, estimatedCount, batchSize, maxReadLines);
      return Success(reader);
    }

    /** `_init_client`. */
    method InitClient()
      modifies this
      ensures St() == Opened(Cfg(), old(St())).(initFlag := old(initFlag))
    {
      cursorPos := 0;
      docsCount := if Truthy(query) then matchedCount else estimatedCount;
      maxReadLines := Some(if BoundSet(maxReadLines) then Min(maxReadLines.value, docsCount) else docsCount);
      doneLinesNum := 0;
    }

    /** `_reinit_vals`: the counters start again, the cursor stays where it is. */
    method ReinitVals()
      modifies this
      ensures St() == old(St()).(finished := false, eachList := [], doneLinesNum := 0)
    {
      finished := false;
      eachList := [];
      doneLinesNum := 0;
    }

    /** `_ret_each`: hand over the accumulator and start a fresh one. */
    method RetEach() returns (each: seq<Value>)
      modifies this
      ensures each == old(eachList) && St() == old(St()).(eachList := [])
    {
      each := eachList;
      eachList := [];
    }

    /** `__anext__`. */
    method Next() returns (p: Pull)
      requires Valid()
      modifies this
      ensures Valid()
      ensures (St(), p) == Step(Cfg(), old(St()))
    {
      if !initFlag {
        InitClient();
        initFlag := true;
      }
      if finished {
        ReinitVals();
        return EndOfPass;
      }
      assert Step(Cfg(), old(St())) == Draw(Cfg(), St());
      p := DrawBatch();
    }

    /**
     * The `async for line in self.cursor` loop: draw a document, stop (marking the pass finished)
     * when the bound has been reached, otherwise collect it; `full` tells that batch_size
     * documents were collected, in which case `__anext__` returns them at once.
     */
    method Fill() returns (full: bool)
      requires Valid() && initFlag && !finished
      modifies this
      ensures initFlag && maxReadLines == old(maxReadLines) && docsCount == old(docsCount)
      ensures old(cursorPos) + |eachList| <= |docs|
      ensures eachList == docs[old(cursorPos)..old(cursorPos) + |eachList|]
      ensures doneLinesNum == old(doneLinesNum) + |eachList|
      ensures full ==> !finished && |eachList| == FullSize(batchSize) <= Quota(Cfg(), old(St()))
      ensures full ==> cursorPos == old(cursorPos) + |eachList|
      ensures !full ==> |eachList| == Quota(Cfg(), old(St())) < FullSize(batchSize)
      ensures !full ==> cursorPos == Min(old(cursorPos) + |eachList| + 1, |docs|)
    {
      ghost var s := St();
      ghost var p0 := cursorPos;
      ghost var d0 := doneLinesNum;
      while cursorPos < |docs|
        invariant !finished && initFlag && maxReadLines == s.maxReadLines && docsCount == s.docsCount
        invariant p0 <= cursorPos <= |docs|
        invariant cursorPos - p0 == doneLinesNum - d0 == |eachList| < FullSize(batchSize)
        invariant eachList == docs[p0..cursorPos]
        invariant |eachList| <= Room(Cfg(), s)
      {
        var line := docs[cursorPos];
        cursorPos := cursorPos + 1;
        if BoundSet(maxReadLines) && doneLinesNum >= maxReadLines.value {
          finished := true;
          break;
        }
        doneLinesNum := doneLinesNum + 1;
        eachList := eachList + [line];
        if |eachList| >= batchSize {
          return true;
        }
      }
      return false;
    }

    /** The drawing part of `__anext__` on an opened cursor and an unfinished pass. */
    method DrawBatch() returns (p: Pull)
      requires Valid() && initFlag && !finished
      modifies this
      ensures Valid()
      ensures (St(), p) == Draw(Cfg(), old(St()))
    {
      var full := Fill();
      if full {
        var each := RetEach();
        return Batch(each);
      }
      if eachList != [] {
        finished := true;
        var each := RetEach();
        return Batch(each);
      }
      ReinitVals();
      return EndOfPass;
    }
  }
}
