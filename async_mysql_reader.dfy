/**
 * async_mysql_reader: hands out the rows of a SELECT in batches of batch_size. The first call
 * connects, counts the rows of the table named after FROM and bounds the pass by
 * min(max_read_lines, count). A row is fetched before the bound is examined, so a bounded pass
 * fetches one row more than it delivers. When a pass ends the connection is closed, but neither
 * `done_lines_num` nor the init flag is reset, so every later pass of the same object is empty.
 */
module AsyncMysqlReader {
  import opened Wrappers
  import opened PyValues
  import opened Exceptions
  import opened Text
  import opened Batching

  // ---------------------------------------------------------------------------------------
  // The count target: the stripped group of a case-insensitive lazy search for SELECT ... FROM
  // ---------------------------------------------------------------------------------------

  /**
   * Character `c` matches the upper-case ASCII letter `w` under re.IGNORECASE: either case, and
   * LATIN SMALL LETTER LONG S (U+017F) also matches S.
   */
  predicate FoldMatch(c: char, w: char)
  {
    c == w || c as int == w as int + 32 || (w == 'S' && c == '\U{017F}')
  }

  /** The keyword `w` (upper-case ASCII) occurs at position `i` of `s`, ignoring case. */
  predicate KeywordAt(s: string, i: nat, w: string)
  {
    i + |w| <= |s| && forall k :: 0 <= k < |w| ==> FoldMatch(s[i + k], w[k])
  }

  /**
   * The lazy `(.*?)FROM` from position `j`: the first FROM at or after `j` that is reached
   * without crossing a newline (`.` does not match one).
   */
  function FindFrom(s: string, j: nat): (r: Option<nat>)
    requires j <= |s|
    ensures r.Some? ==> j <= r.value <= |s|
    decreases |s| - j
  {
    if KeywordAt(s, j, "FROM") then Some(j)
    else if j == |s| || s[j] == '\n' then None
    else FindFrom(s, j + 1)
  }

  /** A FROM that FindFrom finds is on the line of `j`, and no FROM comes before it. */
  lemma {:induction false} FindFromFound(s: string, j: nat)
    requires j <= |s| && FindFrom(s, j).Some?
    ensures var f := FindFrom(s, j).value;
            KeywordAt(s, f, "FROM") && '\n' !in s[j..f] && forall k :: j <= k < f ==> !KeywordAt(s, k, "FROM")
    decreases |s| - j
  {
    if !KeywordAt(s, j, "FROM") {
      FindFromFound(s, j + 1);
      var f := FindFrom(s, j).value;
      assert s[j..f] == [s[j]] + s[j + 1..f];
    }
  }

  /** FindFrom fails only when no FROM follows `j` before the end of its line. */
  lemma {:induction false} FindFromNone(s: string, j: nat)
    requires j <= |s| && FindFrom(s, j).None?
    ensures forall k :: j <= k <= |s| && '\n' !in s[j..k] ==> !KeywordAt(s, k, "FROM")
    decreases |s| - j
  {
    if j < |s| && s[j] != '\n' {
      FindFromNone(s, j + 1);
      assert forall k :: j + 1 <= k <= |s| ==> s[j..k] == [s[j]] + s[j + 1..k];
    }
  }

  /** A SELECT at `k` that a FROM follows on the same line: where the search can match. */
  predicate MatchAt(s: string, k: nat)
  {
    k + 6 <= |s| && KeywordAt(s, k, "SELECT") && FindFrom(s, k + 6).Some?
  }

  /** The leftmost position at or after `i` where the search matches. */
  function FindSelect(s: string, i: nat): (r: Option<nat>)
    requires i <= |s|
    ensures r.Some? ==> i <= r.value && MatchAt(s, r.value)
    ensures r.Some? ==> forall k :: i <= k < r.value ==> !MatchAt(s, k)
    ensures r.None? ==> forall k :: i <= k <= |s| ==> !MatchAt(s, k)
    decreases |s| - i
  {
    if MatchAt(s, i) then Some(i)
    else if i == |s| then None
    else FindSelect(s, i + 1)
  }

  /** The count target: the stripped text between the matched SELECT and FROM; None when the search fails. */
  function CountTarget(sql: string): Option<string>
  {
    match FindSelect(sql, 0)
    case Some(i) => Some(Strip(sql[i + 6..FindFrom(sql, i + 6).value]))
    case None => None
  }

  /** The target is found exactly when the search matches somewhere. */
  lemma CountTargetNone(sql: string)
    ensures CountTarget(sql).None? <==> forall k :: 0 <= k <= |sql| ==> !MatchAt(sql, k)
  {
    var r := FindSelect(sql, 0);
    if r.Some? {
      assert MatchAt(sql, r.value);
    }
  }

  /** A found target is the stripped text between the leftmost matching SELECT and the first FROM after it on its line. */
  lemma CountTargetFound(sql: string) returns (i: nat, j: nat)
    requires CountTarget(sql).Some?
    ensures i + 6 <= j <= |sql| && MatchAt(sql, i) && (forall k :: 0 <= k < i ==> !MatchAt(sql, k))
    ensures FindFrom(sql, i + 6) == Some(j) && CountTarget(sql).value == Strip(sql[i + 6..j])
  {
    i := FindSelect(sql, 0).value;
    j := FindFrom(sql, i + 6).value;
  }

  /** A statement with no SELECT keyword has no count target, so opening the reader fails. */
  lemma NoSelectNoTarget(sql: string)
    requires forall k :: 0 <= k <= |sql| ==> !KeywordAt(sql, k, "SELECT")
    ensures CountTarget(sql) == None
  {
    CountTargetNone(sql);
  }

  // ---------------------------------------------------------------------------------------
  // The reader
  // ---------------------------------------------------------------------------------------

  /**
   * What the reader works on: the query text; the rows the query cursor yields, in order; the
   * answer of the COUNT query; batch_size and max_read_lines.
   */
  datatype Config = Config(sql: string, rows: seq<Value>, count: nat, batchSize: int, maxReadLines: Option<int>)

  /** The reader's mutable fields; `pos` counts the fetchone calls made on the cursor. */
  datatype State = State(initFlag: bool, pos: nat, finished: bool, eachList: seq<Value>,
                         doneLinesNum: nat, maxReadLines: Option<int>, docsCount: nat, closed: bool)

  function Initial(c: Config): State
  {
    State(false, 0, false, [], 0, c.maxReadLines, 0, false)
  }

  /** fetchone on a cursor whose rows have run out answers None. */
  function FetchAt(rows: seq<Value>, i: nat): Value
  {
    if i < |rows| then rows[i] else VNone
  }

  /** The answers of `m` fetchone calls from position `p`. */
  function FetchRange(rows: seq<Value>, p: nat, m: nat): (r: seq<Value>)
    ensures |r| == m && forall k :: 0 <= k < m ==> r[k] == FetchAt(rows, p + k)
  {
    seq(m, k requires 0 <= k < m => FetchAt(rows, p + k))
  }

  /** `_init_connection`, once the count target was found: the count and the resolved bound. */
  function Opened(c: Config, st: State): State
  {
    st.(initFlag := true, pos := 0, closed := false, docsCount := c.count,
        maxReadLines := Some(ResolveBound(st.maxReadLines, c.count)))
  }

  function AfterInit(c: Config, st: State): State
  {
    if st.initFlag then st else Opened(c, st)
  }

  predicate ValidState(c: Config, st: State)
  {
    && st.eachList == []
    && (st.initFlag ==> st.maxReadLines.Some?)
    && (!st.initFlag ==> st == Initial(c))
  }

  /** The first call can open the reader: it already is open, or the count target is found. */
  predicate Ready(c: Config, st: State)
  {
    st.initFlag || CountTarget(c.sql).Some?
  }

  /** A non-zero bound is in force once the reader is open. */
  predicate Bounded(c: Config, st: State)
  {
    BoundSet(AfterInit(c, st).maxReadLines)
  }

  /** Rows the bound still lets through. */
  function Left(s: State): nat
    requires s.maxReadLines.Some?
  {
    Max(s.maxReadLines.value - s.doneLinesNum, 0)
  }

  /**
   * The fetching loop of `__anext__` on an open reader and an unfinished pass. Without a bound
   * every call delivers a full batch (padded with None once the rows run out); with one, the row
   * fetched when the bound is reached is dropped, and a pass that hands out nothing closes the
   * connection.
   */
  function Draw(c: Config, s: State): (r: (State, Pull))
    requires ValidState(c, s) && s.initFlag && !s.finished
    ensures ValidState(c, r.0) && r.0.initFlag && r.0.maxReadLines == s.maxReadLines
    ensures !BoundSet(s.maxReadLines) ==>
              r.1 == Batch(FetchRange(c.rows, s.pos, FullSize(c.batchSize))) &&
              r.0 == s.(pos := s.pos + FullSize(c.batchSize), doneLinesNum := s.doneLinesNum + FullSize(c.batchSize))
    ensures BoundSet(s.maxReadLines) ==> (r.1.EndOfPass? <==> Left(s) == 0)
    ensures BoundSet(s.maxReadLines) && r.1.EndOfPass? ==> r.0 == s.(pos := s.pos + 1, closed := true)
    ensures BoundSet(s.maxReadLines) && r.1.Batch? ==>
              r.1.records == FetchRange(c.rows, s.pos, Min(FullSize(c.batchSize), Left(s)))
    ensures BoundSet(s.maxReadLines) && r.1.Batch? && Left(s) >= FullSize(c.batchSize) ==>
              r.0 == s.(pos := s.pos + FullSize(c.batchSize), doneLinesNum := s.doneLinesNum + FullSize(c.batchSize))
    ensures BoundSet(s.maxReadLines) && r.1.Batch? && Left(s) < FullSize(c.batchSize) ==>
              r.0 == s.(pos := s.pos + Left(s) + 1, doneLinesNum := s.doneLinesNum + Left(s), finished := true)
  {
    var n := FullSize(c.batchSize);
    var p := s.pos;
    if !BoundSet(s.maxReadLines) then
      (s.(pos := p + n, doneLinesNum := s.doneLinesNum + n), Batch(FetchRange(c.rows, p, n)))
    else
      var m := Min(n, Left(s));
      if m == 0 then (s.(pos := p + 1, closed := true), EndOfPass)
      else if m == n then (s.(pos := p + n, doneLinesNum := s.doneLinesNum + n), Batch(FetchRange(c.rows, p, n)))
      else (s.(pos := p + m + 1, doneLinesNum := s.doneLinesNum + m, finished := true), Batch(FetchRange(c.rows, p, m)))
  }

  function Remaining(c: Config, st: State): nat
    requires ValidState(c, st) && Bounded(c, st)
  {
    var s := AfterInit(c, st);
    (if st.initFlag then 0 else 1) + (if s.finished then 0 else Left(s) + 1)
  }

  /**
   * One `__anext__` call. The first call fails with AttributeError when the count target is not
   * found (the search result is None); a finished pass answers end-of-pass after
   * `_reinit_vals_and_close`, which clears `finished` and the accumulator and closes the connection.
   */
  function Step(c: Config, st: State): (r: Result<(State, Pull), Error>)
    requires ValidState(c, st)
    ensures r.Failure? <==> !Ready(c, st)
    ensures r.Failure? ==> r.error == AttributeError
    ensures r.Success? ==> ValidState(c, r.value.0) && r.value.0.initFlag
    ensures r.Success? ==> r.value.0.maxReadLines == AfterInit(c, st).maxReadLines
    ensures r.Success? && r.value.1.Batch? ==> 1 <= |r.value.1.records| <= FullSize(c.batchSize)
    ensures r.Success? && r.value.1.Batch? ==>
              r.value.1.records == FetchRange(c.rows, AfterInit(c, st).pos, |r.value.1.records|)
    ensures r.Success? && r.value.1.EndOfPass? ==> r.value.0.closed && !r.value.0.finished
    ensures r.Success? && r.value.1.Batch? && Bounded(c, st) ==> Remaining(c, r.value.0) < Remaining(c, st)
  {
    if !Ready(c, st) then Failure(AttributeError)
    else
      var s := AfterInit(c, st);
      if s.finished then Success((s.(finished := false, eachList := [], closed := true), EndOfPass))
      else Success(Draw(c, s))
  }

  /** The batches of calls made until end-of-pass, and the state after it; only a bounded reader ever ends a pass. */
  function Pass(c: Config, st: State): (r: (seq<seq<Value>>, State))
    requires ValidState(c, st) && Ready(c, st) && Bounded(c, st)
    ensures ValidState(c, r.1) && r.1.initFlag && !r.1.finished && r.1.closed
    ensures r.1.maxReadLines == AfterInit(c, st).maxReadLines
    decreases Remaining(c, st)
  {
    var step := Step(c, st).value;
    if step.1.EndOfPass? then ([], step.0)
    else
      var rest := Pass(c, step.0);
      ([step.1.records] + rest.0, rest.1)
  }

  /** The answers the rest of a bounded pass delivers: the next Left fetches. */
  function Window(c: Config, st: State): (w: seq<Value>)
    requires st.initFlag && st.maxReadLines.Some?
    ensures |w| == Left(st)
  {
    FetchRange(c.rows, st.pos, Left(st))
  }

  /** Nothing left under the bound: one more fetch, the connection is closed, the pass ends. */
  lemma PassEmpty(c: Config, st: State)
    requires ValidState(c, st) && st.initFlag && !st.finished && BoundSet(st.maxReadLines) && Left(st) == 0
    ensures Pass(c, st) == ([], st.(pos := st.pos + 1, closed := true))
  {
    assert Step(c, st) == Success(Draw(c, st));
  }

  /** Less than a batch left: a short batch, an extra fetch, then end of pass. */
  lemma PassShort(c: Config, st: State)
    requires ValidState(c, st) && st.initFlag && !st.finished && BoundSet(st.maxReadLines)
    requires 0 < Left(st) < FullSize(c.batchSize)
    ensures Pass(c, st) == ([FetchRange(c.rows, st.pos, Left(st))],
                            st.(pos := st.pos + Left(st) + 1, doneLinesNum := st.doneLinesNum + Left(st), closed := true))
  {
    var step := Draw(c, st);
    assert Step(c, st) == Success(step);
    assert Min(FullSize(c.batchSize), Left(st)) == Left(st);
    assert step.1 == Batch(FetchRange(c.rows, st.pos, Left(st)));
    assert step.0.finished;
    assert Pass(c, step.0) == ([], step.0.(finished := false, closed := true));
    assert Pass(c, st) == ([step.1.records] + Pass(c, step.0).0, Pass(c, step.0).1);
    assert [step.1.records] + [] == [step.1.records];
  }

  /** At least a batch left: a full batch, and the pass goes on. */
  lemma PassFull(c: Config, st: State) returns (next: State)
    requires ValidState(c, st) && st.initFlag && !st.finished && BoundSet(st.maxReadLines)
    requires Left(st) >= FullSize(c.batchSize)
    ensures ValidState(c, next) && next.initFlag && !next.finished && BoundSet(next.maxReadLines)
    ensures next == st.(pos := st.pos + FullSize(c.batchSize), doneLinesNum := st.doneLinesNum + FullSize(c.batchSize))
    ensures Left(next) == Left(st) - FullSize(c.batchSize)
    ensures Pass(c, st).0 == [FetchRange(c.rows, st.pos, FullSize(c.batchSize))] + Pass(c, next).0
    ensures Pass(c, st).1 == Pass(c, next).1
  {
    var step := Draw(c, st);
    assert Step(c, st) == Success(step);
    next := step.0;
  }

  /** After a full batch the window is what followed that batch. */
  lemma WindowAfterFull(c: Config, st: State, n: nat, next: State)
    requires st.initFlag && st.maxReadLines.Some? && n <= Left(st)
    requires next == st.(pos := st.pos + n, doneLinesNum := st.doneLinesNum + n)
    ensures Window(c, st)[..n] == FetchRange(c.rows, st.pos, n)
    ensures Window(c, next) == Window(c, st)[n..]
  {
    FetchRangeSplit(c.rows, st.pos, n, Left(st));
  }

  /** Splitting the rows fetched from `p` after the first `n`. */
  lemma FetchRangeSplit(rows: seq<Value>, p: nat, n: nat, q: nat)
    requires n <= q
    ensures FetchRange(rows, p, q)[..n] == FetchRange(rows, p, n)
    ensures FetchRange(rows, p, q)[n..] == FetchRange(rows, p + n, q - n)
  {
  }

  /**
   * The rest of a bounded pass from an open reader is the reference chunking of the Left rows the
   * next fetches answer.
   */
  lemma {:induction false} PassIsChunks(c: Config, st: State)
    requires ValidState(c, st) && st.initFlag && !st.finished && BoundSet(st.maxReadLines)
    ensures Pass(c, st).0 == Chunks(Window(c, st), FullSize(c.batchSize))
    decreases Left(st)
  {
    var n := FullSize(c.batchSize);
    var q := Left(st);
    if q == 0 {
      PassEmpty(c, st);
    } else if q < n {
      PassShort(c, st);
    } else {
      var next := PassFull(c, st);
      WindowAfterFull(c, st, n, next);
      PassIsChunks(c, next);
      ChunksCons(Window(c, st), n, Pass(c, next).0);
    }
  }

  /**
   * After a bounded pass from an open reader, `done_lines_num` has reached the bound, the cursor
   * has been asked for one row more than the pass delivered, and the connection is closed.
   */
  lemma {:induction false} PassEnd(c: Config, st: State)
    requires ValidState(c, st) && st.initFlag && !st.finished && BoundSet(st.maxReadLines)
    ensures Pass(c, st).1 == st.(pos := st.pos + Left(st) + 1, doneLinesNum := st.doneLinesNum + Left(st), closed := true)
    decreases Left(st)
  {
    var q := Left(st);
    if q == 0 {
      PassEmpty(c, st);
    } else if q < FullSize(c.batchSize) {
      PassShort(c, st);
    } else {
      var next := PassFull(c, st);
      PassEnd(c, next);
    }
  }

  /** The bound the first call resolves: min(max_read_lines, count) when max_read_lines is truthy, else count. */
  function FirstBound(c: Config): int
  {
    ResolveBound(c.maxReadLines, c.count)
  }

  /** The first call opens the reader; a pass from construction is a pass from the open state. */
  lemma OpenAtStart(c: Config) returns (s0: State)
    requires CountTarget(c.sql).Some? && FirstBound(c) != 0
    ensures s0 == Opened(c, Initial(c)) && ValidState(c, s0) && s0.initFlag && !s0.finished
    ensures BoundSet(s0.maxReadLines) && s0.pos == 0 && s0.doneLinesNum == 0 && Left(s0) == Max(FirstBound(c), 0)
    ensures Pass(c, Initial(c)) == Pass(c, s0)
  {
    s0 := Opened(c, Initial(c));
    assert Step(c, Initial(c)) == Step(c, s0);
  }

  /**
   * With a non-zero bound B the first pass delivers the answers of the first max(B, 0) fetches
   * (rows, then None once the rows run out), in batches of batch_size, and leaves the cursor
   * after max(B, 0) + 1 fetches with the connection closed.
   */
  lemma FirstPass(c: Config)
    requires CountTarget(c.sql).Some? && FirstBound(c) != 0
    ensures Flatten(Pass(c, Initial(c)).0) == FetchRange(c.rows, 0, Max(FirstBound(c), 0))
    ensures forall i :: 0 <= i < |Pass(c, Initial(c)).0| ==> 1 <= |Pass(c, Initial(c)).0[i]| <= FullSize(c.batchSize)
    ensures forall i :: 0 <= i < |Pass(c, Initial(c)).0| - 1 ==> |Pass(c, Initial(c)).0[i]| == FullSize(c.batchSize)
    ensures Pass(c, Initial(c)).1.pos == Max(FirstBound(c), 0) + 1 && Pass(c, Initial(c)).1.closed
  {
    var s0 := OpenAtStart(c);
    PassIsChunks(c, s0);
    PassEnd(c, s0);
    FlattenChunks(FetchRange(c.rows, 0, Max(FirstBound(c), 0)), FullSize(c.batchSize));
    ChunkSizes(FetchRange(c.rows, 0, Max(FirstBound(c), 0)), FullSize(c.batchSize));
  }

  /**
   * Once a bounded pass has ended, `done_lines_num` stays at the bound, so every later pass is
   * empty: it fetches one row, closes the connection again and ends.
   */
  lemma Exhausted(c: Config, st: State)
    requires ValidState(c, st) && st.initFlag && !st.finished && BoundSet(st.maxReadLines) && Left(st) == 0
    ensures Pass(c, st).0 == []
    ensures Pass(c, st).1 == st.(pos := st.pos + 1, closed := true) && Left(Pass(c, st).1) == 0
  {
    PassEmpty(c, st);
  }

  lemma SecondPassEmpty(c: Config)
    requires CountTarget(c.sql).Some? && FirstBound(c) != 0
    ensures Pass(c, Pass(c, Initial(c)).1).0 == []
  {
    var s0 := OpenAtStart(c);
    PassEnd(c, s0);
    Exhausted(c, Pass(c, Initial(c)).1);
  }

  /**
   * Without a bound (max_read_lines falsy and a count of 0) a pass never ends: from an open,
   * unfinished reader every call delivers a full batch and leaves the reader open and unfinished.
   */
  lemma Unbounded(c: Config, st: State)
    requires ValidState(c, st) && st.initFlag && !st.finished && !BoundSet(st.maxReadLines)
    ensures Step(c, st).Success? && Step(c, st).value.1.Batch?
    ensures |Step(c, st).value.1.records| == FullSize(c.batchSize)
    ensures var next := Step(c, st).value.0;
            ValidState(c, next) && next.initFlag && !next.finished && !BoundSet(next.maxReadLines)
  {
  }

  /**
   * 100 rows, batch_size 3, a bound resolved to 5 (max_read_lines 5 and a count of 100): batches
   * of 3 and 2 rows, but six fetches.
   */
  lemma FiveOfHundred(c: Config, s0: State)
    requires |c.rows| == 100 && c.batchSize == 3
    requires s0 == State(true, 0, false, [], 0, Some(5), 100, false)
    ensures Pass(c, s0).0 == [c.rows[0..3], c.rows[3..5]]
    ensures Pass(c, s0).1.pos == 6
  {
    assert Left(s0) == 5;
    PassIsChunks(c, s0);
    PassEnd(c, s0);
    assert FetchRange(c.rows, 0, 5) == c.rows[0..5];
    ChunksOfSlice(c.rows, 0, 5, 3);
    ChunksOfSlice(c.rows, 3, 2, 3);
  }

  /** That is the state the first call opens with max_read_lines 5 and a count of 100. */
  lemma OpensWithFive(c: Config)
    requires c.count == 100 && c.maxReadLines == Some(5)
    ensures Opened(c, Initial(c)) == State(true, 0, false, [], 0, Some(5), 100, false)
  {
  }

  /** A word `_get_table_name` can return: not empty and not FROM. */
  predicate Candidate(word: string)
  {
    word != "" && !IsFromKeyword(word)
  }

  /**
   * The word `_get_table_name` returns when its scan over the words of the query resumes at index
   * `i`, `seen` telling whether a FROM word has gone by.
   */
  function AfterFrom(ws: seq<string>, i: nat, seen: bool): (r: Option<string>)
    requires i <= |ws|
    ensures r.Some? ==> Candidate(r.value)
    decreases |ws| - i
  {
    if i == |ws| then None
    else if IsFromKeyword(ws[i]) then AfterFrom(ws, i + 1, true)
    else if seen && ws[i] != "" then Some(ws[i])
    else AfterFrom(ws, i + 1, seen)
  }

  /** The table name the query names, read from its words split on single spaces. */
  function TableWord(sql: string): Option<string>
  {
    AfterFrom(Split(sql, ' '), 0, false)
  }

  /** No candidate word comes after a FROM word at or after index `i`. */
  predicate NoneAfterFrom(ws: seq<string>, i: nat)
  {
    forall a, j :: i <= a < j < |ws| && IsFromKeyword(ws[a]) ==> !Candidate(ws[j])
  }

  /** No candidate word at or after index `i`. */
  predicate NoneFrom(ws: seq<string>, i: nat)
  {
    forall j :: i <= j < |ws| ==> !Candidate(ws[j])
  }

  /** The scan finds nothing exactly when no candidate word follows a FROM word (or index `i`, once one went by). */
  lemma {:induction false} AfterFromNone(ws: seq<string>, i: nat, seen: bool)
    requires i <= |ws|
    ensures AfterFrom(ws, i, seen).None? <==> NoneAfterFrom(ws, i) && (seen ==> NoneFrom(ws, i))
    decreases |ws| - i
  {
    if i < |ws| {
      var from := IsFromKeyword(ws[i]);
      AfterFromNone(ws, i + 1, seen || from);
      if from {
        assert NoneAfterFrom(ws, i) <==> NoneAfterFrom(ws, i + 1) && NoneFrom(ws, i + 1);
      } else {
        assert NoneAfterFrom(ws, i) <==> NoneAfterFrom(ws, i + 1);
        assert NoneFrom(ws, i) <==> !Candidate(ws[i]) && NoneFrom(ws, i + 1);
      }
    }
  }

  /** Once a FROM word has gone by, the scan returns the first candidate word. */
  lemma {:induction false} AfterFromSeen(ws: seq<string>, i: nat) returns (j: nat)
    requires i <= |ws| && AfterFrom(ws, i, true).Some?
    ensures i <= j < |ws| && AfterFrom(ws, i, true) == Some(ws[j])
    ensures forall k :: i <= k < j ==> !Candidate(ws[k])
    decreases |ws| - i
  {
    if IsFromKeyword(ws[i]) || ws[i] == "" {
      j := AfterFromSeen(ws, i + 1);
    } else {
      j := i;
    }
  }

  /** Before any FROM word, the scan skips to the first FROM word and goes on from there. */
  lemma {:induction false} AfterFromUnseen(ws: seq<string>, i: nat) returns (a: nat)
    requires i <= |ws| && AfterFrom(ws, i, false).Some?
    ensures i <= a < |ws| && IsFromKeyword(ws[a])
    ensures forall k :: i <= k < a ==> !IsFromKeyword(ws[k])
    ensures AfterFrom(ws, i, false) == AfterFrom(ws, a + 1, true)
    decreases |ws| - i
  {
    if IsFromKeyword(ws[i]) {
      a := i;
    } else {
      a := AfterFromUnseen(ws, i + 1);
    }
  }

  /** `_get_table_name` returns None exactly when no non-empty, non-FROM word follows a FROM word. */
  lemma TableWordNone(sql: string)
    ensures TableWord(sql).None? <==> NoneAfterFrom(Split(sql, ' '), 0)
  {
    AfterFromNone(Split(sql, ' '), 0, false);
  }

  /**
   * Otherwise it returns the first non-empty word after the first FROM word, skipping any
   * further FROM words in between.
   */
  lemma TableWordFound(sql: string) returns (a: nat, j: nat)
    requires TableWord(sql).Some?
    ensures var ws := Split(sql, ' ');
            a < j < |ws| && IsFromKeyword(ws[a]) && TableWord(sql) == Some(ws[j]) && Candidate(ws[j])
    ensures var ws := Split(sql, ' '); forall k :: 0 <= k < a ==> !IsFromKeyword(ws[k])
    ensures var ws := Split(sql, ' '); forall k :: a < k < j ==> !Candidate(ws[k])
  {
    var ws := Split(sql, ' ');
    a := AfterFromUnseen(ws, 0);
    j := AfterFromSeen(ws, a + 1);
  }

  /** `_get_table_name`: the loop over the words of the query split on single spaces. */
  method TableName(sql: string) returns (name: Option<string>)
    ensures name == TableWord(sql)
  {
    var ws := Split(sql, ' ');
    var flag := false;
    var i := 0;
    while i < |ws|
      invariant 0 <= i <= |ws|
      invariant AfterFrom(ws, i, flag) == TableWord(sql)
    {
      var word := ws[i];
      if UpperAscii(word) == "FROM" {
        flag := true;
        i := i + 1;
        continue;
      }
      if flag && word != "" {
        return Some(word);
      }
      i := i + 1;
    }
    return None;
  }

  class MysqlReader {
    const sql: string
    const rows: seq<Value>
    const count: nat
    const batchSize: int
    const requestedMaxReadLines: Option<int>
    const host: Value
    const port: Value
    const database: Value
    const tableName: Option<string>
    var initFlag: bool
    var pos: nat
    var finished: bool
    var eachList: seq<Value>
    var doneLinesNum: nat
    var maxReadLines: Option<int>
    var docsCount: nat
    var closed: bool

    function Cfg(): Config
    {
      Config(sql, rows, count, batchSize, requestedMaxReadLines)
    }

    function St(): State
      reads this
    {
      State(initFlag, pos, finished, eachList, doneLinesNum, maxReadLines, docsCount, closed)
    }

    predicate Valid()
      reads this
    {
      ValidState(Cfg(), St())
    }

    constructor (sql: string, rows: seq<Value>, count: nat, batchSize: int, maxReadLines: Option<int>,
                 host: Value, port: Value, database: Value)
      ensures Cfg() == Config(sql, rows, count, batchSize, maxReadLines)
      ensures St() == Initial(Cfg())
      ensures this.host == host && this.database == database
      ensures this.port == if Truthy(port) then port else VInt(3306)
      ensures tableName == TableWord(sql)
    {
      this.sql := sql;
      this.rows := rows;
      this.count := count;
      this.batchSize := batchSize;
      this.requestedMaxReadLines := maxReadLines;
      var name := TableName(sql);
      this.tableName := name;
      this.host := host;
      this.port := if Truthy(port) then port else VInt(3306);
      this.database := database;
      this.maxReadLines := maxReadLines;
      initFlag, pos, finished, eachList, doneLinesNum, docsCount, closed := false, 0, false, [], 0, 0, false;
    }

    /**
     * `async_mysql_reader(...)`: host and database must be given (truthy), then a non-empty
     * query; the port defaults to 3306.
     */
    static method Create(querySql: Option<string>, host: Value, port: Value, database: Value, rows: seq<Value>,
                         count: nat, batchSize: int, maxReadLines: Option<int>)
      returns (r: Result<MysqlReader, Error>)
      ensures !Truthy(host) || !Truthy(database) ==> r == Failure(ParamsError("lack of mysql's host or database"))
      ensures Truthy(host) && Truthy(database) && (querySql.None? || querySql.value == "") ==>
                r == Failure(ParamsError("lack of query_sql"))
      ensures r.Success? <==> Truthy(host) && Truthy(database) && querySql.Some? && querySql.value != ""
      ensures r.Success? ==> fresh(r.value) && r.value.Valid() && r.value.St() == Initial(r.value.Cfg())
      ensures r.Success? ==> r.value.Cfg() == Config(querySql.value, rows, count, batchSize, maxReadLines)
      ensures r.Success? ==> r.value.port == if Truthy(port) then port else VInt(3306)
    {
      if !Truthy(host) || !Truthy(database) {
        return Failure(ParamsError("lack of mysql's host or database"));
      }
      if querySql.None? || querySql.value == "" {
        return Failure(ParamsError("lack of query_sql"));
      }
      var reader := new MysqlReader(querySql.value, rows, count, batchSize, maxReadLines, host, port, database);
      return Success(reader);
    }

    /** `_init_connection` once `_get_query_lines_count` has found its target. */
    method InitConnection()
      modifies this
      ensures St() == Opened(Cfg(), old(St())).(initFlag := old(initFlag))
    {
      pos := 0;
      closed := false;
      docsCount := count;
      maxReadLines := Some(if BoundSet(maxReadLines) then Min(maxReadLines.value, docsCount) else docsCount);
    }

    /** `_reinit_vals_and_close`: `done_lines_num` is left as it is. */
    method ReinitValsAndClose()
      modifies this
      ensures St() == old(St()).(finished := false, eachList := [], closed := true)
    {
      finished := false;
      eachList := [];
      closed := true;
    }

    /** `_ret_each`: hand over the accumulator and start a fresh one. */
    method RetEach() returns (each: seq<Value>)
      modifies this
      ensures each == old(eachList) && St() == old(St()).(eachList := [])
    {
      each := eachList;
      eachList := [];
    }

    /** `__anext__`; a raised exception is the Failure case. */
    method Next() returns (r: Result<Pull, Error>)
      requires Valid()
      modifies this
      ensures Valid()
      ensures Step(Cfg(), old(St())).Failure? ==> r == Failure(AttributeError) && St() == old(St())
      ensures Step(Cfg(), old(St())).Success? ==> r == Success(Step(Cfg(), old(St())).value.1) &&
                                                  St() == Step(Cfg(), old(St())).value.0
    {
      if !initFlag {
        var target := CountTarget(sql);
        if target.None? {
          return Failure(AttributeError);
        }
        InitConnection();
        initFlag := true;
      }
      if finished {
        ReinitValsAndClose();
        return Success(EndOfPass);
      }
      assert Step(Cfg(), old(St())) == Success(Draw(Cfg(), St()));
      var p := DrawBatch();
      return Success(p);
    }

    /** The fetching loop of `__anext__`: fetch until a batch is full or the bound is reached. */
    method DrawBatch() returns (p: Pull)
      requires Valid() && initFlag && !finished
      modifies this
      ensures Valid()
      ensures (St(), p) == Draw(Cfg(), old(St()))
    {
      ghost var s := St();
      ghost var p0 := pos;
      ghost var d0 := doneLinesNum;
      while true
        invariant !finished && initFlag && maxReadLines == s.maxReadLines && docsCount == s.docsCount && closed == s.closed
        invariant pos - p0 == doneLinesNum - d0 == |eachList| < FullSize(batchSize)
        invariant pos >= p0 && doneLinesNum >= d0
        invariant eachList == FetchRange(rows, p0, |eachList|)
        invariant BoundSet(maxReadLines) ==> |eachList| <= Left(s)
        decreases FullSize(batchSize) - |eachList|
      {
        var line := FetchAt(rows, pos);
        pos := pos + 1;
        if BoundSet(maxReadLines) && doneLinesNum >= maxReadLines.value {
          finished := true;
          break;
        }
        doneLinesNum := doneLinesNum + 1;
        eachList := eachList + [line];
        if |eachList| >= batchSize {
          assert |eachList| == FullSize(batchSize);
          assert BoundSet(maxReadLines) ==> Min(FullSize(batchSize), Left(s)) == FullSize(batchSize);
          assert St().(eachList := []) == s.(pos := p0 + FullSize(batchSize), doneLinesNum := d0 + FullSize(batchSize));
          var each := RetEach();
          assert each == FetchRange(rows, p0, FullSize(batchSize));
          return Batch(each);
        }
      }
      assert |eachList| == Left(s);
      if eachList != [] {
        assert St().(eachList := []) == s.(pos := p0 + |eachList| + 1, doneLinesNum := doneLinesNum, finished := true);
        var each := RetEach();
        return Batch(each);
      }
      ReinitValsAndClose();
      return EndOfPass;
    }
  }
}
