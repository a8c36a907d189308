# spparser readers and writers, modelled in Dafny

spparser moves records between files, MySQL tables and MongoDB collections. This model covers:

- the four batched async readers of `spparser/AsyncReader.py`: `async_csv_reader`, `async_anyfile_reader`, `async_mongo_reader` and `async_mysql_reader`;
- the two async writers of `spparser/AsyncWriter.py`: `async_csv_writer` and `async_anyfile_writer`;
- the windowed bulk readers `Reader.read_csv` and `Reader.read_anyfile`;
- the bulk writer checks and header choice of `Writer.write_csv`, `write_json` and `write_anyfile`;
- `retObjects.retDict`.

A reader is a class whose fields are the Python object's fields. Its `Next` method is `__anext__`, with the source's loop. It returns `Batch(records)` or `EndOfPass`, which stands for StopAsyncIteration.

Each `Next` is proved equal to a closed-form `Step` function on a `Config`/`State` pair. `Pass` runs `Step` until end of pass. Every pass is then proved equal to `Batching.Chunks`, an independent reference batching of the window of records the pass should deliver. From that the model derives which records a pass delivers (none dropped, none duplicated, in order), how large its batches are, and what a second pass does.

Inputs that come from outside appear as values:

- a file is its decoded text, or its sequence of parsed csv rows;
- a cursor is the sequence of documents or rows it yields;
- the database counts are given numbers;
- Python values (records, field names, query filters) are `PyValues.Value`.

An exception the source raises is the `Failure` case of a `Result` or `Outcome`.

Where the code does something other than what a general description of the library suggests, the model follows the code:

- The mongo reader keeps its cursor between passes, so a second pass continues after the first pass's documents instead of starting over. It also skips one document whenever a bound ends a pass.
- The mysql reader fetches one row past its bound. It closes the connection at the end of a pass but never resets `done_lines_num` or its init flag, so every later pass is empty.
- The csv reader builds its `csv.DictReader` or `csv.reader` once. In dict mode the header line is consumed on the first pass only: after the file is sought back to its start, the reader keeps its field names and reads the header line back as a record mapping each field name to itself, ahead of the data. Only list mode, or a file without a header, repeats the first pass.
- A record that `writerow` cannot take raises in the middle of a write loop. The rows before it stay written and, in the async writer, counted.
- The mysql reader's table name is the first non-empty word after the first word equal to FROM, ignoring case. Later FROM words are skipped.

## Model

| member | source | states |
|---|---|---|
| AsyncCsvReader.Step | spparser/AsyncReader.py:38-60 | one `__anext__` keeps the reader in its call-to-call invariant; a finished pass answers end-of-pass and goes back to the rewound start state; a batch is the next 1..batch_size rows of what the reader yields on this pass, after those delivered and within the bound; a short batch finishes the pass |
| AsyncCsvReader.StepFull | spparser/AsyncReader.py:45-52 | with at least a batch of the quota left, the call returns exactly the next batch_size rows and stays unfinished |
| AsyncCsvReader.StepLast | spparser/AsyncReader.py:45-56 | with less than a batch left, the call returns the rest of the quota and finishes the pass, with the file offset one past it when the bound stopped the loop |
| AsyncCsvReader.StepEnd | spparser/AsyncReader.py:38-44 | once the pass is finished the next call answers end-of-pass and leaves the rewound start state |
| AsyncCsvReader.Pass | spparser/AsyncReader.py:38-67 | calling until end-of-pass always leaves the reader at the start of a rewound file, with nothing delivered |
| AsyncCsvReader.PassIsChunks | spparser/AsyncReader.py:45-56 | the batches of the rest of a pass are the reference chunking of the rows of that pass not yet delivered, up to the quota |
| AsyncCsvReader.PassShort | spparser/AsyncReader.py:54-56 | less than a batch left: one short batch of the rest, then the pass ends |
| AsyncCsvReader.PassFull | spparser/AsyncReader.py:49-52 | at least a batch left: a full batch, and the pass goes on from a valid unfinished state |
| AsyncCsvReader.WholePass | spparser/AsyncReader.py:38-67 | a pass from the start of the file, rewound or not, delivers the first min(N, max_read_lines) rows the reader yields, or all of them when the bound is None or 0, in batches of 1..batch_size of which only the last is shorter |
| AsyncCsvReader.FirstPass | spparser/AsyncReader.py:45-56 | a full pass delivers the first min(N, max_read_lines) rows, or all N when the bound is None or 0, each once and in order; every batch has 1..batch_size rows and all but the last exactly batch_size |
| AsyncCsvReader.Replay | spparser/AsyncReader.py:62-67 | in list mode, or for a file without a header, the pass after a pass yields the same batches again |
| AsyncCsvReader.DictSecondPass | spparser/AsyncReader.py:30-31 | in dict mode with a header, the second pass delivers the header record followed by the data records, cut at the bound; a non-empty second pass starts with the header record; every later pass repeats the second |
| AsyncCsvReader.HeaderRecordGet | spparser/AsyncReader.py:31 | the header line read back as data maps each field name to itself and no other key |
| AsyncCsvReader.Rows | spparser/AsyncReader.py:31-33 | the rows a pass reads: one more than the records of a fresh start exactly in dict mode with a header once the file has been rewound, otherwise as many |
| AsyncCsvReader.TwentyFiveRows | spparser/AsyncReader.py:45-56 | 25 rows with batch_size 10 and no bound give batches of 10, 10 and 5 |
| AsyncCsvReader.CsvReader.constructor | spparser/AsyncReader.py:16-33 | a new reader holds its line type, header, rows, batch_size and bound, at offset 0 of a file not yet rewound, with nothing delivered |
| AsyncCsvReader.CsvReader.Create | spparser/AsyncReader.py:16-19 | construction fails with ArgValueError exactly when each_line_type is neither "dict" nor "list" |
| AsyncCsvReader.CsvReader.RetEach | spparser/AsyncReader.py:69-75 | hands over exactly the accumulated rows and leaves an empty accumulator, nothing else changed |
| AsyncCsvReader.CsvReader.ReinitVals | spparser/AsyncReader.py:62-67 | seeks back to the start: not finished, count 0, offset 0, empty accumulator, and the file marked as rewound |
| AsyncCsvReader.CsvReader.Next | spparser/AsyncReader.py:38-60 | `__anext__` keeps the invariant and its new state and answer are those of Step |
| AsyncCsvReader.CsvReader.DrawBatch | spparser/AsyncReader.py:45-60 | the pull loop on an unfinished pass gives Step's state and answer |
| AsyncAnyfileReader.Records | spparser/AsyncReader.py:107-111 | one record per line of the file |
| AsyncAnyfileReader.Step | spparser/AsyncReader.py:95-126 | one `__anext__`: a finished pass, or a batch_size below one, answers end-of-pass and resets; a batch is the records of the next 1..batch_size lines within the bound; a short batch finishes the pass |
| AsyncAnyfileReader.StepFull | spparser/AsyncReader.py:102-118 | with at least a batch left, the call returns the records of the next batch_size lines |
| AsyncAnyfileReader.StepLast | spparser/AsyncReader.py:102-122 | with less than a batch left, the call returns the rest and finishes the pass |
| AsyncAnyfileReader.Pass | spparser/AsyncReader.py:95-133 | calling until end-of-pass always returns the reader to its initial state |
| AsyncAnyfileReader.PassIsChunks | spparser/AsyncReader.py:102-122 | the rest of a pass is the reference chunking of the records of the lines not yet delivered |
| AsyncAnyfileReader.PassShort | spparser/AsyncReader.py:120-122 | less than a batch left: one short batch, then the pass ends |
| AsyncAnyfileReader.PassFull | spparser/AsyncReader.py:116-118 | at least a batch left: a full batch, and the pass goes on |
| AsyncAnyfileReader.FirstPass | spparser/AsyncReader.py:95-126 | a full pass delivers the records of the first min(N, max_read_lines) lines, or of all N when the bound is falsy, once each and in order, in batches of which only the last may be shorter |
| AsyncAnyfileReader.LineAt | spparser/AsyncReader.py:107-114 | a line read before the end of the file is never empty, so only the end of the file ends the pass as an empty read |
| AsyncAnyfileReader.RecordOfLine | spparser/AsyncReader.py:108-111 | each record is `line.strip()` with trim_each_line and the raw line otherwise |
| AsyncAnyfileReader.NoBatchSize | spparser/AsyncReader.py:102-126 | with batch_size below one a pass delivers nothing |
| AsyncAnyfileReader.Replay | spparser/AsyncReader.py:128-133 | the pass after a pass yields the same batches again |
| AsyncAnyfileReader.EmptyReadIsEnd | spparser/AsyncReader.py:107-114 | an empty readline within the quota happens only at the end of the file, which is then the quota |
| AsyncAnyfileReader.RecordsSnoc | spparser/AsyncReader.py:107-111 | reading line j extends the delivered records by that line's record |
| AsyncAnyfileReader.AnyfileReader.constructor | spparser/AsyncReader.py:78-90 | a new reader holds its text, batch_size, bound and trim flag, at offset 0 with nothing delivered |
| AsyncAnyfileReader.AnyfileReader.RetEach | spparser/AsyncReader.py:135-140 | hands over exactly the accumulated records and leaves an empty accumulator |
| AsyncAnyfileReader.AnyfileReader.ReinitVals | spparser/AsyncReader.py:128-133 | restores the initial state and seeks back to line 0 |
| AsyncAnyfileReader.AnyfileReader.Next | spparser/AsyncReader.py:95-126 | `__anext__` keeps the invariant and gives Step's state and answer |
| AsyncAnyfileReader.AnyfileReader.DrawBatch | spparser/AsyncReader.py:102-126 | the `range(0, batch_size)` loop on an unfinished pass gives Step's state and answer |
| AsyncMongoReader.Draw | spparser/AsyncReader.py:193-209 | the cursor loop: end-of-pass exactly when no quota is left; otherwise min(batch_size, quota) documents from the cursor position; a short batch finishes the pass and leaves the cursor one document further on unless the documents ran out |
| AsyncMongoReader.Step | spparser/AsyncReader.py:182-209 | one `__anext__` opens the cursor on the first call; end-of-pass resets the counters; a batch is 1..batch_size consecutive documents of the cursor; a short batch finishes the pass |
| AsyncMongoReader.Pass | spparser/AsyncReader.py:182-216 | a pass ends with the cursor open, the pass unfinished, done_lines_num back at 0 and the bound kept |
| AsyncMongoReader.PassEmpty | spparser/AsyncReader.py:193-209 | with no quota left the call draws one more document, resets the counters and ends the pass |
| AsyncMongoReader.PassShort | spparser/AsyncReader.py:193-204 | less than a batch of quota: one short batch, then end of pass with the cursor one further on |
| AsyncMongoReader.PassFull | spparser/AsyncReader.py:193-200 | at least a batch of quota: a full batch of next documents, and the pass goes on from the advanced cursor |
| AsyncMongoReader.PassIsChunks | spparser/AsyncReader.py:193-209 | the rest of a pass from an open cursor is the reference chunking of the next Quota documents |
| AsyncMongoReader.FullStepChunks | spparser/AsyncReader.py:197-200 | a full batch prepends itself to the chunking of the rest of the window |
| AsyncMongoReader.PassEnd | spparser/AsyncReader.py:193-216 | after a pass the cursor stands one document past those delivered, unless the documents ran out |
| AsyncMongoReader.OpenAtStart | spparser/AsyncReader.py:162-174 | the first call opens the cursor at the first document with quota FirstQuota, and a pass from construction is a pass from there |
| AsyncMongoReader.FirstPass | spparser/AsyncReader.py:171-209 | the first pass delivers the first min(N, min(max_read_lines, count)) documents, or all when the bound is 0, once each, in order, in batches of which only the last may be shorter |
| AsyncMongoReader.FirstPassCursor | spparser/AsyncReader.py:193-196 | after the first pass the cursor stands one past the delivered documents |
| AsyncMongoReader.SecondPass | spparser/AsyncReader.py:211-216 | the second pass does not start over: it delivers documents that follow the first pass's |
| AsyncMongoReader.SecondPassEmpty | spparser/AsyncReader.py:211-216 | once the first pass took every document, the second pass delivers none |
| AsyncMongoReader.MongoReader.constructor | spparser/AsyncReader.py:144-160 | a new reader holds its inputs, with no cursor yet and nothing delivered |
| AsyncMongoReader.MongoReader.Create | spparser/AsyncReader.py:144-147 | construction fails with ParamsError exactly when host, port or database is falsy |
| AsyncMongoReader.MongoReader.InitClient | spparser/AsyncReader.py:162-174 | a fresh cursor at the first document, the count by filter or estimate, and the bound resolved against it |
| AsyncMongoReader.MongoReader.ReinitVals | spparser/AsyncReader.py:211-216 | resets finished, the accumulator and done_lines_num and leaves the cursor where it is |
| AsyncMongoReader.MongoReader.RetEach | spparser/AsyncReader.py:218-224 | hands over exactly the accumulated documents and leaves an empty accumulator |
| AsyncMongoReader.MongoReader.Next | spparser/AsyncReader.py:182-209 | `__anext__` keeps the invariant and gives Step's state and answer |
| AsyncMongoReader.MongoReader.Fill | spparser/AsyncReader.py:193-200 | the cursor loop of `__anext__`, split out of DrawBatch: it collects consecutive documents from the cursor position, a full batch when the quota allows one, otherwise the whole quota with the pass finished and the cursor one past it |
| AsyncMongoReader.MongoReader.DrawBatch | spparser/AsyncReader.py:193-209 | the drawing part of `__anext__`, Fill followed by handing over the batch, gives Draw's state and answer |
| AsyncMysqlReader.FindFrom | spparser/AsyncReader.py:269 | the lazy `(.*?)FROM` stops at a position within the text |
| AsyncMysqlReader.FindFromFound | spparser/AsyncReader.py:269 | a FROM it finds is on the same line and no FROM comes before it |
| AsyncMysqlReader.FindFromNone | spparser/AsyncReader.py:269 | it fails only when no FROM follows before the end of the line |
| AsyncMysqlReader.FindSelect | spparser/AsyncReader.py:269 | the search matches at the leftmost SELECT that a FROM follows on its line, and fails only when there is none |
| AsyncMysqlReader.CountTarget | spparser/AsyncReader.py:269 | the text the COUNT query counts; its properties are CountTargetNone and CountTargetFound |
| AsyncMysqlReader.CountTargetNone | spparser/AsyncReader.py:269 | the count target is found exactly when the search matches somewhere |
| AsyncMysqlReader.CountTargetFound | spparser/AsyncReader.py:269 | a found target is the stripped text between the leftmost matching SELECT and the first FROM after it |
| AsyncMysqlReader.NoSelectNoTarget | spparser/AsyncReader.py:269 | a query without SELECT has no count target |
| AsyncMysqlReader.FetchRange | spparser/AsyncReader.py:289 | m fetchone calls answer the next m rows, None once the rows run out |
| AsyncMysqlReader.Draw | spparser/AsyncReader.py:288-305 | the fetch loop: without a bound every call is a full batch; with one, end-of-pass exactly when nothing is left, a batch of min(batch_size, left) fetched rows, one extra fetch when the bound is reached, and the connection closed at end of pass |
| AsyncMysqlReader.Step | spparser/AsyncReader.py:277-305 | one `__anext__` fails with AttributeError exactly when the count target is missing on the first call; a batch holds 1..batch_size consecutive fetches; end-of-pass closes the connection |
| AsyncMysqlReader.Pass | spparser/AsyncReader.py:277-311 | a bounded pass ends open, unfinished and with the connection closed |
| AsyncMysqlReader.PassEmpty | spparser/AsyncReader.py:288-305 | nothing left under the bound: one more fetch, the connection closed, the pass ends |
| AsyncMysqlReader.PassShort | spparser/AsyncReader.py:288-300 | less than a batch left: the short batch, one extra fetch, then end of pass |
| AsyncMysqlReader.PassFull | spparser/AsyncReader.py:288-296 | at least a batch left: a full batch of fetches, and the pass goes on |
| AsyncMysqlReader.PassIsChunks | spparser/AsyncReader.py:288-305 | the rest of a bounded pass is the reference chunking of the rows the next Left fetches answer |
| AsyncMysqlReader.PassEnd | spparser/AsyncReader.py:288-311 | after a bounded pass done_lines_num has reached the bound, the cursor was asked for one row more than delivered, and the connection is closed |
| AsyncMysqlReader.OpenAtStart | spparser/AsyncReader.py:251-257 | the first call opens with the bound min(max_read_lines, count), or count, and a pass from construction is a pass from there |
| AsyncMysqlReader.FirstPass | spparser/AsyncReader.py:256-305 | with a non-zero bound B the first pass delivers the first max(B, 0) fetches in batches of which only the last is shorter, leaves the cursor after B + 1 fetches and closes the connection |
| AsyncMysqlReader.Exhausted | spparser/AsyncReader.py:307-311 | once a bounded pass ended, every later pass is empty |
| AsyncMysqlReader.SecondPassEmpty | spparser/AsyncReader.py:307-311 | the second pass after the first delivers nothing |
| AsyncMysqlReader.Unbounded | spparser/AsyncReader.py:288-296 | without a bound every call delivers a full batch and the pass never ends |
| AsyncMysqlReader.FiveOfHundred | spparser/AsyncReader.py:288-300 | 100 rows, batch_size 3 and bound 5 give batches of 3 and 2 rows after six fetches |
| AsyncMysqlReader.OpensWithFive | spparser/AsyncReader.py:256 | max_read_lines 5 against a count of 100 resolves to the bound 5 |
| AsyncMysqlReader.AfterFrom | spparser/AsyncReader.py:259-266 | the scan only returns a non-empty word that is not FROM |
| AsyncMysqlReader.AfterFromNone | spparser/AsyncReader.py:259-266 | the scan finds nothing exactly when no candidate word follows a FROM word |
| AsyncMysqlReader.AfterFromSeen | spparser/AsyncReader.py:263-266 | once a FROM word has gone by, the scan returns the first candidate word |
| AsyncMysqlReader.AfterFromUnseen | spparser/AsyncReader.py:261-264 | before any FROM word the scan skips to the first one and goes on from there |
| AsyncMysqlReader.TableWord | spparser/AsyncReader.py:259-266 | the table name read from the query's words; its properties are TableWordNone and TableWordFound |
| AsyncMysqlReader.TableWordNone | spparser/AsyncReader.py:259-266 | `_get_table_name` gives None exactly when no non-empty, non-FROM word follows a FROM word |
| AsyncMysqlReader.TableWordFound | spparser/AsyncReader.py:259-266 | otherwise it gives the first non-empty word after the first FROM word, skipping later FROM words |
| AsyncMysqlReader.TableName | spparser/AsyncReader.py:259-266 | the word loop with its flag computes TableWord |
| AsyncMysqlReader.MysqlReader.constructor | spparser/AsyncReader.py:227-249 | a new reader holds its inputs, the port defaulting to 3306 and the table name taken from the query, not yet connected |
| AsyncMysqlReader.MysqlReader.Create | spparser/AsyncReader.py:227-249 | ParamsError when host or database is falsy, then when the query is missing or empty; success exactly otherwise |
| AsyncMysqlReader.MysqlReader.InitConnection | spparser/AsyncReader.py:251-257 | the cursor at the first row, the count, and the bound resolved against it |
| AsyncMysqlReader.MysqlReader.ReinitValsAndClose | spparser/AsyncReader.py:307-311 | clears finished and the accumulator and closes the connection, leaving done_lines_num and the init flag as they were |
| AsyncMysqlReader.MysqlReader.RetEach | spparser/AsyncReader.py:313-318 | hands over exactly the accumulated rows and leaves an empty accumulator |
| AsyncMysqlReader.MysqlReader.Next | spparser/AsyncReader.py:277-305 | `__anext__` keeps the invariant; it fails with AttributeError and changes nothing when Step fails, and otherwise gives Step's state and answer |
| AsyncMysqlReader.MysqlReader.DrawBatch | spparser/AsyncReader.py:288-305 | the `while True` fetch loop gives Draw's state and answer |
| AsyncWriter.OpenCsv | spparser/AsyncWriter.py:13-32 | an unknown line type fails with ArgValueError; headers in list mode fail with TypeError; otherwise the file is empty, nothing is counted, and the headers count as known exactly when given |
| AsyncWriter.HeadersFixed | spparser/AsyncWriter.py:41-48 | list mode takes a plain writer and writes no header; dict mode writes the first record's keys as the header row, or fails as `data[0].keys()` does |
| AsyncWriter.Emitted | spparser/AsyncWriter.py:57-61 | the rows of one call are data rows of truthy records of the call, and every truthy record gets one |
| AsyncWriter.EmittedAppend | spparser/AsyncWriter.py:57-61 | records written in two runs give the rows of one run over both |
| AsyncWriter.EmittedSnoc | spparser/AsyncWriter.py:57-61 | one more record adds its row exactly when it is truthy |
| AsyncWriter.EmittedAllTruthy | spparser/AsyncWriter.py:57-61 | a list of truthy records is written in full, in order |
| AsyncWriter.FirstRefused | spparser/AsyncWriter.py:57-60 | the index of the first truthy record the writer cannot take, at most the number of records |
| AsyncWriter.FirstRefusedSpec | spparser/AsyncWriter.py:57-60 | every earlier record is falsy or writable, and the record at that index, when there is one, is truthy and refused |
| AsyncWriter.FirstRefusedAt | spparser/AsyncWriter.py:57-60 | a record no later than the first refused one is refused exactly when it is the first refused one |
| AsyncWriter.FirstRefusedAppend | spparser/AsyncWriter.py:57-60 | when the first list holds no refused record, the first refusal in a concatenation is in the second list, shifted by the first list's length |
| AsyncWriter.FirstRefusedAllTruthy | spparser/AsyncWriter.py:57-60 | for truthy records the first refusal is the first record `writerow` raises for |
| AsyncWriter.WriteCsv | spparser/AsyncWriter.py:50-61 | a non-list fails with ArgValueError, and a failing `_get_headers` fails, before anything is written or changed; a header row is written at most once, on the first write in dict mode; the loop writes and counts the truthy records before the first one `writerow` refuses, and fails with that record's error exactly when there is one; the writer discipline is kept |
| AsyncWriter.WrittenStopsAt | spparser/AsyncWriter.py:57-61 | the loop stops at the first refused record with its error, keeping the rows of the records before it |
| AsyncWriter.AppendedSnoc | spparser/AsyncWriter.py:57-61 | one more record extends the written rows by its row when it is truthy and counts it |
| AsyncWriter.WrittenAll | spparser/AsyncWriter.py:57-61 | with no refused record the loop writes the rows of all truthy records and passes |
| AsyncWriter.WrittenTwice | spparser/AsyncWriter.py:57-61 | two loops, the first of them passing, leave the same state and outcome as one loop over both lists |
| AsyncWriter.AppendedTwice | spparser/AsyncWriter.py:57-61 | appending two lists of records is appending their concatenation |
| AsyncWriter.WriteCsvTwice | spparser/AsyncWriter.py:50-61 | two writes, the first of which raises nothing, leave the same file, counters and outcome as one write of both lists |
| AsyncWriter.DeclaredHeadersNeverWritten | spparser/AsyncWriter.py:25-30 | with headers given in dict mode no header row is ever written; a write appends the rows of the truthy records before the first refused one |
| AsyncWriter.EmptyFirstWriteFails | spparser/AsyncWriter.py:45 | a fresh dict writer fails with IndexError on an empty first write and is left unchanged |
| AsyncWriter.PartialWriteKeepsRows | spparser/AsyncWriter.py:57-61 | `write([[1], [2], 5])` on a fresh list writer leaves two rows written and counted and fails with csv.Error |
| AsyncWriter.CsvWriter.constructor | spparser/AsyncWriter.py:13-32 | a new writer holds its line type, headers and the opened state |
| AsyncWriter.CsvWriter.Create | spparser/AsyncWriter.py:13-32 | construction fails exactly as OpenCsv does and otherwise starts in OpenCsv's state |
| AsyncWriter.CsvWriter.GetHeaders | spparser/AsyncWriter.py:41-48 | `_get_headers` fails and changes nothing exactly when HeadersFixed fails, and otherwise takes its state |
| AsyncWriter.CsvWriter.Write | spparser/AsyncWriter.py:50-63 | `write` keeps the writer discipline and gives WriteCsv's state and outcome |
| AsyncWriter.CsvWriter.WriteRows | spparser/AsyncWriter.py:57-61 | the loop gives the state and outcome of the loop specification: the rows of the truthy records up to the first refused one, counted, then that record's error |
| AsyncWriter.Strs | spparser/AsyncWriter.py:87 | one text per record, falsy ones included |
| AsyncWriter.Rendered | spparser/AsyncWriter.py:86-88 | the text written for some lines; its properties are RenderedSnoc, RenderedAppend and RenderedLines |
| AsyncWriter.WriteAny | spparser/AsyncWriter.py:83-88 | a non-list fails with ArgValueError; otherwise total_count grows by `len(data)` |
| AsyncWriter.RenderedSnoc | spparser/AsyncWriter.py:86-88 | one more line adds its text and a newline at the end |
| AsyncWriter.RenderedAppend | spparser/AsyncWriter.py:86-88 | the text of two runs of lines is the text of their concatenation |
| AsyncWriter.WriteAnyTwice | spparser/AsyncWriter.py:83-88 | two writes give the text and the count of one write of both lists; an empty list changes nothing |
| AsyncWriter.RenderedLines | spparser/AsyncWriter.py:87 | written newline-free lines read back one per line, each with its newline |
| AsyncWriter.WrittenStringsReadBack | spparser/AsyncWriter.py:83-88 | a list of newline-free strings written to a new file reads back as those strings, one per line |
| AsyncWriter.AnyfileWriter.constructor | spparser/AsyncWriter.py:67-74 | the file opened with mode "w" starts empty, with nothing counted |
| AsyncWriter.AnyfileWriter.Write | spparser/AsyncWriter.py:83-90 | `write` fails and changes nothing exactly when WriteAny fails, and otherwise takes its state |
| Reader.Eligible | spparser/Reader.py:15-17 | the kept records are at most the rows, in order |
| Reader.EligibleAppend | spparser/Reader.py:15-17 | selecting from two runs of rows is selecting from their concatenation |
| Reader.EligibleKeeps | spparser/Reader.py:16-17 | every row at or after start_line is kept |
| Reader.EligibleNone | spparser/Reader.py:16-17 | rows before start_line are never kept |
| Reader.EligibleAll | spparser/Reader.py:18-20 | when every row is at or after start_line, all records are kept, in order |
| Reader.CsvSelection | spparser/Reader.py:13-39 | the records `read_csv` keeps; its properties are CsvBoundIsPrefix and, through Eligible, EligibleKeeps, EligibleNone and EligibleAll |
| Reader.CsvBoundIsPrefix | spparser/Reader.py:21-25 | a bound k keeps the first min(all, max(k, 0)) records of the unbounded answer, so 0 keeps none; a bound covering every row changes nothing |
| Reader.ReadCsv | spparser/Reader.py:7-40 | an unknown each_line_type fails with ArgValueError; otherwise the result is the selection |
| Reader.CollectCsv | spparser/Reader.py:13-39 | the loop with its skip, count and break computes the selection |
| Reader.CsvStop | spparser/Reader.py:21-25 | stopping at the row that passes the bound keeps exactly the first bound eligible records |
| Reader.SkipCount | spparser/Reader.py:62-67 | the lines the bounded loop skips; bounded by AnyfileLines' contract |
| Reader.ReadCount | spparser/Reader.py:62-76 | the reading turns the bounded loop has; bounded by AnyfileLines' contract |
| Reader.AnyfileLines | spparser/Reader.py:62-76 | a bounded read returns as many lines as its reading turns allow, or what is left after the skipped lines |
| Reader.BoundedCoversAll | spparser/Reader.py:54-79 | a bounded read from line 1 that covers every line returns the whole text, like the unbounded read |
| Reader.ConsecutiveReads | spparser/Reader.py:62-76 | a read of k lines followed by one of k2 from where it stopped returns the lines of one read of k + k2 |
| Reader.AnyfileResult | spparser/Reader.py:50-79 | what `read_anyfile` returns; its properties are BoundedCoversAll, ConsecutiveReads and AnyfileRoundTrip |
| Reader.ReadAnyfile | spparser/Reader.py:50-79 | `read_anyfile` computes AnyfileResult: the whole text or its newline-stripped lines when unbounded, otherwise the bounded lines joined or as a list |
| Reader.ReadBounded | spparser/Reader.py:62-76 | the bounded loop returns the lines after the first start_line - 1, as many as its reading turns allow |
| Writer.CsvFile | spparser/Writer.py:8-28 | a non-list fails, then an unknown line type, both with ArgValueError, before the file is opened; in list mode truthy headers `writerow` refuses give no rows and csv.Error, otherwise the header row when headers are truthy; in dict mode the field names come from headers or the first record's keys (IndexError or AttributeError otherwise, with no rows), unusable field names fail `writeheader` with TypeError, and one header row is written; the records follow in order up to the first one `writerow` refuses, whose error is the outcome; a header row can only come first |
| Writer.Records | spparser/Writer.py:19-20 | the record loop writes the rows of the records before the first one `writerow` refuses, passes exactly when it refuses none, and otherwise fails with that record's error |
| Writer.WriteCsv | spparser/Writer.py:8-28 | `write_csv` with its header steps and record loop computes CsvFile |
| Writer.WriteRecords | spparser/Writer.py:19-20 | the record loop computes Records |
| Writer.BulkListMatchesAsync | spparser/Writer.py:14-20 | for truthy records in list mode without headers the bulk writer leaves the rows and outcome a fresh async writer would |
| Writer.BulkDictMatchesAsync | spparser/Writer.py:22-28 | the same in dict mode without headers, when the first record's keys are usable field names: the header row, then the records |
| Writer.JsonAccepted | spparser/Writer.py:31-33 | `write_json` accepts exactly dicts and lists, and refuses the rest with ArgValueError |
| Writer.AnyfileText | spparser/Writer.py:41-45 | `write_anyfile` accepts exactly a str and refuses the rest with ArgValueError |
| Writer.AnyfileRoundTrip | spparser/Writer.py:41-45 | a text written with `write_anyfile` reads back unchanged with `read_anyfile`, unbounded or with a bound covering every line |
| RetObjects.FieldDictGet | spparser/utils/retObjects.py:10-12 | the dict built from a list maps exactly the slots the names mention, each to the given value |
| RetObjects.FieldDictKeys | spparser/utils/retObjects.py:10-12 | with pairwise different names, the keys are exactly the names in the given order |
| RetObjects.RepeatedField | spparser/utils/retObjects.py:10-12 | repeating a name leaves the dict as it was |
| RetObjects.StrIsSingleField | spparser/utils/retObjects.py:8-12 | a single name gives the same dict as a list holding only that name |
| RetObjects.FieldDict | spparser/utils/retObjects.py:10-12 | the dict the name loop builds; its properties are FieldDictGet, FieldDictKeys and RepeatedField |
| RetObjects.RetDictOutcome | spparser/utils/retObjects.py:4-15 | `retDict` fails with FieldNameTypeError for a truthy name that is neither str nor list, and with TypeError for a list holding an unhashable name; otherwise the dict maps "result" (for falsy names), the name, or every listed name to the value, and nothing else |
| RetObjects.RetDictResult | spparser/utils/retObjects.py:4-15 | what `retDict` returns; its properties are RetDictOutcome and StrIsSingleField |
| RetObjects.RetDict | spparser/utils/retObjects.py:4-15 | the method with its loop computes RetDictResult |
| PyValues.Keys | spparser/AsyncWriter.py:45 | one key per entry, in insertion order |
| PyValues.DictSet | spparser/utils/retObjects.py:12 | `d[k] = v` keeps the length or appends the new entry |
| PyValues.DictSetHit | spparser/utils/retObjects.py:12 | after `d[k] = v` every key naming the slot of k finds v |
| PyValues.DictSetMiss | spparser/utils/retObjects.py:12 | `d[k] = v` leaves every other slot as it was |
| PyValues.DictSetNew | spparser/utils/retObjects.py:12 | a new key is appended at the end |
| PyValues.DictSetSame | spparser/utils/retObjects.py:12 | setting a slot to the value it holds changes nothing |
| PyValues.Str | spparser/AsyncWriter.py:87 | `str` of a str is itself and of an int its decimal digits |
| PyValues.Truthy | spparser/AsyncWriter.py:58 | Python truthiness, by type: False, 0, the empty str, list and dict, and None are falsy |
| PyValues.Repr | spparser/AsyncWriter.py:87 | `repr` of None, bools, ints, strs, lists and dicts, which `str` uses for lists and dicts |
| CsvRows.FirstKeys | spparser/AsyncWriter.py:45 | `list(data[0].keys())`: IndexError on an empty list, AttributeError for a non-dict first record, otherwise its keys in order |
| CsvRows.FieldNames | spparser/Writer.py:25 | the field names `DictWriter` iterates: a list of hashable items, the characters of a str, the keys of a dict, None for anything else |
| CsvRows.RowError | spparser/AsyncWriter.py:60 | whether `writerow` raises for one record; its cases are stated by RowErrorCases |
| CsvRows.RowErrorCases | spparser/AsyncWriter.py:60 | a plain writer takes exactly strs, lists and dicts and refuses the rest with csv.Error; a dict writer refuses a non-dict with AttributeError, unusable field names with TypeError, and a dict with a key outside its field names with ValueError, and takes every other dict |
| CsvRows.FirstUnwritable | spparser/Writer.py:19-20 | the index of the first record `writerow` raises for, at most the number of records |
| CsvRows.FirstUnwritableSpec | spparser/Writer.py:19-20 | every earlier record is writable, and the record at that index, when there is one, is refused |
| Batching.ResolveBound | spparser/AsyncReader.py:171 | the bound is min(max_read_lines, count) when max_read_lines is truthy, else count |
| Batching.Limit | spparser/AsyncReader.py:46 | the records a file reader delivers under its bound; the reader lemmas FirstPass and WholePass state it |
| Batching.FlattenChunks | spparser/AsyncReader.py:45-56 | the reference batching drops, duplicates and reorders nothing |
| Batching.ChunkSizes | spparser/AsyncReader.py:49-52 | every reference batch holds 1..n records and all but the last exactly n |
| Text.Split | spparser/AsyncReader.py:261 | `split(" ")` gives at least one piece |
| Text.JoinSplit | spparser/AsyncReader.py:261 | joining the pieces with the separator gives the text back |
| Text.SplitPiecesHaveNoSeparator | spparser/AsyncReader.py:261 | no piece holds the separator |
| Text.LineEnd | spparser/AsyncReader.py:107 | readline takes up to and including the first newline |
| Text.Lines | spparser/AsyncReader.py:107 | the lines successive readline calls return; its properties are LinesConcat, LinesShape and LinesOfLine |
| Text.LinesConcat | spparser/AsyncReader.py:107 | reading every line gives the whole text back |
| Text.LinesShape | spparser/AsyncReader.py:107 | every line is non-empty, holds a newline only at its end, and all but the last end with one |
| Text.LinesOfLine | spparser/AsyncReader.py:107 | a text starting with a newline-free line and its newline reads that line first |
| Text.StripChars | spparser/AsyncReader.py:109 | `strip` leaves the middle of the text with only stripped characters removed from both ends, and no strippable character at either end |
| Text.Strip | spparser/AsyncReader.py:109 | `str.strip()`: StripChars with the whitespace characters |
| Text.UpperAscii | spparser/AsyncReader.py:262 | `upper` maps every character and keeps the length |

## Left out

- Logging: the logging set-up and every log line. The model reads every reader as if debug were False. With debug True, the default, the mongo and mysql `_ret_each` compute `done_lines_num/max_read_lines` for a non-empty batch and raise ZeroDivisionError when the resolved bound is 0. That exception is not modelled.
- AsyncMongoReader.FirstPass: the case of a resolved bound of 0 (a count of 0 while the cursor still yields documents) describes debug False; with debug True the first batch raises ZeroDivisionError.
- AsyncMysqlReader.Unbounded: describes debug False. A COUNT of 0 resolves the bound to 0, which makes the pass unbounded; with debug True its first batch raises ZeroDivisionError.
- Connections and drivers: the motor and aiomysql calls are foreign I/O. A cursor is the sequence it yields, and the counts are given numbers. The connection string, the credentials and `get_db` are not modelled.
- The csv module: quoting and formatting. A row is the value the reader gives or the writer is handed. The reader side is given as the records the reader yields from a fresh start and the field names of the header line, so blank lines and short or long rows are already resolved. `writerow` errors are decided by the record's type and, for a dict writer, by its keys; errors from writing to the file itself are not modelled.
- JSON: `read_json` and both `json.dump` calls. Only the type check of `write_json` is modelled.
- Files: newline translation, file modes other than "w" and "r", encodings and encoding errors are not modelled. A file is its decoded text.
- PyValues.Str: characters above U+00A0 other than U+00AD are written as they are, while Python's `repr` escapes the non-printable ones among them with `\x`, `\u` or `\U`. Floats are not among the values, so neither their `str` nor float dict keys are modelled.
- Text.UpperAscii: `str.upper` is modelled on ASCII letters only.
- async/await: `__anext__` is a synchronous method, and there is no concurrency.
- AsyncMysqlReader.Pass covers only bounded passes, because an unbounded mysql pass never ends; `Unbounded` states what each of its calls does.
- Calls after a mysql pass has closed the connection are modelled as the source's field updates. The driver errors a real closed connection would raise are not.
- Text extraction (spparser/Extractor.py and its regex, xpath and css wrappers), the scripts temp.py, test.py, test_md.py and Reader_test.py, and spparser/__init__.py are outside the core.
