# GSpread-Plus, modelled in Dafny

GSpread-Plus wraps the gspread client for Google Sheets so that one worksheet
can be used as a small table store. The central object is `Spreadclient`:

- It connects to a document, trying three resolvers in turn: by key, by name, then by URL.
- It then connects to one worksheet of that document.
- It keeps a cached copy of the worksheet's grid (`listed`) and, in the current package, its transpose (`verlisted`).
- It answers row, column and header queries from that cache.
- It collects cell writes in a buffer (`commits`). `refresh_sheet` sends the buffer in one batch and then fetches the grid again.

Every public method except `convert_notation` first runs a guard,
`requirements_exists`, which raises as soon as the client, the document or
the sheet it needs is missing.

The project models two copies of the class:

- `GSpreadPlus.Spreadclient` (client.dfy) is the current package.
- `LegacyGSpreadPlus.Spreadclient` (legacy.dfy) is the older top-level package. It differs in several ways:
  - its guard raises a bare `Exception`;
  - it skips resolvers that raise;
  - it accepts only lists as positional values;
  - its `update_vertical_data` looks up `data[primary_key]` as the header and places edits at swapped, 0-based coordinates;
  - it deletes one row or column at a time.

The pure parts are datatypes, functions and lemmas:

- sheets.dfy: values, errors and the remote-service classes.
- pyseq.dfy: Python list semantics.
- connection.dfy: the guard and the resolver order.
- notation.dfy: A1 column letters.
- queries.dfy: the cache queries.
- edits.dfy: the edits the commit and update methods queue.

The client itself is a class whose fields are the Python attributes. Its methods `modify` them, and its loops carry invariants that tie the buffer to those functions.

How Python's errors appear in the model:

- A raised exception becomes an `Err`/`Fail` value naming the Python exception class.
- A `TypeError` from an argument of the wrong type is selected by the `Other...` constructor of that argument's datatype. The same holds for the `AssertionError` of update_vertical_data's `isinstance(data, dict)` check (`OtherData`).

Calls into gspread are modelled as follows:

- Resolving a document or a worksheet: the answer (found, None, or raised) is a parameter.
- Fetching the grid, writing cells and deleting rows or columns go through the `Worksheet` class. It records every request in `log`. What a fetch returns after a write or a deletion is left unconstrained; a fetch changes nothing, so with no request in between two fetches return the same grid.

## Model

| member | source | states |
|---|---|---|
| Sheets.Flush | src/GSpreadPlus/gspreadplus.py:104-106 | refresh_sheet sends the buffer as exactly one write when it is non-empty and sends nothing otherwise |
| Sheets.Worksheet.GetAllValues | src/GSpreadPlus/gspreadplus.py:107 | a fetch returns the worksheet's current grid |
| Sheets.Worksheet.UpdateCells | src/GSpreadPlus/gspreadplus.py:105 | the batch write is recorded as one request carrying the whole buffer |
| Sheets.Worksheet.DeleteRows | src/GSpreadPlus/gspreadplus.py:338-340 | the deletion is recorded with exactly the arguments the client passed |
| Sheets.Worksheet.DeleteColumns | src/GSpreadPlus/gspreadplus.py:349-351 | the deletion is recorded with exactly the arguments the client passed |
| PySeq.At | src/GSpreadPlus/gspreadplus.py:124-126 | `s[i]` succeeds exactly for -len(s) <= i < len(s), counting from the end for negative i; otherwise IndexError |
| PySeq.SliceFrom | src/GSpreadPlus/gspreadplus.py:211-213 | `headers[offset:]` is a suffix of the line, of length len - offset for an offset in range, empty past the end, and the last -offset items for a negative offset |
| PySeq.IndexOf | src/GSpreadPlus/gspreadplus.py:316 | `list.index` returns a position holding the value with no earlier occurrence |
| PySeq.IndexOfIsFirst | src/GSpreadPlus/gspreadplus.py:316 | a position with no earlier equal item is exactly what `list.index` returns |
| PySeq.Filter | src/GSpreadPlus/gspreadplus.py:134-138 | the filtering loop returns only elements that satisfy the predicate, drawn from the input (a sub-multiset) |
| PySeq.FilterKeeps | src/GSpreadPlus/gspreadplus.py:134-138 | no element that satisfies the predicate is dropped |
| PySeq.FilterAppend | src/GSpreadPlus/gspreadplus.py:134-138 | filtering distributes over concatenation, so the kept rows stay in grid order |
| PySeq.FilterAll | src/GSpreadPlus/gspreadplus.py:134-138 | the whole grid comes back exactly when every row satisfies the predicate |
| PySeq.MinWidth | src/GSpreadPlus/gspreadplus.py:108 | the length at which `zip(*listed)` stops: the shortest row's length |
| PySeq.Transpose | src/GSpreadPlus/gspreadplus.py:108 | verlisted has one line per column up to the shortest row, and its cell (c, r) is listed's cell (r, c) |
| PySeq.TransposeTwice | src/GSpreadPlus/gspreadplus.py:108 | transposing a rectangular, non-empty-width grid twice gives it back |
| Connection.Required | src/GSpreadPlus/gspreadplus.py:26-27 | '*' as the first argument demands client, document and sheet; otherwise exactly the named parts |
| Connection.FirstMissing | src/GSpreadPlus/gspreadplus.py:21-36 | the guard passes iff every required part is present; otherwise it names a missing required part, the first in client, document, sheet order |
| Connection.StarMeansAllParts | src/GSpreadPlus/gspreadplus.py:26-27 | '*' followed by anything behaves like listing the three parts |
| Connection.StarOnlyFirst | src/GSpreadPlus/gspreadplus.py:26 | a '*' that is not the first argument demands nothing |
| Connection.GuardPresets | src/GSpreadPlus/gspreadplus.py:21-36 | the three argument lists the class uses ('*', client+document, client) let a call through exactly when those parts are set |
| Connection.FirstAnswer | src/GSpreadPlus/gspreadplus.py:63-71 | connect_document stops at the first resolver whose answer is not None; every earlier one answered None |
| Connection.FirstAnswerIs | src/GSpreadPlus/gspreadplus.py:64-67 | that stopping point is unique: the first index not answering None |
| Connection.FirstFound | GSpreadPlus/gspreadplus.py:47-57 | the legacy loop stops at the first resolver that found a document, skipping those that raised or answered None |
| Connection.FirstFoundIs | GSpreadPlus/gspreadplus.py:47-57 | that stopping point is unique: the first index whose resolver found a document |
| Connection.FirstAnswerAgreesWithoutRaises | GSpreadPlus/gspreadplus.py:47-57 | when no resolver raises, both versions pick the same resolver |
| Notation.LetterValue | src/GSpreadPlus/gspreadplus.py:119 | after `upper()` a letter is worth 1 to 26 |
| Notation.ColumnNumber | src/GSpreadPlus/gspreadplus.py:119 | the column number of non-empty A1 letters is at least 1 |
| Notation.ColumnLetters | src/GSpreadPlus/gspreadplus.py:119 | every column number >= 1 has an alphabetic A1 name |
| Notation.ColumnLettersRoundTrip | src/GSpreadPlus/gspreadplus.py:119 | letters and numbers name the same column: ColumnNumber(ColumnLetters(n)) == n |
| Notation.TopCellRowCol | src/GSpreadPlus/gspreadplus.py:119 | `a1_to_rowcol(letters + "1")` is (1, column number) |
| Notation.LabelIndexAsWrittenIsFirstColumn | src/GSpreadPlus/gspreadplus.py:118-119 | as written, every column label selects column 0 |
| Notation.LabelIndexAsWrittenMissesB | src/GSpreadPlus/gspreadplus.py:118-119 | "B" gives 0 as written where 1 is meant |
| Notation.LabelIndex | src/GSpreadPlus/gspreadplus.py:118-119 | the intended index: the column number minus one |
| Notation.LabelIndexRoundTrip | src/GSpreadPlus/gspreadplus.py:118-119 | the letters of 0-based column i resolve back to i |
| Queries.FindRow | src/GSpreadPlus/gspreadplus.py:124-127 | the scan returns the first row whose cell matches, all earlier rows having a different cell; "not found" iff every row has the cell and none matches; IndexError at the first row without the cell |
| Queries.FindRowExactly | src/GSpreadPlus/gspreadplus.py:124-127 | the first matching row, preceded only by non-matching rows, is the scan's answer |
| Queries.MatchedRowIndex | src/GSpreadPlus/gspreadplus.py:316 | `listed.index(active_row)` finds the matched row's own position again |
| Queries.RowMatching | src/GSpreadPlus/gspreadplus.py:124-127 | the first matching row (the one FindRow stops at), which holds the value in that column; None exactly when no row matches; IndexError exactly when FindRow meets a short row first |
| Queries.AbsentValueIsNotFound | src/GSpreadPlus/gspreadplus.py:124-127 | a value absent from a column every row has gives None, never an error |
| Queries.ResolveColumn | src/GSpreadPlus/gspreadplus.py:118-123 | an int is used as is, alphabetic letters by their column, and anything else is rejected |
| Queries.RowByColumn | src/GSpreadPlus/gspreadplus.py:118-127 | an unusable column identifier raises; otherwise the first matching row of the resolved column |
| Queries.ColumnAt | src/GSpreadPlus/gspreadplus.py:151 | `[_row[j] for _row in listed]` succeeds iff every row has cell j, and then holds cell j of each row in order |
| Queries.ColumnAtTransposed | src/GSpreadPlus/gspreadplus.py:108 | on a rectangular grid column j is row j of the transposed cache `verlisted` |
| Queries.ColumnByRow | src/GSpreadPlus/gspreadplus.py:148-152 | IndexError for a missing row; None iff the row lacks the value; else the column under the value's first position, one cell per row |
| Queries.ColumnByRowIsTransposedColumn | src/GSpreadPlus/gspreadplus.py:150-151 | on a rectangular grid that column is the matching line of verlisted |
| Queries.HeaderLine | src/GSpreadPlus/gspreadplus.py:354-362 | the header line is row depth-1 (vertical) or cell depth-1 of every row (horizontal); None with no cache or another orientation; IndexError when out of range |
| Queries.HorizontalHeadersAreTransposedRow | src/GSpreadPlus/gspreadplus.py:361-362 | on a rectangular grid the horizontal header line is a line of the transpose, and the vertical header line of the transposed grid |
| Queries.HeaderIndex | src/GSpreadPlus/gspreadplus.py:177-184 | a found header's first position; IdentificationError for a missing header, IndexError when the line is empty (the message reads headers[0]), TypeError with no line |
| Queries.HeaderIndexRoundTrip | src/GSpreadPlus/gspreadplus.py:177-178 | a header with no earlier copy at position i resolves to i |
| Queries.HeaderIndexInjective | src/GSpreadPlus/gspreadplus.py:177-178 | different headers resolve to different positions |
| Queries.HeaderPosition | src/GSpreadPlus/gspreadplus.py:173-184 | the property's own error propagates; otherwise HeaderIndex of the line |
| Queries.DimeByHeader | src/GSpreadPlus/gspreadplus.py:155-170 | vertical: the first row whose cell under the header holds the value; horizontal: the unbound `row` raises NameError; header errors propagate |
| Edits.Positional | src/GSpreadPlus/gspreadplus.py:206-208 | a list queues exactly one edit per item |
| Edits.PositionalNth | src/GSpreadPlus/gspreadplus.py:206-208 | item k of a list goes to position offset + k + 1 of the line, so the edits come in item order |
| Edits.Keyed | src/GSpreadPlus/gspreadplus.py:209-218 | the dict branch queues at most one edit per entry |
| Edits.KeyedPlacesKnownKeys | src/GSpreadPlus/gspreadplus.py:212-216 | every dict edit lies on the line, at a position of the header slice whose header is a key of the dict, and carries that key's value |
| Edits.Known | src/GSpreadPlus/gspreadplus.py:212-213 | the entries the dict branch keeps all have a key among the headers |
| Edits.KeyedStep | src/GSpreadPlus/gspreadplus.py:212-216 | one more entry adds at most its own edit, at the end |
| Edits.KnownStep | src/GSpreadPlus/gspreadplus.py:212-213 | one more entry is kept exactly when its key is a header |
| Edits.KeyedLength | src/GSpreadPlus/gspreadplus.py:212-216 | one edit per known entry |
| Edits.KeyedNth | src/GSpreadPlus/gspreadplus.py:212-216 | edit i writes known entry i at its header's position in the slice plus one |
| Edits.KeyedIsKnownInOrder | src/GSpreadPlus/gspreadplus.py:212-216 | the dict branch queues exactly the entries whose key is a header, in dict order, each under the first header with its name |
| Edits.StackedPrefix | src/GSpreadPlus/gspreadplus.py:245-250 | the edits of the first i items of a batch are a prefix of the batch's edits |
| Edits.StackedStep | src/GSpreadPlus/gspreadplus.py:245-250 | one more item appends its edits on the next row |
| Edits.RowsStep | src/GSpreadPlus/gspreadplus.py:244-250 | list row i of a batch appends its positional edits on sheet row base + i + 1, after those of rows 0 .. i-1 |
| Edits.RecordsStep | src/GSpreadPlus/gspreadplus.py:254-261 | dict i of a batch appends its keyed edits on sheet row base + i + 1, after those of dicts 0 .. i-1 |
| Edits.StackedItem | src/GSpreadPlus/gspreadplus.py:245-250 | item i's edits sit contiguously right after those of items 0..i-1 |
| Edits.HeaderSlice | src/GSpreadPlus/gspreadplus.py:210-211 | the dict branch's header slice is non-empty on success; the property's error propagates, a missing line gives TypeError, an empty slice fails the assertion |
| Edits.CommitPlan | src/GSpreadPlus/gspreadplus.py:206-218 | a list (and, in src, a tuple) gives positional edits, a dict gives keyed edits or the slice error, anything else gives nothing |
| Edits.KeyedLandsUnderItsHeader | src/GSpreadPlus/gspreadplus.py:212-216 | with offset 0 every keyed edit is on the new row, under the header equal to its key, with that key's value |
| Edits.KeyedIgnoresOffset | src/GSpreadPlus/gspreadplus.py:213-215 | with a positive offset, positions are still counted from the slice's start: headers [id, name, age] with offset 1 put "name" in column 1 (a worked instance of KeyedNth) |
| Edits.BatchPlan | src/GSpreadPlus/gspreadplus.py:241-264 | an empty batch raises IndexError; lists stack positional rows, dicts stack keyed rows or raise the slice error |
| Edits.BatchRowPlacement | src/GSpreadPlus/gspreadplus.py:245-250 | cell k of batch row i is written at (base + i + 1, offset + k + 1) |
| Edits.Repeated | src/GSpreadPlus/gspreadplus.py:267-268 | the return of commit_new_multiple_rows holds only buffer entries that occur more than once and are new |
| Edits.RepeatedKeeps | src/GSpreadPlus/gspreadplus.py:267-268 | every new entry that occurs more than once is reported |
| Edits.Fresh | src/GSpreadPlus/gspreadplus.py:305 | a cell is returned iff it was appended and not already buffered |
| Edits.FreshIsSetDifference | src/GSpreadPlus/gspreadplus.py:305 | `set(commits) - old_commits` after appending is exactly Fresh |
| Edits.ValueOf | src/GSpreadPlus/gspreadplus.py:312 | `data[key]` is a value stored under that key |
| Edits.OnlyValueOfKey | src/GSpreadPlus/gspreadplus.py:312 | in a dict, the value found under a key is the only one stored with it |
| Edits.UpdateStep | src/GSpreadPlus/gspreadplus.py:317-321 | a non-header key does nothing; a header past the end of the row raises IndexError; a differing cell gives one edit under the header's first position |
| Edits.UpdatePlan | src/GSpreadPlus/gspreadplus.py:317-321 | the update loop can only stop on IndexError |
| Edits.UpdatePlanEdits | src/GSpreadPlus/gspreadplus.py:317-321 | every queued edit is in the matched row, under a header equal to a key of data, writes that key's value and differs from the current cell |
| Edits.UpdatePlanExtend | src/GSpreadPlus/gspreadplus.py:317-321 | while running, one more entry adds exactly its own step |
| Edits.UpdatePlanStops | src/GSpreadPlus/gspreadplus.py:317-321 | after an error later entries change nothing |
| Edits.UpdatePlanQueuesEveryChange | src/GSpreadPlus/gspreadplus.py:317-321 | when the loop completes, every header key whose cell differs is queued |
| Edits.VerticalUpdate | src/GSpreadPlus/gspreadplus.py:308-321 | KeyError for a missing primary key; the header lookup's error propagates; success implies a header line exists |
| Edits.VerticalUpdateFindsRow | src/GSpreadPlus/gspreadplus.py:311-321 | once the header resolves: IdentificationError when no row holds `data[primary_key]`, the row search's IndexError, otherwise the update loop on the first matching row k with row index k |
| Edits.UpdateSkipsPrimaryKeyColumn | src/GSpreadPlus/gspreadplus.py:311-321 | every edit is in the matched row and none is in the primary key's column |
| GSpreadPlus.Spreadclient.Check | src/GSpreadPlus/gspreadplus.py:21-36 | the guard passes iff the required parts are set; otherwise SetupError naming the first missing one |
| GSpreadPlus.Spreadclient.Headers | src/GSpreadPlus/gspreadplus.py:354-362 | the property is the guard's error, or the header line of the cache |
| GSpreadPlus.Spreadclient.constructor | src/GSpreadPlus/gspreadplus.py:40-57 | a client with nothing connected, no cache and an empty buffer |
| GSpreadPlus.Spreadclient.ConnectDocument | src/GSpreadPlus/gspreadplus.py:60-78 | guard error with no change; a raising resolver ends the call, leaving `document` None unless it was the first; no answer: IdentificationError and `document` None; a found document resets sheet, cache, buffer, orientation and depth |
| GSpreadPlus.Spreadclient.Open | src/GSpreadPlus/gspreadplus.py:72-77 | after a document is found, listed, verlisted, sheet, commits, orientation and header depth are all cleared and only the client is kept |
| GSpreadPlus.Spreadclient.Sync | src/GSpreadPlus/gspreadplus.py:104-108 | the old buffer goes out as one write, the cache and its transpose are the fresh grid, the buffer is empty; from an empty buffer nothing is written and the worksheet's grid is unchanged |
| GSpreadPlus.Spreadclient.ConnectSheet | src/GSpreadPlus/gspreadplus.py:80-99 | orientation and depth are stored even when no sheet is found (IdentificationError, sheet None); a found sheet is refreshed, flushing the buffer into it; any other identifier type keeps the current sheet; a previously connected sheet that is replaced is left untouched |
| GSpreadPlus.Spreadclient.RefreshSheet | src/GSpreadPlus/gspreadplus.py:101-108 | guard error with no change, or a flush and re-fetch |
| GSpreadPlus.Spreadclient.RefreshTwice | src/GSpreadPlus/gspreadplus.py:101-108 | refreshing twice from an empty buffer gives the same cache both times, the grid the worksheet already had |
| GSpreadPlus.Spreadclient.GetRowByColumn | src/GSpreadPlus/gspreadplus.py:110-127 | after an optional refresh, RowByColumn on the cache, with TypeError for a bad column; nothing else changes |
| GSpreadPlus.Spreadclient.GetRowsByFunc | src/GSpreadPlus/gspreadplus.py:129-138 | after an optional refresh, the cached rows satisfying the predicate |
| GSpreadPlus.Spreadclient.GetColumnByRow | src/GSpreadPlus/gspreadplus.py:140-152 | TypeError for a non-int row, else ColumnByRow on the cache |
| GSpreadPlus.Spreadclient.GetHeaderIndex | src/GSpreadPlus/gspreadplus.py:172-184 | HeaderPosition of the header property after an optional refresh |
| GSpreadPlus.Spreadclient.GetDimeByHeader | src/GSpreadPlus/gspreadplus.py:154-170 | DimeByHeader on the cache and the stored orientation |
| GSpreadPlus.Spreadclient.AppendPositional | src/GSpreadPlus/gspreadplus.py:207-208 | the buffer grows by exactly the positional edits, nothing else changes |
| GSpreadPlus.Spreadclient.AppendKeyed | src/GSpreadPlus/gspreadplus.py:212-216 | the buffer grows by exactly the keyed edits, nothing else changes |
| GSpreadPlus.Spreadclient.AppendValues | src/GSpreadPlus/gspreadplus.py:206-218 | the buffer grows by CommitPlan's edits, or the slice error is returned with nothing appended |
| GSpreadPlus.Spreadclient.AppendFresh | src/GSpreadPlus/gspreadplus.py:289-305 | as AppendValues, returning the appended cells that were not already buffered |
| GSpreadPlus.Spreadclient.CommitNewRow | src/GSpreadPlus/gspreadplus.py:186-221 | edits go to the row after the cache; NameError whenever the buffer is non-empty at the end, else the empty list |
| GSpreadPlus.Spreadclient.CommitRowConnected | src/GSpreadPlus/gspreadplus.py:202-221 | on a connected client: the refresh, then the edits of the plan on the row after the cache, keeping client, document and sheet; NameError when the buffer ends non-empty |
| GSpreadPlus.Spreadclient.AppendRows | src/GSpreadPlus/gspreadplus.py:244-250 | the buffer grows by the stacked positional edits of the batch |
| GSpreadPlus.Spreadclient.AppendRecords | src/GSpreadPlus/gspreadplus.py:251-264 | the buffer grows by the stacked keyed edits of the batch |
| GSpreadPlus.Spreadclient.CommitNewMultipleRows | src/GSpreadPlus/gspreadplus.py:223-268 | BatchPlan against the fetched grid; with refresh the new edits are sent at once and nothing is returned, without it the repeated new entries are returned; the grid the rows are placed against is the cache, or with refresh from an empty buffer the worksheet's grid |
| GSpreadPlus.Spreadclient.CommitNewColumn | src/GSpreadPlus/gspreadplus.py:270-305 | IndexError on an empty cache; else edits in the column after the first row, returning the fresh cells |
| GSpreadPlus.Spreadclient.CommitColumnConnected | src/GSpreadPlus/gspreadplus.py:286-305 | on a connected client: IndexError on an empty cache, else the edits of the plan in the next column and the cells that were not buffered before |
| GSpreadPlus.Spreadclient.UpdateVerticalData | src/GSpreadPlus/gspreadplus.py:307-321 | AssertionError with no change for non-dict data; without refresh: VerticalUpdate's error, or its edits appended and its stop error returned; client, document and sheet are kept |
| GSpreadPlus.Spreadclient.QueueChanges | src/GSpreadPlus/gspreadplus.py:317-321 | without refresh the loop appends exactly UpdatePlan's edits and returns its stop |
| GSpreadPlus.Spreadclient.QueueOne | src/GSpreadPlus/gspreadplus.py:318-321 | without refresh one iteration appends exactly UpdateStep's edits |
| GSpreadPlus.Spreadclient.DeleteRows | src/GSpreadPlus/gspreadplus.py:332-341 | an int is sent 1-based, a list as is, anything else sends nothing; then only `listed` is refetched |
| GSpreadPlus.Spreadclient.DeleteColumns | src/GSpreadPlus/gspreadplus.py:343-352 | as DeleteRows for columns |
| LegacyGSpreadPlus.AfterFailedResolvers | GSpreadPlus/gspreadplus.py:47-57 | after a failed search `document` is None once any resolver answered None, otherwise unchanged |
| LegacyGSpreadPlus.Spreadclient.Check | GSpreadPlus/gspreadplus.py:14-28 | the guard passes iff the required parts are set; otherwise a bare Exception naming the first missing one |
| LegacyGSpreadPlus.Spreadclient.Headers | GSpreadPlus/gspreadplus.py:243-250 | the property is the guard's error or the cached header line |
| LegacyGSpreadPlus.Spreadclient.constructor | GSpreadPlus/gspreadplus.py:31-43 | a client with nothing connected and an empty buffer |
| LegacyGSpreadPlus.Spreadclient.ConnectDocument | GSpreadPlus/gspreadplus.py:45-61 | the first found document wins and resets sheet, cache and buffer; with none, a bare Exception and `document` as AfterFailedResolvers says |
| LegacyGSpreadPlus.Spreadclient.Open | GSpreadPlus/gspreadplus.py:59-61 | after a document is found, listed, sheet and commits are cleared; orientation and header depth are kept |
| LegacyGSpreadPlus.Spreadclient.Sync | GSpreadPlus/gspreadplus.py:82-86 | flush as one write, then the cache is the fresh grid; from an empty buffer the worksheet's grid is unchanged |
| LegacyGSpreadPlus.Spreadclient.ConnectSheet | GSpreadPlus/gspreadplus.py:63-79 | as in src, including that a replaced sheet is left untouched |
| LegacyGSpreadPlus.Spreadclient.RefreshSheet | GSpreadPlus/gspreadplus.py:81-86 | guard error, or flush and re-fetch |
| LegacyGSpreadPlus.Spreadclient.RefreshTwice | GSpreadPlus/gspreadplus.py:81-86 | refreshing twice from an empty buffer gives the same cache both times |
| LegacyGSpreadPlus.Spreadclient.GetRowByColumn | GSpreadPlus/gspreadplus.py:88-102 | RowByColumn with a bare Exception for a bad column |
| LegacyGSpreadPlus.Spreadclient.GetRowsByFunc | GSpreadPlus/gspreadplus.py:104-110 | the cached rows satisfying the predicate; `refresh` is ignored and nothing changes |
| LegacyGSpreadPlus.Spreadclient.GetColumnByRow | GSpreadPlus/gspreadplus.py:112-121 | a bare Exception for a non-int row, else ColumnByRow |
| LegacyGSpreadPlus.Spreadclient.GetHeaderIndex | GSpreadPlus/gspreadplus.py:138-146 | HeaderPosition of the header property |
| LegacyGSpreadPlus.Spreadclient.GetDimeByHeader | GSpreadPlus/gspreadplus.py:123-136 | DimeByHeader on the cache |
| LegacyGSpreadPlus.Spreadclient.AppendPositional | GSpreadPlus/gspreadplus.py:167-168 | the buffer grows by exactly the positional edits |
| LegacyGSpreadPlus.Spreadclient.AppendKeyed | GSpreadPlus/gspreadplus.py:172-176 | the buffer grows by exactly the keyed edits |
| LegacyGSpreadPlus.Spreadclient.AppendValues | GSpreadPlus/gspreadplus.py:166-176 | CommitPlan with tuples counting as nothing |
| LegacyGSpreadPlus.Spreadclient.AppendFresh | GSpreadPlus/gspreadplus.py:196-208 | as AppendValues, returning the fresh cells |
| LegacyGSpreadPlus.Spreadclient.CommitNewRow | GSpreadPlus/gspreadplus.py:148-177 | edits on the row after the cache; returns the cells not buffered before |
| LegacyGSpreadPlus.Spreadclient.CommitNewColumn | GSpreadPlus/gspreadplus.py:179-208 | IndexError on an empty cache; else edits in the next column, returning the fresh cells |
| LegacyGSpreadPlus.Spreadclient.CommitColumnConnected | GSpreadPlus/gspreadplus.py:193-208 | on a connected client: IndexError on an empty cache, else the edits of the plan in the next column and the cells that were not buffered before |
| LegacyGSpreadPlus.Spreadclient.UpdateVerticalData | GSpreadPlus/gspreadplus.py:210-219 | as src, with the header looked up by the primary key's value and swapped, 0-based edits |
| LegacyGSpreadPlus.Spreadclient.QueueChanges | GSpreadPlus/gspreadplus.py:217-219 | without refresh the loop appends exactly UpdatePlan's swapped edits |
| LegacyGSpreadPlus.Spreadclient.QueueOne | GSpreadPlus/gspreadplus.py:218-219 | one iteration appends UpdateStep's swapped edit |
| LegacyGSpreadPlus.Spreadclient.DeleteRowExistence | GSpreadPlus/gspreadplus.py:229-234 | the row is sent 1-based, then `listed` is refetched |
| LegacyGSpreadPlus.Spreadclient.DeleteColExistence | GSpreadPlus/gspreadplus.py:236-241 | the column is sent 1-based, then `listed` is refetched |

## Left out

- Credentials and authorisation in `__init__`. The constructor starts from an authorised client. The legacy constructor's unbound `creds` for a credential of another type is not modelled.
- The network and gspread itself. Resolver and worksheet answers are parameters, and the `Worksheet` class records requests without applying them.
- `convert_notation` (src 323-330, legacy 221-227). It only forwards to gspread's notation helpers, and the legacy copy calls `isinstance` with one argument.
- The predicate passed to get_rows_by_func is a total, pure function. A predicate that raises or has side effects is not modelled.
- Cell values are strings. `isalpha` and `upper` are restricted to ASCII letters.
- Dict order is the order of a `Record` (a sequence of key/value entries). Dicts with duplicate keys are excluded only where a lemma needs it (`DistinctKeys`).
- GSpreadPlus.Spreadclient.UpdateVerticalData: with `refresh` true, every header lookup refreshes the cache, so later lookups depend on fresh fetches. For that case the contract states only that client, document and sheet are kept.
- LegacyGSpreadPlus.Spreadclient.UpdateVerticalData: the same weakening with `refresh` true.
- GSpreadPlus.Spreadclient.QueueChanges and GSpreadPlus.Spreadclient.QueueOne: no contract for `refresh` true or for a missing header line, for the same reason.
- LegacyGSpreadPlus.Spreadclient.QueueChanges and LegacyGSpreadPlus.Spreadclient.QueueOne: the same.
- commit_new_multiple_rows: a batch whose first item is neither a list, a tuple nor a dict does nothing. A batch mixing lists and dicts is modelled as all lists or all dicts.
- delete_rows / delete_columns with a list: the list is recorded as the request's arguments. How gspread reads more than two of them is not modelled.
- The legacy commit methods build `gspread.models.Cell`, a name that newer gspread versions removed. The model treats it as the same cell type.
- Queries.DimeByHeader: an orientation other than vertical or horizontal returns None, as the source falls off the end.

## Findings

| source | as written | input that shows it | evidently intended | confidence | as-written member | corrected member |
|---|---|---|---|---|---|---|
| src/GSpreadPlus/gspreadplus.py:118-119 (also GSpreadPlus/gspreadplus.py:93-94) | a letter column resolves to component [0] of `a1_to_rowcol(letters + "1")`, the row number 1, minus one | column "B" resolves to index 0, the first column | component [1], the column number, minus one: "B" gives 1 | not executed | Notation.LabelIndexAsWritten (lemmas Notation.LabelIndexAsWrittenIsFirstColumn, Notation.LabelIndexAsWrittenMissesB) | Notation.LabelIndex (lemma Notation.LabelIndexRoundTrip), used by Queries.ResolveColumn |
