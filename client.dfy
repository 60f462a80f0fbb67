/**
 * The `Spreadclient` of the current package: a connection to one worksheet of
 * one remote document, a cached copy of its grid (`listed`, and `verlisted`,
 * its transpose), and a buffer of pending cell writes (`commits`) that
 * `refresh_sheet` sends in one batch before fetching the grid again.
 *
 * Every public method first runs the connection guard; a method whose guard
 * fails raises SetupError and changes nothing. Calls into the remote service
 * go through the Worksheet and Spreadsheet classes; the answers of the three
 * document resolvers and of the worksheet lookup are parameters.
 */
module GSpreadPlus {
  import opened Sheets
  import opened PySeq
  import opened Connection
  import opened Queries
  import opened Edits

  /** Every field of the client at one moment, so that a contract can say which ones a call changed. */
  datatype State = State(
    client: bool, document: Spreadsheet?, sheet: Worksheet?,
    listed: Option<Grid>, verlisted: Option<Grid>, commits: seq<Cell>,
    orientation: Option<Orientation>, headerDepth: Option<int>)

  /** Which worksheet connect_sheet ends up holding: the one looked up, or the old one for an identifier of another type. */
  function Target(id: SheetId, lookup: Lookup<Worksheet>, current: Worksheet?): Worksheet? {
    if id.OtherSheetId? then current
    else if lookup.Found? then lookup.item
    else null
  }

  class Spreadclient {
    var client: bool
    var document: Spreadsheet?
    var sheet: Worksheet?
    var listed: Option<Grid>
    var verlisted: Option<Grid>
    var commits: seq<Cell>
    var orientation: Option<Orientation>
    var headerDepth: Option<int>

    function Snapshot(): State
      reads this
    {
      State(client, document, sheet, listed, verlisted, commits, orientation, headerDepth)
    }

    /** A connected sheet always comes with a fetched grid and a header layout. */
    ghost predicate Valid()
      reads this
    {
      sheet != null ==> listed.Some? && verlisted.Some? && orientation.Some? && headerDepth.Some?
    }

    function Present(): Presence
      reads this
    {
      Presence(client, document != null, sheet != null)
    }

    /** The guard `requirements_exists(*reqs)`: SetupError naming the first missing part. */
    function Check(reqs: seq<Requirement>): (r: Outcome)
      requires |reqs| > 0
      reads this
      ensures r == Pass <==> forall part: Part :: part in Required(reqs) ==> Has(Present(), part)
      ensures r.Fail? ==> r.error == SetupError(FirstMissing(Present(), reqs).value)
      ensures reqs == ALL ==> (r == Pass <==> client && document != null && sheet != null)
      ensures reqs == CLIENT_AND_DOCUMENT ==> (r == Pass <==> client && document != null)
      ensures reqs == CLIENT_ONLY ==> (r == Pass <==> client)
    {
      GuardPresets(Present());
      match FirstMissing(Present(), reqs)
      case None => Pass
      case Some(part) => Fail(SetupError(part))
    }

    /** The guard of the sheet methods passes: a client, a document and a sheet, with its cache. */
    ghost predicate Connected()
      reads this
    {
      Valid() && client && document != null && sheet != null
    }

    /** The call kept the client, the document and the sheet it started with. */
    twostate predicate Kept()
      reads this
    {
      client == old(client) && document == old(document) && sheet == old(sheet)
    }

    /** A call that did nothing: this object and the worksheet it holds are as before. */
    twostate predicate Untouched()
      reads this, sheet
    {
      Snapshot() == old(Snapshot()) && (sheet != null ==> unchanged(sheet))
    }

    /**
     * The state after an optional refresh_sheet followed by appending
     * `appended` to the buffer. With `refresh` the old buffer went out as one
     * write (none when it was empty), the cache is the grid fetched afterwards
     * and the buffer holds only `appended`; without, only the buffer grew.
     */
    twostate predicate Reloaded(refresh: bool, appended: seq<Cell>)
      reads this, sheet
    {
      sheet != null && sheet == old(sheet) &&
      if refresh then
        sheet.log == old(sheet.log) + Flush(old(commits)) &&
        (old(commits) == [] ==> sheet.grid == old(sheet.grid)) &&
        Snapshot() == old(Snapshot()).(listed := Some(sheet.grid), verlisted := Some(Transpose(sheet.grid)), commits := appended)
      else
        unchanged(sheet) && Snapshot() == old(Snapshot()).(commits := old(commits) + appended)
    }

    /** `__init__` once the credentials are accepted: a client, and nothing connected. */
    constructor ()
      ensures Valid()
      ensures Snapshot() == State(true, null, null, None, None, [], None, None)
    {
      client := true;
      document := null;
      sheet := null;
      listed := None;
      verlisted := None;
      commits := [];
      orientation := None;
      headerDepth := None;
    }

    /**
     * connect_document: the key, name and URL resolvers are asked in turn
     * (their answers are the parameters). Each answer is stored in `document`
     * as it comes; the first non-None one ends the loop and clears the rest of
     * the connection. A resolver that raises ends the call with that error.
     */
    method ConnectDocument(byKey: Lookup<Spreadsheet>, byName: Lookup<Spreadsheet>, byUrl: Lookup<Spreadsheet>) returns (r: Outcome)
      requires Valid()
      modifies this
      ensures Valid()
      ensures old(Check(CLIENT_ONLY)).Fail? ==> r == old(Check(CLIENT_ONLY)) && Snapshot() == old(Snapshot())
      ensures old(client) && FirstAnswer([byKey, byName, byUrl]) == 3 ==>
        r == Fail(IdentificationError(DocumentHandle)) && Snapshot() == old(Snapshot()).(document := null)
      ensures old(client) && FirstAnswer([byKey, byName, byUrl]) < 3 ==>
        var k := FirstAnswer([byKey, byName, byUrl]);
        match [byKey, byName, byUrl][k]
        case Raised => r == Fail(RemoteError) && Snapshot() == old(Snapshot()).(document := if k == 0 then old(document) else null)
        case Found(d) => r == Pass && Snapshot() == State(old(client), d, null, None, None, [], None, None)
        case NotFound => false
    {
      var check := Check(CLIENT_ONLY);
      if check.Fail? {
        return check;
      }
      var attempts := [byKey, byName, byUrl];
      var i := 0;
      while i < |attempts| && attempts[i] == NotFound
        invariant 0 <= i <= |attempts|
        invariant forall j :: 0 <= j < i ==> attempts[j] == NotFound
        invariant Snapshot() == old(Snapshot()).(document := if i == 0 then old(document) else null)
      {
        document := null;
        i := i + 1;
      }
      FirstAnswerIs(attempts, i);
      if i < |attempts| {
        match attempts[i] {
          case Raised =>
            return Fail(RemoteError);
          case Found(d) =>
            Open(d);
            return Pass;
        }
      }
      return Fail(IdentificationError(DocumentHandle));
    }

    /** The document found by connect_document replaces the old one; the sheet, cache, buffer and header layout are cleared. */
    method Open(d: Spreadsheet?)
      modifies this
      ensures Valid()
      ensures Snapshot() == State(old(client), d, null, None, None, [], None, None)
    {
      document := d;
      listed := None;
      verlisted := None;
      sheet := null;
      commits := [];
      orientation := None;
      headerDepth := None;
    }

    /** refresh_sheet once the guard has passed. */
    method Sync()
      requires sheet != null
      modifies this, sheet
      ensures Reloaded(true, [])
    {
      if |commits| > 0 {
        sheet.UpdateCells(commits);
        commits := [];
      }
      var grid := sheet.GetAllValues();
      listed := Some(grid);
      verlisted := Some(Transpose(grid));
    }

    /**
     * connect_sheet: a name or a position is looked up (the lookup's answer is
     * a parameter; any other identifier keeps the current sheet), orientation
     * and depth are stored even when no sheet is found, and a found sheet is
     * refreshed, which sends the pending buffer to that sheet.
     */
    method ConnectSheet(id: SheetId, lookup: Lookup<Worksheet>, layout: Orientation, depth: int) returns (r: Outcome)
      requires Valid()
      modifies this, sheet, Target(id, lookup, sheet)
      ensures Valid()
      ensures old(sheet) != null && old(sheet) != sheet ==> unchanged(old(sheet))
      ensures old(Check(CLIENT_AND_DOCUMENT)).Fail? ==> r == old(Check(CLIENT_AND_DOCUMENT)) && Untouched()
      ensures old(Check(CLIENT_AND_DOCUMENT)).Pass? && !id.OtherSheetId? && lookup.Raised? ==>
        r == Fail(RemoteError) && Untouched()
      ensures old(Check(CLIENT_AND_DOCUMENT)).Pass? && (id.OtherSheetId? || !lookup.Raised?) && Target(id, lookup, old(sheet)) == null ==>
        r == Fail(IdentificationError(SheetHandle)) &&
        Snapshot() == old(Snapshot()).(sheet := null, orientation := Some(layout), headerDepth := Some(depth))
      ensures old(Check(CLIENT_AND_DOCUMENT)).Pass? && (id.OtherSheetId? || !lookup.Raised?) && Target(id, lookup, old(sheet)) != null ==>
        var t := Target(id, lookup, old(sheet));
        r == Pass && sheet == t && t.log == old(t.log) + Flush(old(commits)) &&
        Snapshot() == old(Snapshot()).(sheet := t, listed := Some(t.grid), verlisted := Some(Transpose(t.grid)),
                                       commits := [], orientation := Some(layout), headerDepth := Some(depth))
    {
      var check := Check(CLIENT_AND_DOCUMENT);
      if check.Fail? {
        return check;
      }
      if !id.OtherSheetId? {
        match lookup {
          case Raised =>
            return Fail(RemoteError);
          case NotFound =>
            sheet := null;
          case Found(w) =>
            sheet := w;
        }
      }
      orientation := Some(layout);
      headerDepth := Some(depth);
      if sheet == null {
        return Fail(IdentificationError(SheetHandle));
      }
      Sync();
      return Pass;
    }

    /** refresh_sheet: flush the buffer in one write, then replace the cache by a fresh fetch. */
    method RefreshSheet() returns (r: Outcome)
      requires Valid()
      modifies this, sheet
      ensures Valid()
      ensures !old(Connected()) ==> r == old(Check(ALL)) && Untouched()
      ensures old(Connected()) ==> r == Pass && Reloaded(true, [])
    {
      var check := Check(ALL);
      if check.Fail? {
        return check;
      }
      Sync();
      return Pass;
    }

    /**
     * refresh_sheet twice from an empty buffer: the first call writes nothing,
     * so both fetch the grid the worksheet already had and the cache is the same.
     */
    method RefreshTwice() returns (first: Option<Grid>)
      requires Connected() && commits == []
      modifies this, sheet
      ensures first == Some(old(sheet.grid)) && listed == first
    {
      var once := RefreshSheet();
      first := listed;
      var twice := RefreshSheet();
    }

    /** The `headers` property: the guard, then the header line of the cache. */
    function Headers(): (r: Result<Option<seq<string>>>)
      reads this
      ensures Check(ALL).Fail? ==> r == Err(Check(ALL).error)
      ensures Check(ALL).Pass? ==> r == HeaderLine(listed, orientation, headerDepth)
    {
      match Check(ALL)
      case Fail(e) => Err(e)
      case Pass => HeaderLine(listed, orientation, headerDepth)
    }

    /** get_row_by_column: the first cached row whose cell in `column` is `value`. */
    method GetRowByColumn(value: string, column: Column, refresh: bool) returns (r: Result<Option<Row>>)
      requires Valid()
      modifies this, sheet
      ensures Valid() && Kept()
      ensures !old(Connected()) ==> r == Err(old(Check(ALL)).error) && Untouched()
      ensures old(Connected()) ==> Reloaded(refresh, []) && r == RowByColumn(listed.value, column, value, TypeError)
    {
      var check := Check(ALL);
      if check.Fail? {
        return Err(check.error);
      }
      if refresh {
        Sync();
      }
      assert Connected() && sheet == old(sheet);
      r := RowByColumn(listed.value, column, value, TypeError);
    }

    /** get_rows_by_func: the cached rows that satisfy `select`, in order. */
    method GetRowsByFunc(select: Row -> bool, refresh: bool) returns (r: Result<seq<Row>>)
      requires Valid()
      modifies this, sheet
      ensures Valid()
      ensures !old(Connected()) ==> r == Err(old(Check(ALL)).error) && Untouched()
      ensures old(Connected()) ==> Reloaded(refresh, []) && r == Ok(Filter(listed.value, select))
    {
      var check := Check(ALL);
      if check.Fail? {
        return Err(check.error);
      }
      if refresh {
        Sync();
      }
      assert Connected() && sheet == old(sheet);
      r := Ok(Filter(listed.value, select));
    }

    /** get_column_by_row: the column under the first occurrence of `value` in row `row`. */
    method GetColumnByRow(value: string, row: RowId, refresh: bool) returns (r: Result<Option<seq<string>>>)
      requires Valid()
      modifies this, sheet
      ensures Valid()
      ensures !old(Connected()) ==> r == Err(old(Check(ALL)).error) && Untouched()
      ensures old(Connected()) ==> Reloaded(refresh, [])
      ensures old(Connected()) && row.OtherRow? ==> r == Err(TypeError)
      ensures old(Connected()) && row.RowIndex? ==> r == ColumnByRow(listed.value, row.index, value)
    {
      var check := Check(ALL);
      if check.Fail? {
        return Err(check.error);
      }
      if refresh {
        Sync();
      }
      assert Connected() && sheet == old(sheet);
      match row {
        case OtherRow =>
          r := Err(TypeError);
        case RowIndex(i) =>
          r := ColumnByRow(listed.value, i, value);
      }
    }

    /** get_header_index: the first position of `header` in the header line. */
    method GetHeaderIndex(header: string, refresh: bool) returns (r: Result<nat>)
      requires Valid()
      modifies this, sheet
      ensures Valid() && Kept()
      ensures !old(Connected()) ==> r == Err(old(Check(ALL)).error) && Untouched()
      ensures old(Connected()) ==> Reloaded(refresh, []) && r == HeaderPosition(HeaderLine(listed, orientation, headerDepth), header)
    {
      var check := Check(ALL);
      if check.Fail? {
        return Err(check.error);
      }
      if refresh {
        Sync();
      }
      assert Connected() && sheet == old(sheet);
      r := HeaderPosition(HeaderLine(listed, orientation, headerDepth), header);
    }

    /** get_dime_by_header: the first row whose cell under `header` is `value` (vertical sheets). */
    method GetDimeByHeader(value: string, header: string, refresh: bool) returns (r: Result<Option<Row>>)
      requires Valid()
      modifies this, sheet
      ensures Valid()
      ensures !old(Connected()) ==> r == Err(old(Check(ALL)).error) && Untouched()
      ensures old(Connected()) ==>
        Reloaded(refresh, []) && r == DimeByHeader(listed.value, orientation.value, HeaderLine(listed, orientation, headerDepth), header, value)
    {
      var check := Check(ALL);
      if check.Fail? {
        return Err(check.error);
      }
      if refresh {
        Sync();
      }
      assert Connected() && sheet == old(sheet);
      r := DimeByHeader(listed.value, orientation.value, HeaderLine(listed, orientation, headerDepth), header, value);
    }

    /** The list loop of the commit methods: item k is appended at position offset + k + 1 of `line`. */
    method AppendPositional(line: Line, offset: int, items: seq<string>)
      modifies this
      ensures Snapshot() == old(Snapshot()).(commits := old(commits) + Positional(line, offset, items))
    {
      var k := 0;
      while k < |items|
        invariant 0 <= k <= |items|
        invariant Snapshot() == old(Snapshot()).(commits := old(commits) + Positional(line, offset, items[..k]))
      {
        assert items[..k + 1][..k] == items[..k];
        commits := commits + [Place(line, k + 1 + offset, items[k])];
        k := k + 1;
      }
      assert items[..k] == items;
    }

    /** The dict loop of the commit methods: a key found in `slice` is appended at its position there plus one. */
    method AppendKeyed(line: Line, slice: seq<string>, entries: Record)
      modifies this
      ensures Snapshot() == old(Snapshot()).(commits := old(commits) + Keyed(line, slice, entries))
    {
      var k := 0;
      while k < |entries|
        invariant 0 <= k <= |entries|
        invariant Snapshot() == old(Snapshot()).(commits := old(commits) + Keyed(line, slice, entries[..k]))
      {
        assert entries[..k + 1][..k] == entries[..k];
        var e := entries[k];
        if e.key in slice {
          commits := commits + [Place(line, IndexOf(slice, e.key) + 1, e.value)];
        }
        k := k + 1;
      }
      assert entries[..k] == entries;
    }

    /**
     * The branches of commit_new_row / commit_new_column on the type of
     * `values` (a tuple counts as a list): the loops append the edits; a
     * dict without a usable header slice raises before anything is appended.
     */
    method AppendValues(line: Line, offset: int, values: Values) returns (error: Option<Error>)
      modifies this
      ensures match CommitPlan(line, offset, values, HeaderLine(listed, orientation, headerDepth), true)
        case Err(e) => error == Some(e) && Snapshot() == old(Snapshot())
        case Ok(cells) => error == None && Snapshot() == old(Snapshot()).(commits := old(commits) + cells)
    {
      match values {
        case ListOf(items) =>
          AppendPositional(line, offset, items);
        case TupleOf(items) =>
          AppendPositional(line, offset, items);
        case DictOf(entries) =>
          var slice := HeaderSlice(HeaderLine(listed, orientation, headerDepth), offset);  // `self.headers`, whose guard has passed
          if slice.Err? {
            return Some(slice.error);
          }
          AppendKeyed(line, slice.value, entries);
        case OtherValues =>
      }
      return None;
    }

    /**
     * Appends the edits for `values` along `line` and returns
     * `[x for x in set(self.commits) if x not in old_commits]` as a set.
     */
    method AppendFresh(line: Line, offset: int, values: Values) returns (r: Result<set<Cell>>)
      modifies this
      ensures match CommitPlan(line, offset, values, HeaderLine(listed, orientation, headerDepth), true)
        case Err(e) => r == Err(e) && Snapshot() == old(Snapshot())
        case Ok(cells) => r == Ok(Fresh(cells, old(commits))) && Snapshot() == old(Snapshot()).(commits := old(commits) + cells)
    {
      var before := commits;
      var error := AppendValues(line, offset, values);
      if error.Some? {
        return Err(error.value);
      }
      FreshIsSetDifference(before, commits[|before|..]);
      assert commits == before + commits[|before|..];
      r := Ok((set c | c in commits) - (set c | c in before));
    }

    /**
     * commit_new_row: values go on the row below the cached grid. The edits
     * stay in the buffer. The return expression reads a name that is never
     * bound, so the call raises NameError whenever the buffer is non-empty.
     */
    method CommitNewRow(values: Values, offset: int, refresh: bool) returns (r: Result<seq<Cell>>)
      requires Valid()
      modifies this, sheet
      ensures Valid()
      ensures !old(Connected()) ==> r == Err(old(Check(ALL)).error) && Untouched()
      ensures old(Connected()) ==> sheet != null && sheet == old(sheet)
      ensures old(Connected()) ==>
        match CommitPlan(AlongRow(|listed.value| + 1), offset, values, HeaderLine(listed, orientation, headerDepth), true)
        case Err(e) => r == Err(e) && Reloaded(refresh, [])
        case Ok(cells) => Reloaded(refresh, cells) && r == (if commits == [] then Ok([]) else Err(NameError))
    {
      var check := Check(ALL);
      if check.Fail? {
        return Err(check.error);
      }
      r := CommitRowConnected(values, offset, refresh);
    }

    /** commit_new_row past its guard. */
    method CommitRowConnected(values: Values, offset: int, refresh: bool) returns (r: Result<seq<Cell>>)
      requires Connected()
      modifies this, sheet
      ensures Connected() && Kept()
      ensures match CommitPlan(AlongRow(|listed.value| + 1), offset, values, HeaderLine(listed, orientation, headerDepth), true)
        case Err(e) => r == Err(e) && Reloaded(refresh, [])
        case Ok(cells) => Reloaded(refresh, cells) && r == (if commits == [] then Ok([]) else Err(NameError))
    {
      if refresh {
        Sync();
      }
      assert Connected() && sheet == old(sheet);
      ghost var mid := Snapshot();
      var error := AppendValues(AlongRow(|listed.value| + 1), offset, values);
      assert Snapshot() == mid.(commits := commits);
      r := if error.Some? then Err(error.value) else if commits == [] then Ok([]) else Err(NameError);
    }

    /** The rows of a list batch, row i on sheet row base + i + 1. */
    method AppendRows(base: int, offset: int, rows: seq<seq<string>>)
      modifies this
      ensures Snapshot() == old(Snapshot()).(commits := old(commits) + Stacked(base, rows, RowOfItems(offset)))
    {
      var i := 0;
      ghost var done := [];
      while i < |rows|
        invariant 0 <= i <= |rows|
        invariant done == Stacked(base, rows[..i], RowOfItems(offset))
        invariant Snapshot() == old(Snapshot()).(commits := old(commits) + done)
      {
        RowsStep(base, offset, rows, i);
        ghost var row := Positional(AlongRow(base + i + 1), offset, rows[i]);
        AppendPositional(AlongRow(base + i + 1), offset, rows[i]);
        assert commits == old(commits) + (done + row);
        done := done + row;
        i := i + 1;
      }
      assert rows[..i] == rows;
    }

    /** The dicts of a dict batch, dict i on sheet row base + i + 1. */
    method AppendRecords(base: int, slice: seq<string>, records: seq<Record>)
      modifies this
      ensures Snapshot() == old(Snapshot()).(commits := old(commits) + Stacked(base, records, RowOfEntries(slice)))
    {
      var i := 0;
      ghost var done := [];
      while i < |records|
        invariant 0 <= i <= |records|
        invariant done == Stacked(base, records[..i], RowOfEntries(slice))
        invariant Snapshot() == old(Snapshot()).(commits := old(commits) + done)
      {
        RecordsStep(base, slice, records, i);
        ghost var before := Snapshot();
        AppendKeyed(AlongRow(base + i + 1), slice, records[i]);
        assert Snapshot() == before.(commits := before.commits + Keyed(AlongRow(base + i + 1), slice, records[i]));
        assert before.commits == old(commits) + done;
        done := done + Keyed(AlongRow(base + i + 1), slice, records[i]);
        assert old(commits) + done == before.commits + Keyed(AlongRow(base + i + 1), slice, records[i]);
        i := i + 1;
      }
      assert records[..i] == records;
    }

    /**
     * commit_new_multiple_rows: item i goes on the i-th row below the cached
     * grid. With `refresh` the cache is refreshed before (which fixes
     * `fetched`, the grid the rows are placed against) and again after, which
     * sends the new edits at once and leaves nothing to return.
     */
    method CommitNewMultipleRows(batch: Batch, offset: int, refresh: bool) returns (r: Result<seq<Cell>>, ghost fetched: Grid)
      requires Valid()
      modifies this, sheet
      ensures Valid()
      ensures !old(Connected()) ==> r == Err(old(Check(ALL)).error) && Untouched()
      ensures old(Connected()) && !refresh ==> fetched == old(listed.value)
      ensures old(Connected()) && refresh && old(commits) == [] ==> fetched == old(sheet.grid)
      ensures old(Connected()) ==>
        match BatchPlan(|fetched|, offset, batch, HeaderLine(Some(fetched), orientation, headerDepth))
        case Err(e) => r == Err(e) && Reloaded(refresh, []) && listed == Some(fetched)
        case Ok(cells) =>
          if refresh then
            r == Ok([]) && sheet == old(sheet) && sheet.log == old(sheet.log) + Flush(old(commits)) + Flush(cells) &&
            Snapshot() == old(Snapshot()).(listed := Some(sheet.grid), verlisted := Some(Transpose(sheet.grid)), commits := [])
          else
            Reloaded(false, cells) && r == Ok(Repeated(commits, old(commits)))
    {
      var check := Check(ALL);
      if check.Fail? {
        return Err(check.error), [];
      }
      if refresh {
        Sync();
      }
      assert Connected() && sheet == old(sheet);
      fetched := listed.value;
      var base := |listed.value|;
      var before := commits;
      match batch {
        case ListRows(rows) =>
          if rows == [] {
            return Err(IndexError), fetched;
          }
          AppendRows(base, offset, rows);
        case DictRows(records) =>
          if records == [] {
            return Err(IndexError), fetched;
          }
          var slice := HeaderSlice(HeaderLine(listed, orientation, headerDepth), offset);  // `self.headers`, whose guard has passed
          if slice.Err? {
            return Err(slice.error), fetched;
          }
          AppendRecords(base, slice.value, records);
      }
      ghost var cells := BatchPlan(base, offset, batch, HeaderLine(Some(fetched), orientation, headerDepth)).value;
      assert commits == before + cells;
      if refresh {
        assert commits == cells;
        Sync();
      }
      r := Ok(Repeated(commits, before));
    }

    /**
     * commit_new_column: values go in the column right of the first cached
     * row. Returns the new edits not already buffered, as a set.
     */
    method CommitNewColumn(values: Values, offset: int, refresh: bool) returns (r: Result<set<Cell>>)
      requires Valid()
      modifies this, sheet
      ensures Valid()
      ensures !old(Connected()) ==> r == Err(old(Check(ALL)).error) && Untouched()
      ensures old(Connected()) ==> sheet != null && sheet == old(sheet)
      ensures old(Connected()) && listed.value == [] ==> r == Err(IndexError) && Reloaded(refresh, [])
      ensures old(Connected()) && listed.value != [] ==>
        match CommitPlan(AlongColumn(|listed.value[0]| + 1), offset, values, HeaderLine(listed, orientation, headerDepth), true)
        case Err(e) => r == Err(e) && Reloaded(refresh, [])
        case Ok(cells) => Reloaded(refresh, cells) && r == Ok(Fresh(cells, if refresh then [] else old(commits)))
    {
      var check := Check(ALL);
      if check.Fail? {
        return Err(check.error);
      }
      r := CommitColumnConnected(values, offset, refresh);
    }

    /** commit_new_column past its guard. */
    method CommitColumnConnected(values: Values, offset: int, refresh: bool) returns (r: Result<set<Cell>>)
      requires Connected()
      modifies this, sheet
      ensures Connected() && Kept()
      ensures listed.value == [] ==> r == Err(IndexError) && Reloaded(refresh, [])
      ensures listed.value != [] ==>
        match CommitPlan(AlongColumn(|listed.value[0]| + 1), offset, values, HeaderLine(listed, orientation, headerDepth), true)
        case Err(e) => r == Err(e) && Reloaded(refresh, [])
        case Ok(cells) => Reloaded(refresh, cells) && r == Ok(Fresh(cells, if refresh then [] else old(commits)))
    {
      if refresh {
        Sync();
      }
      assert Connected() && sheet == old(sheet);
      if listed.value == [] {
        return Err(IndexError);
      }
      ghost var mid := Snapshot();
      r := AppendFresh(AlongColumn(|listed.value[0]| + 1), offset, values);
      assert Snapshot() == mid.(commits := commits);
    }

    /**
     * update_vertical_data: find the row whose primary-key cell holds
     * `data[primaryKey]`, then queue a write for every key of `data` that is a
     * header and whose cell in that row differs. With `refresh` every header
     * lookup refreshes the cache first.
     */
    method UpdateVerticalData(data: UpdateData, primaryKey: string, refresh: bool) returns (r: Outcome)
      requires Valid()
      modifies this, sheet
      ensures Valid()
      ensures !old(Connected()) ==> r == old(Check(ALL)) && Untouched()
      ensures old(Connected()) ==> sheet == old(sheet) && client == old(client) && document == old(document)
      ensures old(Connected()) && data.OtherData? ==> r == Fail(AssertionError) && Untouched()
      ensures old(Connected()) && data.DataDict? && !refresh ==>
        match VerticalUpdate(listed.value, HeaderLine(listed, orientation, headerDepth), data.entries, primaryKey, false)
        case Err(e) => r == Fail(e) && Reloaded(false, [])
        case Ok(plan) => Reloaded(false, plan.edits) && r == (if plan.stop.Some? then Fail(plan.stop.value) else Pass)
    {
      var check := Check(ALL);
      if check.Fail? {
        return check;
      }
      if data.OtherData? {
        return Fail(AssertionError);
      }
      if !HasKey(data.entries, primaryKey) {
        return Fail(KeyError);
      }
      var key := ValueOf(data.entries, primaryKey);
      var index := GetHeaderIndex(primaryKey, refresh);
      if index.Err? {
        return Fail(index.error);
      }
      var found := GetRowByColumn(key, ByIndex(index.value), refresh);
      if found.Err? {
        return Fail(found.error);
      }
      if found.value.None? {
        return Fail(IdentificationError(PrimaryKeyRow));
      }
      var active := found.value.value;
      var rowIndex := IndexOf(listed.value, active);
      if !refresh {
        MatchedRowIndex(listed.value, index.value, key);
      }
      ghost var line := match HeaderLine(listed, orientation, headerDepth) case Ok(Some(l)) => l case _ => [];
      r := QueueChanges(data.entries, active, rowIndex, refresh, line);
    }

    /**
     * The loop of update_vertical_data over the entries of `data`, against the
     * matched row `active` at position `rowIndex`.
     */
    method QueueChanges(data: Record, active: Row, rowIndex: nat, refresh: bool, ghost line: seq<string>) returns (r: Outcome)
      requires Connected()
      modifies this, sheet
      ensures Connected() && Kept()
      ensures !refresh && old(HeaderLine(listed, orientation, headerDepth)) == Ok(Some(line)) ==>
        var plan := UpdatePlan(line, active, rowIndex, data, false);
        Reloaded(false, plan.edits) && r == (if plan.stop.Some? then Fail(plan.stop.value) else Pass)
    {
      ghost var exact := !refresh && HeaderLine(listed, orientation, headerDepth) == Ok(Some(line));
      ghost var queued := [];
      var stop: Option<Error> := None;
      var i := 0;
      while i < |data| && stop.None?
        invariant 0 <= i <= |data|
        invariant Connected() && Kept()
        invariant exact ==> HeaderLine(listed, orientation, headerDepth) == Ok(Some(line))
        invariant exact ==> UpdatePlan(line, active, rowIndex, data[..i], false) == Plan(queued, stop)
        invariant exact ==> Snapshot() == old(Snapshot()).(commits := old(commits) + queued) && unchanged(sheet)
      {
        ghost var step := UpdateStep(line, active, rowIndex, data[i], false);
        if exact {
          UpdatePlanExtend(line, active, rowIndex, data, false, i);
        }
        stop := QueueOne(data[i], active, rowIndex, refresh, line);
        queued := queued + step.edits;
        i := i + 1;
      }
      if exact {
        if stop.Some? {
          UpdatePlanStops(line, active, rowIndex, data, false, i);
        } else {
          assert data[..i] == data;
        }
      }
      r := if stop.Some? then Fail(stop.value) else Pass;
    }

    /**
     * One pass of that loop: `k in self.headers`, then the cell under k in
     * `active`, then the header index of k looked up again for the edit.
     */
    method QueueOne(e: Entry, active: Row, rowIndex: nat, refresh: bool, ghost line: seq<string>) returns (stop: Option<Error>)
      requires Connected()
      modifies this, sheet
      ensures Connected() && Kept()
      ensures !refresh && old(HeaderLine(listed, orientation, headerDepth)) == Ok(Some(line)) ==>
        var step := UpdateStep(line, active, rowIndex, e, false);
        Reloaded(false, step.edits) && stop == step.stop
    {
      var headers := HeaderLine(listed, orientation, headerDepth);  // `self.headers`, whose guard has passed
      if headers.Err? {
        stop := Some(headers.error);
      } else if headers.value.None? {
        stop := Some(TypeError);
      } else if e.key !in headers.value.value {
        stop := None;
      } else {
        var h := GetHeaderIndex(e.key, refresh);
        if h.Err? {
          stop := Some(h.error);
        } else if h.value >= |active| {
          stop := Some(IndexError);
        } else if active[h.value] == e.value {
          stop := None;
        } else {
          var h2 := GetHeaderIndex(e.key, refresh);
          if h2.Err? {
            stop := Some(h2.error);
          } else {
            commits := commits + [Cell(rowIndex + 1, h2.value + 1, e.value)];
            stop := None;
          }
        }
      }
    }

    /** delete_rows: an int is made 1-based, a list is passed through; then the cache is fetched again. */
    method DeleteRows(rows: Indices) returns (r: Outcome)
      requires Valid()
      modifies this, sheet
      ensures Valid()
      ensures !old(Connected()) ==> r == old(Check(ALL)) && Untouched()
      ensures old(Connected()) ==>
        r == Pass && sheet == old(sheet) && Snapshot() == old(Snapshot()).(listed := Some(sheet.grid))
      ensures old(Connected()) ==>
        match rows
        case OneIndex(i) => sheet.log == old(sheet.log) + [RowDeletion([i + 1])]
        case ManyIndices(l) => sheet.log == old(sheet.log) + [RowDeletion(l)]
        case OtherIndices => sheet.log == old(sheet.log)
    {
      var check := Check(ALL);
      if check.Fail? {
        return check;
      }
      match rows {
        case OneIndex(i) =>
          sheet.DeleteRows([i + 1]);
        case ManyIndices(l) =>
          sheet.DeleteRows(l);
        case OtherIndices =>
      }
      var grid := sheet.GetAllValues();
      listed := Some(grid);
      return Pass;
    }

    /** delete_columns: as delete_rows, for columns. */
    method DeleteColumns(cols: Indices) returns (r: Outcome)
      requires Valid()
      modifies this, sheet
      ensures Valid()
      ensures !old(Connected()) ==> r == old(Check(ALL)) && Untouched()
      ensures old(Connected()) ==>
        r == Pass && sheet == old(sheet) && Snapshot() == old(Snapshot()).(listed := Some(sheet.grid))
      ensures old(Connected()) ==>
        match cols
        case OneIndex(i) => sheet.log == old(sheet.log) + [ColumnDeletion([i + 1])]
        case ManyIndices(l) => sheet.log == old(sheet.log) + [ColumnDeletion(l)]
        case OtherIndices => sheet.log == old(sheet.log)
    {
      var check := Check(ALL);
      if check.Fail? {
        return check;
      }
      match cols {
        case OneIndex(i) =>
          sheet.DeleteColumns([i + 1]);
        case ManyIndices(l) =>
          sheet.DeleteColumns(l);
        case OtherIndices =>
      }
      var grid := sheet.GetAllValues();
      listed := Some(grid);
      return Pass;
    }
  }
}
