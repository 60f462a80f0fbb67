/**
 * The older `Spreadclient` (the copy in the top-level GSpreadPlus package).
 * It keeps the same connection, cache and commit buffer as the current one,
 * but its guard raises a bare Exception, its document resolvers may fail
 * silently, it keeps no transposed cache, it accepts only lists as
 * positional values, its update places edits at swapped coordinates, and it
 * deletes one row or column at a time.
 */
module LegacyGSpreadPlus {
  import opened Sheets
  import opened PySeq
  import opened Connection
  import opened Queries
  import opened Edits

  /** Every field of the legacy client at one moment. */
  datatype State = State(
    client: bool, document: Spreadsheet?, sheet: Worksheet?,
    listed: Option<Grid>, commits: seq<Cell>,
    orientation: Option<Orientation>, headerDepth: Option<int>)

  /** Which worksheet connect_sheet ends up holding: the one looked up, or the old one for an identifier of another type. */
  function Target(id: SheetId, lookup: Lookup<Worksheet>, current: Worksheet?): Worksheet? {
    if id.OtherSheetId? then current
    else if lookup.Found? then lookup.item
    else null
  }

  /**
   * Where the legacy connect_document leaves `document` when no resolver
   * succeeds: None once some resolver answered None, otherwise untouched,
   * because a resolver that raised never reached the assignment.
   */
  function AfterFailedResolvers(attempts: seq<Lookup<Spreadsheet>>, before: Spreadsheet?): (d: Spreadsheet?)
    ensures NotFound in attempts ==> d == null
    ensures NotFound !in attempts ==> d == before
  {
    if NotFound in attempts then null else before
  }

  class Spreadclient {
    var client: bool
    var document: Spreadsheet?
    var sheet: Worksheet?
    var listed: Option<Grid>
    var commits: seq<Cell>
    var orientation: Option<Orientation>
    var headerDepth: Option<int>

    function Snapshot(): State
      reads this
    {
      State(client, document, sheet, listed, commits, orientation, headerDepth)
    }

    /** A connected sheet always comes with a fetched grid and a header layout. */
    ghost predicate Valid()
      reads this
    {
      sheet != null ==> listed.Some? && orientation.Some? && headerDepth.Some?
    }

    function Present(): Presence
      reads this
    {
      Presence(client, document != null, sheet != null)
    }

    /** The legacy guard: a bare Exception naming the first missing part. */
    function Check(reqs: seq<Requirement>): (r: Outcome)
      requires |reqs| > 0
      reads this
      ensures r == Pass <==> forall part: Part :: part in Required(reqs) ==> Has(Present(), part)
      ensures r.Fail? ==> r.error == PlainException(Unset(FirstMissing(Present(), reqs).value))
      ensures reqs == ALL ==> (r == Pass <==> client && document != null && sheet != null)
      ensures reqs == CLIENT_AND_DOCUMENT ==> (r == Pass <==> client && document != null)
      ensures reqs == CLIENT_ONLY ==> (r == Pass <==> client)
    {
      GuardPresets(Present());
      match FirstMissing(Present(), reqs)
      case None => Pass
      case Some(part) => Fail(PlainException(Unset(part)))
    }

    /** The guard of the sheet methods passes: a client, a document and a sheet, with its cache. */
    ghost predicate Connected()
      reads this
    {
      Valid() && client && document != null && sheet != null
    }

    /** The call kept the client, the document and the sheet it started with. */
    twostate predicate Kept()
      reads this
    {
      client == old(client) && document == old(document) && sheet == old(sheet)
    }

    /** A call that did nothing: this object and the worksheet it holds are as before. */
    twostate predicate Untouched()
      reads this, sheet
    {
      Snapshot() == old(Snapshot()) && (sheet != null ==> unchanged(sheet))
    }

    /**
     * The state after an optional refresh_sheet followed by appending
     * `appended` to the buffer (see the current client; there is no
     * transposed cache here).
     */
    twostate predicate Reloaded(refresh: bool, appended: seq<Cell>)
      reads this, sheet
    {
      sheet != null && sheet == old(sheet) &&
      if refresh then
        sheet.log == old(sheet.log) + Flush(old(commits)) &&
        (old(commits) == [] ==> sheet.grid == old(sheet.grid)) &&
        Snapshot() == old(Snapshot()).(listed := Some(sheet.grid), commits := appended)
      else
        unchanged(sheet) && Snapshot() == old(Snapshot()).(commits := old(commits) + appended)
    }

    /** `__init__` with accepted credentials; orientation and depth do not exist until connect_sheet. */
    constructor ()
      ensures Valid()
      ensures Snapshot() == State(true, null, null, None, [], None, None)
    {
      client := true;
      document := null;
      sheet := null;
      listed := None;
      commits := [];
      orientation := None;
      headerDepth := None;
    }

    /**
     * connect_document: the key, name and URL resolvers are tried in turn; a
     * resolver that raises or answers None is skipped, the first document
     * found wins and clears the cache, the sheet and the buffer.
     */
    method ConnectDocument(byKey: Lookup<Spreadsheet>, byName: Lookup<Spreadsheet>, byUrl: Lookup<Spreadsheet>) returns (r: Outcome)
      requires Valid()
      modifies this
      ensures Valid()
      ensures old(Check(CLIENT_ONLY)).Fail? ==> r == old(Check(CLIENT_ONLY)) && Snapshot() == old(Snapshot())
      ensures old(client) && FirstFound([byKey, byName, byUrl]) == 3 ==>
        r == Fail(PlainException(UnmatchedDocument)) &&
        Snapshot() == old(Snapshot()).(document := AfterFailedResolvers([byKey, byName, byUrl], old(document)))
      ensures old(client) && FirstFound([byKey, byName, byUrl]) < 3 ==>
        var d := [byKey, byName, byUrl][FirstFound([byKey, byName, byUrl])].item;
        r == Pass && Snapshot() == old(Snapshot()).(document := d, sheet := null, listed := None, commits := [])
    {
      var check := Check(CLIENT_ONLY);
      if check.Fail? {
        return check;
      }
      var attempts := [byKey, byName, byUrl];
      var i := 0;
      while i < |attempts| && !attempts[i].Found?
        invariant 0 <= i <= |attempts|
        invariant forall j :: 0 <= j < i ==> !attempts[j].Found?
        invariant Snapshot() == old(Snapshot()).(document := AfterFailedResolvers(attempts[..i], old(document)))
      {
        assert attempts[..i + 1] == attempts[..i] + [attempts[i]];
        if attempts[i].NotFound? {
          document := null;
        }
        i := i + 1;
      }
      FirstFoundIs(attempts, i);
      if i < |attempts| {
        Open(attempts[i].item);
        return Pass;
      }
      assert attempts[..i] == attempts;
      return Fail(PlainException(UnmatchedDocument));
    }

    /** The document found by connect_document replaces the old one; the sheet, cache and buffer are cleared. */
    method Open(d: Spreadsheet?)
      modifies this
      ensures Valid()
      ensures Snapshot() == old(Snapshot()).(document := d, sheet := null, listed := None, commits := [])
    {
      document := d;
      listed := None;
      sheet := null;
      commits := [];
    }

    /** refresh_sheet once the guard has passed. */
    method Sync()
      requires sheet != null
      modifies this, sheet
      ensures Reloaded(true, [])
    {
      if |commits| > 0 {
        sheet.UpdateCells(commits);
        commits := [];
      }
      var grid := sheet.GetAllValues();
      listed := Some(grid);
    }

    /** connect_sheet: as in the current client, without the transposed cache. */
    method ConnectSheet(id: SheetId, lookup: Lookup<Worksheet>, layout: Orientation, depth: int) returns (r: Outcome)
      requires Valid()
      modifies this, sheet, Target(id, lookup, sheet)
      ensures Valid()
      ensures old(sheet) != null && old(sheet) != sheet ==> unchanged(old(sheet))
      ensures old(Check(CLIENT_AND_DOCUMENT)).Fail? ==> r == old(Check(CLIENT_AND_DOCUMENT)) && Untouched()
      ensures old(Check(CLIENT_AND_DOCUMENT)).Pass? && !id.OtherSheetId? && lookup.Raised? ==>
        r == Fail(RemoteError) && Untouched()
      ensures old(Check(CLIENT_AND_DOCUMENT)).Pass? && (id.OtherSheetId? || !lookup.Raised?) && Target(id, lookup, old(sheet)) == null ==>
        r == Fail(IdentificationError(SheetHandle)) &&
        Snapshot() == old(Snapshot()).(sheet := null, orientation := Some(layout), headerDepth := Some(depth))
      ensures old(Check(CLIENT_AND_DOCUMENT)).Pass? && (id.OtherSheetId? || !lookup.Raised?) && Target(id, lookup, old(sheet)) != null ==>
        var t := Target(id, lookup, old(sheet));
        r == Pass && sheet == t && t.log == old(t.log) + Flush(old(commits)) &&
        Snapshot() == old(Snapshot()).(sheet := t, listed := Some(t.grid), commits := [],
                                       orientation := Some(layout), headerDepth := Some(depth))
    {
      var check := Check(CLIENT_AND_DOCUMENT);
      if check.Fail? {
        return check;
      }
      if !id.OtherSheetId? {
        match lookup {
          case Raised =>
            return Fail(RemoteError);
          case NotFound =>
            sheet := null;
          case Found(w) =>
            sheet := w;
        }
      }
      orientation := Some(layout);
      headerDepth := Some(depth);
      if sheet == null {
        return Fail(IdentificationError(SheetHandle));
      }
      Sync();
      return Pass;
    }

    /** refresh_sheet: flush the buffer in one write, then replace the cache by a fresh fetch. */
    method RefreshSheet() returns (r: Outcome)
      requires Valid()
      modifies this, sheet
      ensures Valid()
      ensures !old(Connected()) ==> r == old(Check(ALL)) && Untouched()
      ensures old(Connected()) ==> r == Pass && Reloaded(true, [])
    {
      var check := Check(ALL);
      if check.Fail? {
        return check;
      }
      Sync();
      return Pass;
    }

    /**
     * refresh_sheet twice from an empty buffer: the first call writes nothing,
     * so both fetch the grid the worksheet already had and the cache is the same.
     */
    method RefreshTwice() returns (first: Option<Grid>)
      requires Connected() && commits == []
      modifies this, sheet
      ensures first == Some(old(sheet.grid)) && listed == first
    {
      var once := RefreshSheet();
      first := listed;
      var twice := RefreshSheet();
    }

    /** The `headers` property: the guard, then the header line of the cache. */
    function Headers(): (r: Result<Option<seq<string>>>)
      reads this
      ensures Check(ALL).Fail? ==> r == Err(Check(ALL).error)
      ensures Check(ALL).Pass? ==> r == HeaderLine(listed, orientation, headerDepth)
    {
      match Check(ALL)
      case Fail(e) => Err(e)
      case Pass => HeaderLine(listed, orientation, headerDepth)
    }

    /** get_row_by_column: an unusable column identifier raises a bare Exception. */
    method GetRowByColumn(value: string, column: Column, refresh: bool) returns (r: Result<Option<Row>>)
      requires Valid()
      modifies this, sheet
      ensures Valid() && Kept()
      ensures !old(Connected()) ==> r == Err(old(Check(ALL)).error) && Untouched()
      ensures old(Connected()) ==>
        Reloaded(refresh, []) && r == RowByColumn(listed.value, column, value, PlainException(BadColumn))
    {
      var check := Check(ALL);
      if check.Fail? {
        return Err(check.error);
      }
      if refresh {
        Sync();
      }
      assert Connected() && sheet == old(sheet);
      r := RowByColumn(listed.value, column, value, PlainException(BadColumn));
    }

    /** get_rows_by_func: the cached rows that satisfy `select`; `refresh` is ignored and nothing changes. */
    method GetRowsByFunc(select: Row -> bool, refresh: bool) returns (r: Result<seq<Row>>)
      requires Valid()
      ensures Check(ALL).Fail? ==> r == Err(Check(ALL).error)
      ensures Check(ALL).Pass? ==> listed.Some? && r == Ok(Filter(listed.value, select))
    {
      var check := Check(ALL);
      if check.Fail? {
        return Err(check.error);
      }
      r := Ok(Filter(listed.value, select));
    }

    /** get_column_by_row: a row identifier that is not an int raises a bare Exception. */
    method GetColumnByRow(value: string, row: RowId, refresh: bool) returns (r: Result<Option<seq<string>>>)
      requires Valid()
      modifies this, sheet
      ensures Valid()
      ensures !old(Connected()) ==> r == Err(old(Check(ALL)).error) && Untouched()
      ensures old(Connected()) ==> Reloaded(refresh, [])
      ensures old(Connected()) && row.OtherRow? ==> r == Err(PlainException(BadRow))
      ensures old(Connected()) && row.RowIndex? ==> r == ColumnByRow(listed.value, row.index, value)
    {
      var check := Check(ALL);
      if check.Fail? {
        return Err(check.error);
      }
      if refresh {
        Sync();
      }
      assert Connected() && sheet == old(sheet);
      match row {
        case OtherRow =>
          r := Err(PlainException(BadRow));
        case RowIndex(i) =>
          r := ColumnByRow(listed.value, i, value);
      }
    }

    /** get_header_index: the first position of `header` in the header line. */
    method GetHeaderIndex(header: string, refresh: bool) returns (r: Result<nat>)
      requires Valid()
      modifies this, sheet
      ensures Valid() && Kept()
      ensures !old(Connected()) ==> r == Err(old(Check(ALL)).error) && Untouched()
      ensures old(Connected()) ==> Reloaded(refresh, []) && r == HeaderPosition(HeaderLine(listed, orientation, headerDepth), header)
    {
      var check := Check(ALL);
      if check.Fail? {
        return Err(check.error);
      }
      if refresh {
        Sync();
      }
      assert Connected() && sheet == old(sheet);
      r := HeaderPosition(HeaderLine(listed, orientation, headerDepth), header);
    }

    /** get_dime_by_header: the first row whose cell under `header` is `value` (vertical sheets). */
    method GetDimeByHeader(value: string, header: string, refresh: bool) returns (r: Result<Option<Row>>)
      requires Valid()
      modifies this, sheet
      ensures Valid()
      ensures !old(Connected()) ==> r == Err(old(Check(ALL)).error) && Untouched()
      ensures old(Connected()) ==>
        Reloaded(refresh, []) && r == DimeByHeader(listed.value, orientation.value, HeaderLine(listed, orientation, headerDepth), header, value)
    {
      var check := Check(ALL);
      if check.Fail? {
        return Err(check.error);
      }
      if refresh {
        Sync();
      }
      assert Connected() && sheet == old(sheet);
      r := DimeByHeader(listed.value, orientation.value, HeaderLine(listed, orientation, headerDepth), header, value);
    }

    /** The `range(len(values))` loop: item k is appended at position offset + k + 1 of `line`. */
    method AppendPositional(line: Line, offset: int, items: seq<string>)
      modifies this
      ensures Snapshot() == old(Snapshot()).(commits := old(commits) + Positional(line, offset, items))
    {
      var k := 0;
      while k < |items|
        invariant 0 <= k <= |items|
        invariant Snapshot() == old(Snapshot()).(commits := old(commits) + Positional(line, offset, items[..k]))
      {
        assert items[..k + 1][..k] == items[..k];
        commits := commits + [Place(line, k + 1 + offset, items[k])];
        k := k + 1;
      }
      assert items[..k] == items;
    }

    /** The `values.items()` loop: a key found in `slice` is appended at its position there plus one. */
    method AppendKeyed(line: Line, slice: seq<string>, entries: Record)
      modifies this
      ensures Snapshot() == old(Snapshot()).(commits := old(commits) + Keyed(line, slice, entries))
    {
      var k := 0;
      while k < |entries|
        invariant 0 <= k <= |entries|
        invariant Snapshot() == old(Snapshot()).(commits := old(commits) + Keyed(line, slice, entries[..k]))
      {
        assert entries[..k + 1][..k] == entries[..k];
        var e := entries[k];
        if e.key in slice {
          commits := commits + [Place(line, IndexOf(slice, e.key) + 1, e.value)];
        }
        k := k + 1;
      }
      assert entries[..k] == entries;
    }

    /** The branches on the type of `values`: only a list is positional; a tuple appends nothing. */
    method AppendValues(line: Line, offset: int, values: Values) returns (error: Option<Error>)
      modifies this
      ensures match CommitPlan(line, offset, values, HeaderLine(listed, orientation, headerDepth), false)
        case Err(e) => error == Some(e) && Snapshot() == old(Snapshot())
        case Ok(cells) => error == None && Snapshot() == old(Snapshot()).(commits := old(commits) + cells)
    {
      match values {
        case ListOf(items) =>
          AppendPositional(line, offset, items);
        case TupleOf(_) =>
        case DictOf(entries) =>
          var slice := HeaderSlice(HeaderLine(listed, orientation, headerDepth), offset);  // `self.headers`, whose guard has passed
          if slice.Err? {
            return Some(slice.error);
          }
          AppendKeyed(line, slice.value, entries);
        case OtherValues =>
      }
      return None;
    }

    /**
     * Appends the edits for `values` along `line` and returns
     * `[x for x in set(self.commits) if x not in old_commits]` as a set.
     */
    method AppendFresh(line: Line, offset: int, values: Values) returns (r: Result<set<Cell>>)
      modifies this
      ensures match CommitPlan(line, offset, values, HeaderLine(listed, orientation, headerDepth), false)
        case Err(e) => r == Err(e) && Snapshot() == old(Snapshot())
        case Ok(cells) => r == Ok(Fresh(cells, old(commits))) && Snapshot() == old(Snapshot()).(commits := old(commits) + cells)
    {
      var before := commits;
      var error := AppendValues(line, offset, values);
      if error.Some? {
        return Err(error.value);
      }
      FreshIsSetDifference(before, commits[|before|..]);
      assert commits == before + commits[|before|..];
      r := Ok((set c | c in commits) - (set c | c in before));
    }

    /** commit_new_row: values go on the row below the cached grid; returns the new edits as a set. */
    method CommitNewRow(values: Values, offset: int, refresh: bool) returns (r: Result<set<Cell>>)
      requires Valid()
      modifies this, sheet
      ensures Valid()
      ensures !old(Connected()) ==> r == Err(old(Check(ALL)).error) && Untouched()
      ensures old(Connected()) ==> sheet != null && sheet == old(sheet)
      ensures old(Connected()) ==>
        match CommitPlan(AlongRow(|listed.value| + 1), offset, values, HeaderLine(listed, orientation, headerDepth), false)
        case Err(e) => r == Err(e) && Reloaded(refresh, [])
        case Ok(cells) => Reloaded(refresh, cells) && r == Ok(Fresh(cells, if refresh then [] else old(commits)))
    {
      var check := Check(ALL);
      if check.Fail? {
        return Err(check.error);
      }
      if refresh {
        Sync();
      }
      assert Connected() && sheet == old(sheet);
      ghost var mid := Snapshot();
      r := AppendFresh(AlongRow(|listed.value| + 1), offset, values);
      assert Snapshot() == mid.(commits := commits);
    }

    /** commit_new_column: values go in the column right of the first cached row; returns the new edits as a set. */
    method CommitNewColumn(values: Values, offset: int, refresh: bool) returns (r: Result<set<Cell>>)
      requires Valid()
      modifies this, sheet
      ensures Valid()
      ensures !old(Connected()) ==> r == Err(old(Check(ALL)).error) && Untouched()
      ensures old(Connected()) ==> sheet != null && sheet == old(sheet)
      ensures old(Connected()) && listed.value == [] ==> r == Err(IndexError) && Reloaded(refresh, [])
      ensures old(Connected()) && listed.value != [] ==>
        match CommitPlan(AlongColumn(|listed.value[0]| + 1), offset, values, HeaderLine(listed, orientation, headerDepth), false)
        case Err(e) => r == Err(e) && Reloaded(refresh, [])
        case Ok(cells) => Reloaded(refresh, cells) && r == Ok(Fresh(cells, if refresh then [] else old(commits)))
    {
      var check := Check(ALL);
      if check.Fail? {
        return Err(check.error);
      }
      r := CommitColumnConnected(values, offset, refresh);
    }

    /** commit_new_column past its guard. */
    method CommitColumnConnected(values: Values, offset: int, refresh: bool) returns (r: Result<set<Cell>>)
      requires Connected()
      modifies this, sheet
      ensures Connected() && Kept()
      ensures listed.value == [] ==> r == Err(IndexError) && Reloaded(refresh, [])
      ensures listed.value != [] ==>
        match CommitPlan(AlongColumn(|listed.value[0]| + 1), offset, values, HeaderLine(listed, orientation, headerDepth), false)
        case Err(e) => r == Err(e) && Reloaded(refresh, [])
        case Ok(cells) => Reloaded(refresh, cells) && r == Ok(Fresh(cells, if refresh then [] else old(commits)))
    {
      if refresh {
        Sync();
      }
      assert Connected() && sheet == old(sheet);
      if listed.value == [] {
        return Err(IndexError);
      }
      ghost var mid := Snapshot();
      r := AppendFresh(AlongColumn(|listed.value[0]| + 1), offset, values);
      assert Snapshot() == mid.(commits := commits);
    }

    /**
     * update_vertical_data: the header looked up is the value
     * `data[primaryKey]`, not the key, and each edit is placed at
     * (header index, row index), both 0-based.
     */
    method UpdateVerticalData(data: UpdateData, primaryKey: string, refresh: bool) returns (r: Outcome)
      requires Valid()
      modifies this, sheet
      ensures Valid()
      ensures !old(Connected()) ==> r == old(Check(ALL)) && Untouched()
      ensures old(Connected()) ==> sheet == old(sheet) && client == old(client) && document == old(document)
      ensures old(Connected()) && data.OtherData? ==> r == Fail(AssertionError) && Untouched()
      ensures old(Connected()) && data.DataDict? && !refresh ==>
        match VerticalUpdate(listed.value, HeaderLine(listed, orientation, headerDepth), data.entries, primaryKey, true)
        case Err(e) => r == Fail(e) && Reloaded(false, [])
        case Ok(plan) => Reloaded(false, plan.edits) && r == (if plan.stop.Some? then Fail(plan.stop.value) else Pass)
    {
      var check := Check(ALL);
      if check.Fail? {
        return check;
      }
      if data.OtherData? {
        return Fail(AssertionError);
      }
      if !HasKey(data.entries, primaryKey) {
        return Fail(KeyError);
      }
      var key := ValueOf(data.entries, primaryKey);
      var index := GetHeaderIndex(key, refresh);
      if index.Err? {
        return Fail(index.error);
      }
      var found := GetRowByColumn(key, ByIndex(index.value), refresh);
      if found.Err? {
        return Fail(found.error);
      }
      if found.value.None? {
        return Fail(IdentificationError(PrimaryKeyRow));
      }
      var active := found.value.value;
      var rowIndex := IndexOf(listed.value, active);
      if !refresh {
        MatchedRowIndex(listed.value, index.value, key);
      }
      ghost var line := match HeaderLine(listed, orientation, headerDepth) case Ok(Some(l)) => l case _ => [];
      r := QueueChanges(data.entries, active, rowIndex, refresh, line);
    }

    /** The loop of update_vertical_data over the entries of `data`. */
    method QueueChanges(data: Record, active: Row, rowIndex: nat, refresh: bool, ghost line: seq<string>) returns (r: Outcome)
      requires Connected()
      modifies this, sheet
      ensures Connected() && Kept()
      ensures !refresh && old(HeaderLine(listed, orientation, headerDepth)) == Ok(Some(line)) ==>
        var plan := UpdatePlan(line, active, rowIndex, data, true);
        Reloaded(false, plan.edits) && r == (if plan.stop.Some? then Fail(plan.stop.value) else Pass)
    {
      ghost var exact := !refresh && HeaderLine(listed, orientation, headerDepth) == Ok(Some(line));
      ghost var queued := [];
      var stop: Option<Error> := None;
      var i := 0;
      while i < |data| && stop.None?
        invariant 0 <= i <= |data|
        invariant Connected() && Kept()
        invariant exact ==> HeaderLine(listed, orientation, headerDepth) == Ok(Some(line))
        invariant exact ==> UpdatePlan(line, active, rowIndex, data[..i], true) == Plan(queued, stop)
        invariant exact ==> Snapshot() == old(Snapshot()).(commits := old(commits) + queued) && unchanged(sheet)
      {
        ghost var step := UpdateStep(line, active, rowIndex, data[i], true);
        if exact {
          UpdatePlanExtend(line, active, rowIndex, data, true, i);
        }
        stop := QueueOne(data[i], active, rowIndex, refresh, line);
        queued := queued + step.edits;
        i := i + 1;
      }
      if exact {
        if stop.Some? {
          UpdatePlanStops(line, active, rowIndex, data, true, i);
        } else {
          assert data[..i] == data;
        }
      }
      r := if stop.Some? then Fail(stop.value) else Pass;
    }

    /** One pass of that loop; the edit is Cell(row := header index, col := row index). */
    method QueueOne(e: Entry, active: Row, rowIndex: nat, refresh: bool, ghost line: seq<string>) returns (stop: Option<Error>)
      requires Connected()
      modifies this, sheet
      ensures Connected() && Kept()
      ensures !refresh && old(HeaderLine(listed, orientation, headerDepth)) == Ok(Some(line)) ==>
        var step := UpdateStep(line, active, rowIndex, e, true);
        Reloaded(false, step.edits) && stop == step.stop
    {
      var headers := HeaderLine(listed, orientation, headerDepth);  // `self.headers`, whose guard has passed
      if headers.Err? {
        stop := Some(headers.error);
      } else if headers.value.None? {
        stop := Some(TypeError);
      } else if e.key !in headers.value.value {
        stop := None;
      } else {
        var h := GetHeaderIndex(e.key, refresh);
        if h.Err? {
          stop := Some(h.error);
        } else if h.value >= |active| {
          stop := Some(IndexError);
        } else if active[h.value] == e.value {
          stop := None;
        } else {
          var h2 := GetHeaderIndex(e.key, refresh);
          if h2.Err? {
            stop := Some(h2.error);
          } else {
            commits := commits + [Cell(h2.value, rowIndex, e.value)];
            stop := None;
          }
        }
      }
    }

    /** delete_row_existence: the 0-based row is made 1-based and deleted, then the cache is fetched again. */
    method DeleteRowExistence(row: int) returns (r: Outcome)
      requires Valid()
      modifies this, sheet
      ensures Valid()
      ensures !old(Connected()) ==> r == old(Check(ALL)) && Untouched()
      ensures old(Connected()) ==>
        r == Pass && sheet == old(sheet) && sheet.log == old(sheet.log) + [RowDeletion([row + 1])] &&
        Snapshot() == old(Snapshot()).(listed := Some(sheet.grid))
    {
      var check := Check(ALL);
      if check.Fail? {
        return check;
      }
      sheet.DeleteRows([row + 1]);
      var grid := sheet.GetAllValues();
      listed := Some(grid);
      return Pass;
    }

    /** delete_col_existence: the 0-based column is made 1-based and deleted, then the cache is fetched again. */
    method DeleteColExistence(col: int) returns (r: Outcome)
      requires Valid()
      modifies this, sheet
      ensures Valid()
      ensures !old(Connected()) ==> r == old(Check(ALL)) && Untouched()
      ensures old(Connected()) ==>
        r == Pass && sheet == old(sheet) && sheet.log == old(sheet.log) + [ColumnDeletion([col + 1])] &&
        Snapshot() == old(Snapshot()).(listed := Some(sheet.grid))
    {
      var check := Check(ALL);
      if check.Fail? {
        return check;
      }
      sheet.DeleteColumns([col + 1]);
      var grid := sheet.GetAllValues();
      listed := Some(grid);
      return Pass;
    }
  }
}
