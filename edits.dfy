/**
 * The cell edits the commit methods append to the buffer, as functions of
 * the cache size, the offset and the header line: positional values, dict
 * values placed by header, several rows at once, and the edits of
 * update_vertical_data.
 */
module Edits {
  import opened Sheets
  import opened PySeq
  import opened Queries

  /** Where a commit puts its values: along one row, or down one column (both 1-based). */
  datatype Line = AlongRow(row: int) | AlongColumn(col: int)

  /** The edit writing `value` at 1-based position `pos` of `line`. */
  function Place(line: Line, pos: int, value: string): Cell {
    match line
    case AlongRow(row) => Cell(row, pos, value)
    case AlongColumn(col) => Cell(pos, col, value)
  }

  /** The position of an edit along `line`: its column for a row, its row for a column. */
  function PositionOn(line: Line, cell: Cell): int {
    match line
    case AlongRow(_) => cell.col
    case AlongColumn(_) => cell.row
  }

  /**
   * The list (or tuple) branch: item k goes to position offset + k + 1 of the
   * line, in order.
   */
  function Positional(line: Line, offset: int, items: seq<string>): (edits: seq<Cell>)
    ensures |edits| == |items|
  {
    if items == [] then []
    else Positional(line, offset, items[..|items| - 1]) + [Place(line, offset + |items|, items[|items| - 1])]
  }

  /** Item k is written at position offset + k + 1, so the list lands in order. */
  lemma {:induction false} PositionalNth(line: Line, offset: int, items: seq<string>, k: nat)
    requires k < |items|
    ensures Positional(line, offset, items)[k] == Place(line, offset + k + 1, items[k])
  {
    if k < |items| - 1 {
      PositionalNth(line, offset, items[..|items| - 1], k);
    }
  }

  /**
   * The dict branch: an entry whose key occurs in `slice` (the header line
   * from the offset on) goes to the key's position in `slice` plus one, the
   * offset not added; other keys are skipped.
   */
  function Keyed(line: Line, slice: seq<string>, entries: Record): (edits: seq<Cell>)
    ensures |edits| <= |entries|
  {
    if entries == [] then []
    else
      var last := entries[|entries| - 1];
      var rest := Keyed(line, slice, entries[..|entries| - 1]);
      if last.key in slice then rest + [Place(line, IndexOf(slice, last.key) + 1, last.value)]
      else rest
  }

  /**
   * Every dict edit sits on `line` at a position of `slice` whose header is
   * a key of the dict, and writes that key's value.
   */
  lemma {:induction false} KeyedPlacesKnownKeys(line: Line, slice: seq<string>, entries: Record)
    ensures forall i :: 0 <= i < |Keyed(line, slice, entries)| ==>
      var c := Keyed(line, slice, entries)[i];
      var p := PositionOn(line, c);
      1 <= p <= |slice| && c == Place(line, p, c.value) && Entry(slice[p - 1], c.value) in entries
  {
    if entries != [] {
      var front := entries[..|entries| - 1];
      var last := entries[|entries| - 1];
      KeyedPlacesKnownKeys(line, slice, front);
      var edits := Keyed(line, slice, entries);
      forall i | 0 <= i < |edits|
        ensures var p := PositionOn(line, edits[i]);
          1 <= p <= |slice| && edits[i] == Place(line, p, edits[i].value) && Entry(slice[p - 1], edits[i].value) in entries
      {
        if i < |Keyed(line, slice, front)| {
          var p := PositionOn(line, edits[i]);
          assert Entry(slice[p - 1], edits[i].value) in front;
        } else {
          assert edits[i] == Place(line, IndexOf(slice, last.key) + 1, last.value);
        }
      }
    }
  }

  /** Whether an entry's key is one of the headers. */
  function IsKnown(slice: seq<string>): Entry -> bool {
    (e: Entry) => e.key in slice
  }

  /** The entries of a dict whose key is one of the headers, in dict order. */
  function Known(slice: seq<string>, entries: Record): (known: seq<Entry>)
    ensures forall i :: 0 <= i < |known| ==> known[i].key in slice
  {
    var known := Filter(entries, IsKnown(slice));
    assert forall i :: 0 <= i < |known| ==> IsKnown(slice)(known[i]);
    known
  }

  /** One more dict entry adds at most its own edit to the end. */
  lemma {:induction false} KeyedStep(line: Line, slice: seq<string>, entries: Record)
    requires entries != []
    ensures var last := entries[|entries| - 1];
      Keyed(line, slice, entries) == Keyed(line, slice, entries[..|entries| - 1]) +
        (if last.key in slice then [Place(line, IndexOf(slice, last.key) + 1, last.value)] else [])
  {
  }

  /** One more dict entry adds at most itself to the end of the known entries. */
  lemma KnownStep(slice: seq<string>, entries: Record)
    requires entries != []
    ensures var last := entries[|entries| - 1];
      Known(slice, entries) == Known(slice, entries[..|entries| - 1]) + (if last.key in slice then [last] else [])
  {
    var front := entries[..|entries| - 1];
    var last := entries[|entries| - 1];
    assert entries == front + [last];
    FilterAppend(front, [last], IsKnown(slice));
    assert [last][1..] == [];
  }

  /** The dict branch queues one edit per known entry. */
  lemma {:induction false} KeyedLength(line: Line, slice: seq<string>, entries: Record)
    ensures |Keyed(line, slice, entries)| == |Known(slice, entries)|
  {
    if entries != [] {
      KeyedLength(line, slice, entries[..|entries| - 1]);
      KeyedStep(line, slice, entries);
      KnownStep(slice, entries);
    }
  }

  /** Edit i of the dict branch writes known entry i under its key. */
  lemma {:induction false} KeyedNth(line: Line, slice: seq<string>, entries: Record, i: nat)
    requires i < |Known(slice, entries)|
    ensures i < |Keyed(line, slice, entries)|
    ensures Keyed(line, slice, entries)[i] == Place(line, IndexOf(slice, Known(slice, entries)[i].key) + 1, Known(slice, entries)[i].value)
  {
    var front := entries[..|entries| - 1];
    KeyedLength(line, slice, entries);
    KeyedLength(line, slice, front);
    KeyedStep(line, slice, entries);
    KnownStep(slice, entries);
    if i < |Known(slice, front)| {
      KeyedNth(line, slice, front, i);
    }
  }

  /** The dict branch queues exactly the known entries, in dict order, each under its key. */
  lemma KeyedIsKnownInOrder(line: Line, slice: seq<string>, entries: Record)
    ensures |Keyed(line, slice, entries)| == |Known(slice, entries)|
    ensures forall i :: 0 <= i < |Known(slice, entries)| ==>
      Keyed(line, slice, entries)[i] == Place(line, IndexOf(slice, Known(slice, entries)[i].key) + 1, Known(slice, entries)[i].value)
  {
    KeyedLength(line, slice, entries);
    forall i | 0 <= i < |Known(slice, entries)|
      ensures Keyed(line, slice, entries)[i] == Place(line, IndexOf(slice, Known(slice, entries)[i].key) + 1, Known(slice, entries)[i].value)
    {
      KeyedNth(line, slice, entries, i);
    }
  }

  /**
   * Several items placed on consecutive rows: item i goes to row base + i + 1,
   * and `each` builds its edits along that row.
   */
  function Stacked<T>(base: int, items: seq<T>, each: (Line, T) -> seq<Cell>): seq<Cell> {
    if items == [] then []
    else Stacked(base, items[..|items| - 1], each) + each(AlongRow(base + |items|), items[|items| - 1])
  }

  /** The edits of the first i items come first. */
  lemma {:induction false} StackedPrefix<T>(base: int, items: seq<T>, each: (Line, T) -> seq<Cell>, i: nat)
    requires i <= |items|
    ensures Stacked(base, items[..i], each) <= Stacked(base, items, each)
    decreases |items| - i
  {
    if i < |items| {
      StackedPrefix(base, items, each, i + 1);
      assert items[..i + 1][..i] == items[..i];
    } else {
      assert items[..i] == items;
    }
  }

  /** Stacking one more item appends its edits, on the row after the previous item's. */
  lemma StackedStep<T>(base: int, items: seq<T>, each: (Line, T) -> seq<Cell>, i: nat)
    requires i < |items|
    ensures Stacked(base, items[..i + 1], each) == Stacked(base, items[..i], each) + each(AlongRow(base + i + 1), items[i])
  {
    assert items[..i + 1][..i] == items[..i];
  }

  /** The edits of item i follow those of items 0 .. i-1, contiguously and in order, on row base + i + 1. */
  lemma StackedItem<T>(base: int, items: seq<T>, each: (Line, T) -> seq<Cell>, i: nat)
    requires i < |items|
    ensures var start := |Stacked(base, items[..i], each)|;
      var mine := each(AlongRow(base + i + 1), items[i]);
      start + |mine| <= |Stacked(base, items, each)| &&
      Stacked(base, items, each)[start..start + |mine|] == mine
  {
    StackedPrefix(base, items, each, i + 1);
    assert items[..i + 1][..i] == items[..i];
  }

  /**
   * The header line from the offset on, as the dict branch uses it: the
   * property's error propagates, a missing line (None) cannot be sliced
   * (TypeError) and an empty slice fails the assertion.
   */
  function HeaderSlice(headers: Result<Option<seq<string>>>, offset: int): (r: Result<seq<string>>)
    ensures r.Ok? ==> r.value != [] && headers.Ok? && headers.value.Some? && r.value == SliceFrom(headers.value.value, offset)
    ensures headers.Err? ==> r == Err(headers.error)
    ensures headers == Ok(None) ==> r == Err(TypeError)
    ensures headers.Ok? && headers.value.Some? && SliceFrom(headers.value.value, offset) == [] ==> r == Err(AssertionError)
  {
    match headers
    case Err(e) => Err(e)
    case Ok(None) => Err(TypeError)
    case Ok(Some(line)) =>
      var slice := SliceFrom(line, offset);
      if slice == [] then Err(AssertionError) else Ok(slice)
  }

  /**
   * The edits commit_new_row / commit_new_column append for `values` along
   * `line`, or the error raised before anything is appended. `tuples` says
   * whether a tuple counts as positional (src) or as nothing (legacy).
   */
  function CommitPlan(line: Line, offset: int, values: Values, headers: Result<Option<seq<string>>>, tuples: bool): (r: Result<seq<Cell>>)
    ensures values.ListOf? ==> r == Ok(Positional(line, offset, values.items))
    ensures values.TupleOf? ==> r == Ok(if tuples then Positional(line, offset, values.items) else [])
    ensures values.OtherValues? ==> r == Ok([])
    ensures values.DictOf? && HeaderSlice(headers, offset).Err? ==> r == Err(HeaderSlice(headers, offset).error)
    ensures values.DictOf? && HeaderSlice(headers, offset).Ok? ==>
      r == Ok(Keyed(line, HeaderSlice(headers, offset).value, values.entries))
  {
    match values
    case ListOf(items) => Ok(Positional(line, offset, items))
    case TupleOf(items) => Ok(if tuples then Positional(line, offset, items) else [])
    case DictOf(entries) =>
      (match HeaderSlice(headers, offset)
       case Err(e) => Err(e)
       case Ok(slice) => Ok(Keyed(line, slice, entries)))
    case OtherValues => Ok([])
  }

  /** With offset 0, every keyed edit lands under the header that equals its key. */
  lemma KeyedLandsUnderItsHeader(row: int, line: seq<string>, entries: Record)
    requires line != []
    ensures forall e :: e in Keyed(AlongRow(row), SliceFrom(line, 0), entries) ==>
      e.row == row && 1 <= e.col <= |line| && Entry(line[e.col - 1], e.value) in entries
  {
    assert SliceFrom(line, 0) == line;
    KeyedPlacesKnownKeys(AlongRow(row), line, entries);
    forall e | e in Keyed(AlongRow(row), line, entries)
      ensures e.row == row && 1 <= e.col <= |line| && Entry(line[e.col - 1], e.value) in entries
    {
      var i :| 0 <= i < |Keyed(AlongRow(row), line, entries)| && Keyed(AlongRow(row), line, entries)[i] == e;
    }
  }

  /**
   * With a positive offset the dict branch still counts positions from the
   * first header of the slice: for headers [id, name, age] and offset 1 the
   * key "name" is placed in column 1, the column headed "id". This is one
   * worked instance of what KeyedNth states in general, kept as an illustration.
   */
  lemma KeyedIgnoresOffset()
    ensures Keyed(AlongRow(5), SliceFrom(["id", "name", "age"], 1), [Entry("name", "Bob")]) == [Cell(5, 1, "Bob")]
  {
    var slice := SliceFrom(["id", "name", "age"], 1);
    assert slice == ["name", "age"];
    assert IndexOf(slice, "name") == 0;
    assert [Entry("name", "Bob")][..0] == [];
  }

  /** The positional edits of one row of a batch. */
  function RowOfItems(offset: int): (Line, seq<string>) -> seq<Cell> {
    (line: Line, items: seq<string>) => Positional(line, offset, items)
  }

  /** The keyed edits of one dict of a batch. */
  function RowOfEntries(slice: seq<string>): (Line, Record) -> seq<Cell> {
    (line: Line, entries: Record) => Keyed(line, slice, entries)
  }

  /** One more list of a batch appends its positional edits on the next row. */
  lemma RowsStep(base: int, offset: int, rows: seq<seq<string>>, i: nat)
    requires i < |rows|
    ensures Stacked(base, rows[..i + 1], RowOfItems(offset)) ==
      Stacked(base, rows[..i], RowOfItems(offset)) + Positional(AlongRow(base + i + 1), offset, rows[i])
  {
    StackedStep(base, rows, RowOfItems(offset), i);
  }

  /** One more dict of a batch appends its keyed edits on the next row. */
  lemma RecordsStep(base: int, slice: seq<string>, records: seq<Record>, i: nat)
    requires i < |records|
    ensures Stacked(base, records[..i + 1], RowOfEntries(slice)) ==
      Stacked(base, records[..i], RowOfEntries(slice)) + Keyed(AlongRow(base + i + 1), slice, records[i])
  {
    StackedStep(base, records, RowOfEntries(slice), i);
  }

  /**
   * The edits commit_new_multiple_rows appends below `base` existing rows, or
   * the error raised before anything is appended: `values[0]` of an empty
   * batch raises IndexError, and dicts need a usable header slice.
   */
  function BatchPlan(base: int, offset: int, batch: Batch, headers: Result<Option<seq<string>>>): (r: Result<seq<Cell>>)
    ensures batch.ListRows? && batch.rows == [] ==> r == Err(IndexError)
    ensures batch.ListRows? && batch.rows != [] ==> r == Ok(Stacked(base, batch.rows, RowOfItems(offset)))
    ensures batch.DictRows? && batch.records == [] ==> r == Err(IndexError)
    ensures batch.DictRows? && batch.records != [] && HeaderSlice(headers, offset).Err? ==>
      r == Err(HeaderSlice(headers, offset).error)
    ensures batch.DictRows? && batch.records != [] && HeaderSlice(headers, offset).Ok? ==>
      r == Ok(Stacked(base, batch.records, RowOfEntries(HeaderSlice(headers, offset).value)))
  {
    match batch
    case ListRows(rows) =>
      if rows == [] then Err(IndexError) else Ok(Stacked(base, rows, RowOfItems(offset)))
    case DictRows(records) =>
      if records == [] then Err(IndexError)
      else match HeaderSlice(headers, offset)
        case Err(e) => Err(e)
        case Ok(slice) => Ok(Stacked(base, records, RowOfEntries(slice)))
  }

  /**
   * Row i of a positional batch is written, in order, to sheet row
   * base + i + 1 at columns offset + 1 .. offset + |row i|.
   */
  lemma BatchRowPlacement(base: int, offset: int, rows: seq<seq<string>>, i: nat, k: nat)
    requires i < |rows| && k < |rows[i]|
    ensures var start := |Stacked(base, rows[..i], RowOfItems(offset))|;
      start + k < |Stacked(base, rows, RowOfItems(offset))| &&
      Stacked(base, rows, RowOfItems(offset))[start + k] == Cell(base + i + 1, offset + k + 1, rows[i][k])
  {
    StackedItem(base, rows, RowOfItems(offset), i);
    var start := |Stacked(base, rows[..i], RowOfItems(offset))|;
    var mine := RowOfItems(offset)(AlongRow(base + i + 1), rows[i]);
    assert mine == Positional(AlongRow(base + i + 1), offset, rows[i]);
    PositionalNth(AlongRow(base + i + 1), offset, rows[i], k);
    assert Stacked(base, rows, RowOfItems(offset))[start + k] == mine[k];
  }

  /**
   * The return value of commit_new_multiple_rows (src): the buffer entries
   * that occur more than once in the buffer and were not in it before, in
   * buffer order.
   */
  function Repeated(commits: seq<Cell>, earlier: seq<Cell>): (r: seq<Cell>)
    ensures multiset(r) <= multiset(commits)
    ensures forall i :: 0 <= i < |r| ==> multiset(commits)[r[i]] > 1 && r[i] !in earlier
  {
    var relevant := Filter(commits, (c: Cell) => multiset(commits)[c] > 1);
    Filter(relevant, (c: Cell) => c !in earlier)
  }

  /** Every buffer entry that occurs twice and is new is reported. */
  lemma RepeatedKeeps(commits: seq<Cell>, earlier: seq<Cell>, i: nat)
    requires i < |commits| && multiset(commits)[commits[i]] > 1 && commits[i] !in earlier
    ensures commits[i] in Repeated(commits, earlier)
  {
    var twice := (c: Cell) => multiset(commits)[c] > 1;
    var relevant := Filter(commits, twice);
    FilterKeeps(commits, twice, i);
    var j :| 0 <= j < |relevant| && relevant[j] == commits[i];
    FilterKeeps(relevant, (c: Cell) => c !in earlier, j);
  }

  /** `[x for x in set(commits) if x not in old_commits]` after `added` was appended to `before`, as a set. */
  function Fresh(added: seq<Cell>, before: seq<Cell>): (r: set<Cell>)
    ensures forall c :: c in r <==> c in added && c !in before
  {
    set c | c in added && c !in before
  }

  /** The set difference the source computes over the whole buffer is Fresh. */
  lemma FreshIsSetDifference(before: seq<Cell>, added: seq<Cell>)
    ensures (set c | c in before + added) - (set c | c in before) == Fresh(added, before)
  {
  }

  // ----- update_vertical_data -----

  /** `key in data` for a Python dict. */
  predicate HasKey(data: Record, key: string) {
    exists i :: 0 <= i < |data| && data[i].key == key
  }

  /** `data[key]`: the value stored under the key (its first entry). */
  function ValueOf(data: Record, key: string): (v: string)
    requires HasKey(data, key)
    ensures Entry(key, v) in data
  {
    if data[0].key == key then data[0].value else ValueOf(data[1..], key)
  }

  /** A Python dict never holds one key twice. */
  predicate DistinctKeys(data: Record) {
    forall i, j :: 0 <= i < j < |data| ==> data[i].key != data[j].key
  }

  /** In a dict the value of a key is the only value stored with it. */
  lemma OnlyValueOfKey(data: Record, key: string, v: string)
    requires DistinctKeys(data) && Entry(key, v) in data
    ensures HasKey(data, key) && ValueOf(data, key) == v
  {
    var i :| 0 <= i < |data| && data[i] == Entry(key, v);
    assert data[i].key == key;
    var w := ValueOf(data, key);
    var j :| 0 <= j < |data| && data[j] == Entry(key, w);
    assert i == j;
  }

  /** Accumulated edits and, when the loop stopped early, the error it raised. */
  datatype Plan = Plan(edits: seq<Cell>, stop: Option<Error>)

  /**
   * The edit for a changed cell: row index + 1 and header index + 1 (src), or
   * the legacy client's swapped, 0-based (header index, row index).
   */
  function UpdateCell(swapped: bool, rowIndex: int, headerIndex: int, value: string): Cell {
    if swapped then Cell(headerIndex, rowIndex, value) else Cell(rowIndex + 1, headerIndex + 1, value)
  }

  /** The header index an update edit was made for. */
  function HeaderIndexOf(swapped: bool, cell: Cell): int {
    if swapped then cell.row else cell.col - 1
  }

  /**
   * One pass of the loop of update_vertical_data: an entry whose key is a
   * header and whose cell in `active` differs gives one edit; a header past
   * the end of `active` raises IndexError.
   */
  function UpdateStep(headers: seq<string>, active: Row, rowIndex: int, e: Entry, swapped: bool): (p: Plan)
    ensures |p.edits| <= 1 && (p.stop.Some? ==> p.edits == [] && p.stop.value == IndexError)
    ensures e.key !in headers ==> p == Plan([], None)
    ensures e.key in headers && |p.edits| == 1 ==>
      var h := IndexOf(headers, e.key);
      h < |active| && active[h] != e.value && p.edits[0] == UpdateCell(swapped, rowIndex, h, e.value)
  {
    if e.key !in headers then Plan([], None)
    else
      var h := IndexOf(headers, e.key);
      if h >= |active| then Plan([], Some(IndexError))
      else if active[h] != e.value then Plan([UpdateCell(swapped, rowIndex, h, e.value)], None)
      else Plan([], None)
  }

  /**
   * The loop of update_vertical_data over `entries`, against header line
   * `headers` and the matched row `active`: a key that is a header and whose
   * current cell differs queues an edit; a header past the end of `active`
   * raises IndexError and ends the loop.
   */
  function UpdatePlan(headers: seq<string>, active: Row, rowIndex: int, entries: Record, swapped: bool): (p: Plan)
    ensures p.stop.Some? ==> p.stop.value == IndexError
  {
    if entries == [] then Plan([], None)
    else
      var prev := UpdatePlan(headers, active, rowIndex, entries[..|entries| - 1], swapped);
      if prev.stop.Some? then prev
      else
        var step := UpdateStep(headers, active, rowIndex, entries[|entries| - 1], swapped);
        Plan(prev.edits + step.edits, step.stop)
  }

  /**
   * Each of `edits` is in the matched row, under the first header equal to a
   * key of `entries`, writes that key's value and differs from the cell it
   * replaces.
   */
  ghost predicate QueuedUnderHeaders(headers: seq<string>, active: Row, rowIndex: int, entries: Record, swapped: bool, edits: seq<Cell>) {
    forall i :: 0 <= i < |edits| ==>
      var h := HeaderIndexOf(swapped, edits[i]);
      0 <= h < |headers| && h < |active| && active[h] != edits[i].value &&
      edits[i] == UpdateCell(swapped, rowIndex, h, edits[i].value) &&
      h == IndexOf(headers, headers[h]) && Entry(headers[h], edits[i].value) in entries
  }

  /** Every edit update_vertical_data queues is one that the entries ask for. */
  lemma {:induction false} UpdatePlanEdits(headers: seq<string>, active: Row, rowIndex: int, entries: Record, swapped: bool)
    ensures QueuedUnderHeaders(headers, active, rowIndex, entries, swapped, UpdatePlan(headers, active, rowIndex, entries, swapped).edits)
  {
    if entries != [] {
      var front := entries[..|entries| - 1];
      var last := entries[|entries| - 1];
      assert entries == front + [last];
      var prev := UpdatePlan(headers, active, rowIndex, front, swapped);
      UpdatePlanEdits(headers, active, rowIndex, front, swapped);
      var p := UpdatePlan(headers, active, rowIndex, entries, swapped);
      if prev.stop.None? {
        var step := UpdateStep(headers, active, rowIndex, last, swapped);
        assert p.edits == prev.edits + step.edits;
        forall i | 0 <= i < |p.edits|
          ensures var h := HeaderIndexOf(swapped, p.edits[i]);
            0 <= h < |headers| && h < |active| && active[h] != p.edits[i].value &&
            p.edits[i] == UpdateCell(swapped, rowIndex, h, p.edits[i].value) &&
            h == IndexOf(headers, headers[h]) && Entry(headers[h], p.edits[i].value) in entries
        {
          if i < |prev.edits| {
            assert p.edits[i] == prev.edits[i];
          } else {
            var h := IndexOf(headers, last.key);
            assert p.edits[i] == UpdateCell(swapped, rowIndex, h, last.value);
            assert HeaderIndexOf(swapped, p.edits[i]) == h;
            assert Entry(headers[h], last.value) == last;
          }
        }
      } else {
        assert p == prev;
        forall i | 0 <= i < |p.edits|
          ensures Entry(headers[HeaderIndexOf(swapped, p.edits[i])], p.edits[i].value) in entries
        {
        }
      }
    }
  }

  /** One more entry, while the loop is still running, adds exactly what UpdateStep gives. */
  lemma UpdatePlanExtend(headers: seq<string>, active: Row, rowIndex: int, entries: Record, swapped: bool, i: nat)
    requires i < |entries|
    requires UpdatePlan(headers, active, rowIndex, entries[..i], swapped).stop == None
    ensures var step := UpdateStep(headers, active, rowIndex, entries[i], swapped);
      UpdatePlan(headers, active, rowIndex, entries[..i + 1], swapped) ==
        Plan(UpdatePlan(headers, active, rowIndex, entries[..i], swapped).edits + step.edits, step.stop)
  {
    assert entries[..i + 1][..i] == entries[..i];
  }

  /** Once the loop has stopped on an error, later entries change nothing. */
  lemma {:induction false} UpdatePlanStops(headers: seq<string>, active: Row, rowIndex: int, entries: Record, swapped: bool, n: nat)
    requires n <= |entries|
    requires UpdatePlan(headers, active, rowIndex, entries[..n], swapped).stop.Some?
    ensures UpdatePlan(headers, active, rowIndex, entries, swapped) == UpdatePlan(headers, active, rowIndex, entries[..n], swapped)
    decreases |entries| - n
  {
    if n == |entries| {
      assert entries[..n] == entries;
    } else {
      assert entries[..n + 1][..n] == entries[..n];
      UpdatePlanStops(headers, active, rowIndex, entries, swapped, n + 1);
    }
  }

  /**
   * When the loop runs to the end, every entry whose key is a header is
   * checked, and it is queued exactly when its cell differs.
   */
  lemma {:induction false} UpdatePlanQueuesEveryChange(headers: seq<string>, active: Row, rowIndex: int, entries: Record, swapped: bool, n: nat)
    requires n < |entries| && entries[n].key in headers
    requires UpdatePlan(headers, active, rowIndex, entries, swapped).stop == None
    ensures IndexOf(headers, entries[n].key) < |active|
    ensures active[IndexOf(headers, entries[n].key)] != entries[n].value ==>
      UpdateCell(swapped, rowIndex, IndexOf(headers, entries[n].key), entries[n].value) in UpdatePlan(headers, active, rowIndex, entries, swapped).edits
  {
    var front := entries[..|entries| - 1];
    var prev := UpdatePlan(headers, active, rowIndex, front, swapped);
    var last := entries[|entries| - 1];
    if prev.stop.None? && n < |entries| - 1 {
      assert front[n] == entries[n];
      UpdatePlanQueuesEveryChange(headers, active, rowIndex, front, swapped, n);
    }
  }

  /** The header update_vertical_data looks up: the primary key, or (legacy) its value. */
  function LookedUp(data: Record, primaryKey: string, legacy: bool): string
    requires HasKey(data, primaryKey)
  {
    if legacy then ValueOf(data, primaryKey) else primaryKey
  }

  /**
   * update_vertical_data once the guard has passed and nothing refreshes:
   * `data[primary_key]` (KeyError when absent), the header index of the
   * primary key (the legacy client looks up the key's value instead), the
   * first row holding the value there (IdentificationError when none), its
   * position via `listed.index`, then the loop over `data`.
   */
  function VerticalUpdate(rows: Grid, headers: Result<Option<seq<string>>>, data: Record, primaryKey: string, legacy: bool): (r: Result<Plan>)
    ensures !HasKey(data, primaryKey) ==> r == Err(KeyError)
    ensures HasKey(data, primaryKey) && HeaderPosition(headers, LookedUp(data, primaryKey, legacy)).Err? ==>
      r == Err(HeaderPosition(headers, LookedUp(data, primaryKey, legacy)).error)
    ensures r.Ok? ==> headers.Ok? && headers.value.Some?
  {
    if !HasKey(data, primaryKey) then Err(KeyError)
    else
      var key := ValueOf(data, primaryKey);
      match HeaderPosition(headers, LookedUp(data, primaryKey, legacy))
      case Err(e) => Err(e)
      case Ok(index) =>
        match FindRow(rows, index, key)
        case Err(e) => Err(e)
        case Ok(None) => Err(IdentificationError(PrimaryKeyRow))
        case Ok(Some(k)) =>
          Ok(UpdatePlan(headers.value.value, rows[k], IndexOf(rows, rows[k]), data, legacy))
  }

  /**
   * Once the looked-up header resolves to a column, the update hinges on the
   * row search in that column: no row holding `data[primary_key]` raises
   * IdentificationError, a row too short for the column raises IndexError,
   * and the first matching row k (whose `listed.index` is k itself) gets
   * the loop over `data`.
   */
  lemma VerticalUpdateFindsRow(rows: Grid, headers: Result<Option<seq<string>>>, data: Record, primaryKey: string, legacy: bool)
    requires HasKey(data, primaryKey) && HeaderPosition(headers, LookedUp(data, primaryKey, legacy)).Ok?
    ensures var found := FindRow(rows, HeaderPosition(headers, LookedUp(data, primaryKey, legacy)).value, ValueOf(data, primaryKey));
      (found == Ok(None) ==> VerticalUpdate(rows, headers, data, primaryKey, legacy) == Err(IdentificationError(PrimaryKeyRow))) &&
      (found.Err? ==> VerticalUpdate(rows, headers, data, primaryKey, legacy) == Err(found.error)) &&
      (found.Ok? && found.value.Some? ==>
        headers.Ok? && headers.value.Some? &&
        VerticalUpdate(rows, headers, data, primaryKey, legacy) ==
          Ok(UpdatePlan(headers.value.value, rows[found.value.value], found.value.value, data, legacy)))
  {
    var index := HeaderPosition(headers, LookedUp(data, primaryKey, legacy)).value;
    var found := FindRow(rows, index, ValueOf(data, primaryKey));
    if found.Ok? && found.value.Some? {
      MatchedRowIndex(rows, index, ValueOf(data, primaryKey));
    }
  }

  /**
   * Every edit of the src update is on the matched row (its 0-based position
   * plus one), and none is in the primary key's column: that cell already
   * holds the value the row was found by.
   */
  lemma UpdateSkipsPrimaryKeyColumn(rows: Grid, headers: Result<Option<seq<string>>>, data: Record, primaryKey: string)
    requires DistinctKeys(data)
    requires VerticalUpdate(rows, headers, data, primaryKey, false).Ok?
    ensures var index := HeaderPosition(headers, primaryKey).value;
      var k := FindRow(rows, index, ValueOf(data, primaryKey)).value.value;
      forall e :: e in VerticalUpdate(rows, headers, data, primaryKey, false).value.edits ==>
        e.row == k + 1 && e.col != index + 1
  {
    var key := ValueOf(data, primaryKey);
    var index := HeaderPosition(headers, primaryKey).value;
    var k := FindRow(rows, index, key).value.value;
    var line := headers.value.value;
    MatchedRowIndex(rows, index, key);
    var plan := UpdatePlan(line, rows[k], k, data, false);
    UpdatePlanEdits(line, rows[k], k, data, false);
    assert VerticalUpdate(rows, headers, data, primaryKey, false).value == plan;
    forall e | e in plan.edits
      ensures e.row == k + 1 && e.col != index + 1
    {
      var i :| 0 <= i < |plan.edits| && plan.edits[i] == e;
      var h := e.col - 1;
      if h == index {
        OnlyValueOfKey(data, primaryKey, e.value);
        assert false;
      }
    }
  }
}
