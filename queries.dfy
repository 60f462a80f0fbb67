/**
 * Read-only queries over the cached grid (`listed`): first-match row lookup,
 * predicate filtering, the column slice under a value, the header line and
 * the index of a header in it. Each returns what the client method returns
 * once the connection guard has passed, with Python's IndexError and
 * TypeError as error results.
 */
module Queries {
  import opened Sheets
  import opened PySeq
  import Notation

  /** The cell of `row` at Python index `index` holds `value`. */
  predicate Hits(row: Row, index: int, value: string) {
    At(row, index) == Some(value)
  }

  /** The cell of `row` at Python index `index` exists and holds something else. */
  predicate Misses(row: Row, index: int, value: string) {
    At(row, index).Some? && At(row, index).value != value
  }

  /**
   * The scan of get_row_by_column: rows are visited in order, the first row
   * whose cell at `index` equals `value` wins, and a visited row without that
   * cell raises IndexError.
   */
  function FindRow(rows: Grid, index: int, value: string): (r: Result<Option<nat>>)
    ensures r.Ok? && r.value.Some? ==>
      r.value.value < |rows| && Hits(rows[r.value.value], index, value) &&
      forall j :: 0 <= j < r.value.value ==> Misses(rows[j], index, value)
    ensures r == Ok(None) <==> forall j :: 0 <= j < |rows| ==> Misses(rows[j], index, value)
    ensures r.Err? ==> r.error == IndexError
    ensures r.Err? ==>
      exists k :: 0 <= k < |rows| && At(rows[k], index).None? &&
        forall j :: 0 <= j < k ==> Misses(rows[j], index, value)
  {
    if rows == [] then Ok(None)
    else match At(rows[0], index)
      case None => Err(IndexError)
      case Some(c) =>
        if c == value then Ok(Some(0))
        else match FindRow(rows[1..], index, value)
          case Ok(Some(k)) => Ok(Some(k + 1))
          case other => other
  }

  /** A row at which some earlier scan stops is the answer: the scan is fully determined by the grid. */
  lemma FindRowExactly(rows: Grid, index: int, value: string, k: nat)
    requires k < |rows| && Hits(rows[k], index, value)
    requires forall j :: 0 <= j < k ==> Misses(rows[j], index, value)
    ensures FindRow(rows, index, value) == Ok(Some(k))
  {
  }

  /**
   * `self.listed.index(active_row)` finds the matched row again: no earlier row
   * can equal it, because an equal row would have matched first.
   */
  lemma MatchedRowIndex(rows: Grid, index: int, value: string)
    requires FindRow(rows, index, value).Ok? && FindRow(rows, index, value).value.Some?
    ensures var k := FindRow(rows, index, value).value.value;
      rows[k] in rows && IndexOf(rows, rows[k]) == k
  {
    var k := FindRow(rows, index, value).value.value;
    forall j | 0 <= j < k ensures rows[j] != rows[k] {
      assert Misses(rows[j], index, value);
    }
    IndexOfIsFirst(rows, k);
  }

  /**
   * The row get_row_by_column returns: the first matching row itself (the
   * one FindRow stops at), None exactly when no row matches, and IndexError
   * when the scan meets a row too short first.
   */
  function RowMatching(rows: Grid, index: int, value: string): (r: Result<Option<Row>>)
    ensures r.Ok? && r.value.Some? ==> r.value.value in rows && Hits(r.value.value, index, value)
    ensures r.Err? ==> r.error == IndexError
    ensures r.Err? <==> FindRow(rows, index, value).Err?
    ensures r == Ok(None) <==> forall j :: 0 <= j < |rows| ==> Misses(rows[j], index, value)
    ensures r.Ok? && r.value.Some? ==> r.value.value == rows[FindRow(rows, index, value).value.value]
  {
    match FindRow(rows, index, value)
    case Err(e) => Err(e)
    case Ok(None) => Ok(None)
    case Ok(Some(k)) => Ok(Some(rows[k]))
  }

  /** Whatever is absent from a column that every row has gives "not found", never an error. */
  lemma AbsentValueIsNotFound(rows: Grid, index: int, value: string)
    requires forall j :: 0 <= j < |rows| ==> At(rows[j], index).Some?
    requires forall j :: 0 <= j < |rows| ==> At(rows[j], index).value != value
    ensures RowMatching(rows, index, value) == Ok(None)
  {
    assert forall j :: 0 <= j < |rows| ==> Misses(rows[j], index, value);
  }

  /**
   * The 0-based index a column identifier names: letters by their A1 column,
   * an int as it is; anything else is not a column (None).
   */
  function ResolveColumn(column: Column): (r: Option<int>)
    ensures column.ByIndex? ==> r == Some(column.index)
    ensures column.ByLabel? && Notation.IsAlpha(column.letters) ==>
      r == Some(Notation.ColumnNumber(column.letters) - 1)
    ensures r == None <==> column.OtherColumn? || (column.ByLabel? && !Notation.IsAlpha(column.letters))
  {
    match column
    case ByLabel(letters) => if Notation.IsAlpha(letters) then Some(Notation.LabelIndex(letters)) else None
    case ByIndex(i) => Some(i)
    case OtherColumn => None
  }

  /** get_row_by_column once the guard has passed; `invalid` is what an unusable column identifier raises. */
  function RowByColumn(rows: Grid, column: Column, value: string, invalid: Error): (r: Result<Option<Row>>)
    ensures ResolveColumn(column) == None ==> r == Err(invalid)
    ensures ResolveColumn(column).Some? ==> r == RowMatching(rows, ResolveColumn(column).value, value)
  {
    match ResolveColumn(column)
    case None => Err(invalid)
    case Some(index) => RowMatching(rows, index, value)
  }

  /**
   * `[row[j] for row in rows]`: cell j of every row, or IndexError when some
   * row has no cell j.
   */
  function ColumnAt(rows: Grid, j: int): (r: Result<seq<string>>)
    ensures r.Ok? <==> forall k :: 0 <= k < |rows| ==> At(rows[k], j).Some?
    ensures r.Err? ==> r.error == IndexError
    ensures r.Ok? ==> |r.value| == |rows|
    ensures r.Ok? ==> forall k :: 0 <= k < |rows| ==> At(rows[k], j) == Some(r.value[k])
  {
    if rows == [] then Ok([])
    else match At(rows[0], j)
      case None => Err(IndexError)
      case Some(c) =>
        match ColumnAt(rows[1..], j)
        case Err(e) => Err(e)
        case Ok(rest) => Ok([c] + rest)
  }

  /**
   * get_column_by_row once the guard has passed: find `value` in row `row`
   * and return that column across all rows; None when the row lacks it.
   */
  function ColumnByRow(rows: Grid, row: int, value: string): (r: Result<Option<seq<string>>>)
    ensures At(rows, row).None? ==> r == Err(IndexError)
    ensures r == Ok(None) <==> At(rows, row).Some? && value !in At(rows, row).value
    ensures r.Ok? && r.value.Some? ==>
      var line := At(rows, row).value;
      value in line && |r.value.value| == |rows| &&
      forall k :: 0 <= k < |rows| ==> IndexOf(line, value) < |rows[k]| && r.value.value[k] == rows[k][IndexOf(line, value)]
  {
    match At(rows, row)
    case None => Err(IndexError)
    case Some(line) =>
      if value in line then
        match ColumnAt(rows, IndexOf(line, value))
        case Err(e) => Err(e)
        case Ok(column) => Ok(Some(column))
      else Ok(None)
  }

  /** On a non-empty rectangular grid, cell j of every row is line j of the transpose. */
  lemma ColumnAtTransposed(rows: Grid, w: nat, j: nat)
    requires Rectangular(rows, w) && rows != [] && j < w
    ensures j < |Transpose(rows)| && ColumnAt(rows, j) == Ok(Transpose(rows)[j])
  {
    var t := Transpose(rows);
    assert |t| == w by {
      assert |rows[0]| == w;
    }
    assert forall k :: 0 <= k < |rows| ==> At(rows[k], j).Some?;
    var column := ColumnAt(rows, j).value;
    assert column == t[j];
  }

  /** On a rectangular grid the column slice is a column of the transposed grid. */
  lemma ColumnByRowIsTransposedColumn(rows: Grid, w: nat, row: nat, value: string)
    requires Rectangular(rows, w) && row < |rows| && value in rows[row]
    ensures ColumnByRow(rows, row, value) == Ok(Some(Transpose(rows)[IndexOf(rows[row], value)]))
  {
    assert |rows[row]| == w;
    ColumnAtTransposed(rows, w, IndexOf(rows[row], value));
  }

  /**
   * The `headers` property once the guard has passed: row header_depth - 1
   * (vertical) or cell header_depth - 1 of every row (horizontal); None for
   * an unknown orientation or before the grid is fetched.
   */
  function HeaderLine(listed: Option<Grid>, orientation: Option<Orientation>, depth: Option<int>): (r: Result<Option<seq<string>>>)
    ensures listed.None? || orientation.None? || depth.None? || orientation == Some(OtherOrientation) ==> r == Ok(None)
    ensures listed.Some? && orientation == Some(Vertical) && depth.Some? ==>
      match At(listed.value, depth.value - 1)
      case None => r == Err(IndexError)
      case Some(line) => r == Ok(Some(line))
    ensures listed.Some? && orientation == Some(Horizontal) && depth.Some? ==>
      match ColumnAt(listed.value, depth.value - 1)
      case Err(e) => r == Err(e)
      case Ok(line) => r == Ok(Some(line))
  {
    if listed.None? || orientation.None? || depth.None? then Ok(None)
    else match orientation.value
      case Vertical =>
        (match At(listed.value, depth.value - 1)
         case None => Err(IndexError)
         case Some(line) => Ok(Some(line)))
      case Horizontal =>
        (match ColumnAt(listed.value, depth.value - 1)
         case Err(e) => Err(e)
         case Ok(line) => Ok(Some(line)))
      case OtherOrientation => Ok(None)
  }

  /**
   * On a rectangular grid the horizontal header line at depth d is column
   * d - 1, the line verlisted holds at position d - 1, and the vertical header
   * line of the transposed grid.
   */
  lemma HorizontalHeadersAreTransposedRow(rows: Grid, w: nat, depth: int)
    requires Rectangular(rows, w) && rows != [] && 1 <= depth <= w
    ensures HeaderLine(Some(rows), Some(Horizontal), Some(depth)) == Ok(Some(Transpose(rows)[depth - 1]))
    ensures HeaderLine(Some(Transpose(rows)), Some(Vertical), Some(depth)) == HeaderLine(Some(rows), Some(Horizontal), Some(depth))
  {
    ColumnAtTransposed(rows, w, depth - 1);
    var t := Transpose(rows);
    assert HeaderLine(Some(rows), Some(Horizontal), Some(depth)) == Ok(Some(t[depth - 1]));
    assert At(t, depth - 1) == Some(t[depth - 1]);
  }


  /**
   * get_header_index once the guard has passed: the first position of
   * `header` in the header line. A missing header raises
   * IdentificationError, except that the error message reads headers[0],
   * which raises IndexError on an empty line; no header line at all (None)
   * makes `header in None` raise TypeError.
   */
  function HeaderIndex(headers: Option<seq<string>>, header: string): (r: Result<nat>)
    ensures r.Ok? ==> headers.Some? && r.value < |headers.value| && headers.value[r.value] == header
    ensures r.Ok? ==> forall j :: 0 <= j < r.value ==> headers.value[j] != header
    ensures r.Ok? <==> headers.Some? && header in headers.value
    ensures headers.None? ==> r == Err(TypeError)
    ensures headers.Some? && header !in headers.value ==>
      r == Err(if headers.value == [] then IndexError else IdentificationError(HeaderLabel))
  {
    match headers
    case None => Err(TypeError)
    case Some(line) =>
      if header in line then Ok(IndexOf(line, header))
      else if line == [] then Err(IndexError)
      else Err(IdentificationError(HeaderLabel))
  }

  /** A header found at position i with no earlier copy resolves to exactly i. */
  lemma HeaderIndexRoundTrip(line: seq<string>, i: nat)
    requires i < |line|
    requires forall j :: 0 <= j < i ==> line[j] != line[i]
    ensures HeaderIndex(Some(line), line[i]) == Ok(i)
  {
    IndexOfIsFirst(line, i);
  }

  /** Distinct headers resolve to distinct positions. */
  lemma HeaderIndexInjective(line: seq<string>, a: string, b: string)
    requires HeaderIndex(Some(line), a).Ok? && HeaderIndex(Some(line), b).Ok?
    requires HeaderIndex(Some(line), a) == HeaderIndex(Some(line), b)
    ensures a == b
  {
  }

  /** get_header_index against the header line the property yields, propagating its error. */
  function HeaderPosition(headers: Result<Option<seq<string>>>, header: string): (r: Result<nat>)
    ensures headers.Err? ==> r == Err(headers.error)
    ensures headers.Ok? ==> r == HeaderIndex(headers.value, header)
  {
    match headers
    case Err(e) => Err(e)
    case Ok(line) => HeaderIndex(line, header)
  }

  /**
   * The vertical branch of get_dime_by_header: the first row whose cell under
   * `header` is `value`. The horizontal branch reads the unbound local `row`
   * and raises UnboundLocalError (a NameError).
   */
  function DimeByHeader(rows: Grid, orientation: Orientation, headers: Result<Option<seq<string>>>, header: string, value: string): (r: Result<Option<Row>>)
    ensures HeaderPosition(headers, header).Err? ==> r == Err(HeaderPosition(headers, header).error)
    ensures HeaderPosition(headers, header).Ok? && orientation == Vertical ==>
      r == RowMatching(rows, HeaderPosition(headers, header).value, value)
    ensures HeaderPosition(headers, header).Ok? && orientation == Horizontal ==> r == Err(NameError)
  {
    match HeaderPosition(headers, header)
    case Err(e) => Err(e)
    case Ok(index) =>
      match orientation
      case Vertical => RowMatching(rows, index, value)
      case Horizontal => Err(NameError)
      case OtherOrientation => Ok(None)
  }
}
