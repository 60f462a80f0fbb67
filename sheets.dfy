/**
 * Shared vocabulary of the GSpreadPlus model: cell values, grids, pending
 * cell edits, the errors the client raises, and the remote spreadsheet
 * service that both client classes talk to.
 */
module Sheets {

  datatype Option<+T> = None | Some(value: T)

  /** A call that either returns a value or raises one of the client's errors. */
  datatype Result<+T> = Ok(value: T) | Err(error: Error)

  /** A call that returns nothing useful, or raises. */
  datatype Outcome = Pass | Fail(error: Error)

  /** The three parts the connection guard checks, in the order it checks them. */
  datatype Part = Client | Document | Sheet

  /** What an IdentificationError failed to identify. */
  datatype Resource = DocumentHandle | SheetHandle | HeaderLabel | PrimaryKeyRow

  /** Why the legacy client raised a bare Exception. */
  datatype Cause = Unset(part: Part) | UnmatchedDocument | BadColumn | BadRow

  datatype Error =
    | SetupError(missing: Part)              // errors.SetupError (src only)
    | IdentificationError(resource: Resource) // errors.IdentificationError
    | TypeError
    | IndexError
    | KeyError
    | AssertionError
    | NameError                               // includes UnboundLocalError
    | PlainException(cause: Cause)            // bare Exception (legacy only)
    | RemoteError                             // raised by the remote service and propagated

  /** A row of cell values as the remote service returns them: every cell is a string. */
  type Row = seq<string>

  /** A snapshot of a whole sheet, row by row (not necessarily rectangular). */
  type Grid = seq<Row>

  /** A pending single-cell write; row and col are 1-based, as the remote service expects. */
  datatype Cell = Cell(row: int, col: int, value: string)

  /** One key/value pair of a Python dict, in insertion order. */
  datatype Entry = Entry(key: string, value: string)

  type Record = seq<Entry>

  /** Any orientation string other than 'vertical' or 'horizontal' is OtherOrientation. */
  datatype Orientation = Vertical | Horizontal | OtherOrientation

  /** The answer of one remote lookup (open a document, find a worksheet). */
  datatype Lookup<+T> = Found(item: T) | NotFound | Raised

  /** Identifier handed to connect_sheet: a name, a position, or anything else. */
  datatype SheetId = SheetName(name: string) | SheetPosition(position: int) | OtherSheetId

  /** Column identifier of get_row_by_column: letters, a 0-based int, or anything else. */
  datatype Column = ByLabel(letters: string) | ByIndex(index: int) | OtherColumn

  /** Row identifier of get_column_by_row: a 0-based int or anything else. */
  datatype RowId = RowIndex(index: int) | OtherRow

  /** The duck-typed `values` argument of the commit methods. */
  datatype Values = ListOf(items: seq<string>) | TupleOf(items: seq<string>) | DictOf(entries: Record) | OtherValues

  /** The `data` argument of update_vertical_data: a dict, or anything else (which fails its isinstance assertion). */
  datatype UpdateData = DataDict(entries: Record) | OtherData

  /** The `values` argument of commit_new_multiple_rows: rows as lists (or tuples), or as dicts. */
  datatype Batch = ListRows(rows: seq<seq<string>>) | DictRows(records: seq<Record>)

  /** The argument of delete_rows / delete_columns: one 0-based index, a list of indices, or anything else. */
  datatype Indices = OneIndex(index: int) | ManyIndices(indices: seq<int>) | OtherIndices

  /** A request the client sent to the remote worksheet. */
  datatype Request = WriteCells(cells: seq<Cell>) | RowDeletion(args: seq<int>) | ColumnDeletion(args: seq<int>)

  /** Requests sent by a flush of the commit buffer: one batch when it is non-empty, none otherwise. */
  function Flush(commits: seq<Cell>): (log: seq<Request>)
    ensures commits == [] <==> log == []
    ensures commits != [] ==> log == [WriteCells(commits)]
  {
    if commits == [] then [] else [WriteCells(commits)]
  }

  /** A handle to a remote document; the model needs only its identity. */
  class Spreadsheet {
    constructor () {}
  }

  /**
   * A remote worksheet. `grid` is what a fetch returns right now; `log` records
   * every request the client sent. How the service applies writes and deletions
   * is not modelled: those calls promise only their log entry, so the grid a
   * fetch returns after one of them is unconstrained. A fetch changes nothing,
   * so with no request in between two fetches return the same grid.
   */
  class Worksheet {
    var grid: Grid
    var log: seq<Request>

    constructor (initial: Grid)
      ensures grid == initial && log == []
    {
      grid := initial;
      log := [];
    }

    method GetAllValues() returns (g: Grid)
      ensures g == grid
    {
      g := grid;
    }

    method UpdateCells(cells: seq<Cell>)
      modifies this
      ensures log == old(log) + [WriteCells(cells)]
    {
      log := log + [WriteCells(cells)];
    }

    method DeleteRows(args: seq<int>)
      modifies this
      ensures log == old(log) + [RowDeletion(args)]
    {
      log := log + [RowDeletion(args)];
    }

    method DeleteColumns(args: seq<int>)
      modifies this
      ensures log == old(log) + [ColumnDeletion(args)]
    {
      log := log + [ColumnDeletion(args)];
    }
  }
}
