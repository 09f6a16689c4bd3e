/** Spreadsheet files as the manifest reader and the template filler see
    them: the active sheet of a workbook is a sequence of rows of cell
    values, and a file that cannot be opened as a workbook carries the text
    error that loading it raises. */
module Workbooks {
  import opened Errors
  import opened Domain

  /** One sheet row, column A first. */
  type Row = seq<Value>

  /** What a path on disk holds. */
  datatype Content = Workbook(rows: seq<Row>) | Unreadable(loadError: Exception)
}
