/** `ExcelManifestRepository.load_from_file`: the manifest is the active
    sheet of a workbook; its first row is the header, and every later row that
    is not entirely empty becomes one manifest item, in row order. */
module ExcelReader {
  import opened Wrappers
  import opened Maps
  import opened Paths
  import opened Errors
  import opened Domain
  import opened Workbooks

  /** `any(row)`: some cell of the row is truthy. */
  predicate AnyTruthy(row: Row) {
    exists i :: 0 <= i < |row| && row[i].Truthy()
  }

  /** The text of the `IndexError` that indexing a too-short row tuple raises. */
  const TupleIndexOutOfRange := "tuple index out of range"

  function NotFoundMessage(filePath: Path): string {
    "Arquivo manifesto não encontrado em: " + filePath
  }

  function ReadErrorMessage(cause: string): string {
    "Erro ao ler o arquivo manifesto: " + cause
  }

  function Min(a: int, b: int): int {
    if a <= b then a else b
  }

  /** The pairs of the metadata comprehension: `(header[i], row[i])` for
      every column `i` from 3 (column D) below both the row's and the
      header's length, left to right. */
  function MetadataPairs(header: Row, row: Row): (pairs: seq<(Value, Value)>)
    ensures |pairs| == if Min(|row|, |header|) <= 3 then 0 else Min(|row|, |header|) - 3
    ensures forall k :: 0 <= k < |pairs| ==> pairs[k] == (header[k + 3], row[k + 3])
  {
    var n := Min(|row|, |header|);
    if n <= 3 then [] else seq(n - 3, k requires 0 <= k < n - 3 => (header[k + 3], row[k + 3]))
  }

  /** The metadata dict: a header name repeated in several columns keeps the
      value of the rightmost one. */
  function Metadata(header: Row, row: Row): map<Value, Value> {
    ToMap(MetadataPairs(header, row))
  }

  /** The item a data row yields: code from column A, the text of column B
      as revision, title from column C. */
  function RowItem(header: Row, row: Row): ManifestItem
    requires |row| >= 3
  {
    ManifestItem(row[0], row[1].ToStr(), row[2], Metadata(header, row))
  }

  /** The rows that are read: those with some truthy cell, in order. */
  function NonEmptyRows(rows: seq<Row>): (kept: seq<Row>)
    ensures |kept| <= |rows|
  {
    if |rows| == 0 then []
    else if AnyTruthy(rows[0]) then [rows[0]] + NonEmptyRows(rows[1..])
    else NonEmptyRows(rows[1..])
  }

  /** The items of the data rows, or the error of the first non-empty row
      that has fewer than three cells. */
  function ReadRows(header: Row, rows: seq<Row>): Result<seq<ManifestItem>> {
    if |rows| == 0 then Ok([])
    else if !AnyTruthy(rows[0]) then ReadRows(header, rows[1..])
    else if |rows[0]| < 3 then Err(Exception(IndexError, TupleIndexOutOfRange))
    else
      match ReadRows(header, rows[1..])
      case Err(e) => Err(e)
      case Ok(rest) => Ok([RowItem(header, rows[0])] + rest)
  }

  /** The whole operation on a disk that maps paths to their contents: a
      missing file and every other failure become `ManifestReadError`. */
  function Load(disk: map<Path, Content>, filePath: Path): Result<seq<ManifestItem>> {
    if filePath !in disk then Err(Exception(ManifestReadError, NotFoundMessage(filePath)))
    else
      match disk[filePath]
      case Unreadable(cause) => Err(Exception(ManifestReadError, ReadErrorMessage(cause.Str())))
      case Workbook(rows) =>
        if |rows| == 0 then Ok([])
        else
          match ReadRows(rows[0], rows[1..])
          case Ok(items) => Ok(items)
          case Err(e) => Err(Exception(ManifestReadError, ReadErrorMessage(e.Str())))
  }

  /** `items` followed by what `r` reads, or the error of `r`. */
  function Prepend(items: seq<ManifestItem>, r: Result<seq<ManifestItem>>): Result<seq<ManifestItem>> {
    if r.Ok? then Ok(items + r.value) else r
  }

  lemma PrependAssociates(items: seq<ManifestItem>, item: ManifestItem, rest: seq<ManifestItem>)
    ensures Prepend(items, Ok([item] + rest)) == Prepend(items + [item], Ok(rest))
  {
    assert items + ([item] + rest) == items + [item] + rest;
  }

  /** The loop of `load_from_file` over the data rows. */
  method LoadFromFile(disk: map<Path, Content>, filePath: Path) returns (r: Result<seq<ManifestItem>>)
    ensures r == Load(disk, filePath)
  {
    if filePath !in disk {
      return Err(Exception(ManifestReadError, NotFoundMessage(filePath)));
    }
    if disk[filePath].Unreadable? {
      return Err(Exception(ManifestReadError, ReadErrorMessage(disk[filePath].loadError.Str())));
    }
    var rows := disk[filePath].rows;
    if |rows| == 0 {
      return Ok([]);
    }
    var header := rows[0];
    var items: seq<ManifestItem> := [];
    var k := 1;
    assert Prepend(items, ReadRows(header, rows[k..])) == ReadRows(header, rows[1..]) by {
      if ReadRows(header, rows[1..]).Ok? {
        assert items + ReadRows(header, rows[1..]).value == ReadRows(header, rows[1..]).value;
      }
    }
    while k < |rows|
      invariant 1 <= k <= |rows|
      invariant ReadRows(header, rows[1..]) == Prepend(items, ReadRows(header, rows[k..]))
    {
      var row := rows[k];
      assert rows[k..][1..] == rows[k + 1..];
      if !AnyTruthy(row) {
        k := k + 1;
        continue;
      }
      if |row| < 3 {
        assert ReadRows(header, rows[1..]) == Err(Exception(IndexError, TupleIndexOutOfRange));
        return Err(Exception(ManifestReadError, ReadErrorMessage(TupleIndexOutOfRange)));
      }
      var item := ManifestItem(row[0], row[1].ToStr(), row[2], Metadata(header, row));
      if ReadRows(header, rows[k + 1..]).Ok? {
        PrependAssociates(items, item, ReadRows(header, rows[k + 1..]).value);
      }
      items := items + [item];
      k := k + 1;
    }
    assert rows[k..] == [];
    assert ReadRows(header, rows[1..]) == Ok(items + []);
    assert items + [] == items;
    r := Ok(items);
  }

  /** The row loop succeeds exactly when every non-empty row has at least
      three cells, and otherwise raises the `IndexError` of the short row. */
  lemma {:induction false} ReadRowsFails(header: Row, rows: seq<Row>)
    ensures ReadRows(header, rows).Ok?
            <==> forall i :: 0 <= i < |rows| && AnyTruthy(rows[i]) ==> |rows[i]| >= 3
    ensures ReadRows(header, rows).Err? ==> ReadRows(header, rows).error == Exception(IndexError, TupleIndexOutOfRange)
  {
    if |rows| > 0 {
      var tail := rows[1..];
      ReadRowsFails(header, tail);
      assert forall i :: 1 <= i < |rows| ==> rows[i] == tail[i - 1];
      assert (forall i :: 0 <= i < |rows| && AnyTruthy(rows[i]) ==> |rows[i]| >= 3)
             <==> ((AnyTruthy(rows[0]) ==> |rows[0]| >= 3)
                   && forall i :: 0 <= i < |tail| && AnyTruthy(tail[i]) ==> |tail[i]| >= 3);
    }
  }

  /** When the row loop succeeds it yields one item per non-empty row, in
      order. */
  lemma {:induction false} ReadRowsItems(header: Row, rows: seq<Row>)
    ensures ReadRows(header, rows).Ok? ==>
              |ReadRows(header, rows).value| == |NonEmptyRows(rows)|
              && forall j :: 0 <= j < |NonEmptyRows(rows)| ==>
                   |NonEmptyRows(rows)[j]| >= 3 && ReadRows(header, rows).value[j] == RowItem(header, NonEmptyRows(rows)[j])
  {
    if |rows| > 0 {
      var tail := rows[1..];
      ReadRowsItems(header, tail);
      if !AnyTruthy(rows[0]) {
        assert ReadRows(header, rows) == ReadRows(header, tail);
        assert NonEmptyRows(rows) == NonEmptyRows(tail);
      } else if |rows[0]| >= 3 && ReadRows(header, tail).Ok? {
        var rest := ReadRows(header, tail).value;
        var items := [RowItem(header, rows[0])] + rest;
        assert ReadRows(header, rows) == Ok(items);
        var keptTail := NonEmptyRows(tail);
        var kept := [rows[0]] + keptTail;
        assert NonEmptyRows(rows) == kept;
        forall j | 0 <= j < |kept|
          ensures |kept[j]| >= 3 && items[j] == RowItem(header, kept[j])
        {
          if j > 0 {
            assert kept[j] == keptTail[j - 1] && items[j] == rest[j - 1];
          }
        }
      }
    }
  }

  /** Every row that is read is non-empty and comes from the sheet, and
      every non-empty row is read. */
  lemma {:induction false} NonEmptyRowsMeaning(rows: seq<Row>)
    ensures forall j :: 0 <= j < |NonEmptyRows(rows)| ==> AnyTruthy(NonEmptyRows(rows)[j]) && NonEmptyRows(rows)[j] in rows
    ensures forall i :: 0 <= i < |rows| && AnyTruthy(rows[i]) ==> rows[i] in NonEmptyRows(rows)
    ensures (forall i :: 0 <= i < |rows| ==> AnyTruthy(rows[i])) ==> NonEmptyRows(rows) == rows
  {
    if |rows| > 0 {
      var tail := rows[1..];
      NonEmptyRowsMeaning(tail);
      assert forall i :: 1 <= i < |rows| ==> rows[i] == tail[i - 1];
      assert rows == [rows[0]] + tail;
    }
  }

  /** The fields of the item a row yields; the metadata keys are the header
      names of columns D onward (as far as both the row and the header
      reach), and a name used by one column only maps to that column's cell. */
  lemma RowItemFields(header: Row, row: Row, i: nat)
    requires |row| >= 3
    requires 3 <= i < |row| && i < |header|
    requires forall j :: i < j < Min(|row|, |header|) ==> header[j] != header[i]
    ensures RowItem(header, row).documentCode == row[0]
    ensures RowItem(header, row).revision == row[1].ToStr()
    ensures RowItem(header, row).title == row[2]
    ensures RowItem(header, row).metadata.Keys == set j | 3 <= j < Min(|row|, |header|) :: header[j]
    ensures RowItem(header, row).metadata[header[i]] == row[i]
  {
    var pairs := MetadataPairs(header, row);
    var keys := set j | 3 <= j < Min(|row|, |header|) :: header[j];
    assert (set k | 0 <= k < |pairs| :: pairs[k].0) == keys by {
      forall v | v in keys ensures v in (set k | 0 <= k < |pairs| :: pairs[k].0) {
        var j :| 3 <= j < Min(|row|, |header|) && header[j] == v;
        assert pairs[j - 3].0 == v;
      }
    }
    ToMapLastWins(pairs, i - 3);
  }

  /** A missing file raises the not-found `ManifestReadError`; every failure
      is a `ManifestReadError`, hence a `CoreError`. */
  lemma LoadErrors(disk: map<Path, Content>, filePath: Path)
    ensures filePath !in disk ==> Load(disk, filePath) == Err(Exception(ManifestReadError, NotFoundMessage(filePath)))
    ensures (filePath in disk && disk[filePath].Unreadable?)
            ==> Load(disk, filePath) == Err(Exception(ManifestReadError, ReadErrorMessage(disk[filePath].loadError.Str())))
    ensures Load(disk, filePath).Err? ==> Load(disk, filePath).error.kind == ManifestReadError
    ensures Load(disk, filePath).Err? ==> Load(disk, filePath).error.IsCoreError()
  {
    CoreFamily(ManifestReadError);
  }

  /** Loading succeeds exactly on a workbook whose non-empty data rows all
      have three cells, and then yields one item per such row. */
  lemma LoadSucceeds(disk: map<Path, Content>, filePath: Path)
    ensures Load(disk, filePath).Ok?
            <==> filePath in disk && disk[filePath].Workbook?
                 && forall i :: 1 <= i < |disk[filePath].rows| && AnyTruthy(disk[filePath].rows[i])
                      ==> |disk[filePath].rows[i]| >= 3
    ensures Load(disk, filePath).Ok? && |disk[filePath].rows| > 0 ==>
              var rows := disk[filePath].rows;
              |Load(disk, filePath).value| == |NonEmptyRows(rows[1..])|
              && forall j :: 0 <= j < |NonEmptyRows(rows[1..])| ==>
                   |NonEmptyRows(rows[1..])[j]| >= 3
                   && Load(disk, filePath).value[j] == RowItem(rows[0], NonEmptyRows(rows[1..])[j])
  {
    if filePath in disk && disk[filePath].Workbook? && |disk[filePath].rows| > 0 {
      var rows := disk[filePath].rows;
      ReadRowsFails(rows[0], rows[1..]);
      ReadRowsItems(rows[0], rows[1..]);
      assert forall i :: 1 <= i < |rows| ==> rows[i] == rows[1..][i - 1];
      assert (forall i :: 1 <= i < |rows| && AnyTruthy(rows[i]) ==> |rows[i]| >= 3)
             <==> (forall i :: 0 <= i < |rows[1..]| && AnyTruthy(rows[1..][i]) ==> |rows[1..][i]| >= 3);
    }
  }

  /** The reader's example: a header and two filled rows give two items in
      row order, the first with its column-D metadata under the header name. */
  lemma {:induction false} TwoRowManifest(header: Row, first: Row, second: Row)
    requires |header| == 4 && |first| == 4 && |second| == 4
    requires first[0].Truthy() && second[0].Truthy()
    ensures ReadRows(header, [first, second]) == Ok([RowItem(header, first), RowItem(header, second)])
    ensures RowItem(header, first).metadata[header[3]] == first[3]
  {
    assert AnyTruthy(first) && AnyTruthy(second);
    assert [first, second][1..] == [second];
    assert [second][1..] == [];
    assert ReadRows(header, [second]) == Ok([RowItem(header, second)] + []);
    assert [RowItem(header, second)] + [] == [RowItem(header, second)];
    assert [RowItem(header, first)] + [RowItem(header, second)] == [RowItem(header, first), RowItem(header, second)];
    RowItemFields(header, first, 3);
  }
}
