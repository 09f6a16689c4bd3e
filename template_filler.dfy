/** `OpenpyxlTemplateFiller.fill_and_save`: the template workbook is copied
    to the output path, one nine-cell row per physical file is appended to
    the copy's active sheet, and the copy is saved; the template itself is
    only read. */
module TemplateFiller {
  import opened Wrappers
  import opened Maps
  import opened Paths
  import opened Errors
  import opened Domain
  import opened Workbooks

  /** The text of the `IndexError` that `group.files[0]` raises on a group
      without files. */
  const ListIndexOutOfRange := "list index out of range"

  function NotFoundMessage(templatePath: Path): string {
    "Arquivo template não encontrado: " + templatePath
  }

  /** Any failure after the copy, as the filler re-raises it. */
  function FillError(outputPath: Path, cause: Exception): Exception {
    Exception(TemplateFillError, "Falha ao preencher o template " + outputPath + ": " + cause.Str())
  }

  /** The row for one physical file, in the template's column order
      DOCUMENTO, REVISÃO, TÍTULO, ARQUIVO, FORMATO, DISCIPLINA, TIPO DE
      DOCUMENTO, PROPÓSITO, CAMINHO DATABOOK. */
  function RowFor(item: ManifestItem, path: Path): Row {
    [item.documentCode, Str(item.revision), item.title, Str(Name(path)),
     Get(item.metadata, Str("FORMATO"), Str("A4")),
     Get(item.metadata, Str("DISCIPLINA"), Str("")),
     Get(item.metadata, Str("TIPO DE DOCUMENTO"), Str("")),
     Get(item.metadata, Str("PROPÓSITO"), Str("")),
     Get(item.metadata, Str("CAMINHO DATABOOK"), Str(""))]
  }

  function Elements(files: seq<DocumentFile>): set<DocumentFile> {
    set f | f in files
  }

  /** The files of all the groups, which the row building reads. */
  function Footprint(data: seq<DocumentGroup>): set<DocumentFile> {
    if |data| == 0 then {} else Footprint(data[..|data| - 1]) + Elements(data[|data| - 1].files)
  }

  /** The files the row building reads exist, so that a change elsewhere
      leaves what it reads alone. */
  lemma {:induction false} FootprintAllocated(data: seq<DocumentGroup>)
    ensures forall f :: f in Footprint(data) ==> allocated(f)
  {
    if |data| > 0 {
      FootprintAllocated(data[..|data| - 1]);
      var g := data[|data| - 1];
      assert forall j :: 0 <= j < |g.files| ==> allocated(g.files[j]);
    }
  }

  /** The rows for the files of one group, all described by one item. */
  function FileRows(item: ManifestItem, files: seq<DocumentFile>): seq<Row> {
    if |files| == 0 then []
    else FileRows(item, files[..|files| - 1]) + [RowFor(item, files[|files| - 1].path)]
  }

  /** The rows a group contributes. The item is the first file's; a group
      whose first file has none contributes nothing, and a group without
      files raises. */
  function GroupRows(g: DocumentGroup): Result<seq<Row>>
    reads g.files
  {
    if |g.files| == 0 then Err(Exception(IndexError, ListIndexOutOfRange))
    else
      match g.files[0].associatedManifestItem
      case None => Ok([])
      case Some(item) => Ok(FileRows(item, g.files))
  }

  /** The rows appended for the groups, in group order, or the error of the
      first group that raises. */
  function FilledRows(data: seq<DocumentGroup>): Result<seq<Row>>
    reads Footprint(data)
  {
    if |data| == 0 then Ok([])
    else
      var last := data[|data| - 1];
      match FilledRows(data[..|data| - 1])
      case Err(e) => Err(e)
      case Ok(before) =>
        match GroupRows(last)
        case Err(e) => Err(e)
        case Ok(rows) => Ok(before + rows)
  }

  /** The groups that contribute rows: those whose first file has an item. */
  function Described(data: seq<DocumentGroup>): seq<DocumentGroup>
    reads Footprint(data)
  {
    if |data| == 0 then []
    else
      var last := data[|data| - 1];
      Described(data[..|data| - 1])
        + (if |last.files| > 0 && last.files[0].associatedManifestItem.Some? then [last] else [])
  }

  /** The whole operation on a disk mapping paths to contents: what it
      raises (`None` when it returns) and the disk afterwards. */
  datatype Outcome = Outcome(raised: Option<Exception>, contents: map<Path, Content>)

  function FillOutcome(contents: map<Path, Content>, copyFailures: map<(Path, Path), Exception>,
                       saveFailures: map<Path, Exception>,
                       templatePath: Path, outputPath: Path, data: seq<DocumentGroup>): Outcome
    reads Footprint(data)
  {
    if templatePath !in contents then
      Outcome(Some(Exception(TemplateNotFoundError, NotFoundMessage(templatePath))), contents)
    else if (templatePath, outputPath) in copyFailures then
      Outcome(Some(copyFailures[(templatePath, outputPath)]), contents)
    else
      var copied := contents[outputPath := contents[templatePath]];
      match contents[templatePath]
      case Unreadable(e) => Outcome(Some(FillError(outputPath, e)), copied)
      case Workbook(rows) => FillCopy(copied, saveFailures, outputPath, rows, data)
  }

  /** Filling and saving the loaded copy, whose sheet holds `templateRows`. */
  function FillCopy(copied: map<Path, Content>, saveFailures: map<Path, Exception>,
                    outputPath: Path, templateRows: seq<Row>, data: seq<DocumentGroup>): Outcome
    reads Footprint(data)
  {
    match FilledRows(data)
    case Err(e) => Outcome(Some(FillError(outputPath, e)), copied)
    case Ok(added) =>
      if outputPath in saveFailures then
        Outcome(Some(FillError(outputPath, saveFailures[outputPath])), copied)
      else
        Outcome(None, copied[outputPath := Workbook(templateRows + added)])
  }

  /** The active sheet of a loaded workbook. */
  class Sheet {
    var rows: seq<Row>

    constructor (rows: seq<Row>)
      ensures this.rows == rows
    {
      this.rows := rows;
    }

    /** `sheet.append`: the row goes after the last existing row. */
    method Append(row: Row)
      modifies this
      ensures rows == old(rows) + [row]
    {
      rows := rows + [row];
    }
  }

  /** The files the filler reads and writes, with the copy the file-system
      manager performs and the failures configured for copying and saving. */
  class Disk {
    var contents: map<Path, Content>
    const copyFailures: map<(Path, Path), Exception>
    const saveFailures: map<Path, Exception>

    constructor (contents: map<Path, Content>, copyFailures: map<(Path, Path), Exception>,
                 saveFailures: map<Path, Exception>)
      ensures this.contents == contents
      ensures this.copyFailures == copyFailures && this.saveFailures == saveFailures
    {
      this.contents := contents;
      this.copyFailures := copyFailures;
      this.saveFailures := saveFailures;
    }

    predicate Exists(p: Path)
      reads this
    {
      p in contents
    }

    /** `IFileSystemManager.copy_file`: raises the configured failure, or
        gives the destination the source's content. */
    method CopyFile(source: Path, destination: Path) returns (raised: Option<Exception>)
      requires source in contents
      modifies this
      ensures raised == Lookup(copyFailures, (source, destination))
      ensures contents == if raised.Some? then old(contents) else old(contents)[destination := old(contents)[source]]
    {
      raised := Lookup(copyFailures, (source, destination));
      if raised.None? {
        contents := contents[destination := contents[source]];
      }
    }

    /** `openpyxl.load_workbook(path).active`. */
    method Load(path: Path) returns (r: Result<Sheet>)
      ensures path !in contents
              ==> r == Err(Exception(FileNotFoundError, "[Errno 2] No such file or directory: '" + path + "'"))
      ensures path in contents && contents[path].Unreadable? ==> r == Err(contents[path].loadError)
      ensures path in contents && contents[path].Workbook?
              ==> r.Ok? && fresh(r.value) && r.value.rows == contents[path].rows
    {
      if path !in contents {
        return Err(Exception(FileNotFoundError, "[Errno 2] No such file or directory: '" + path + "'"));
      }
      match contents[path]
      case Unreadable(e) =>
        r := Err(e);
      case Workbook(rows) =>
        var sheet := new Sheet(rows);
        r := Ok(sheet);
    }

    /** `workbook.save(path)`: raises the configured failure, or writes the
        sheet's rows to the path. */
    method Save(path: Path, sheet: Sheet) returns (raised: Option<Exception>)
      modifies this
      ensures raised == Lookup(saveFailures, path)
      ensures contents == if raised.Some? then old(contents) else old(contents)[path := Workbook(sheet.rows)]
    {
      raised := Lookup(saveFailures, path);
      if raised.None? {
        contents := contents[path := Workbook(sheet.rows)];
      }
    }
  }

  class OpenpyxlTemplateFiller {
    const fileManager: Disk

    constructor (fileManager: Disk)
      ensures this.fileManager == fileManager
    {
      this.fileManager := fileManager;
    }

    /** `fill_and_save`: check, copy, load, fill and save, each failure
        after the copy wrapped in `TemplateFillError`. */
    method FillAndSave(templatePath: Path, outputPath: Path, data: seq<DocumentGroup>)
      returns (raised: Option<Exception>)
      modifies fileManager
      ensures Outcome(raised, fileManager.contents)
              == FillOutcome(old(fileManager.contents), fileManager.copyFailures, fileManager.saveFailures,
                             templatePath, outputPath, data)
    {
      FootprintAllocated(data);
      if !fileManager.Exists(templatePath) {
        return Some(Exception(TemplateNotFoundError, NotFoundMessage(templatePath)));
      }
      var copyRaised := fileManager.CopyFile(templatePath, outputPath);
      if copyRaised.Some? {
        return copyRaised;
      }
      var loaded := fileManager.Load(outputPath);
      if loaded.Err? {
        return Some(FillError(outputPath, loaded.error));
      }
      raised := FillLoaded(loaded.value, outputPath, data);
    }

    /** The `try` block after loading: fill the sheet, then save it. */
    method FillLoaded(sheet: Sheet, outputPath: Path, data: seq<DocumentGroup>) returns (raised: Option<Exception>)
      modifies sheet, fileManager
      ensures Outcome(raised, fileManager.contents)
              == FillCopy(old(fileManager.contents), fileManager.saveFailures, outputPath, old(sheet.rows), data)
    {
      FootprintAllocated(data);
      var failure := FillSheet(sheet, data);
      if failure.Some? {
        return Some(FillError(outputPath, failure.value));
      }
      var saveRaised := fileManager.Save(outputPath, sheet);
      if saveRaised.Some? {
        return Some(FillError(outputPath, saveRaised.value));
      }
      raised := None;
    }
  }

  /** The nested loops of `fill_and_save`: the rows of every group are
      appended to the sheet, or the first group without files raises. */
  method FillSheet(sheet: Sheet, data: seq<DocumentGroup>) returns (failure: Option<Exception>)
    modifies sheet
    ensures FilledRows(data).Err? ==> failure == Some(FilledRows(data).error)
    ensures FilledRows(data).Ok? ==> failure.None? && sheet.rows == old(sheet.rows) + FilledRows(data).value
  {
    var k := 0;
    while k < |data|
      invariant 0 <= k <= |data|
      invariant FilledRows(data[..k]).Ok?
      invariant sheet.rows == old(sheet.rows) + FilledRows(data[..k]).value
    {
      var group := data[k];
      PrefixStep(data, k);
      if |group.files| == 0 {
        FirstFailureStays(data, k + 1);
        return Some(Exception(IndexError, ListIndexOutOfRange));
      }
      FootprintAllocated(data[..k + 1]);
      ghost var before := FilledRows(data[..k]).value;
      ghost var added := GroupRows(group).value;
      assert FilledRows(data[..k + 1]) == Ok(before + added);
      var item := group.files[0].associatedManifestItem;
      if item.Some? {
        AppendFileRows(sheet, item.value, group.files);
      } else {
        assert before + added == before;
      }
      Regroup(old(sheet.rows), before, added);
      k := k + 1;
    }
    assert data[..k] == data;
    failure := None;
  }

  /** The inner loop: one row per file of the group. */
  method AppendFileRows(sheet: Sheet, item: ManifestItem, files: seq<DocumentFile>)
    modifies sheet
    ensures sheet.rows == old(sheet.rows) + FileRows(item, files)
  {
    var j := 0;
    while j < |files|
      invariant 0 <= j <= |files|
      invariant sheet.rows == old(sheet.rows) + FileRows(item, files[..j])
    {
      PrefixStep(files, j);
      sheet.Append(RowFor(item, files[j].path));
      Regroup(old(sheet.rows), FileRows(item, files[..j]), [RowFor(item, files[j].path)]);
      j := j + 1;
    }
    assert files[..j] == files;
  }

  lemma PrefixStep<T>(s: seq<T>, k: nat)
    requires k < |s|
    ensures s[..k + 1][..k] == s[..k] && s[..k + 1][k] == s[k]
  {
  }

  lemma Regroup<T>(a: seq<T>, b: seq<T>, c: seq<T>)
    ensures a + b + c == a + (b + c)
  {
  }

  /** Once a prefix of the groups raises, the whole sequence raises the same. */
  lemma {:induction false} FirstFailureStays(data: seq<DocumentGroup>, n: nat)
    requires n <= |data| && FilledRows(data[..n]).Err?
    ensures FilledRows(data) == FilledRows(data[..n])
    decreases |data|
  {
    if n < |data| {
      var init := data[..|data| - 1];
      PrefixOfInit(data, n);
      FirstFailureStays(init, n);
    } else {
      assert data[..n] == data;
    }
  }

  lemma PrefixOfInit<T>(s: seq<T>, n: nat)
    requires n < |s|
    ensures s[..|s| - 1][..n] == s[..n]
  {
  }

  /** Each row has the nine columns of the template, every cell taken from
      the item except the file name; FORMATO defaults to "A4" and the other
      metadata columns to the empty string. */
  lemma RowCells(item: ManifestItem, path: Path)
    ensures |RowFor(item, path)| == 9
    ensures RowFor(item, path)[0] == item.documentCode && RowFor(item, path)[1] == Str(item.revision)
    ensures RowFor(item, path)[2] == item.title && RowFor(item, path)[3] == Str(Name(path))
    ensures Str("FORMATO") !in item.metadata ==> RowFor(item, path)[4] == Str("A4")
    ensures Str("FORMATO") in item.metadata ==> RowFor(item, path)[4] == item.metadata[Str("FORMATO")]
    ensures forall k :: 5 <= k < 9 ==> RowFor(item, path)[k] == Get(item.metadata, MetadataColumns[k - 5], Str(""))
  {
  }

  /** The headers of columns F to I, looked up in the item's metadata. */
  const MetadataColumns: seq<Value> :=
    [Str("DISCIPLINA"), Str("TIPO DE DOCUMENTO"), Str("PROPÓSITO"), Str("CAMINHO DATABOOK")]

  /** The filler's integration test reads the first data row in another
      column order: it expects the revision in column A, the title in B and
      the discipline in E. Under the code's order column A holds the code,
      B the revision, and E the format, which defaults to "A4" when the item
      has none. */
  lemma {:induction false} TestLayoutDiffers(item: ManifestItem, path: Path)
    requires item.documentCode == Str("DOC-FINAL") && item.revision == "C" && item.title == Str("Teste Final")
    requires item.metadata == map[Str("DISCIPLINA") := Str("TESTES"), Str("PROPÓSITO") := Str("Verificação")]
    ensures RowFor(item, path)[0] != Str("C")
    ensures RowFor(item, path)[1] == Str("C")
    ensures RowFor(item, path)[1] != Str("Teste Final") && RowFor(item, path)[2] == Str("Teste Final")
    ensures RowFor(item, path)[4] == Str("A4") && RowFor(item, path)[5] == Str("TESTES")
  {
    assert Str("FORMATO") != Str("DISCIPLINA") by {
      assert |"FORMATO"| != |"DISCIPLINA"|;
    }
    assert Str("FORMATO") != Str("PROPÓSITO") by {
      assert |"FORMATO"| != |"PROPÓSITO"|;
    }
  }

  /** One row per file, in file order, each built from the same item. */
  lemma {:induction false} FileRowsMeaning(item: ManifestItem, files: seq<DocumentFile>)
    ensures |FileRows(item, files)| == |files|
    ensures forall j :: 0 <= j < |files| ==> FileRows(item, files)[j] == RowFor(item, files[j].path)
  {
    if |files| > 0 {
      var init := files[..|files| - 1];
      FileRowsMeaning(item, init);
      assert forall j :: 0 <= j < |init| ==> init[j] == files[j];
    }
  }

  /** A group without files raises; a group whose first file has no item
      adds nothing; otherwise every file of the group gets a row described
      by the first file's item. */
  lemma GroupRowsMeaning(g: DocumentGroup)
    ensures GroupRows(g).Err? <==> |g.files| == 0
    ensures GroupRows(g).Err? ==> GroupRows(g).error == Exception(IndexError, ListIndexOutOfRange)
    ensures |g.files| > 0 && g.files[0].associatedManifestItem.None? ==> GroupRows(g) == Ok([])
    ensures |g.files| > 0 && g.files[0].associatedManifestItem.Some? ==>
              GroupRows(g).Ok? && |GroupRows(g).value| == |g.files|
              && forall j :: 0 <= j < |g.files| ==>
                   GroupRows(g).value[j] == RowFor(g.files[0].associatedManifestItem.value, g.files[j].path)
  {
    if |g.files| > 0 && g.files[0].associatedManifestItem.Some? {
      FileRowsMeaning(g.files[0].associatedManifestItem.value, g.files);
    }
  }

  /** Filling raises exactly when some group has no files, and then raises
      the `IndexError` of indexing an empty list. */
  lemma {:induction false} FilledRowsFails(data: seq<DocumentGroup>)
    ensures FilledRows(data).Err? <==> exists i :: 0 <= i < |data| && |data[i].files| == 0
    ensures FilledRows(data).Err? ==> FilledRows(data).error == Exception(IndexError, ListIndexOutOfRange)
  {
    if |data| > 0 {
      var init := data[..|data| - 1];
      var g := data[|data| - 1];
      FilledRowsFails(init);
      GroupRowsMeaning(g);
      assert forall i :: 0 <= i < |init| ==> init[i] == data[i];
      if |g.files| == 0 {
        assert |data[|data| - 1].files| == 0;
      } else {
        assert (exists i :: 0 <= i < |data| && |data[i].files| == 0)
               <==> (exists i :: 0 <= i < |init| && |init[i].files| == 0);
      }
    }
  }

  /** When filling succeeds there is one row per file of the groups that
      have an item, in group order and then file order, each naming its file
      in the ARQUIVO column. */
  lemma {:induction false} FilledRowsFiles(data: seq<DocumentGroup>)
    ensures FilledRows(data).Ok? ==>
              |FilledRows(data).value| == |FilesOf(Described(data))|
              && forall k :: 0 <= k < |FilledRows(data).value| ==>
                   |FilledRows(data).value[k]| == 9
                   && FilledRows(data).value[k][3] == Str(Name(FilesOf(Described(data))[k].path))
  {
    if |data| > 0 && FilledRows(data).Ok? {
      var init := data[..|data| - 1];
      var g := data[|data| - 1];
      FilledRowsFiles(init);
      GroupRowsMeaning(g);
      var before := FilledRows(init).value;
      var added := GroupRows(g).value;
      var kept := if g.files[0].associatedManifestItem.Some? then [g] else [];
      assert Described(data) == Described(init) + kept;
      FilesOfAppend(Described(init), kept);
      assert FilesOf(kept) == if kept == [] then [] else g.files by {
        if kept != [] {
          assert FilesOf(kept) == g.files + FilesOf([]);
        }
      }
      assert FilledRows(data).value == before + added;
      forall k | |before| <= k < |before| + |added|
        ensures |added[k - |before|]| == 9
        ensures added[k - |before|][3] == Str(Name(FilesOf(Described(data))[k].path))
      {
        RowCells(g.files[0].associatedManifestItem.value, g.files[k - |before|].path);
      }
    }
  }

  /** Filling the groups of `a` followed by those of `b` appends the rows of
      `a` and then those of `b`; a failure in either is the failure. */
  lemma {:induction false} FilledRowsAppend(a: seq<DocumentGroup>, b: seq<DocumentGroup>)
    ensures FilledRows(a + b)
            == if FilledRows(a).Err? then FilledRows(a)
               else if FilledRows(b).Err? then FilledRows(b)
               else Ok(FilledRows(a).value + FilledRows(b).value)
    decreases |b|
  {
    if |b| == 0 {
      AppendNothing(a, b);
      assert FilledRows(a).Ok? ==> FilledRows(a).value + [] == FilledRows(a).value;
    } else {
      var init := b[..|b| - 1];
      DropLast(a, b);
      FilledRowsAppend(a, init);
      if FilledRows(a).Ok? && FilledRows(init).Ok? && GroupRows(b[|b| - 1]).Ok? {
        Regroup(FilledRows(a).value, FilledRows(init).value, GroupRows(b[|b| - 1]).value);
      }
    }
  }

  lemma AppendNothing<T>(a: seq<T>, b: seq<T>)
    requires |b| == 0
    ensures a + b == a
  {
  }

  lemma DropLast<T>(a: seq<T>, b: seq<T>)
    requires |b| > 0
    ensures (a + b)[..|a + b| - 1] == a + b[..|b| - 1]
    ensures (a + b)[|a + b| - 1] == b[|b| - 1]
  {
  }

  /** A missing template raises `TemplateNotFoundError`, a `CoreError`,
      before anything on disk changes. */
  lemma TemplateMissing(contents: map<Path, Content>, copyFailures: map<(Path, Path), Exception>,
                        saveFailures: map<Path, Exception>,
                        templatePath: Path, outputPath: Path, data: seq<DocumentGroup>)
    requires templatePath !in contents
    ensures var o := FillOutcome(contents, copyFailures, saveFailures, templatePath, outputPath, data);
            o.raised == Some(Exception(TemplateNotFoundError, NotFoundMessage(templatePath)))
            && o.raised.value.IsCoreError() && o.contents == contents
  {
    CoreFamily(TemplateNotFoundError);
  }

  /** The call returns exactly when the template exists, copies, loads, every
      group has a file and the copy saves; the output then holds the
      template's rows followed by the filled rows, and no other path changes. */
  lemma FillSucceeds(contents: map<Path, Content>, copyFailures: map<(Path, Path), Exception>,
                     saveFailures: map<Path, Exception>,
                     templatePath: Path, outputPath: Path, data: seq<DocumentGroup>)
    ensures FillOutcome(contents, copyFailures, saveFailures, templatePath, outputPath, data).raised.None?
            <==> templatePath in contents && (templatePath, outputPath) !in copyFailures
                 && contents[templatePath].Workbook?
                 && (forall i :: 0 <= i < |data| ==> |data[i].files| > 0)
                 && outputPath !in saveFailures
    ensures var o := FillOutcome(contents, copyFailures, saveFailures, templatePath, outputPath, data);
            o.raised.None? ==>
              FilledRows(data).Ok?
              && o.contents == contents[outputPath := Workbook(contents[templatePath].rows + FilledRows(data).value)]
              && (outputPath != templatePath ==> o.contents[templatePath] == contents[templatePath])
  {
    FilledRowsFails(data);
    var o := FillOutcome(contents, copyFailures, saveFailures, templatePath, outputPath, data);
    if o.raised.None? {
      var copied := contents[outputPath := contents[templatePath]];
      assert copied[outputPath := Workbook(contents[templatePath].rows + FilledRows(data).value)]
             == contents[outputPath := Workbook(contents[templatePath].rows + FilledRows(data).value)];
    }
  }

  /** A failed copy raises its own exception and changes nothing; every
      later failure raises `TemplateFillError`, a `CoreError`, and leaves the
      plain copy of the template at the output path. No path other than the
      output ever changes. */
  lemma FillFailures(contents: map<Path, Content>, copyFailures: map<(Path, Path), Exception>,
                     saveFailures: map<Path, Exception>,
                     templatePath: Path, outputPath: Path, data: seq<DocumentGroup>)
    ensures var o := FillOutcome(contents, copyFailures, saveFailures, templatePath, outputPath, data);
            templatePath in contents && (templatePath, outputPath) in copyFailures ==>
              o.raised == Some(copyFailures[(templatePath, outputPath)]) && o.contents == contents
    ensures var o := FillOutcome(contents, copyFailures, saveFailures, templatePath, outputPath, data);
            templatePath in contents && (templatePath, outputPath) !in copyFailures && o.raised.Some? ==>
              o.raised.value.kind == TemplateFillError && o.raised.value.IsCoreError()
              && o.contents == contents[outputPath := contents[templatePath]]
    ensures var o := FillOutcome(contents, copyFailures, saveFailures, templatePath, outputPath, data);
            forall p :: p != outputPath ==> ((p in o.contents <==> p in contents) && (p in contents ==> o.contents[p] == contents[p]))
  {
    CoreFamily(TemplateFillError);
  }
}
