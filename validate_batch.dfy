/** Use case UC-01, validating a batch: every file found on disk is matched
    against the manifest by the base name of its file name, marked validated
    (and linked to its manifest item) or unrecognized, and sorted into one of
    two lists. */
module ValidateBatch {
  import opened Wrappers
  import opened Maps
  import opened Strings
  import opened Paths
  import opened Errors
  import opened Domain
  import opened Collaborators

  /** `_get_file_base_name`: the stem without its last `_` segment. */
  function BaseName(fileName: string): string {
    var stem := Stem(fileName);
    var parts := Split(stem, '_');
    if |parts| > 1 then Strings.Join("_", parts[..|parts| - 1]) else stem
  }

  /** The base name is the stem cut at its last `_`, or the whole stem when
      it has none. */
  lemma {:induction false} BaseNameCutsAtLastUnderscore(fileName: string)
    ensures var stem := Stem(fileName);
            if '_' in stem then BaseName(fileName) == stem[..LastIndexOf(stem, '_')]
            else BaseName(fileName) == stem
  {
    var stem := Stem(fileName);
    if '_' in stem {
      JoinAllButLast(stem, '_');
    }
  }

  /** `rfind` finds a given position when the character does not occur after it. */
  lemma LastIndexAt(s: string, c: char, i: nat)
    requires i < |s| && s[i] == c
    requires forall k :: i < k < |s| ==> s[k] != c
    ensures LastIndexOf(s, c) == i
  {
  }

  /** A name made of a code, `_`, a revision tag and an extension has the code
      as its base name. */
  lemma {:induction false} BaseNameOfRevisedName(code: string, revision: string, extension: string)
    requires '_' !in revision && '.' !in revision
    requires '.' !in extension && extension != ""
    ensures BaseName(code + "_" + revision + "." + extension) == code
  {
    var stem := code + "_" + revision;
    var name := stem + "." + extension;
    forall k | |stem| < k < |name| ensures name[k] != '.' {
      assert name[k] == extension[k - |stem| - 1];
    }
    LastIndexAt(name, '.', |stem|);
    assert name[..|stem|] == stem;
    forall k | |code| < k < |stem| ensures stem[k] != '_' {
      assert stem[k] == revision[k - |code| - 1];
    }
    LastIndexAt(stem, '_', |code|);
    BaseNameCutsAtLastUnderscore(name);
    assert stem[..|code|] == code;
  }

  /** A name without `_` before its extension is its own base name. */
  lemma {:induction false} BaseNameOfPlainName(stem: string, extension: string)
    requires '_' !in stem && stem != ""
    requires '.' !in extension && extension != ""
    ensures BaseName(stem + "." + extension) == stem
  {
    var name := stem + "." + extension;
    forall k | |stem| < k < |name| ensures name[k] != '.' {
      assert name[k] == extension[k - |stem| - 1];
    }
    LastIndexAt(name, '.', |stem|);
    assert name[..|stem|] == stem;
    BaseNameCutsAtLastUnderscore(name);
  }

  /** The base names the use case's tests expect: "DOC-001_A.pdf",
      "REPORT-123_rev1.docx", "DOC-003.pdf" and "COMPLEX_DOC_NAME_A.pdf". */
  lemma BaseNameExampleRevisionLetter(a: string)
    requires a == "DOC-001_A.pdf"
    ensures BaseName(a) == "DOC-001"
  {
    assert a[..7] == "DOC-001" && a[8..9] == "A" && a[10..] == "pdf";
    assert a == a[..7] + "_" + a[8..9] + "." + a[10..];
    BaseNameOfRevisedName(a[..7], a[8..9], a[10..]);
  }

  lemma BaseNameExampleRevisionWord(b: string)
    requires b == "REPORT-123_rev1.docx"
    ensures BaseName(b) == "REPORT-123"
  {
    assert b[..10] == "REPORT-123" && b[11..15] == "rev1" && b[16..] == "docx";
    assert b == b[..10] + "_" + b[11..15] + "." + b[16..];
    BaseNameOfRevisedName(b[..10], b[11..15], b[16..]);
  }

  lemma BaseNameExampleNoRevision(c: string)
    requires c == "DOC-003.pdf"
    ensures BaseName(c) == "DOC-003"
  {
    assert c[..7] == "DOC-003" && c[8..] == "pdf";
    assert c == c[..7] + "." + c[8..];
    BaseNameOfPlainName(c[..7], c[8..]);
  }

  lemma BaseNameExampleUnderscores(d: string)
    requires d == "COMPLEX_DOC_NAME_A.pdf"
    ensures BaseName(d) == "COMPLEX_DOC_NAME"
  {
    assert d[..16] == "COMPLEX_DOC_NAME" && d[17..18] == "A" && d[19..] == "pdf";
    assert d == d[..16] + "_" + d[17..18] + "." + d[19..];
    BaseNameOfRevisedName(d[..16], d[17..18], d[19..]);
  }

  /** The manifest item a file matches, if any: the one whose code is, as a
      string and exactly, the base name of the file's name. */
  function Match(f: DocumentFile, table: map<Value, ManifestItem>): Option<ManifestItem> {
    Lookup(table, Str(BaseName(Name(f.path))))
  }

  /** The files that match (`matched`) or do not match the manifest, in disk
      order. */
  function Kept(files: seq<DocumentFile>, table: map<Value, ManifestItem>, matched: bool): seq<DocumentFile> {
    if |files| == 0 then []
    else
      var init := Kept(files[..|files| - 1], table, matched);
      if Match(files[|files| - 1], table).Some? == matched then init + [files[|files| - 1]] else init
  }

  function ValidatedFiles(files: seq<DocumentFile>, table: map<Value, ManifestItem>): seq<DocumentFile> {
    Kept(files, table, true)
  }

  function UnrecognizedFiles(files: seq<DocumentFile>, table: map<Value, ManifestItem>): seq<DocumentFile> {
    Kept(files, table, false)
  }

  /** Every listed file lands in exactly one of the two lists: together they
      hold the listing, counted with multiplicity, and a file is in the first
      list exactly when it matches a manifest code. */
  lemma {:induction false} Partition(files: seq<DocumentFile>, table: map<Value, ManifestItem>)
    ensures multiset(ValidatedFiles(files, table)) + multiset(UnrecognizedFiles(files, table)) == multiset(files)
    ensures |ValidatedFiles(files, table)| + |UnrecognizedFiles(files, table)| == |files|
    ensures forall f :: f in ValidatedFiles(files, table) <==> f in files && Match(f, table).Some?
    ensures forall f :: f in UnrecognizedFiles(files, table) <==> f in files && Match(f, table).None?
  {
    if files != [] {
      var init := files[..|files| - 1];
      Partition(init, table);
      assert files == init + [files[|files| - 1]];
    }
  }

  /** The positions, in the listing, of the files a filter keeps. */
  function KeptPositions(files: seq<DocumentFile>, table: map<Value, ManifestItem>, matched: bool): (ps: seq<nat>)
    ensures forall k :: 0 <= k < |ps| ==> ps[k] < |files|
  {
    if |files| == 0 then []
    else
      var init := KeptPositions(files[..|files| - 1], table, matched);
      if Match(files[|files| - 1], table).Some? == matched then init + [|files| - 1] else init
  }

  /** Both lists keep disk order: each is the listing read at strictly
      increasing positions. */
  lemma {:induction false} KeptInOrder(files: seq<DocumentFile>, table: map<Value, ManifestItem>, matched: bool)
    ensures var ps := KeptPositions(files, table, matched);
            var kept := Kept(files, table, matched);
            |ps| == |kept|
            && (forall k :: 0 <= k < |ps| ==> kept[k] == files[ps[k]])
            && (forall k, l :: 0 <= k < l < |ps| ==> ps[k] < ps[l])
  {
    if files != [] {
      var init := files[..|files| - 1];
      KeptInOrder(init, table, matched);
      assert forall k :: 0 <= k < |init| ==> init[k] == files[k];
    }
  }

  /** What validation leaves in a file: validated and linked to its item when
      it matches, otherwise unrecognized with its link as it was. */
  ghost predicate AfterValidation(f: DocumentFile, table: map<Value, ManifestItem>, oldLink: Option<ManifestItem>)
    reads f
  {
    Marked(f, Match(f, table), oldLink)
  }

  ghost predicate Marked(f: DocumentFile, matched: Option<ManifestItem>, oldLink: Option<ManifestItem>)
    reads f
  {
    match matched
    case Some(item) => f.status == DocumentStatus.Validated && f.associatedManifestItem == Some(item)
    case None => f.status == Unrecognized && f.associatedManifestItem == oldLink
  }

  /** One step of the validation loop: marks one file. */
  method MarkFile(file: DocumentFile, table: map<Value, ManifestItem>) returns (matched: Option<ManifestItem>)
    modifies file
    ensures matched == Match(file, table)
    ensures Marked(file, matched, old(file.associatedManifestItem))
  {
    matched := Lookup(table, Str(BaseName(Name(file.path))));
    if matched.Some? {
      file.status := DocumentStatus.Validated;
      file.associatedManifestItem := matched;
    } else {
      file.status := Unrecognized;
    }
  }

  /** The validation loop: marks every file in place and sorts it into one
      of the two lists. A file listed twice is marked the same way twice. */
  method ValidateFiles(files: seq<DocumentFile>, table: map<Value, ManifestItem>)
    returns (validated: seq<DocumentFile>, unrecognized: seq<DocumentFile>)
    modifies files
    ensures validated == ValidatedFiles(files, table)
    ensures unrecognized == UnrecognizedFiles(files, table)
    ensures forall f :: f in files ==> AfterValidation(f, table, old(f.associatedManifestItem))
  {
    ghost var links := seq(|files|, k requires 0 <= k < |files| reads files => files[k].associatedManifestItem);
    validated, unrecognized := [], [];
    for i := 0 to |files|
      invariant validated == Kept(files[..i], table, true)
      invariant unrecognized == Kept(files[..i], table, false)
      invariant forall k :: 0 <= k < i ==> AfterValidation(files[k], table, links[k])
      invariant forall k :: i <= k < |files| && files[k] !in files[..i] ==>
                  files[k].status == old(files[k].status) && files[k].associatedManifestItem == links[k]
    {
      var file := files[i];
      assert files[..i + 1][..i] == files[..i];
      if file in files[..i] {
        var j :| 0 <= j < i && files[j] == file;
        assert AfterValidation(file, table, links[j]);
      }
      label before:
      var matched := MarkFile(file, table);
      forall k | 0 <= k <= i
        ensures AfterValidation(files[k], table, links[k])
      {
        if files[k] != file {
          assert old@before(AfterValidation(files[k], table, links[k]));
          assert unchanged@before(files[k]);
        }
      }
      if matched.Some? {
        validated := validated + [file];
      } else {
        unrecognized := unrecognized + [file];
      }
    }
    assert files[..|files|] == files;
    forall f | f in files ensures AfterValidation(f, table, old(f.associatedManifestItem)) {
      var k :| 0 <= k < |files| && files[k] == f;
      assert links[k] == old(f.associatedManifestItem);
    }
  }

  class ValidateBatchUseCase {
    const manifestRepository: ManifestRepository
    const fileRepository: FileRepository

    constructor (manifestRepository: ManifestRepository, fileRepository: FileRepository)
      ensures this.manifestRepository == manifestRepository && this.fileRepository == fileRepository
    {
      this.manifestRepository := manifestRepository;
      this.fileRepository := fileRepository;
    }

    /** `execute`: loads the manifest, then lists the directory (an exception
        from either propagates unchanged, before any file is touched), then
        validates each listed file in place. */
    method Execute(manifestPath: Path, sourceDirectory: Path)
      returns (r: Result<(seq<DocumentFile>, seq<DocumentFile>)>)
      requires manifestRepository.journal == fileRepository.journal
      modifies manifestRepository.journal, fileRepository.Listed(sourceDirectory)
      ensures var load := manifestRepository.answer(manifestPath);
              var listing := fileRepository.Answer(sourceDirectory);
              var journal := manifestRepository.journal;
              if load.Err? then
                r == Err(load.error)
                && journal.calls == old(journal.calls) + [Call.LoadFromFile(manifestPath)]
              else
                journal.calls == old(journal.calls) + [Call.LoadFromFile(manifestPath), Call.ListFiles(sourceDirectory)]
                && if listing.Err? then r == Err(listing.error)
                   else
                     var table := ManifestMap(load.value);
                     r == Ok((ValidatedFiles(listing.value, table), UnrecognizedFiles(listing.value, table)))
      ensures var load := manifestRepository.answer(manifestPath);
              forall f :: f in fileRepository.Listed(sourceDirectory) ==>
                if load.Err? then f.status == old(f.status) && f.associatedManifestItem == old(f.associatedManifestItem)
                else AfterValidation(f, ManifestMap(load.value), old(f.associatedManifestItem))
    {
      var loaded := manifestRepository.LoadFromFile(manifestPath);
      if loaded.Err? {
        return Err(loaded.error);
      }
      var listing := fileRepository.ListFiles(sourceDirectory);
      if listing.Err? {
        return Err(listing.error);
      }
      var validated, unrecognized := ValidateFiles(listing.value, ManifestMap(loaded.value));
      r := Ok((validated, unrecognized));
    }
  }
}
