/** The entities of the document pipeline: manifest items, physical document
    files, the groups of files that share a document code, the output lots
    built from those groups, and the report of an organisation run. */
module Domain {
  import opened Wrappers
  import opened Strings
  import opened Paths
  import opened Maps

  /** A Python value as the manifest spreadsheet delivers it: `ManifestItem`
      declares its code and title as `str`, but the reader stores the raw cell
      values, which may also be empty or numeric. */
  datatype Value = NoneValue | Str(s: string) | Int(i: int) {
    /** Python truthiness (`bool(v)`). */
    predicate Truthy() {
      match this
      case NoneValue => false
      case Str(s) => s != ""
      case Int(i) => i != 0
    }

    /** `str(v)`. */
    function ToStr(): string {
      match this
      case NoneValue => "None"
      case Str(s) => s
      case Int(i) => IntToString(i)
    }
  }

  /** The status of a physical file: exactly one of four values. */
  datatype DocumentStatus = Unvalidated | Validated | Unrecognized | Error {
    /** The enum member's value, as shown to users. */
    function Label(): string {
      match this
      case Unvalidated => "Não Validado"
      case Validated => "Validado"
      case Unrecognized => "Não Reconhecido"
      case Error => "Erro"
    }
  }

  /** Distinct statuses carry distinct labels. */
  lemma LabelsDistinct(a: DocumentStatus, b: DocumentStatus)
    ensures a.Label() == b.Label() <==> a == b
  {
    if a != b {
      match a
      case Unvalidated => assert a.Label()[0] == 'N' && a.Label()[1] == 'ã' && |a.Label()| == 12;
      case Validated => assert a.Label()[0] == 'V';
      case Unrecognized => assert a.Label()[0] == 'N' && |a.Label()| == 15;
      case Error => assert a.Label()[0] == 'E';
    }
  }

  /** One row of the manifest: code, revision, title and the extra columns. */
  datatype ManifestItem = ManifestItem(
    documentCode: Value,
    revision: string,
    title: Value,
    metadata: map<Value, Value> := map[])

  /** A file on disk. Its path and size never change; the validation and
      resolution use cases update its status and association in place. */
  class DocumentFile {
    const path: Path
    const sizeBytes: int
    var status: DocumentStatus
    var associatedManifestItem: Option<ManifestItem>

    constructor (path: Path, sizeBytes: int, status: DocumentStatus := Unvalidated,
                 associatedManifestItem: Option<ManifestItem> := None)
      ensures this.path == path && this.sizeBytes == sizeBytes
      ensures this.status == status && this.associatedManifestItem == associatedManifestItem
    {
      this.path := path;
      this.sizeBytes := sizeBytes;
      this.status := status;
      this.associatedManifestItem := associatedManifestItem;
    }
  }

  /** The sum of the files' sizes. */
  function SumSizes(files: seq<DocumentFile>): int {
    if |files| == 0 then 0 else files[0].sizeBytes + SumSizes(files[1..])
  }

  lemma {:induction false} SumSizesAppend(a: seq<DocumentFile>, b: seq<DocumentFile>)
    ensures SumSizes(a + b) == SumSizes(a) + SumSizes(b)
  {
    if a != [] {
      assert (a + b)[1..] == a[1..] + b;
      SumSizesAppend(a[1..], b);
    } else {
      assert a + b == b;
    }
  }

  /** The files that share one document code. */
  datatype DocumentGroup = DocumentGroup(documentCode: Value, files: seq<DocumentFile> := []) {
    function TotalSizeBytes(): int { SumSizes(files) }
  }

  function SumGroupSizes(groups: seq<DocumentGroup>): int {
    if |groups| == 0 then 0 else groups[0].TotalSizeBytes() + SumGroupSizes(groups[1..])
  }

  /** The files of the groups, group by group, each group's in order. */
  function FilesOf(groups: seq<DocumentGroup>): seq<DocumentFile> {
    if |groups| == 0 then [] else groups[0].files + FilesOf(groups[1..])
  }

  /** An output lot: a name and the groups placed in it. */
  datatype OutputLot = OutputLot(lotName: string, groups: seq<DocumentGroup> := []) {
    function Files(): seq<DocumentFile> { FilesOf(groups) }
    function TotalSizeBytes(): int { SumGroupSizes(groups) }
  }

  /** The report of one organisation run. */
  datatype OrganizationResult = OrganizationResult(
    lotsCreated: int := 0,
    filesMoved: int := 0,
    success: bool := true,
    message: string := "")

  /** A new file is unvalidated and has no associated manifest item. */
  method NewFileDefaults(path: Path, size: int) returns (f: DocumentFile)
    ensures f.path == path && f.sizeBytes == size
    ensures f.status == Unvalidated && f.associatedManifestItem == None
  {
    f := new DocumentFile(path, size);
  }

  /** A manifest item keeps what it was given; its metadata defaults to an
      empty map. */
  lemma ManifestItemDefaults(code: Value, revision: string, title: Value)
    ensures var item := ManifestItem(code, revision, title);
            item.documentCode == code && item.revision == revision && item.title == title
            && item.metadata == map[]
  {
  }

  /** A group's total is the sum of its files' sizes; 0 when it is empty. */
  lemma {:induction false} GroupTotal(code: Value, a: seq<DocumentFile>, b: seq<DocumentFile>)
    ensures DocumentGroup(code).TotalSizeBytes() == 0
    ensures DocumentGroup(code, a + b).TotalSizeBytes()
            == DocumentGroup(code, a).TotalSizeBytes() + DocumentGroup(code, b).TotalSizeBytes()
  {
    SumSizesAppend(a, b);
  }

  /** A lot's total is the sum of the sizes of the files it lists; a lot
      with no groups lists no files and weighs 0. */
  lemma {:induction false} LotTotal(lot: OutputLot)
    ensures OutputLot(lot.lotName).Files() == [] && OutputLot(lot.lotName).TotalSizeBytes() == 0
    ensures lot.TotalSizeBytes() == SumSizes(lot.Files())
    decreases |lot.groups|
  {
    if lot.groups != [] {
      var rest := OutputLot(lot.lotName, lot.groups[1..]);
      LotTotal(rest);
      SumSizesAppend(lot.groups[0].files, rest.Files());
    }
  }

  /** Adding a group to a lot appends that group's files, in order, after the
      lot's files, and adds the group's total to the lot's. */
  lemma {:induction false} LotAddGroup(name: string, groups: seq<DocumentGroup>, g: DocumentGroup)
    ensures OutputLot(name, groups + [g]).Files() == OutputLot(name, groups).Files() + g.files
    ensures OutputLot(name, groups + [g]).TotalSizeBytes()
            == OutputLot(name, groups).TotalSizeBytes() + g.TotalSizeBytes()
  {
    FilesOfAppend(groups, [g]);
    SumGroupSizesAppend(groups, [g]);
    assert FilesOf([g]) == g.files + FilesOf([]);
  }

  lemma {:induction false} FilesOfAppend(a: seq<DocumentGroup>, b: seq<DocumentGroup>)
    ensures FilesOf(a + b) == FilesOf(a) + FilesOf(b)
  {
    if a != [] {
      assert (a + b)[1..] == a[1..] + b;
      FilesOfAppend(a[1..], b);
    } else {
      assert a + b == b;
    }
  }

  /** Taking one group out of a list takes it out of the list's multiset. */
  lemma RemoveOne<T>(b: seq<T>, m: nat)
    requires m < |b|
    ensures multiset(b[..m] + b[m + 1..]) == multiset(b) - multiset{b[m]}
  {
    SplitAt(b, m);
  }

  /** A non-empty list's multiset is its head's plus its tail's. */
  lemma RemoveFirst<T>(a: seq<T>)
    requires |a| > 0
    ensures multiset(a[1..]) == multiset(a) - multiset{a[0]}
  {
    assert a == [a[0]] + a[1..];
  }

  /** Groups that are a permutation of each other hold the same files. */
  lemma {:induction false} FilesOfPermutation(a: seq<DocumentGroup>, b: seq<DocumentGroup>)
    requires multiset(a) == multiset(b)
    ensures multiset(FilesOf(a)) == multiset(FilesOf(b))
    decreases |a|
  {
    if |a| == 0 {
      assert |b| == |multiset(b)| == 0;
    } else {
      var g := a[0];
      assert g in multiset(b);
      var m :| 0 <= m < |b| && b[m] == g;
      var rest := b[..m] + b[m + 1..];
      RemoveOne(b, m);
      RemoveFirst(a);
      FilesOfPermutation(a[1..], rest);
      assert FilesOf(rest) == FilesOf(b[..m]) + FilesOf(b[m + 1..]) by {
        FilesOfAppend(b[..m], b[m + 1..]);
      }
      FilesOfSplit(b, m);
      assert FilesOf(a) == g.files + FilesOf(a[1..]);
    }
  }

  /** The files of a list of groups around one of them. */
  lemma FilesOfSplit(b: seq<DocumentGroup>, m: nat)
    requires m < |b|
    ensures FilesOf(b) == FilesOf(b[..m]) + b[m].files + FilesOf(b[m + 1..])
  {
    SplitAt(b, m);
    FilesOfAround(b[..m], b[m], b[m + 1..]);
  }

  lemma FilesOfAround(before: seq<DocumentGroup>, g: DocumentGroup, after: seq<DocumentGroup>)
    ensures FilesOf(before + [g] + after) == FilesOf(before) + g.files + FilesOf(after)
  {
    FilesOfAppend(before + [g], after);
    FilesOfAppend(before, [g]);
    assert FilesOf([g]) == g.files + FilesOf([]);
  }

  lemma SplitAt<T>(s: seq<T>, m: nat)
    requires m < |s|
    ensures s == s[..m] + [s[m]] + s[m + 1..]
  {
  }

  lemma {:induction false} SumGroupSizesAppend(a: seq<DocumentGroup>, b: seq<DocumentGroup>)
    ensures SumGroupSizes(a + b) == SumGroupSizes(a) + SumGroupSizes(b)
  {
    if a != [] {
      assert (a + b)[1..] == a[1..] + b;
      SumGroupSizesAppend(a[1..], b);
    } else {
      assert a + b == b;
    }
  }

  /** The (code, item) pairs of a manifest, in manifest order. */
  function CodePairs(items: seq<ManifestItem>): (pairs: seq<(Value, ManifestItem)>)
    ensures |pairs| == |items|
    ensures forall i :: 0 <= i < |items| ==> pairs[i] == (items[i].documentCode, items[i])
  {
    seq(|items|, i requires 0 <= i < |items| => (items[i].documentCode, items[i]))
  }

  /** `{item.document_code: item for item in items}`: the lookup table the
      use cases build from a manifest. */
  function ManifestMap(items: seq<ManifestItem>): (m: map<Value, ManifestItem>)
    ensures m.Keys == set i | 0 <= i < |items| :: items[i].documentCode
    ensures forall c :: c in m ==> m[c].documentCode == c
  {
    var pairs := CodePairs(items);
    var m := ToMap(pairs);
    assert m.Keys == set i | 0 <= i < |items| :: items[i].documentCode by {
      assert forall i :: 0 <= i < |pairs| ==> pairs[i].0 == items[i].documentCode;
    }
    ToMapValues(pairs);
    m
  }

  /** Every value the table holds came from one of the pairs for its key. */
  lemma {:induction false} ToMapValues(pairs: seq<(Value, ManifestItem)>)
    requires forall i :: 0 <= i < |pairs| ==> pairs[i].1.documentCode == pairs[i].0
    ensures forall c :: c in ToMap(pairs) ==> ToMap(pairs)[c].documentCode == c
  {
    if pairs != [] {
      ToMapValues(pairs[..|pairs| - 1]);
    }
  }

  /** With duplicate codes, the lookup finds the LAST item carrying the code. */
  lemma ManifestMapLastWins(items: seq<ManifestItem>, i: nat)
    requires i < |items|
    requires forall j :: i < j < |items| ==> items[j].documentCode != items[i].documentCode
    ensures items[i].documentCode in ManifestMap(items)
    ensures ManifestMap(items)[items[i].documentCode] == items[i]
  {
    ToMapLastWins(CodePairs(items), i);
  }

  /** Every value of the lookup table is one of the manifest's items. */
  lemma {:induction false} ManifestMapHolds(items: seq<ManifestItem>, c: Value)
    requires c in ManifestMap(items)
    ensures ManifestMap(items)[c] in items
  {
    if items != [] {
      var init := items[..|items| - 1];
      var last := items[|items| - 1];
      assert CodePairs(items) == CodePairs(init) + [(last.documentCode, last)];
      assert CodePairs(items)[..|items| - 1] == CodePairs(init);
      if c != last.documentCode {
        ManifestMapHolds(init, c);
      }
    }
  }
}
