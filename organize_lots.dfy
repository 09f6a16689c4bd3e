/** Use case UC-03, organising validated files into output lots: the files are
    grouped by their manifest code, the groups are handed to the lot balancer,
    and each lot returned is named from a pattern, gets its own directory,
    receives its files and gets its lot manifest filled from the master
    template. Any `CoreError` along the way ends the run with a failed
    report. */
module OrganizeLots {
  import opened Wrappers
  import opened Maps
  import opened Strings
  import opened Paths
  import opened Errors
  import opened Domain
  import opened Collaborators
  import opened Services

  // ---------------------------------------------------------------- grouping

  /** Every file is associated with a manifest item. */
  predicate Associated(files: seq<DocumentFile>)
    reads files
  {
    forall i :: 0 <= i < |files| ==> files[i].associatedManifestItem.Some?
  }

  /** The manifest code of each file, in order. */
  function CodesOf(files: seq<DocumentFile>): (codes: seq<Value>)
    requires Associated(files)
    reads files
    ensures |codes| == |files|
    ensures forall i :: 0 <= i < |files| ==> codes[i] == files[i].associatedManifestItem.value.documentCode
  {
    if |files| == 0 then []
    else [files[0].associatedManifestItem.value.documentCode] + CodesOf(files[1..])
  }

  /** The distinct codes, each where it first appears. */
  function FirstAppearances(codes: seq<Value>): (d: seq<Value>)
    ensures forall c :: c in d <==> c in codes
    decreases |codes|
  {
    if |codes| == 0 then []
    else
      var d := FirstAppearances(codes[..|codes| - 1]);
      var c := codes[|codes| - 1];
      assert codes == codes[..|codes| - 1] + [c];
      if c in d then d else d + [c]
  }

  /** The files whose code is `c`, in input order. */
  function FilesWith(files: seq<DocumentFile>, codes: seq<Value>, c: Value): seq<DocumentFile>
    requires |files| == |codes|
    decreases |files|
  {
    if |files| == 0 then []
    else
      var n := |files| - 1;
      FilesWith(files[..n], codes[..n], c) + (if codes[n] == c then [files[n]] else [])
  }

  /** The groups a list of files forms: one per distinct code, in order of
      first appearance, each holding the files with that code in input
      order. */
  function Grouping(files: seq<DocumentFile>, codes: seq<Value>): (groups: seq<DocumentGroup>)
    requires |files| == |codes|
  {
    var d := FirstAppearances(codes);
    seq(|d|, i requires 0 <= i < |d| => DocumentGroup(d[i], FilesWith(files, codes, d[i])))
  }

  /** What reading `.document_code` from a missing association raises. */
  const NoDocumentCode := Exception(AttributeError, "'NoneType' object has no attribute 'document_code'")

  /** Step 1 of the use case: the groups, or the exception the grouping
      raises when some file has no manifest item. */
  function Grouped(files: seq<DocumentFile>): Result<seq<DocumentGroup>>
    reads files
  {
    if Associated(files) then Ok(Grouping(files, CodesOf(files))) else Err(NoDocumentCode)
  }

  /** Adding one file to the end: its code is added if new, and its group
      gets the file at the end. */
  lemma {:induction false} GroupingStep(files: seq<DocumentFile>, codes: seq<Value>, f: DocumentFile, code: Value)
    requires |files| == |codes|
    ensures FirstAppearances(codes + [code])
            == if code in FirstAppearances(codes) then FirstAppearances(codes) else FirstAppearances(codes) + [code]
    ensures forall c :: FilesWith(files + [f], codes + [code], c)
                        == FilesWith(files, codes, c) + (if code == c then [f] else [])
  {
    assert (codes + [code])[..|codes|] == codes;
    assert (files + [f])[..|files|] == files;
  }

  /** A code that no file carries selects no file. */
  lemma {:induction false} FilesWithAbsent(files: seq<DocumentFile>, codes: seq<Value>, c: Value)
    requires |files| == |codes| && c !in codes
    ensures FilesWith(files, codes, c) == []
    decreases |files|
  {
    if files != [] {
      var n := |files| - 1;
      assert codes[n] != c;
      assert c !in codes[..n];
      FilesWithAbsent(files[..n], codes[..n], c);
    }
  }

  /** The dictionary and its key order describe the grouping of `files`. */
  ghost predicate Describes(order: seq<Value>, groupsMap: map<Value, DocumentGroup>,
                      files: seq<DocumentFile>, codes: seq<Value>)
    requires |files| == |codes|
  {
    && order == FirstAppearances(codes)
    && (forall c :: c in groupsMap <==> c in order)
    && (forall c :: c in groupsMap ==> groupsMap[c] == DocumentGroup(c, FilesWith(files, codes, c)))
  }

  /** One pass of the loop body keeps the description. */
  lemma {:induction false} InsertKeepsDescription(order: seq<Value>, groupsMap: map<Value, DocumentGroup>,
                                                  order': seq<Value>, groupsMap': map<Value, DocumentGroup>,
                                                  files: seq<DocumentFile>, f: DocumentFile,
                                                  codes: seq<Value>, code: Value)
    requires |codes| == |files| && Describes(order, groupsMap, files, codes)
    requires order' == if code in groupsMap then order else order + [code]
    requires var created := if code in groupsMap then groupsMap else groupsMap[code := DocumentGroup(code)];
             groupsMap' == created[code := DocumentGroup(code, created[code].files + [f])]
    ensures Describes(order', groupsMap', files + [f], codes + [code])
  {
    OrderStep(order, groupsMap, order', codes, code);
    KeysStep(order, groupsMap, order', groupsMap', code, f);
    InsertKeepsGroups(groupsMap, groupsMap', files, f, codes, code);
  }

  /** A code seen for the first time joins the key order at its end. */
  lemma {:induction false} OrderStep(order: seq<Value>, groupsMap: map<Value, DocumentGroup>, order': seq<Value>,
                                     codes: seq<Value>, code: Value)
    requires order == FirstAppearances(codes)
    requires forall c :: c in groupsMap <==> c in order
    requires order' == if code in groupsMap then order else order + [code]
    ensures order' == FirstAppearances(codes + [code])
  {
    assert (codes + [code])[..|codes|] == codes;
  }

  /** The dictionary's keys follow the key order. */
  lemma {:induction false} KeysStep(order: seq<Value>, groupsMap: map<Value, DocumentGroup>,
                                    order': seq<Value>, groupsMap': map<Value, DocumentGroup>,
                                    code: Value, f: DocumentFile)
    requires forall c :: c in groupsMap <==> c in order
    requires order' == if code in groupsMap then order else order + [code]
    requires var created := if code in groupsMap then groupsMap else groupsMap[code := DocumentGroup(code)];
             groupsMap' == created[code := DocumentGroup(code, created[code].files + [f])]
    ensures forall c :: c in groupsMap' <==> c in order'
  {
  }

  /** The group of the file's code gets the file; the other groups stay. */
  lemma {:induction false} InsertKeepsGroups(groupsMap: map<Value, DocumentGroup>, groupsMap': map<Value, DocumentGroup>,
                                             files: seq<DocumentFile>, f: DocumentFile, codes: seq<Value>, code: Value)
    requires |files| == |codes|
    requires forall c :: c in groupsMap ==> groupsMap[c] == DocumentGroup(c, FilesWith(files, codes, c))
    requires code !in groupsMap ==> code !in codes
    requires var created := if code in groupsMap then groupsMap else groupsMap[code := DocumentGroup(code)];
             groupsMap' == created[code := DocumentGroup(code, created[code].files + [f])]
    ensures forall c :: c in groupsMap' ==> groupsMap'[c] == DocumentGroup(c, FilesWith(files + [f], codes + [code], c))
  {
    GroupingStep(files, codes, f, code);
    if code !in groupsMap {
      FilesWithAbsent(files, codes, code);
    }
    forall c | c in groupsMap'
      ensures groupsMap'[c] == DocumentGroup(c, FilesWith(files + [f], codes + [code], c))
    {
      if c != code {
        assert groupsMap'[c] == groupsMap[c];
      }
    }
  }

  /** `list(groups_map.values())`: the groups in key-insertion order. */
  lemma {:induction false} ValuesInOrder(order: seq<Value>, groupsMap: map<Value, DocumentGroup>,
                                         files: seq<DocumentFile>, codes: seq<Value>)
    requires |files| == |codes| && Describes(order, groupsMap, files, codes)
    ensures forall i :: 0 <= i < |order| ==> order[i] in groupsMap
    ensures seq(|order|, i requires 0 <= i < |order| && order[i] in groupsMap => groupsMap[order[i]])
            == Grouping(files, codes)
  {
    var groups := seq(|order|, i requires 0 <= i < |order| && order[i] in groupsMap => groupsMap[order[i]]);
    var expected := Grouping(files, codes);
    assert |groups| == |expected|;
    forall i | 0 <= i < |groups| ensures groups[i] == expected[i] {
      assert order[i] in groupsMap;
    }
  }

  /** `groups_map` as the loop leaves it: a dictionary from code to group,
      and the order in which its keys were inserted. */
  method GroupByCode(files: seq<DocumentFile>) returns (r: Result<seq<DocumentGroup>>)
    ensures r == Grouped(files)
  {
    var order: seq<Value> := [];
    var groupsMap: map<Value, DocumentGroup> := map[];
    ghost var codes: seq<Value> := [];
    for k := 0 to |files|
      invariant |codes| == k
      invariant forall i :: 0 <= i < k ==> files[i].associatedManifestItem.Some?
                                           && files[i].associatedManifestItem.value.documentCode == codes[i]
      invariant Describes(order, groupsMap, files[..k], codes)
    {
      var item := files[k].associatedManifestItem;
      if item.None? {
        assert !Associated(files);
        return Err(NoDocumentCode);
      }
      var code := item.value.documentCode;
      ghost var order0, groupsMap0 := order, groupsMap;
      if code !in groupsMap {
        groupsMap := groupsMap[code := DocumentGroup(code)];
        order := order + [code];
      }
      groupsMap := groupsMap[code := DocumentGroup(code, groupsMap[code].files + [files[k]])];
      InsertKeepsDescription(order0, groupsMap0, order, groupsMap, files[..k], files[k], codes, code);
      assert files[..k + 1] == files[..k] + [files[k]];
      codes := codes + [code];
    }
    assert files[..|files|] == files;
    assert codes == CodesOf(files);
    ValuesInOrder(order, groupsMap, files, codes);
    r := Ok(seq(|order|, i requires 0 <= i < |order| && order[i] in groupsMap => groupsMap[order[i]]));
  }

  // ------------------------------------------------------------ the lots

  /** The run's parameters after the file list. */
  datatype Settings = Settings(
    outputDirectory: Path,
    masterTemplatePath: Path,
    maxDocsPerLot: int,
    startSequenceNumber: int,
    lotNamePattern: string)

  /** The name of lot `i` (counting from 0): every "XXXX" of the pattern
      replaced by the sequence number `start + i` written with at least four
      digits. The name the balancer gave the lot is not used. */
  function LotName(s: Settings, i: nat): string {
    Replace(s.lotNamePattern, "XXXX", FormatZeroPadded(s.startSequenceNumber + i, 4))
  }

  function LotDirectory(s: Settings, i: nat): Path {
    Paths.Join(s.outputDirectory, LotName(s, i))
  }

  /** Where the lot's manifest is written: `<lot directory>/<lot name>.xlsx`. */
  function LotManifestPath(s: Settings, i: nat): Path {
    Paths.Join(LotDirectory(s, i), LotName(s, i) + ".xlsx")
  }

  /** A file moved into a directory keeps its name. */
  function Destination(directory: Path, file: DocumentFile): Path {
    Paths.Join(directory, Name(file.path))
  }

  function MoveCall(directory: Path, file: DocumentFile): Call {
    Call.MoveFile(file.path, Destination(directory, file))
  }

  /** One move per file, in order. */
  function Moves(directory: Path, files: seq<DocumentFile>): (calls: seq<Call>)
    ensures |calls| == |files|
  {
    if |files| == 0 then [] else [MoveCall(directory, files[0])] + Moves(directory, files[1..])
  }

  /** The moves of the groups' files, group after group. */
  function GroupMoves(directory: Path, groups: seq<DocumentGroup>): seq<Call> {
    if |groups| == 0 then []
    else GroupMoves(directory, groups[..|groups| - 1]) + Moves(directory, groups[|groups| - 1].files)
  }

  /** The calls made for one lot: its directory is created, its files are
      moved into it group by group, and its manifest is filled. */
  function LotCalls(directory: Path, manifestPath: Path, templatePath: Path, lot: OutputLot): seq<Call> {
    [Call.CreateDirectory(directory)] + Moves(directory, lot.Files())
    + [Call.FillAndSave(templatePath, manifestPath, lot.groups)]
  }

  /** The calls made for lot `i`, named as the `i`-th lot. */
  function LotPlan(s: Settings, lots: seq<OutputLot>, i: nat): seq<Call>
    requires i < |lots|
  {
    LotCalls(LotDirectory(s, i), LotManifestPath(s, i), s.masterTemplatePath, lots[i])
  }

  /** Every call of the run after the balancing, lot after lot. */
  function Plan(s: Settings, lots: seq<OutputLot>): seq<Call>
    decreases |lots|
  {
    if |lots| == 0 then [] else Plan(s, lots[..|lots| - 1]) + LotPlan(s, lots, |lots| - 1)
  }

  // ------------------------------------------------------------ failures

  /** What a call raises: the template filler answers for `fill_and_save`,
      the file-system manager for the rest. */
  function Raised(fsFailures: map<Call, Exception>, fillFailures: map<Call, Exception>, c: Call)
    : Option<Exception>
  {
    if c.FillAndSave? then Lookup(fillFailures, c) else Lookup(fsFailures, c)
  }

  predicate NoRaise(fsFailures: map<Call, Exception>, fillFailures: map<Call, Exception>, calls: seq<Call>) {
    forall j :: 0 <= j < |calls| ==> Raised(fsFailures, fillFailures, calls[j]).None?
  }

  /** The position of the first call that raises. */
  function FirstRaise(calls: seq<Call>, fsFailures: map<Call, Exception>, fillFailures: map<Call, Exception>)
    : (r: Option<nat>)
    ensures r.Some? ==> r.value < |calls| && Raised(fsFailures, fillFailures, calls[r.value]).Some?
                        && NoRaise(fsFailures, fillFailures, calls[..r.value])
    ensures r.None? <==> NoRaise(fsFailures, fillFailures, calls)
  {
    if |calls| == 0 then None
    else if Raised(fsFailures, fillFailures, calls[0]).Some? then Some(0)
    else
      match FirstRaise(calls[1..], fsFailures, fillFailures)
      case None => None
      case Some(k) =>
        var prefix := calls[..k + 1];
        assert NoRaise(fsFailures, fillFailures, prefix) by {
          forall j | 0 <= j < |prefix| ensures Raised(fsFailures, fillFailures, prefix[j]).None? {
            if j > 0 {
              assert prefix[j] == calls[1..][..k][j - 1];
            }
          }
        }
        Some(k + 1)
  }

  /** What attempting `calls` in order raises: the exception of the first
      call that raises, if any. */
  function Outcome(calls: seq<Call>, fsFailures: map<Call, Exception>, fillFailures: map<Call, Exception>)
    : Option<Exception>
  {
    if |calls| == 0 then None
    else if Raised(fsFailures, fillFailures, calls[0]).Some? then Raised(fsFailures, fillFailures, calls[0])
    else Outcome(calls[1..], fsFailures, fillFailures)
  }

  /** The calls actually made when `calls` are attempted in order: all of
      them, or those up to and including the first that raises. */
  function Performed(calls: seq<Call>, fsFailures: map<Call, Exception>, fillFailures: map<Call, Exception>)
    : seq<Call>
  {
    if |calls| == 0 then []
    else if Raised(fsFailures, fillFailures, calls[0]).Some? then [calls[0]]
    else [calls[0]] + Performed(calls[1..], fsFailures, fillFailures)
  }

  /** The `except CoreError` clause: a failed report carrying the error's
      text; any other exception passes through. */
  function Caught(e: Exception): Result<OrganizationResult> {
    if e.IsCoreError() then Ok(OrganizationResult(success := false, message := e.Str())) else Err(e)
  }

  /** The outcome of a run and the calls it makes, oldest first. */
  datatype Run = Run(result: Result<OrganizationResult>, calls: seq<Call>)

  /** What `execute` does, given the grouping of its files, the balancer's
      answers and the calls that raise: the balancer is asked once, then the
      lots' calls are made in order until one raises. */
  function Organize(grouped: Result<seq<DocumentGroup>>,
                    balance: (seq<DocumentGroup>, int) -> Result<seq<OutputLot>>,
                    fsFailures: map<Call, Exception>, fillFailures: map<Call, Exception>,
                    s: Settings): Run
  {
    match grouped
    case Err(e) => Run(Caught(e), [])
    case Ok(groups) =>
      var request := Call.BalanceLots(groups, s.maxDocsPerLot);
      match balance(groups, s.maxDocsPerLot)
      case Err(e) => Run(Caught(e), [request])
      case Ok(lots) =>
        var plan := Plan(s, lots);
        match Outcome(plan, fsFailures, fillFailures)
        case None =>
          Run(Ok(OrganizationResult(lotsCreated := |lots|, filesMoved := |FilesOf(AllGroups(lots))|)),
              [request] + plan)
        case Some(e) => Run(Caught(e), [request] + Performed(plan, fsFailures, fillFailures))
  }

  // ------------------------------------------------------------ attempting calls in order

  /** Nothing is raised exactly when no call raises. */
  lemma {:induction false} OutcomeNone(calls: seq<Call>,
                                       fsFailures: map<Call, Exception>, fillFailures: map<Call, Exception>)
    ensures Outcome(calls, fsFailures, fillFailures).None? <==> NoRaise(fsFailures, fillFailures, calls)
  {
    if |calls| > 0 {
      var rest := calls[1..];
      OutcomeNone(rest, fsFailures, fillFailures);
      assert forall j :: 0 < j < |calls| ==> calls[j] == rest[j - 1];
    }
  }

  /** The outcome and the calls made are those the first raising call
      decides: when no call raises, all calls are made and nothing is raised;
      otherwise the calls up to and including the first that raises are made
      and its exception is the outcome. */
  lemma {:induction false} AttemptMeaning(calls: seq<Call>,
                                          fsFailures: map<Call, Exception>, fillFailures: map<Call, Exception>)
    ensures match FirstRaise(calls, fsFailures, fillFailures)
            case None =>
              Outcome(calls, fsFailures, fillFailures) == None
              && Performed(calls, fsFailures, fillFailures) == calls
            case Some(k) =>
              Outcome(calls, fsFailures, fillFailures) == Raised(fsFailures, fillFailures, calls[k])
              && Performed(calls, fsFailures, fillFailures) == calls[..k + 1]
  {
    match FirstRaise(calls, fsFailures, fillFailures)
    case None =>
      OutcomeNone(calls, fsFailures, fillFailures);
      AttemptAll(calls, fsFailures, fillFailures);
    case Some(k) =>
      AttemptStops(calls, fsFailures, fillFailures, k);
  }

  /** The first call that raises ends the attempt with its exception. */
  lemma {:induction false} AttemptStops(calls: seq<Call>, fsFailures: map<Call, Exception>,
                                        fillFailures: map<Call, Exception>, k: nat)
    requires FirstRaise(calls, fsFailures, fillFailures) == Some(k)
    ensures k < |calls|
    ensures Outcome(calls, fsFailures, fillFailures) == Raised(fsFailures, fillFailures, calls[k])
    ensures Performed(calls, fsFailures, fillFailures) == calls[..k + 1]
  {
    if k == 0 {
      assert calls[..1] == [calls[0]];
    } else {
      var rest := calls[1..];
      AttemptStops(rest, fsFailures, fillFailures, k - 1);
      assert calls[k] == rest[k - 1];
      assert calls[..k + 1] == [calls[0]] + rest[..k];
    }
  }

  /** Attempting `a` and then `b` is attempting `a + b`: when `a` raises,
      nothing of `b` is made; otherwise all of `a` is made and then `b` is
      attempted. */
  lemma {:induction false} AttemptAppend(a: seq<Call>, b: seq<Call>,
                                         fsFailures: map<Call, Exception>, fillFailures: map<Call, Exception>)
    ensures Outcome(a + b, fsFailures, fillFailures)
            == if Outcome(a, fsFailures, fillFailures).Some? then Outcome(a, fsFailures, fillFailures)
               else Outcome(b, fsFailures, fillFailures)
    ensures Performed(a + b, fsFailures, fillFailures)
            == if Outcome(a, fsFailures, fillFailures).Some? then Performed(a, fsFailures, fillFailures)
               else a + Performed(b, fsFailures, fillFailures)
  {
    if a == [] {
      assert a + b == b;
    } else {
      assert (a + b)[0] == a[0];
      assert (a + b)[1..] == a[1..] + b;
      AttemptAppend(a[1..], b, fsFailures, fillFailures);
      if Raised(fsFailures, fillFailures, a[0]).None? && Outcome(a[1..], fsFailures, fillFailures).None? {
        assert [a[0]] + (a[1..] + Performed(b, fsFailures, fillFailures)) == a + Performed(b, fsFailures, fillFailures);
      }
    }
  }

  /** One call: made, and it raises what it raises. */
  lemma AttemptOne(c: Call, fsFailures: map<Call, Exception>, fillFailures: map<Call, Exception>)
    ensures Outcome([c], fsFailures, fillFailures) == Raised(fsFailures, fillFailures, c)
    ensures Performed([c], fsFailures, fillFailures) == [c]
  {
    assert [c][1..] == [];
  }

  /** When nothing raises, every call is made. */
  lemma {:induction false} AttemptAll(calls: seq<Call>, fsFailures: map<Call, Exception>, fillFailures: map<Call, Exception>)
    requires Outcome(calls, fsFailures, fillFailures) == None
    ensures Performed(calls, fsFailures, fillFailures) == calls
  {
    if calls != [] {
      AttemptAll(calls[1..], fsFailures, fillFailures);
    }
  }

  // ------------------------------------------------------------ plumbing

  /** Calls appended to the journal one batch at a time. */
  lemma Regroup(a: seq<Call>, b: seq<Call>, c: seq<Call>, d: seq<Call>)
    ensures a + b + c + d == a + (b + c + d)
    ensures a + b + c == a + (b + c)
  {
  }

  /** The plan of the first `i + 1` lots is that of the first `i` and then
      lot `i`'s calls. */
  lemma PlanSnoc(s: Settings, lots: seq<OutputLot>, i: nat)
    requires i < |lots|
    ensures Plan(s, lots[..i + 1]) == Plan(s, lots[..i]) + LotPlan(s, lots, i)
  {
    assert lots[..i + 1][..i] == lots[..i];
    assert LotPlan(s, lots[..i + 1], i) == LotPlan(s, lots, i);
  }

  /** The plan of the first `n` lots begins the plan of all of them. */
  lemma {:induction false} PlanPrefix(s: Settings, lots: seq<OutputLot>, n: nat)
    requires n <= |lots|
    ensures Plan(s, lots[..n]) <= Plan(s, lots)
    decreases |lots|
  {
    if n < |lots| {
      var init := lots[..|lots| - 1];
      PlanPrefix(s, init, n);
      assert init[..n] == lots[..n];
    } else {
      assert lots[..n] == lots;
    }
  }

  lemma {:induction false} MovesAppend(directory: Path, a: seq<DocumentFile>, b: seq<DocumentFile>)
    ensures Moves(directory, a + b) == Moves(directory, a) + Moves(directory, b)
  {
    if a == [] {
      assert a + b == b;
    } else {
      assert (a + b)[0] == a[0];
      assert (a + b)[1..] == a[1..] + b;
      MovesAppend(directory, a[1..], b);
    }
  }

  /** Move `k` is file `k` moved into the directory. */
  lemma {:induction false} MoveAt(directory: Path, files: seq<DocumentFile>, k: nat)
    requires k < |files|
    ensures Moves(directory, files)[k] == MoveCall(directory, files[k])
  {
    if k > 0 {
      MoveAt(directory, files[1..], k - 1);
    }
  }

  /** The moves of a group's files, one at a time. */
  lemma {:induction false} MovesAround(directory: Path, files: seq<DocumentFile>, fi: nat)
    requires fi < |files|
    ensures Moves(directory, files[..fi + 1]) == Moves(directory, files[..fi]) + [MoveCall(directory, files[fi])]
    ensures Moves(directory, files) == Moves(directory, files[..fi + 1]) + Moves(directory, files[fi + 1..])
  {
    assert files[..fi + 1] == files[..fi] + [files[fi]];
    MovesAppend(directory, files[..fi], [files[fi]]);
    assert Moves(directory, [files[fi]]) == [MoveCall(directory, files[fi])] + Moves(directory, []);
    assert files == files[..fi + 1] + files[fi + 1..];
    MovesAppend(directory, files[..fi + 1], files[fi + 1..]);
  }

  lemma {:induction false} FilesOfSnoc(groups: seq<DocumentGroup>, gi: nat)
    requires gi < |groups|
    ensures FilesOf(groups[..gi + 1]) == FilesOf(groups[..gi]) + groups[gi].files
  {
    assert groups[..gi + 1] == groups[..gi] + [groups[gi]];
    FilesOfAppend(groups[..gi], [groups[gi]]);
    assert FilesOf([groups[gi]]) == groups[gi].files + FilesOf([]);
  }

  lemma {:induction false} GroupMovesAppend(directory: Path, a: seq<DocumentGroup>, b: seq<DocumentGroup>)
    ensures GroupMoves(directory, a + b) == GroupMoves(directory, a) + GroupMoves(directory, b)
    decreases |b|
  {
    if b == [] {
      assert a + b == a;
    } else {
      var n := |b| - 1;
      assert (a + b)[..|a + b| - 1] == a + b[..n];
      assert (a + b)[|a + b| - 1] == b[n];
      GroupMovesAppend(directory, a, b[..n]);
    }
  }

  /** The moves of the groups before `gi`, of group `gi`, and of the rest. */
  lemma {:induction false} GroupMovesAround(directory: Path, groups: seq<DocumentGroup>, gi: nat)
    requires gi < |groups|
    ensures GroupMoves(directory, groups[..gi + 1])
            == GroupMoves(directory, groups[..gi]) + Moves(directory, groups[gi].files)
    ensures GroupMoves(directory, groups)
            == GroupMoves(directory, groups[..gi + 1]) + GroupMoves(directory, groups[gi + 1..])
  {
    assert groups[..gi + 1][..gi] == groups[..gi];
    assert groups == groups[..gi + 1] + groups[gi + 1..];
    GroupMovesAppend(directory, groups[..gi + 1], groups[gi + 1..]);
  }

  /** Moving the groups' files group after group is moving the lot's files
      in order. */
  lemma {:induction false} GroupMovesAreFileMoves(directory: Path, groups: seq<DocumentGroup>)
    ensures GroupMoves(directory, groups) == Moves(directory, FilesOf(groups))
    decreases |groups|
  {
    if groups != [] {
      var n := |groups| - 1;
      GroupMovesAreFileMoves(directory, groups[..n]);
      assert groups[..n + 1] == groups;
      FilesOfSnoc(groups, n);
      MovesAppend(directory, FilesOf(groups[..n]), groups[n].files);
    }
  }

  lemma {:induction false} AllGroupsAppend(a: seq<OutputLot>, b: seq<OutputLot>)
    ensures AllGroups(a + b) == AllGroups(a) + AllGroups(b)
  {
    if a != [] {
      assert (a + b)[1..] == a[1..] + b;
      AllGroupsAppend(a[1..], b);
    } else {
      assert a + b == b;
    }
  }

  lemma {:induction false} AllFilesSnoc(lots: seq<OutputLot>, i: nat)
    requires i < |lots|
    ensures FilesOf(AllGroups(lots[..i + 1])) == FilesOf(AllGroups(lots[..i])) + lots[i].Files()
  {
    assert lots[..i + 1] == lots[..i] + [lots[i]];
    AllGroupsAppend(lots[..i], [lots[i]]);
    assert AllGroups([lots[i]]) == lots[i].groups + AllGroups([]);
    assert lots[i].groups + AllGroups([]) == lots[i].groups;
    FilesOfAppend(AllGroups(lots[..i]), lots[i].groups);
  }

  /** The calls for a lot, position by position: first the directory is
      created, then each file of the lot is moved, in order, into that
      directory under its own name, and last the lot's manifest is filled
      with the lot's groups. */
  lemma LotCallsShape(directory: Path, manifestPath: Path, templatePath: Path, lot: OutputLot)
    ensures var calls := LotCalls(directory, manifestPath, templatePath, lot);
            |calls| == |lot.Files()| + 2
            && calls[0] == Call.CreateDirectory(directory)
            && (forall k :: 0 <= k < |lot.Files()| ==> calls[k + 1] == MoveCall(directory, lot.Files()[k]))
            && calls[|lot.Files()| + 1] == Call.FillAndSave(templatePath, manifestPath, lot.groups)
  {
    var files := lot.Files();
    var moves := Moves(directory, files);
    var calls := LotCalls(directory, manifestPath, templatePath, lot);
    assert calls == [Call.CreateDirectory(directory)] + moves + [Call.FillAndSave(templatePath, manifestPath, lot.groups)];
    forall k | 0 <= k < |files| ensures calls[k + 1] == MoveCall(directory, files[k]) {
      assert calls[k + 1] == moves[k];
      MoveAt(directory, files, k);
    }
  }

  /** Attempting a lot's calls: the directory is created; if that raised,
      nothing else happens; otherwise the moves are attempted, and only if
      none raised is the manifest filled. */
  lemma LotAttempt(directory: Path, manifestPath: Path, templatePath: Path, lot: OutputLot,
                   fsFailures: map<Call, Exception>, fillFailures: map<Call, Exception>)
    ensures var create := Call.CreateDirectory(directory);
            var moves := GroupMoves(directory, lot.groups);
            var fillCall := Call.FillAndSave(templatePath, manifestPath, lot.groups);
            var calls := LotCalls(directory, manifestPath, templatePath, lot);
            if Raised(fsFailures, fillFailures, create).Some? then
              Outcome(calls, fsFailures, fillFailures) == Raised(fsFailures, fillFailures, create)
              && Performed(calls, fsFailures, fillFailures) == [create]
            else if Outcome(moves, fsFailures, fillFailures).Some? then
              Outcome(calls, fsFailures, fillFailures) == Outcome(moves, fsFailures, fillFailures)
              && Performed(calls, fsFailures, fillFailures) == [create] + Performed(moves, fsFailures, fillFailures)
            else
              Outcome(calls, fsFailures, fillFailures) == Raised(fsFailures, fillFailures, fillCall)
              && Performed(calls, fsFailures, fillFailures) == [create] + moves + [fillCall]
  {
    var create := Call.CreateDirectory(directory);
    var moves := GroupMoves(directory, lot.groups);
    if Raised(fsFailures, fillFailures, create).Some? {
      LotCreateRaises(directory, manifestPath, templatePath, lot, fsFailures, fillFailures);
    } else if Outcome(moves, fsFailures, fillFailures).Some? {
      LotMoveRaises(directory, manifestPath, templatePath, lot, fsFailures, fillFailures);
    } else {
      LotFills(directory, manifestPath, templatePath, lot, fsFailures, fillFailures);
    }
  }

  /** A lot's calls split into its directory's creation, its moves and the
      filling of its manifest. */
  lemma LotCallsSplit(directory: Path, manifestPath: Path, templatePath: Path, lot: OutputLot)
    ensures LotCalls(directory, manifestPath, templatePath, lot)
            == [Call.CreateDirectory(directory)]
               + (GroupMoves(directory, lot.groups) + [Call.FillAndSave(templatePath, manifestPath, lot.groups)])
  {
    GroupMovesAreFileMoves(directory, lot.groups);
  }

  /** The directory's creation raises: nothing else is attempted. */
  lemma LotCreateRaises(directory: Path, manifestPath: Path, templatePath: Path, lot: OutputLot,
                        fsFailures: map<Call, Exception>, fillFailures: map<Call, Exception>)
    requires Raised(fsFailures, fillFailures, Call.CreateDirectory(directory)).Some?
    ensures var calls := LotCalls(directory, manifestPath, templatePath, lot);
            Outcome(calls, fsFailures, fillFailures) == Raised(fsFailures, fillFailures, Call.CreateDirectory(directory))
            && Performed(calls, fsFailures, fillFailures) == [Call.CreateDirectory(directory)]
  {
    var create := Call.CreateDirectory(directory);
    var rest := GroupMoves(directory, lot.groups) + [Call.FillAndSave(templatePath, manifestPath, lot.groups)];
    LotCallsSplit(directory, manifestPath, templatePath, lot);
    AttemptOne(create, fsFailures, fillFailures);
    AttemptAppend([create], rest, fsFailures, fillFailures);
  }

  /** A move raises: the manifest is not filled. */
  lemma LotMoveRaises(directory: Path, manifestPath: Path, templatePath: Path, lot: OutputLot,
                      fsFailures: map<Call, Exception>, fillFailures: map<Call, Exception>)
    requires Raised(fsFailures, fillFailures, Call.CreateDirectory(directory)).None?
    requires Outcome(GroupMoves(directory, lot.groups), fsFailures, fillFailures).Some?
    ensures var calls := LotCalls(directory, manifestPath, templatePath, lot);
            var moves := GroupMoves(directory, lot.groups);
            Outcome(calls, fsFailures, fillFailures) == Outcome(moves, fsFailures, fillFailures)
            && Performed(calls, fsFailures, fillFailures)
               == [Call.CreateDirectory(directory)] + Performed(moves, fsFailures, fillFailures)
  {
    var create := Call.CreateDirectory(directory);
    var moves := GroupMoves(directory, lot.groups);
    var fillCall := Call.FillAndSave(templatePath, manifestPath, lot.groups);
    LotCallsSplit(directory, manifestPath, templatePath, lot);
    AttemptOne(create, fsFailures, fillFailures);
    AttemptAppend([create], moves + [fillCall], fsFailures, fillFailures);
    AttemptAppend(moves, [fillCall], fsFailures, fillFailures);
  }

  /** No move raises: the manifest is filled, and the lot's files are all
      moved. */
  lemma LotFills(directory: Path, manifestPath: Path, templatePath: Path, lot: OutputLot,
                 fsFailures: map<Call, Exception>, fillFailures: map<Call, Exception>)
    requires Raised(fsFailures, fillFailures, Call.CreateDirectory(directory)).None?
    requires Outcome(GroupMoves(directory, lot.groups), fsFailures, fillFailures).None?
    ensures var calls := LotCalls(directory, manifestPath, templatePath, lot);
            var fillCall := Call.FillAndSave(templatePath, manifestPath, lot.groups);
            Outcome(calls, fsFailures, fillFailures) == Raised(fsFailures, fillFailures, fillCall)
            && Performed(calls, fsFailures, fillFailures)
               == [Call.CreateDirectory(directory)] + GroupMoves(directory, lot.groups) + [fillCall]
            && |GroupMoves(directory, lot.groups)| == |lot.Files()|
  {
    var create := Call.CreateDirectory(directory);
    var moves := GroupMoves(directory, lot.groups);
    var fillCall := Call.FillAndSave(templatePath, manifestPath, lot.groups);
    LotCallsSplit(directory, manifestPath, templatePath, lot);
    AttemptOne(create, fsFailures, fillFailures);
    AttemptOne(fillCall, fsFailures, fillFailures);
    AttemptAppend([create], moves + [fillCall], fsFailures, fillFailures);
    AttemptAppend(moves, [fillCall], fsFailures, fillFailures);
    AttemptAll(moves, fsFailures, fillFailures);
    assert [create] + (moves + [fillCall]) == [create] + moves + [fillCall];
  }

  /** A lot whose calls raise, after lots that raised nothing, decides the
      outcome of the whole plan. */
  lemma LotRaises(s: Settings, lots: seq<OutputLot>, i: nat,
                  fsFailures: map<Call, Exception>, fillFailures: map<Call, Exception>, base: seq<Call>)
    requires i < |lots|
    requires Outcome(Plan(s, lots[..i]), fsFailures, fillFailures) == None
    requires Outcome(LotPlan(s, lots, i), fsFailures, fillFailures).Some?
    ensures Outcome(Plan(s, lots), fsFailures, fillFailures) == Outcome(LotPlan(s, lots, i), fsFailures, fillFailures)
    ensures base + Plan(s, lots[..i]) + Performed(LotPlan(s, lots, i), fsFailures, fillFailures)
            == base + Performed(Plan(s, lots), fsFailures, fillFailures)
  {
    var done := Plan(s, lots[..i]);
    var upTo := Plan(s, lots[..i + 1]);
    var all := Plan(s, lots);
    PlanSnoc(s, lots, i);
    PlanPrefix(s, lots, i + 1);
    assert all == upTo + all[|upTo|..];
    AttemptAppend(done, LotPlan(s, lots, i), fsFailures, fillFailures);
    AttemptAppend(upTo, all[|upTo|..], fsFailures, fillFailures);
    Regroup(base, done, Performed(LotPlan(s, lots, i), fsFailures, fillFailures), []);
  }

  /** When no lot's calls raise, the whole plan is made and raises nothing. */
  lemma PlanCompletes(s: Settings, lots: seq<OutputLot>,
                      fsFailures: map<Call, Exception>, fillFailures: map<Call, Exception>)
    requires Outcome(Plan(s, lots[..|lots|]), fsFailures, fillFailures) == None
    ensures Outcome(Plan(s, lots), fsFailures, fillFailures) == None
    ensures Performed(Plan(s, lots), fsFailures, fillFailures) == Plan(s, lots[..|lots|])
    ensures |FilesOf(AllGroups(lots[..|lots|]))| == |FilesOf(AllGroups(lots))|
  {
    assert lots[..|lots|] == lots;
    AttemptAll(Plan(s, lots), fsFailures, fillFailures);
  }

  /** A lot whose calls raise nothing, after lots that raised nothing: the
      calls up to it raise nothing, and its files join the files moved. */
  lemma LotCompletes(s: Settings, lots: seq<OutputLot>, i: nat,
                     fsFailures: map<Call, Exception>, fillFailures: map<Call, Exception>, base: seq<Call>)
    requires i < |lots|
    requires Outcome(Plan(s, lots[..i]), fsFailures, fillFailures) == None
    requires Outcome(LotPlan(s, lots, i), fsFailures, fillFailures) == None
    ensures Outcome(Plan(s, lots[..i + 1]), fsFailures, fillFailures) == None
    ensures base + Plan(s, lots[..i]) + Performed(LotPlan(s, lots, i), fsFailures, fillFailures)
            == base + Plan(s, lots[..i + 1])
    ensures |FilesOf(AllGroups(lots[..i + 1]))| == |FilesOf(AllGroups(lots[..i]))| + |lots[i].Files()|
  {
    var done := Plan(s, lots[..i]);
    var plan := LotPlan(s, lots, i);
    PlanSnoc(s, lots, i);
    AttemptAppend(done, plan, fsFailures, fillFailures);
    AttemptAll(plan, fsFailures, fillFailures);
    AllFilesSnoc(lots, i);
    Regroup(base, done, plan, []);
  }

  /** The calls the loop makes for lot `i` are lot `i`'s part of the plan. */
  lemma LotPlanAt(s: Settings, lots: seq<OutputLot>, i: nat, lotName: string, directory: Path)
    requires i < |lots|
    requires lotName == Replace(s.lotNamePattern, "XXXX", FormatZeroPadded(s.startSequenceNumber + i, 4))
    requires directory == Paths.Join(s.outputDirectory, lotName)
    ensures LotPlan(s, lots, i)
            == LotCalls(directory, Paths.Join(directory, lotName + ".xlsx"), s.masterTemplatePath, lots[i])
  {
  }

  /** Once the lots have been attempted, the run's report follows from what
      the attempt raised: a failed report or a propagated exception for the
      first exception, a success counting the lots and the files otherwise. */
  lemma OrganizeEnds(grouped: Result<seq<DocumentGroup>>, balance: (seq<DocumentGroup>, int) -> Result<seq<OutputLot>>,
                     fsFailures: map<Call, Exception>, fillFailures: map<Call, Exception>, s: Settings,
                     groups: seq<DocumentGroup>, lots: seq<OutputLot>, raised: Option<Exception>, filesMoved: nat,
                     start: seq<Call>, journal: seq<Call>)
    requires grouped == Ok(groups) && balance(groups, s.maxDocsPerLot) == Ok(lots)
    requires raised == Outcome(Plan(s, lots), fsFailures, fillFailures)
    requires journal == start + [Call.BalanceLots(groups, s.maxDocsPerLot)]
                        + Performed(Plan(s, lots), fsFailures, fillFailures)
    requires raised.None? ==> filesMoved == |FilesOf(AllGroups(lots))|
    ensures var run := Organize(grouped, balance, fsFailures, fillFailures, s);
            run.result == (if raised.Some? then Caught(raised.value)
                           else Ok(OrganizationResult(lotsCreated := |lots|, filesMoved := filesMoved)))
            && journal == start + run.calls
  {
    var plan := Plan(s, lots);
    if raised.None? {
      AttemptAll(plan, fsFailures, fillFailures);
    }
    var request := Call.BalanceLots(groups, s.maxDocsPerLot);
    Regroup(start, [request], Performed(plan, fsFailures, fillFailures), []);
  }

  /** The run stops at the grouping when it raises. */
  lemma OrganizeUngrouped(grouped: Result<seq<DocumentGroup>>, balance: (seq<DocumentGroup>, int) -> Result<seq<OutputLot>>,
                          fsFailures: map<Call, Exception>, fillFailures: map<Call, Exception>, s: Settings)
    requires grouped.Err?
    ensures Organize(grouped, balance, fsFailures, fillFailures, s) == Run(Caught(grouped.error), [])
  {
  }

  /** The run stops at the balancer when it raises. */
  lemma OrganizeUnbalanced(grouped: Result<seq<DocumentGroup>>, balance: (seq<DocumentGroup>, int) -> Result<seq<OutputLot>>,
                           fsFailures: map<Call, Exception>, fillFailures: map<Call, Exception>, s: Settings,
                           groups: seq<DocumentGroup>)
    requires grouped == Ok(groups) && balance(groups, s.maxDocsPerLot).Err?
    ensures Organize(grouped, balance, fsFailures, fillFailures, s)
            == Run(Caught(balance(groups, s.maxDocsPerLot).error), [Call.BalanceLots(groups, s.maxDocsPerLot)])
  {
  }

  /** A move that raises, after moves that raised nothing, decides the
      outcome of the group's moves. */
  lemma {:induction false} FileMoveRaises(directory: Path, files: seq<DocumentFile>, fi: nat,
                                          fsFailures: map<Call, Exception>, fillFailures: map<Call, Exception>,
                                          base: seq<Call>)
    requires fi < |files|
    requires Outcome(Moves(directory, files[..fi]), fsFailures, fillFailures) == None
    requires Raised(fsFailures, fillFailures, MoveCall(directory, files[fi])).Some?
    ensures Outcome(Moves(directory, files), fsFailures, fillFailures)
            == Raised(fsFailures, fillFailures, MoveCall(directory, files[fi]))
    ensures base + Moves(directory, files[..fi]) + [MoveCall(directory, files[fi])]
            == base + Performed(Moves(directory, files), fsFailures, fillFailures)
  {
    var done := Moves(directory, files[..fi]);
    var call := MoveCall(directory, files[fi]);
    MovesAround(directory, files, fi);
    AttemptOne(call, fsFailures, fillFailures);
    AttemptAppend(done, [call], fsFailures, fillFailures);
    AttemptAppend(done + [call], Moves(directory, files[fi + 1..]), fsFailures, fillFailures);
    Regroup(base, done, [call], []);
  }

  /** A move that raises nothing, after moves that raised nothing: the
      moves up to it raise nothing. */
  lemma {:induction false} FileMoveCompletes(directory: Path, files: seq<DocumentFile>, fi: nat,
                                             fsFailures: map<Call, Exception>, fillFailures: map<Call, Exception>,
                                             base: seq<Call>)
    requires fi < |files|
    requires Outcome(Moves(directory, files[..fi]), fsFailures, fillFailures) == None
    requires Raised(fsFailures, fillFailures, MoveCall(directory, files[fi])).None?
    ensures Outcome(Moves(directory, files[..fi + 1]), fsFailures, fillFailures) == None
    ensures base + Moves(directory, files[..fi]) + [MoveCall(directory, files[fi])]
            == base + Moves(directory, files[..fi + 1])
  {
    var done := Moves(directory, files[..fi]);
    var call := MoveCall(directory, files[fi]);
    MovesAround(directory, files, fi);
    AttemptOne(call, fsFailures, fillFailures);
    AttemptAppend(done, [call], fsFailures, fillFailures);
    Regroup(base, done, [call], []);
  }

  /** When no move raises, all the group's files are moved. */
  lemma FileMovesComplete(directory: Path, files: seq<DocumentFile>,
                          fsFailures: map<Call, Exception>, fillFailures: map<Call, Exception>)
    requires Outcome(Moves(directory, files[..|files|]), fsFailures, fillFailures) == None
    ensures Outcome(Moves(directory, files), fsFailures, fillFailures) == None
    ensures Performed(Moves(directory, files), fsFailures, fillFailures) == Moves(directory, files[..|files|])
  {
    assert files[..|files|] == files;
    AttemptAll(Moves(directory, files), fsFailures, fillFailures);
  }

  /** A group whose moves raise, after the groups before it raised
      nothing, decides the outcome of the lot's moves. */
  lemma {:induction false} GroupRaises(directory: Path, groups: seq<DocumentGroup>, gi: nat,
                                       fsFailures: map<Call, Exception>, fillFailures: map<Call, Exception>,
                                       base: seq<Call>)
    requires gi < |groups|
    requires Outcome(GroupMoves(directory, groups[..gi]), fsFailures, fillFailures) == None
    requires Outcome(Moves(directory, groups[gi].files), fsFailures, fillFailures).Some?
    ensures Outcome(GroupMoves(directory, groups), fsFailures, fillFailures)
            == Outcome(Moves(directory, groups[gi].files), fsFailures, fillFailures)
    ensures base + GroupMoves(directory, groups[..gi]) + Performed(Moves(directory, groups[gi].files), fsFailures, fillFailures)
            == base + Performed(GroupMoves(directory, groups), fsFailures, fillFailures)
  {
    var done := GroupMoves(directory, groups[..gi]);
    var moves := Moves(directory, groups[gi].files);
    GroupMovesAround(directory, groups, gi);
    AttemptAppend(done, moves, fsFailures, fillFailures);
    AttemptAppend(done + moves, GroupMoves(directory, groups[gi + 1..]), fsFailures, fillFailures);
    Regroup(base, done, Performed(moves, fsFailures, fillFailures), []);
  }

  /** A group whose moves raise nothing, after groups that raised
      nothing: the moves up to it raise nothing. */
  lemma {:induction false} GroupCompletes(directory: Path, groups: seq<DocumentGroup>, gi: nat,
                                          fsFailures: map<Call, Exception>, fillFailures: map<Call, Exception>,
                                          base: seq<Call>)
    requires gi < |groups|
    requires Outcome(GroupMoves(directory, groups[..gi]), fsFailures, fillFailures) == None
    requires Outcome(Moves(directory, groups[gi].files), fsFailures, fillFailures) == None
    ensures Outcome(GroupMoves(directory, groups[..gi + 1]), fsFailures, fillFailures) == None
    ensures Performed(Moves(directory, groups[gi].files), fsFailures, fillFailures) == Moves(directory, groups[gi].files)
    ensures base + GroupMoves(directory, groups[..gi]) + Performed(Moves(directory, groups[gi].files), fsFailures, fillFailures)
            == base + GroupMoves(directory, groups[..gi + 1])
    ensures |GroupMoves(directory, groups[..gi + 1])|
            == |GroupMoves(directory, groups[..gi])| + |groups[gi].files|
  {
    var done := GroupMoves(directory, groups[..gi]);
    var moves := Moves(directory, groups[gi].files);
    GroupMovesAround(directory, groups, gi);
    AttemptAppend(done, moves, fsFailures, fillFailures);
    AttemptAll(moves, fsFailures, fillFailures);
    Regroup(base, done, moves, []);
  }

  /** When no group's moves raise, all the lot's moves are made. */
  lemma GroupMovesComplete(directory: Path, groups: seq<DocumentGroup>,
                           fsFailures: map<Call, Exception>, fillFailures: map<Call, Exception>)
    requires Outcome(GroupMoves(directory, groups[..|groups|]), fsFailures, fillFailures) == None
    ensures Outcome(GroupMoves(directory, groups), fsFailures, fillFailures) == None
    ensures Performed(GroupMoves(directory, groups), fsFailures, fillFailures) == GroupMoves(directory, groups[..|groups|])
    ensures |GroupMoves(directory, groups[..|groups|])| == |GroupMoves(directory, groups)|
  {
    assert groups[..|groups|] == groups;
    AttemptAll(GroupMoves(directory, groups), fsFailures, fillFailures);
  }

  class OrganizeAndGenerateLotsUseCase {
    const balancer: LotBalancer
    const fileManager: FileSystemManager
    const templateFiller: TemplateFiller

    constructor (balancer: LotBalancer, fileManager: FileSystemManager, templateFiller: TemplateFiller)
      ensures this.balancer == balancer && this.fileManager == fileManager
      ensures this.templateFiller == templateFiller
    {
      this.balancer := balancer;
      this.fileManager := fileManager;
      this.templateFiller := templateFiller;
    }

    /** The inner loop of step 3b: the files of one group moved into the
        lot's directory, in order, until a move raises. */
    method MoveGroupFiles(files: seq<DocumentFile>, lotDirectoryPath: Path)
      returns (raised: Option<Exception>, moved: nat)
      modifies fileManager.journal
      ensures var calls := Moves(lotDirectoryPath, files);
              raised == Outcome(calls, fileManager.failures, templateFiller.failures)
              && fileManager.journal.calls
                 == old(fileManager.journal.calls) + Performed(calls, fileManager.failures, templateFiller.failures)
              && (raised.None? ==> moved == |files|)
    {
      var fs, fill := fileManager.failures, templateFiller.failures;
      ghost var base := fileManager.journal.calls;
      moved := 0;
      for fi := 0 to |files|
        invariant moved == fi
        invariant fileManager.journal.calls == base + Moves(lotDirectoryPath, files[..fi])
        invariant Outcome(Moves(lotDirectoryPath, files[..fi]), fs, fill) == None
      {
        var file := files[fi];
        var destinationPath := Paths.Join(lotDirectoryPath, Name(file.path));
        raised := fileManager.MoveFile(file.path, destinationPath);
        if raised.Some? {
          FileMoveRaises(lotDirectoryPath, files, fi, fs, fill, base);
          return;
        }
        FileMoveCompletes(lotDirectoryPath, files, fi, fs, fill, base);
        moved := moved + 1;
      }
      FileMovesComplete(lotDirectoryPath, files, fs, fill);
      raised := None;
    }

    /** Step 3b: the lot's files moved group by group into its directory,
        until a move raises. */
    method MoveLotFiles(groups: seq<DocumentGroup>, lotDirectoryPath: Path)
      returns (raised: Option<Exception>, moved: nat)
      modifies fileManager.journal
      ensures var calls := GroupMoves(lotDirectoryPath, groups);
              raised == Outcome(calls, fileManager.failures, templateFiller.failures)
              && fileManager.journal.calls
                 == old(fileManager.journal.calls) + Performed(calls, fileManager.failures, templateFiller.failures)
              && (raised.None? ==> moved == |calls|)
    {
      var fs, fill := fileManager.failures, templateFiller.failures;
      ghost var base := fileManager.journal.calls;
      assert groups[..0] == [];
      moved := 0;
      for gi := 0 to |groups|
        invariant moved == |GroupMoves(lotDirectoryPath, groups[..gi])|
        invariant fileManager.journal.calls == base + GroupMoves(lotDirectoryPath, groups[..gi])
        invariant Outcome(GroupMoves(lotDirectoryPath, groups[..gi]), fs, fill) == None
      {
        var groupMoved;
        raised, groupMoved := MoveGroupFiles(groups[gi].files, lotDirectoryPath);
        if raised.Some? {
          GroupRaises(lotDirectoryPath, groups, gi, fs, fill, base);
          return;
        }
        GroupCompletes(lotDirectoryPath, groups, gi, fs, fill, base);
        moved := moved + groupMoved;
      }
      GroupMovesComplete(lotDirectoryPath, groups, fs, fill);
      raised := None;
    }

    /** Steps 3a to 3c for one lot: create its directory, move its files
        into it, fill its manifest; stops at the first call that raises and
        reports what it raised. */
    method ProcessLot(lot: OutputLot, lotDirectoryPath: Path, lotName: string, masterTemplatePath: Path)
      returns (raised: Option<Exception>, movedCount: nat)
      requires fileManager.journal == templateFiller.journal
      modifies fileManager.journal
      ensures var calls := LotCalls(lotDirectoryPath, Paths.Join(lotDirectoryPath, lotName + ".xlsx"),
                                    masterTemplatePath, lot);
              var fs, fill := fileManager.failures, templateFiller.failures;
              raised == Outcome(calls, fs, fill)
              && fileManager.journal.calls == old(fileManager.journal.calls) + Performed(calls, fs, fill)
              && (raised.None? ==> movedCount == |lot.Files()|)
    {
      var outputManifestPath := Paths.Join(lotDirectoryPath, lotName + ".xlsx");
      ghost var fs, fill := fileManager.failures, templateFiller.failures;
      ghost var create := Call.CreateDirectory(lotDirectoryPath);
      ghost var moves := GroupMoves(lotDirectoryPath, lot.groups);
      ghost var fillCall := Call.FillAndSave(masterTemplatePath, outputManifestPath, lot.groups);
      ghost var calls := LotCalls(lotDirectoryPath, outputManifestPath, masterTemplatePath, lot);
      ghost var before := fileManager.journal.calls;
      movedCount := 0;
      raised := fileManager.CreateDirectory(lotDirectoryPath);
      if raised.Some? {
        LotCreateRaises(lotDirectoryPath, outputManifestPath, masterTemplatePath, lot, fs, fill);
        return;
      }
      ghost var created := fileManager.journal.calls;
      raised, movedCount := MoveLotFiles(lot.groups, lotDirectoryPath);
      ghost var moved := fileManager.journal.calls;
      if raised.Some? {
        LotMoveRaises(lotDirectoryPath, outputManifestPath, masterTemplatePath, lot, fs, fill);
        Regroup(before, [create], Performed(moves, fs, fill), []);
        return;
      }
      AttemptAll(moves, fs, fill);
      raised := templateFiller.FillAndSave(masterTemplatePath, outputManifestPath, lot.groups);
      LotFills(lotDirectoryPath, outputManifestPath, masterTemplatePath, lot, fs, fill);
      Regroup(before, [create], moves, [fillCall]);
    }

    /** Step 3, the loop over the lots: each lot is named from the pattern
        and its position, and processed, until one raises. */
    method ProcessLots(lots: seq<OutputLot>, outputDirectory: Path, masterTemplatePath: Path,
                       maxDocsPerLot: int, startSequenceNumber: int, lotNamePattern: string)
      returns (raised: Option<Exception>, filesMoved: nat)
      requires fileManager.journal == templateFiller.journal
      modifies fileManager.journal
      ensures var s := Settings(outputDirectory, masterTemplatePath, maxDocsPerLot, startSequenceNumber, lotNamePattern);
              var plan := Plan(s, lots);
              var fs, fill := fileManager.failures, templateFiller.failures;
              raised == Outcome(plan, fs, fill)
              && fileManager.journal.calls == old(fileManager.journal.calls) + Performed(plan, fs, fill)
              && (raised.None? ==> filesMoved == |FilesOf(AllGroups(lots))|)
    {
      ghost var s := Settings(outputDirectory, masterTemplatePath, maxDocsPerLot, startSequenceNumber, lotNamePattern);
      var fs, fill := fileManager.failures, templateFiller.failures;
      ghost var base := fileManager.journal.calls;
      filesMoved := 0;
      assert lots[..0] == [];
      for i := 0 to |lots|
        invariant fileManager.journal.calls == base + Plan(s, lots[..i])
        invariant Outcome(Plan(s, lots[..i]), fs, fill) == None
        invariant filesMoved == |FilesOf(AllGroups(lots[..i]))|
      {
        var lot := lots[i];
        var lotName := Replace(lotNamePattern, "XXXX", FormatZeroPadded(startSequenceNumber + i, 4));
        var lotDirectoryPath := Paths.Join(outputDirectory, lotName);
        var movedCount;
        raised, movedCount := ProcessLot(lot, lotDirectoryPath, lotName, masterTemplatePath);
        LotPlanAt(s, lots, i, lotName, lotDirectoryPath);
        if raised.Some? {
          LotRaises(s, lots, i, fs, fill, base);
          return;
        }
        LotCompletes(s, lots, i, fs, fill, base);
        filesMoved := filesMoved + movedCount;
      }
      PlanCompletes(s, lots, fs, fill);
      raised := None;
    }

    /** `execute`: groups the files by document code, asks the balancer for
        the lots once, then for each lot in turn creates its directory, moves
        its files into it and fills its manifest. The first `CoreError`
        raised by any of these becomes a failed report; any other exception
        propagates. */
    method Execute(validatedFiles: seq<DocumentFile>, outputDirectory: Path, masterTemplatePath: Path,
                   maxDocsPerLot: int, startSequenceNumber: int, lotNamePattern: string)
      returns (r: Result<OrganizationResult>)
      requires balancer.journal == fileManager.journal == templateFiller.journal
      modifies balancer.journal
      ensures var s := Settings(outputDirectory, masterTemplatePath, maxDocsPerLot, startSequenceNumber, lotNamePattern);
              var run := Organize(old(Grouped(validatedFiles)), balancer.answer, fileManager.failures,
                                  templateFiller.failures, s);
              r == run.result && balancer.journal.calls == old(balancer.journal.calls) + run.calls
    {
      ghost var s := Settings(outputDirectory, masterTemplatePath, maxDocsPerLot, startSequenceNumber, lotNamePattern);
      var fs, fill := fileManager.failures, templateFiller.failures;
      ghost var start := balancer.journal.calls;
      var grouped := GroupByCode(validatedFiles);
      if grouped.Err? {
        OrganizeUngrouped(grouped, balancer.answer, fs, fill, s);
        return Caught(grouped.error);
      }
      var groups := grouped.value;
      var balanced := balancer.BalanceLots(groups, maxDocsPerLot);
      if balanced.Err? {
        OrganizeUnbalanced(grouped, balancer.answer, fs, fill, s, groups);
        return Caught(balanced.error);
      }
      var lots := balanced.value;
      var raised, filesMoved := ProcessLots(lots, outputDirectory, masterTemplatePath, maxDocsPerLot,
                                            startSequenceNumber, lotNamePattern);
      OrganizeEnds(grouped, balancer.answer, fs, fill, s, groups, lots, raised, filesMoved, start, balancer.journal.calls);
      if raised.Some? {
        return Caught(raised.value);
      }
      r := Ok(OrganizationResult(lotsCreated := |lots|, filesMoved := filesMoved));
    }
  }
}
