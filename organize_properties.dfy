/** What use case UC-03 promises, stated over its model: how the files are
    grouped, how the lots are named and where the files go, that the balancer
    is asked exactly once, and what a run reports when it succeeds and when
    a collaborator raises. */
module OrganizeProperties {
  import opened Wrappers
  import opened Strings
  import opened Paths
  import opened Errors
  import opened Domain
  import opened Collaborators
  import opened Services
  import opened OrganizeLots

  // ---------------------------------------------------------------- grouping

  /** The distinct codes come without repetition. */
  lemma {:induction false} FirstAppearancesDistinct(codes: seq<Value>)
    ensures forall i, j :: 0 <= i < j < |FirstAppearances(codes)| ==> FirstAppearances(codes)[i] != FirstAppearances(codes)[j]
    decreases |codes|
  {
    if |codes| > 0 {
      var init := codes[..|codes| - 1];
      var c := codes[|codes| - 1];
      FirstAppearancesDistinct(init);
      var d0 := FirstAppearances(init);
      var d := FirstAppearances(codes);
      assert d == if c in d0 then d0 else d0 + [c];
      if c !in d0 {
        forall i, j | 0 <= i < j < |d| ensures d[i] != d[j] {
          assert d[i] == d0[i];
          if j < |d0| {
            assert d[j] == d0[j];
          } else {
            assert d[i] in d0;
          }
        }
      }
    }
  }

  /** The distinct codes come in order of first appearance: wherever a later
      code occurs, every earlier code has already occurred before it. */
  lemma {:induction false} FirstAppearancesOrdered(codes: seq<Value>)
    ensures forall i, j, q :: (0 <= i < j < |FirstAppearances(codes)| && 0 <= q < |codes|
                               && codes[q] == FirstAppearances(codes)[j]) ==> FirstAppearances(codes)[i] in codes[..q]
    decreases |codes|
  {
    if |codes| > 0 {
      var n := |codes| - 1;
      FirstAppearancesOrdered(codes[..n]);
      var d := FirstAppearances(codes);
      forall i, j, q | 0 <= i < j < |d| && 0 <= q < |codes| && codes[q] == d[j]
        ensures d[i] in codes[..q]
      {
        OrderedStep(codes, codes[..n], i, j, q);
      }
    }
  }

  /** One case of the ordering, for a list one code longer than one already
      ordered. */
  lemma OrderedStep(codes: seq<Value>, init: seq<Value>, i: nat, j: nat, q: nat)
    requires |codes| > 0 && init == codes[..|codes| - 1]
    requires forall i, j, q :: (0 <= i < j < |FirstAppearances(init)| && 0 <= q < |init|
                                && init[q] == FirstAppearances(init)[j]) ==> FirstAppearances(init)[i] in init[..q]
    requires i < j < |FirstAppearances(codes)| && q < |codes| && codes[q] == FirstAppearances(codes)[j]
    ensures FirstAppearances(codes)[i] in codes[..q]
  {
    var n := |codes| - 1;
    var c := codes[n];
    var d0 := FirstAppearances(init);
    var d := FirstAppearances(codes);
    assert d == if c in d0 then d0 else d0 + [c];
    if q < n {
      assert codes[q] == init[q] && init[q] in d0;
      assert j < |d0| && d[j] == d0[j] && d[i] == d0[i];
      assert init[..q] == codes[..q];
    } else {
      assert codes[..q] == init;
      assert i < |d0| && d[i] == d0[i];
    }
  }

  /** A code that occurs selects at least one file. */
  lemma {:induction false} FilesWithPresent(files: seq<DocumentFile>, codes: seq<Value>, c: Value)
    requires |files| == |codes| && c in codes
    ensures |FilesWith(files, codes, c)| > 0
    decreases |files|
  {
    var n := |files| - 1;
    if codes[n] != c {
      assert codes == codes[..n] + [codes[n]];
      FilesWithPresent(files[..n], codes[..n], c);
    }
  }

  /** The files selected for a code are files of the list carrying that
      code. */
  lemma {:induction false} FilesWithMembers(files: seq<DocumentFile>, codes: seq<Value>, c: Value, f: DocumentFile)
    requires |files| == |codes| && f in FilesWith(files, codes, c)
    ensures exists k :: 0 <= k < |files| && files[k] == f && codes[k] == c
    decreases |files|
  {
    var n := |files| - 1;
    if f !in FilesWith(files[..n], codes[..n], c) {
      assert files[n] == f && codes[n] == c;
    } else {
      FilesWithMembers(files[..n], codes[..n], c, f);
      var k :| 0 <= k < n && files[..n][k] == f && codes[..n][k] == c;
      assert files[k] == f && codes[k] == c;
    }
  }

  /** Replacing one group by one with a file more adds that file to the
      files of the groups. */
  lemma {:induction false} FilesOfGrow(groups: seq<DocumentGroup>, m: nat, f: DocumentFile)
    requires m < |groups|
    ensures var grown := groups[m := DocumentGroup(groups[m].documentCode, groups[m].files + [f])];
            multiset(FilesOf(grown)) == multiset(FilesOf(groups)) + multiset{f}
  {
    var grown := groups[m := DocumentGroup(groups[m].documentCode, groups[m].files + [f])];
    if m == 0 {
      assert grown[1..] == groups[1..];
    } else {
      FilesOfGrow(groups[1..], m - 1, f);
      assert grown[1..] == groups[1..][m - 1 := DocumentGroup(groups[m].documentCode, groups[m].files + [f])];
    }
  }

  /** A file whose code is already grouped joins the end of that group. */
  lemma GroupingGrows(files: seq<DocumentFile>, codes: seq<Value>, f: DocumentFile, m: nat)
    requires |files| == |codes| && m < |FirstAppearances(codes)|
    ensures var code := FirstAppearances(codes)[m];
            var before := Grouping(files, codes);
            Grouping(files + [f], codes + [code]) == before[m := DocumentGroup(code, before[m].files + [f])]
  {
    var d := FirstAppearances(codes);
    var code := d[m];
    GroupingStep(files, codes, f, code);
    var before := Grouping(files, codes);
    var after := Grouping(files + [f], codes + [code]);
    var grown := before[m := DocumentGroup(code, before[m].files + [f])];
    assert code in d;
    assert FirstAppearances(codes + [code]) == d;
    assert |after| == |grown|;
    forall i | 0 <= i < |after| ensures after[i] == grown[i] {
      assert after[i] == DocumentGroup(d[i], FilesWith(files + [f], codes + [code], d[i]));
      assert before[i] == DocumentGroup(d[i], FilesWith(files, codes, d[i]));
      var selected := FilesWith(files, codes, d[i]);
      if i == m {
        assert FilesWith(files + [f], codes + [code], d[i]) == selected + [f];
      } else {
        FirstAppearancesDistinct(codes);
        assert d[i] != code;
        assert FilesWith(files + [f], codes + [code], d[i]) == selected + [];
        assert selected + [] == selected;
      }
    }
  }

  /** A file with a new code starts a new group at the end. */
  lemma GroupingExtends(files: seq<DocumentFile>, codes: seq<Value>, f: DocumentFile, code: Value)
    requires |files| == |codes| && code !in codes
    ensures Grouping(files + [f], codes + [code]) == Grouping(files, codes) + [DocumentGroup(code, [f])]
  {
    GroupingStep(files, codes, f, code);
    FilesWithAbsent(files, codes, code);
    var d := FirstAppearances(codes);
    var before := Grouping(files, codes);
    var after := Grouping(files + [f], codes + [code]);
    assert FilesWith(files + [f], codes + [code], code) == [f];
    forall i | 0 <= i < |d| ensures after[i] == before[i] {
      assert FilesWith(files + [f], codes + [code], d[i]) == FilesWith(files, codes, d[i]);
    }
  }

  /** The groups hold every file exactly once: their files are the input
      files, duplicates counted. */
  lemma {:induction false} GroupingPermutes(files: seq<DocumentFile>, codes: seq<Value>)
    requires |files| == |codes|
    ensures multiset(FilesOf(Grouping(files, codes))) == multiset(files)
    decreases |files|
  {
    if |files| > 0 {
      var n := |files| - 1;
      var init, f := files[..n], files[n];
      var initCodes, code := codes[..n], codes[n];
      assert files == init + [f] && codes == initCodes + [code];
      GroupingPermutes(init, initCodes);
      var d := FirstAppearances(initCodes);
      var before := Grouping(init, initCodes);
      if code in d {
        var m :| 0 <= m < |d| && d[m] == code;
        GroupingGrows(init, initCodes, f, m);
        FilesOfGrow(before, m, f);
      } else {
        GroupingExtends(init, initCodes, f, code);
        FilesOfAppend(before, [DocumentGroup(code, [f])]);
        assert FilesOf([DocumentGroup(code, [f])]) == [f] + FilesOf([]);
      }
    }
  }

  /** One group per distinct code, no code twice. */
  lemma GroupingDistinct(files: seq<DocumentFile>, codes: seq<Value>)
    requires |files| == |codes|
    ensures forall i, j :: 0 <= i < j < |Grouping(files, codes)| ==>
              Grouping(files, codes)[i].documentCode != Grouping(files, codes)[j].documentCode
    ensures forall k :: 0 <= k < |codes| ==>
              exists i :: 0 <= i < |Grouping(files, codes)| && Grouping(files, codes)[i].documentCode == codes[k]
  {
    var d := FirstAppearances(codes);
    var groups := Grouping(files, codes);
    assert forall i :: 0 <= i < |groups| ==> groups[i].documentCode == d[i];
    FirstAppearancesDistinct(codes);
    forall k | 0 <= k < |codes|
      ensures exists i :: 0 <= i < |groups| && groups[i].documentCode == codes[k]
    {
      assert codes[k] in d;
      var i :| 0 <= i < |d| && d[i] == codes[k];
      assert groups[i].documentCode == codes[k];
    }
  }

  /** The groups come in order of first appearance of their codes. */
  lemma GroupingOrdered(files: seq<DocumentFile>, codes: seq<Value>)
    requires |files| == |codes|
    ensures forall i, j, q :: (0 <= i < j < |Grouping(files, codes)| && 0 <= q < |codes|
                               && codes[q] == Grouping(files, codes)[j].documentCode)
                              ==> Grouping(files, codes)[i].documentCode in codes[..q]
  {
    var d := FirstAppearances(codes);
    var groups := Grouping(files, codes);
    assert forall i :: 0 <= i < |groups| ==> groups[i].documentCode == d[i];
    FirstAppearancesOrdered(codes);
  }

  /** No group is empty, and a group holds only files with its code. */
  lemma GroupingMembers(files: seq<DocumentFile>, codes: seq<Value>)
    requires |files| == |codes|
    ensures forall i :: 0 <= i < |Grouping(files, codes)| ==> |Grouping(files, codes)[i].files| > 0
    ensures forall i, f :: 0 <= i < |Grouping(files, codes)| && f in Grouping(files, codes)[i].files ==>
              exists k :: 0 <= k < |files| && files[k] == f && codes[k] == Grouping(files, codes)[i].documentCode
  {
    var d := FirstAppearances(codes);
    var groups := Grouping(files, codes);
    forall i | 0 <= i < |groups| ensures |groups[i].files| > 0 {
      FilesWithPresent(files, codes, d[i]);
    }
    forall i, f | 0 <= i < |groups| && f in groups[i].files
      ensures exists k :: 0 <= k < |files| && files[k] == f && codes[k] == groups[i].documentCode
    {
      FilesWithMembers(files, codes, d[i], f);
    }
  }

  /** The grouping of associated files: one group per distinct code, no code
      twice, in order of first appearance; no group is empty; every file of
      a group carries the group's code; and the groups together hold every
      file exactly once. */
  lemma GroupedMeaning(files: seq<DocumentFile>)
    requires Associated(files)
    ensures Grouped(files).Ok?
    ensures forall i, j :: 0 <= i < j < |Grouped(files).value| ==>
              Grouped(files).value[i].documentCode != Grouped(files).value[j].documentCode
    ensures forall k :: 0 <= k < |files| ==>
              exists i :: 0 <= i < |Grouped(files).value|
                          && Grouped(files).value[i].documentCode == files[k].associatedManifestItem.value.documentCode
    ensures forall i, j, q :: (0 <= i < j < |Grouped(files).value| && 0 <= q < |files|
                               && CodesOf(files)[q] == Grouped(files).value[j].documentCode)
                              ==> Grouped(files).value[i].documentCode in CodesOf(files)[..q]
    ensures forall i :: 0 <= i < |Grouped(files).value| ==> |Grouped(files).value[i].files| > 0
    ensures forall i, f :: 0 <= i < |Grouped(files).value| && f in Grouped(files).value[i].files ==>
              f in files && f.associatedManifestItem.value.documentCode == Grouped(files).value[i].documentCode
    ensures multiset(FilesOf(Grouped(files).value)) == multiset(files)
  {
    var codes := CodesOf(files);
    var groups := Grouping(files, codes);
    assert Grouped(files).value == groups;
    GroupingDistinct(files, codes);
    GroupingOrdered(files, codes);
    GroupingMembers(files, codes);
    GroupingPermutes(files, codes);
  }

  /** A file without a manifest item makes the grouping raise
      `AttributeError`, which is outside the `CoreError` family: the run
      calls no collaborator and the exception propagates. */
  lemma UnassociatedFilePropagates(files: seq<DocumentFile>, k: nat,
                                   balance: (seq<DocumentGroup>, int) -> Result<seq<OutputLot>>,
                                   fsFailures: map<Call, Exception>, fillFailures: map<Call, Exception>,
                                   s: Settings)
    requires k < |files| && files[k].associatedManifestItem.None?
    ensures Organize(Grouped(files), balance, fsFailures, fillFailures, s) == Run(Err(NoDocumentCode), [])
    ensures NoDocumentCode.kind == AttributeError && !NoDocumentCode.IsCoreError()
  {
    CoreFamily(AttributeError);
  }

  // ---------------------------------------------------------------- names and destinations

  /** A pattern with one "XXXX", and no other 'X' around it, names lot
      `i` by putting the zero-padded sequence number in its place. */
  lemma LotNameSingleMarker(s: Settings, i: nat, before: string, after: string)
    requires s.lotNamePattern == before + "XXXX" + after
    requires 'X' !in before && 'X' !in after
    ensures LotName(s, i) == before + FormatZeroPadded(s.startSequenceNumber + i, 4) + after
  {
    ReplaceSingle(before, "XXXX", after, FormatZeroPadded(s.startSequenceNumber + i, 4));
  }

  /** The naming example of the use case's tests: the pattern
      "LOTE-XXXX-TESTE" numbered from 1 names the first two lots
      "LOTE-0001-TESTE" and "LOTE-0002-TESTE". */
  lemma LotNameExample(s: Settings, before: string, after: string)
    requires before == "LOTE-" && after == "-TESTE"
    requires s.lotNamePattern == "LOTE-XXXX-TESTE" && s.startSequenceNumber == 1
    ensures LotName(s, 0) == "LOTE-0001-TESTE"
    ensures LotName(s, 1) == "LOTE-0002-TESTE"
  {
    assert s.lotNamePattern == before + "XXXX" + after;
    LotNameSingleMarker(s, 0, before, after);
    LotNameSingleMarker(s, 1, before, after);
    ZeroPadOneDigit(1);
    ZeroPadOneDigit(2);
    assert DigitChar(1) == '1' && DigitChar(2) == '2';
  }

  /** A one-digit number takes three zeros. */
  lemma ZeroPadOneDigit(n: nat)
    requires n < 10
    ensures FormatZeroPadded(n, 4) == ['0', '0', '0', DigitChar(n)]
  {
    assert NatToString(n) == [DigitChar(n)];
    assert "0" + [DigitChar(n)] == ['0', DigitChar(n)];
    assert "0" + ['0', DigitChar(n)] == ['0', '0', DigitChar(n)];
    assert "0" + ['0', '0', DigitChar(n)] == ['0', '0', '0', DigitChar(n)];
    assert ZeroPad([DigitChar(n)], 4) == ZeroPad(['0', DigitChar(n)], 4);
    assert ZeroPad(['0', DigitChar(n)], 4) == ZeroPad(['0', '0', DigitChar(n)], 4);
    assert ZeroPad(['0', '0', DigitChar(n)], 4) == ZeroPad(['0', '0', '0', DigitChar(n)], 4);
  }

  /** A pattern without "XXXX" is every lot's name. */
  lemma LotNameWithoutMarker(s: Settings, i: nat)
    requires !Contains(s.lotNamePattern, "XXXX")
    ensures LotName(s, i) == s.lotNamePattern
  {
    ReplaceAbsent(s.lotNamePattern, "XXXX", FormatZeroPadded(s.startSequenceNumber + i, 4));
  }

  /** The sequence number of a non-negative start: at least four digits,
      zero-filled on the left, ending in the number's decimal digits. */
  lemma SequenceNumberDigits(n: nat)
    ensures var r := FormatZeroPadded(n, 4);
            |r| == (if |NatToString(n)| < 4 then 4 else |NatToString(n)|)
            && EndsWith(r, NatToString(n))
            && forall k :: 0 <= k < |r| - |NatToString(n)| ==> r[k] == '0'
  {
    ZeroPadFills(NatToString(n), 4);
  }

  lemma {:induction false} ZeroPadFills(s: string, width: int)
    ensures forall k :: 0 <= k < |ZeroPad(s, width)| - |s| ==> ZeroPad(s, width)[k] == '0'
    decreases width - |s|
  {
    if width > |s| {
      ZeroPadFills("0" + s, width);
      var r := ZeroPad(s, width);
      assert r == ZeroPad("0" + s, width);
      assert EndsWith(r, "0" + s);
      assert r[|r| - |s| - 1] == ("0" + s)[0];
    }
  }

  /** A moved file keeps its name: the destination's `.name` is the
      source's. */
  lemma DestinationKeepsName(directory: Path, file: DocumentFile)
    ensures Name(Destination(directory, file)) == Name(file.path)
  {
    NameHasNoSlash(file.path);
    NameOfJoin(directory, Name(file.path));
  }

  // ---------------------------------------------------------------- the run

  /** A lot's plan holds only directory creations, moves and fills. */
  lemma {:induction false} PlanKinds(s: Settings, lots: seq<OutputLot>)
    ensures forall j :: 0 <= j < |Plan(s, lots)| ==>
              Plan(s, lots)[j].CreateDirectory? || Plan(s, lots)[j].MoveFile? || Plan(s, lots)[j].FillAndSave?
    decreases |lots|
  {
    if |lots| > 0 {
      var n := |lots| - 1;
      PlanKinds(s, lots[..n]);
      var lot := lots[n];
      LotCallsShape(LotDirectory(s, n), LotManifestPath(s, n), s.masterTemplatePath, lot);
      var init := Plan(s, lots[..n]);
      var last := LotPlan(s, lots, n);
      forall j | 0 <= j < |last| ensures last[j].CreateDirectory? || last[j].MoveFile? || last[j].FillAndSave? {
        if 0 < j < |last| - 1 {
          assert last[(j - 1) + 1] == MoveCall(LotDirectory(s, n), lot.Files()[j - 1]);
        }
      }
      assert Plan(s, lots) == init + last;
    }
  }

  /** The balancer is asked exactly once, first, with the groups and the
      per-lot limit, whenever the grouping succeeds; when it fails nothing
      is called. */
  lemma BalancerAskedOnce(grouped: Result<seq<DocumentGroup>>,
                          balance: (seq<DocumentGroup>, int) -> Result<seq<OutputLot>>,
                          fsFailures: map<Call, Exception>, fillFailures: map<Call, Exception>, s: Settings)
    ensures var run := Organize(grouped, balance, fsFailures, fillFailures, s);
            grouped.Ok? ==>
              |run.calls| > 0 && run.calls[0] == Call.BalanceLots(grouped.value, s.maxDocsPerLot)
              && forall j :: 1 <= j < |run.calls| ==> !run.calls[j].BalanceLots?
    ensures grouped.Err? ==> Organize(grouped, balance, fsFailures, fillFailures, s).calls == []
  {
    if grouped.Ok? && balance(grouped.value, s.maxDocsPerLot).Ok? {
      var lots := balance(grouped.value, s.maxDocsPerLot).value;
      var plan := Plan(s, lots);
      var run := Organize(grouped, balance, fsFailures, fillFailures, s);
      AttemptMeaning(plan, fsFailures, fillFailures);
      PlanKinds(s, lots);
      var made := Performed(plan, fsFailures, fillFailures);
      assert made <= plan;
      assert run.calls == [Call.BalanceLots(grouped.value, s.maxDocsPerLot)] + made;
      forall j | 1 <= j < |run.calls| ensures !run.calls[j].BalanceLots? {
        assert run.calls[j] == plan[j - 1];
      }
    }
  }

  /** `except CoreError`: a `CoreError` becomes a failed report with no lots
      and no files counted and the error's text as its message; any other
      exception propagates unchanged. */
  lemma CaughtMeaning(e: Exception)
    ensures e.IsCoreError() ==>
              Caught(e).Ok? && Caught(e).value.success == false && Caught(e).value.message == e.message
              && Caught(e).value.lotsCreated == 0 && Caught(e).value.filesMoved == 0
    ensures !e.IsCoreError() ==> Caught(e) == Err(e)
  {
  }

  /** A run succeeds exactly when the grouping and the balancing succeed and
      no call of the plan raises; it then reports every lot created and every
      file of every lot moved, and has made every call of the plan after the
      balancer's. */
  lemma OrganizeSucceeds(grouped: Result<seq<DocumentGroup>>,
                         balance: (seq<DocumentGroup>, int) -> Result<seq<OutputLot>>,
                         fsFailures: map<Call, Exception>, fillFailures: map<Call, Exception>, s: Settings)
    ensures var run := Organize(grouped, balance, fsFailures, fillFailures, s);
            (run.result.Ok? && run.result.value.success)
            <==> (grouped.Ok? && balance(grouped.value, s.maxDocsPerLot).Ok?
                  && NoRaise(fsFailures, fillFailures, Plan(s, balance(grouped.value, s.maxDocsPerLot).value)))
    ensures grouped.Ok? ==>
              var answer := balance(grouped.value, s.maxDocsPerLot);
              answer.Ok? && NoRaise(fsFailures, fillFailures, Plan(s, answer.value)) ==>
                var run := Organize(grouped, balance, fsFailures, fillFailures, s);
                run.result == Ok(OrganizationResult(lotsCreated := |answer.value|,
                                                    filesMoved := |FilesOf(AllGroups(answer.value))|,
                                                    success := true, message := ""))
                && run.calls == [Call.BalanceLots(grouped.value, s.maxDocsPerLot)] + Plan(s, answer.value)
  {
    match grouped
    case Err(e) =>
    case Ok(groups) =>
      match balance(groups, s.maxDocsPerLot)
      case Err(e) =>
      case Ok(lots) =>
        OutcomeNone(Plan(s, lots), fsFailures, fillFailures);
  }

  /** The first call of the plan that raises ends the run: the calls up to
      and including it are made, and its exception is reported as failed or
      propagates. */
  lemma OrganizeStops(grouped: Result<seq<DocumentGroup>>,
                      balance: (seq<DocumentGroup>, int) -> Result<seq<OutputLot>>,
                      fsFailures: map<Call, Exception>, fillFailures: map<Call, Exception>, s: Settings,
                      groups: seq<DocumentGroup>, lots: seq<OutputLot>, k: nat)
    requires grouped == Ok(groups) && balance(groups, s.maxDocsPerLot) == Ok(lots)
    requires FirstRaise(Plan(s, lots), fsFailures, fillFailures) == Some(k)
    ensures var plan := Plan(s, lots);
            var run := Organize(grouped, balance, fsFailures, fillFailures, s);
            k < |plan|
            && run.result == Caught(Raised(fsFailures, fillFailures, plan[k]).value)
            && run.calls == [Call.BalanceLots(groups, s.maxDocsPerLot)] + plan[..k + 1]
  {
    AttemptStops(Plan(s, lots), fsFailures, fillFailures, k);
  }

  /** A failed report always counts no lot and no file and carries the text
      of a `CoreError`; a run that raises raises an exception outside that
      family. */
  lemma FailedRunsReportNothing(grouped: Result<seq<DocumentGroup>>,
                                balance: (seq<DocumentGroup>, int) -> Result<seq<OutputLot>>,
                                fsFailures: map<Call, Exception>, fillFailures: map<Call, Exception>, s: Settings)
    ensures var run := Organize(grouped, balance, fsFailures, fillFailures, s);
            run.result.Ok? && !run.result.value.success ==>
              run.result.value.lotsCreated == 0 && run.result.value.filesMoved == 0
              && exists e: Exception :: e.IsCoreError() && run.result == Caught(e) && run.result.value.message == e.message
    ensures var run := Organize(grouped, balance, fsFailures, fillFailures, s);
            run.result.Err? ==> !run.result.error.IsCoreError()
  {
    var run := Organize(grouped, balance, fsFailures, fillFailures, s);
    match grouped
    case Err(e) => CaughtMeaning(e);
    case Ok(groups) =>
      match balance(groups, s.maxDocsPerLot)
      case Err(e) => CaughtMeaning(e);
      case Ok(lots) =>
        match Outcome(Plan(s, lots), fsFailures, fillFailures)
        case None =>
        case Some(e) => CaughtMeaning(e);
  }

  // ---------------------------------------------------------------- with the greedy balancer

  /** The greedy balancer as the use case's collaborator: it never raises. */
  function GreedyBalancer(groups: seq<DocumentGroup>, maxDocsPerLot: int): Result<seq<OutputLot>> {
    Ok(Balance(groups, maxDocsPerLot))
  }

  /** Organising associated files with the greedy balancer, when no
      file-system or template call raises: the run succeeds, moves every
      file it was given, exactly once each, and creates as many lots as the
      balancer's lot count for the groups (none when there are no files). */
  lemma GreedyRunMovesEveryFile(files: seq<DocumentFile>, fsFailures: map<Call, Exception>,
                                fillFailures: map<Call, Exception>, s: Settings)
    requires Associated(files)
    requires NoRaise(fsFailures, fillFailures, Plan(s, Balance(Grouping(files, CodesOf(files)), s.maxDocsPerLot)))
    ensures var run := Organize(Grouped(files), GreedyBalancer, fsFailures, fillFailures, s);
            var groups := Grouping(files, CodesOf(files));
            var lots := Balance(groups, s.maxDocsPerLot);
            run.result.Ok? && run.result.value.success
            && run.result.value.filesMoved == |files|
            && multiset(FilesOf(AllGroups(lots))) == multiset(files)
            && run.result.value.lotsCreated == (if |files| == 0 then 0 else LotCount(|groups|, s.maxDocsPerLot))
  {
    var groups := Grouping(files, CodesOf(files));
    var lots := Balance(groups, s.maxDocsPerLot);
    GroupedMeaning(files);
    assert Grouped(files) == Ok(groups);
    OrganizeSucceeds(Grouped(files), GreedyBalancer, fsFailures, fillFailures, s);
    BalanceResult(groups, s.maxDocsPerLot);
    if |files| == 0 {
      assert |groups| == 0;
    } else {
      assert |groups| > 0 by {
        assert exists i :: 0 <= i < |groups| && groups[i].documentCode == files[0].associatedManifestItem.value.documentCode;
      }
      assert multiset(AllGroups(lots)) == multiset(groups);
      FilesOfPermutation(AllGroups(lots), groups);
    }
    assert |FilesOf(AllGroups(lots))| == |multiset(FilesOf(AllGroups(lots)))| == |multiset(files)| == |files|;
  }

  // ---------------------------------------------------------------- the scenarios of the tests

  /** Two files with different codes form one group each, in order. */
  lemma TwoCodesTwoGroups(f1: DocumentFile, f2: DocumentFile, a: Value, b: Value)
    requires f1.associatedManifestItem.Some? && f1.associatedManifestItem.value.documentCode == a
    requires f2.associatedManifestItem.Some? && f2.associatedManifestItem.value.documentCode == b
    requires a != b
    ensures Grouped([f1, f2]) == Ok([DocumentGroup(a, [f1]), DocumentGroup(b, [f2])])
  {
    var files := [f1, f2];
    var codes := CodesOf(files);
    assert codes == [a, b];
    assert [a, b][..1] == [a] && [a][..0] == [];
    assert FirstAppearances([a]) == [a];
    assert FirstAppearances(codes) == [a, b];
    assert files[..1] == [f1] && [f1][..0] == [];
    assert FilesWith([f1], [a], a) == [f1];
    assert FilesWith([f1], [a], b) == [];
    assert FilesWith(files, codes, a) == [f1];
    assert FilesWith(files, codes, b) == [f2];
    assert Associated(files);
    var g := Grouping(files, codes);
    assert |g| == 2 && g[0] == DocumentGroup(a, [f1]) && g[1] == DocumentGroup(b, [f2]);
    assert g == [DocumentGroup(a, [f1]), DocumentGroup(b, [f2])];
  }

  /** One file forms one group. */
  lemma OneFileOneGroup(f1: DocumentFile, a: Value)
    requires f1.associatedManifestItem.Some? && f1.associatedManifestItem.value.documentCode == a
    ensures Grouped([f1]) == Ok([DocumentGroup(a, [f1])])
  {
    assert CodesOf([f1]) == [a];
    assert [a][..0] == [] && [f1][..0] == [];
    assert FirstAppearances([a]) == [a];
    assert FilesWith([f1], [a], a) == [f1];
    assert Associated([f1]);
    var g := Grouping([f1], [a]);
    assert |g| == 1 && g[0] == DocumentGroup(a, [f1]);
    assert g == [DocumentGroup(a, [f1])];
  }

  /** The successful run of the use case's tests: two files with codes
      "DOC-A" and "DOC-B", lots named from "LOTE-XXXX-TESTE" numbered from 1,
      a balancer that answers one lot per group, and collaborators that
      raise nothing. Two lots are created and two files moved, and the calls
      are, lot after lot, the directory `<output>/LOTE-000n-TESTE`, the move
      of the lot's file into it under its own name, and the lot manifest
      `<directory>/LOTE-000n-TESTE.xlsx` filled with the lot's group. */
  lemma HappyPathScenario(f1: DocumentFile, f2: DocumentFile, ga: DocumentGroup, gb: DocumentGroup,
                          balance: (seq<DocumentGroup>, int) -> Result<seq<OutputLot>>, s: Settings,
                          lots: seq<OutputLot>, name1: string, name2: string)
    requires f1.associatedManifestItem.Some? && f1.associatedManifestItem.value.documentCode == Str("DOC-A")
    requires f2.associatedManifestItem.Some? && f2.associatedManifestItem.value.documentCode == Str("DOC-B")
    requires ga == DocumentGroup(Str("DOC-A"), [f1]) && gb == DocumentGroup(Str("DOC-B"), [f2])
    requires s.maxDocsPerLot == 1 && s.startSequenceNumber == 1 && s.lotNamePattern == "LOTE-XXXX-TESTE"
    requires lots == [OutputLot("temp1", [ga]), OutputLot("temp2", [gb])]
    requires balance([ga, gb], 1) == Ok(lots)
    requires name1 == "LOTE-0001-TESTE" && name2 == "LOTE-0002-TESTE"
    ensures var run := Organize(Grouped([f1, f2]), balance, map[], map[], s);
            var dir1, dir2 := Paths.Join(s.outputDirectory, name1), Paths.Join(s.outputDirectory, name2);
            run.result == Ok(OrganizationResult(lotsCreated := 2, filesMoved := 2, success := true, message := ""))
            && run.calls == [Call.BalanceLots([ga, gb], 1),
                             Call.CreateDirectory(dir1), Call.MoveFile(f1.path, Paths.Join(dir1, Name(f1.path))),
                             Call.FillAndSave(s.masterTemplatePath, Paths.Join(dir1, name1 + ".xlsx"), [ga]),
                             Call.CreateDirectory(dir2), Call.MoveFile(f2.path, Paths.Join(dir2, Name(f2.path))),
                             Call.FillAndSave(s.masterTemplatePath, Paths.Join(dir2, name2 + ".xlsx"), [gb])]
  {
    assert Str("DOC-A") != Str("DOC-B") by { assert "DOC-A"[4] != "DOC-B"[4]; }
    TwoCodesTwoGroups(f1, f2, Str("DOC-A"), Str("DOC-B"));
    LotNameExample(s, "LOTE-", "-TESTE");
    ScenarioPlan(s, lots, ga, gb, f1, f2, name1, name2);
    NothingRaises(Plan(s, lots));
    ScenarioFiles(lots, ga, gb, f1, f2);
    OrganizeSucceeds(Ok([ga, gb]), balance, map[], map[], s);
  }

  /** The two lots of the scenario hold its two files. */
  lemma ScenarioFiles(lots: seq<OutputLot>, ga: DocumentGroup, gb: DocumentGroup, f1: DocumentFile, f2: DocumentFile)
    requires ga.files == [f1] && gb.files == [f2]
    requires lots == [OutputLot("temp1", [ga]), OutputLot("temp2", [gb])]
    ensures |FilesOf(AllGroups(lots))| == 2
  {
    assert AllGroups(lots) == [ga] + AllGroups(lots[1..]);
    assert AllGroups(lots[1..]) == [gb] + AllGroups([]);
    assert FilesOf([ga, gb]) == [f1] + FilesOf([gb]);
    assert FilesOf([gb]) == [f2] + FilesOf([]);
  }

  /** The plan of two lots of one group of one file each, with the lots'
      names written out. */
  lemma ScenarioPlan(s: Settings, lots: seq<OutputLot>, ga: DocumentGroup, gb: DocumentGroup,
                     f1: DocumentFile, f2: DocumentFile, name1: string, name2: string)
    requires ga.files == [f1] && gb.files == [f2]
    requires lots == [OutputLot("temp1", [ga]), OutputLot("temp2", [gb])]
    requires LotName(s, 0) == name1 && LotName(s, 1) == name2
    ensures var dir1, dir2 := Paths.Join(s.outputDirectory, name1), Paths.Join(s.outputDirectory, name2);
            Plan(s, lots)
            == [Call.CreateDirectory(dir1), Call.MoveFile(f1.path, Paths.Join(dir1, Name(f1.path))),
                Call.FillAndSave(s.masterTemplatePath, Paths.Join(dir1, name1 + ".xlsx"), [ga]),
                Call.CreateDirectory(dir2), Call.MoveFile(f2.path, Paths.Join(dir2, Name(f2.path))),
                Call.FillAndSave(s.masterTemplatePath, Paths.Join(dir2, name2 + ".xlsx"), [gb])]
  {
    ScenarioLotPlans(s, lots, ga, gb, f1, f2);
  }

  /** The plan of two lots of one group of one file each. */
  lemma ScenarioLotPlans(s: Settings, lots: seq<OutputLot>, ga: DocumentGroup, gb: DocumentGroup,
                         f1: DocumentFile, f2: DocumentFile)
    requires ga.files == [f1] && gb.files == [f2]
    requires lots == [OutputLot("temp1", [ga]), OutputLot("temp2", [gb])]
    ensures Plan(s, lots)
            == [Call.CreateDirectory(LotDirectory(s, 0)), MoveCall(LotDirectory(s, 0), f1),
                Call.FillAndSave(s.masterTemplatePath, LotManifestPath(s, 0), [ga]),
                Call.CreateDirectory(LotDirectory(s, 1)), MoveCall(LotDirectory(s, 1), f2),
                Call.FillAndSave(s.masterTemplatePath, LotManifestPath(s, 1), [gb])]
  {
    assert lots[..1][..0] == [] && lots[..2] == lots;
    assert lots[0].Files() == [f1] by { assert FilesOf([ga]) == [f1] + FilesOf([]); }
    assert lots[1].Files() == [f2] by { assert FilesOf([gb]) == [f2] + FilesOf([]); }
    assert Moves(LotDirectory(s, 0), [f1]) == [MoveCall(LotDirectory(s, 0), f1)];
    assert Moves(LotDirectory(s, 1), [f2]) == [MoveCall(LotDirectory(s, 1), f2)];
    assert Plan(s, lots[..1]) == LotPlan(s, lots, 0);
  }

  /** With no configured failure, no call raises. */
  lemma NothingRaises(calls: seq<Call>)
    ensures NoRaise(map[], map[], calls)
  {
  }

  /** The failing run of the use case's tests: creating the first lot's
      directory raises `FileSystemOperationError("Erro de teste")`. The report
      is failed, carries that text and counts nothing, and nothing is
      attempted after the failed creation. */
  lemma CreateDirectoryFailsScenario(f1: DocumentFile, ga: DocumentGroup,
                                     balance: (seq<DocumentGroup>, int) -> Result<seq<OutputLot>>, s: Settings,
                                     name1: string, e: Exception)
    requires f1.associatedManifestItem.Some? && f1.associatedManifestItem.value.documentCode == Str("DOC-A")
    requires ga == DocumentGroup(Str("DOC-A"), [f1])
    requires s.maxDocsPerLot == 1 && s.startSequenceNumber == 1 && s.lotNamePattern == "LOTE-XXXX-TESTE"
    requires balance([ga], 1) == Ok([OutputLot("temp1", [ga])])
    requires name1 == "LOTE-0001-TESTE"
    requires e == Exception(FileSystemOperationError, "Erro de teste")
    ensures var dir1 := Paths.Join(s.outputDirectory, name1);
            var run := Organize(Grouped([f1]), balance, map[Call.CreateDirectory(dir1) := e], map[], s);
            run.result == Ok(OrganizationResult(lotsCreated := 0, filesMoved := 0, success := false,
                                                message := "Erro de teste"))
            && run.calls == [Call.BalanceLots([ga], 1), Call.CreateDirectory(dir1)]
  {
    var dir1 := Paths.Join(s.outputDirectory, name1);
    var fs := map[Call.CreateDirectory(dir1) := e];
    var lots := [OutputLot("temp1", [ga])];
    OneFileOneGroup(f1, Str("DOC-A"));
    LotNameExample(s, "LOTE-", "-TESTE");
    assert LotDirectory(s, 0) == dir1;
    var plan := Plan(s, lots);
    assert lots[..0] == [] && Plan(s, lots[..0]) == [];
    assert plan == LotPlan(s, lots, 0);
    LotCreateRaises(dir1, LotManifestPath(s, 0), s.masterTemplatePath, lots[0], fs, map[]);
    StrIsMessage(FileSystemOperationError, "Erro de teste");
  }
}
