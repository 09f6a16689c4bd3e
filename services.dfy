/** The greedy lot balancer: groups of documents are taken largest first
    and each is added to the lot whose running total is currently the
    smallest; the number of lots comes from the per-lot document limit. */
module Services {
  import opened Wrappers
  import opened Strings
  import opened Errors
  import opened Domain

  // ---------------------------------------------------------------------
  // Ordering the groups: `sorted(groups, key=total, reverse=True)`
  // ---------------------------------------------------------------------

  predicate SortedBySizeDesc(s: seq<DocumentGroup>) {
    forall i, j :: 0 <= i < j < |s| ==> s[i].TotalSizeBytes() >= s[j].TotalSizeBytes()
  }

  /** Inserts `g` before the first strictly lighter group, that is, after
      every group at least as heavy, so equal groups keep their order. */
  function InsertBySize(sorted: seq<DocumentGroup>, g: DocumentGroup): (r: seq<DocumentGroup>)
    ensures |r| == |sorted| + 1
  {
    if sorted == [] then [g]
    else if sorted[0].TotalSizeBytes() < g.TotalSizeBytes() then [g] + sorted
    else [sorted[0]] + InsertBySize(sorted[1..], g)
  }

  /** The groups, heaviest first; groups of equal size stay in input order. */
  function SortBySizeDesc(gs: seq<DocumentGroup>): (r: seq<DocumentGroup>)
    ensures |r| == |gs|
  {
    if gs == [] then []
    else InsertBySize(SortBySizeDesc(gs[..|gs| - 1]), gs[|gs| - 1])
  }

  lemma {:induction false} InsertPermutes(sorted: seq<DocumentGroup>, g: DocumentGroup)
    ensures multiset(InsertBySize(sorted, g)) == multiset(sorted) + multiset{g}
  {
    if sorted != [] {
      assert sorted == [sorted[0]] + sorted[1..];
      if sorted[0].TotalSizeBytes() >= g.TotalSizeBytes() {
        InsertPermutes(sorted[1..], g);
      }
    }
  }

  lemma {:induction false} InsertKeepsSorted(sorted: seq<DocumentGroup>, g: DocumentGroup)
    requires SortedBySizeDesc(sorted)
    ensures SortedBySizeDesc(InsertBySize(sorted, g))
  {
    if sorted != [] && sorted[0].TotalSizeBytes() >= g.TotalSizeBytes() {
      var tail := sorted[1..];
      var rest := InsertBySize(tail, g);
      InsertKeepsSorted(tail, g);
      assert forall k :: 0 <= k < |tail| ==> tail[k] == sorted[k + 1];
      InsertAtMost(tail, g, sorted[0].TotalSizeBytes());
      var r := [sorted[0]] + rest;
      forall i, j | 0 <= i < j < |r| ensures r[i].TotalSizeBytes() >= r[j].TotalSizeBytes() {
        assert r[j] == rest[j - 1];
        if i > 0 {
          assert r[i] == rest[i - 1];
        }
      }
    }
  }

  /** Inserting a group no heavier than `bound` into groups no heavier than
      `bound` gives groups no heavier than `bound`. */
  lemma {:induction false} InsertAtMost(sorted: seq<DocumentGroup>, g: DocumentGroup, bound: int)
    requires forall k :: 0 <= k < |sorted| ==> sorted[k].TotalSizeBytes() <= bound
    requires g.TotalSizeBytes() <= bound
    ensures forall k :: 0 <= k < |InsertBySize(sorted, g)| ==> InsertBySize(sorted, g)[k].TotalSizeBytes() <= bound
  {
    if sorted != [] && sorted[0].TotalSizeBytes() >= g.TotalSizeBytes() {
      var tail := sorted[1..];
      assert forall k :: 0 <= k < |tail| ==> tail[k] == sorted[k + 1];
      InsertAtMost(tail, g, bound);
      var r := InsertBySize(sorted, g);
      assert forall k :: 0 < k < |r| ==> r[k] == InsertBySize(tail, g)[k - 1];
    }
  }

  /** The result is ordered heaviest first and is a permutation of the input. */
  lemma {:induction false} SortIsOrderedPermutation(gs: seq<DocumentGroup>)
    ensures SortedBySizeDesc(SortBySizeDesc(gs))
    ensures multiset(SortBySizeDesc(gs)) == multiset(gs)
  {
    if gs != [] {
      SortIsOrderedPermutation(gs[..|gs| - 1]);
      InsertKeepsSorted(SortBySizeDesc(gs[..|gs| - 1]), gs[|gs| - 1]);
      InsertPermutes(SortBySizeDesc(gs[..|gs| - 1]), gs[|gs| - 1]);
      assert gs == gs[..|gs| - 1] + [gs[|gs| - 1]];
    }
  }

  /** The groups of size exactly `k`, in order. */
  function WithSize(s: seq<DocumentGroup>, k: int): seq<DocumentGroup> {
    if |s| == 0 then []
    else (if s[0].TotalSizeBytes() == k then [s[0]] else []) + WithSize(s[1..], k)
  }

  lemma {:induction false} WithSizeAppend(a: seq<DocumentGroup>, b: seq<DocumentGroup>, k: int)
    ensures WithSize(a + b, k) == WithSize(a, k) + WithSize(b, k)
  {
    if a == [] {
      assert a + b == b;
    } else {
      assert (a + b)[1..] == a[1..] + b;
      WithSizeAppend(a[1..], b, k);
    }
  }

  lemma {:induction false} LighterHaveNoSize(s: seq<DocumentGroup>, k: int)
    requires forall j :: 0 <= j < |s| ==> s[j].TotalSizeBytes() < k
    ensures WithSize(s, k) == []
  {
    if s != [] {
      LighterHaveNoSize(s[1..], k);
    }
  }

  lemma {:induction false} InsertWithSize(sorted: seq<DocumentGroup>, g: DocumentGroup, k: int)
    requires SortedBySizeDesc(sorted)
    ensures WithSize(InsertBySize(sorted, g), k)
            == WithSize(sorted, k) + (if g.TotalSizeBytes() == k then [g] else [])
  {
    if sorted == [] {
    } else if sorted[0].TotalSizeBytes() < g.TotalSizeBytes() {
      var r := [g] + sorted;
      assert r[1..] == sorted;
      if g.TotalSizeBytes() == k {
        LighterHaveNoSize(sorted, k);
      }
    } else {
      var r := [sorted[0]] + InsertBySize(sorted[1..], g);
      assert r[1..] == InsertBySize(sorted[1..], g);
      InsertWithSize(sorted[1..], g, k);
    }
  }

  /** The sort is stable: for every size, the groups of that size appear in
      the output in the order they had in the input. */
  lemma {:induction false} SortIsStable(gs: seq<DocumentGroup>, k: int)
    ensures WithSize(SortBySizeDesc(gs), k) == WithSize(gs, k)
  {
    if gs != [] {
      var init, last := gs[..|gs| - 1], gs[|gs| - 1];
      assert gs == init + [last];
      assert SortBySizeDesc(gs) == InsertBySize(SortBySizeDesc(init), last);
      SortIsStable(init, k);
      SortIsOrderedPermutation(init);
      InsertWithSize(SortBySizeDesc(init), last, k);
      WithSizeAppend(init, [last], k);
      assert WithSize([last], k) == (if last.TotalSizeBytes() == k then [last] else []) + WithSize([], k);
    }
  }

  // ---------------------------------------------------------------------
  // The lots
  // ---------------------------------------------------------------------

  /** `math.ceil(n / limit)`, where a limit of 0 or less stands for `n`. */
  function LotCount(n: nat, maxDocsPerLot: int): (r: nat)
    requires n > 0
    ensures maxDocsPerLot <= 0 ==> r == 1
    ensures maxDocsPerLot > 0 ==> (r - 1) * maxDocsPerLot < n <= r * maxDocsPerLot
    ensures r >= 1
  {
    var limit := if maxDocsPerLot <= 0 then n else maxDocsPerLot;
    CeilingDivision(n, limit);
    (n + limit - 1) / limit
  }

  lemma CeilingDivision(n: nat, d: nat)
    requires n > 0 && d > 0
    ensures ((n + d - 1) / d - 1) * d < n <= ((n + d - 1) / d) * d
    ensures (n + d - 1) / d >= 1
    ensures d == n ==> (n + d - 1) / d == 1
  {
    var q := (n + d - 1) / d;
    var r := (n + d - 1) % d;
    assert n + d - 1 == q * d + r;
    assert (q - 1) * d == q * d - d;
    if d == n {
      assert n + d - 1 == 1 * d + (d - 1);
    }
  }

  /** The empty lots "Lote_1" … "Lote_k". */
  function EmptyLots(k: nat): (lots: seq<OutputLot>)
    ensures |lots| == k
    ensures forall i :: 0 <= i < k ==> lots[i] == OutputLot("Lote_" + NatToString(i + 1))
  {
    seq(k, i requires 0 <= i < k => OutputLot("Lote_" + NatToString(i + 1)))
  }

  /** The lots' running totals, in lot order. */
  function Totals(lots: seq<OutputLot>): (t: seq<int>)
    ensures |t| == |lots| && forall i :: 0 <= i < |lots| ==> t[i] == lots[i].TotalSizeBytes()
  {
    seq(|lots|, i requires 0 <= i < |lots| => lots[i].TotalSizeBytes())
  }

  /** `min(lots, key=total)` as a position: the first smallest total. */
  function LightestIndex(totals: seq<int>): (r: nat)
    requires |totals| > 0
    ensures r < |totals|
    ensures forall j :: 0 <= j < |totals| ==> totals[r] <= totals[j]
    ensures forall j :: 0 <= j < r ==> totals[j] > totals[r]
  {
    if |totals| == 1 then 0
    else
      var i := LightestIndex(totals[..|totals| - 1]);
      if totals[|totals| - 1] < totals[i] then |totals| - 1 else i
  }

  /** One step of the loop: `g` is appended to the lightest lot. */
  function Place(lots: seq<OutputLot>, g: DocumentGroup): (r: seq<OutputLot>)
    requires |lots| > 0
    ensures |r| == |lots|
    ensures forall j :: 0 <= j < |lots| ==> r[j].lotName == lots[j].lotName
  {
    var i := LightestIndex(Totals(lots));
    lots[i := OutputLot(lots[i].lotName, lots[i].groups + [g])]
  }

  /** The rest of the loop, from `lots`, over the groups still to place. */
  function Distribute(lots: seq<OutputLot>, gs: seq<DocumentGroup>): (r: seq<OutputLot>)
    requires |lots| > 0
    ensures |r| == |lots|
    decreases gs
  {
    if |gs| == 0 then lots else Distribute(Place(lots, gs[0]), gs[1..])
  }

  /** What `balance_lots` returns. */
  function Balance(groups: seq<DocumentGroup>, maxDocsPerLot: int): seq<OutputLot> {
    if |groups| == 0 then []
    else Distribute(EmptyLots(LotCount(|groups|, maxDocsPerLot)), SortBySizeDesc(groups))
  }

  /** `balance_lots`. */
  method BalanceLots(groups: seq<DocumentGroup>, maxDocsPerLot: int) returns (lots: seq<OutputLot>)
    ensures lots == Balance(groups, maxDocsPerLot)
  {
    if groups == [] {
      return [];
    }
    var sorted := SortBySizeDesc(groups);
    var numLots := LotCount(|sorted|, maxDocsPerLot);
    lots := EmptyLots(numLots);
    for k := 0 to |sorted|
      invariant |lots| == numLots
      invariant Distribute(lots, sorted[k..]) == Balance(groups, maxDocsPerLot)
    {
      assert sorted[k..][1..] == sorted[k + 1..];
      assert Distribute(lots, sorted[k..]) == Distribute(Place(lots, sorted[k]), sorted[k + 1..]);
      var lightest := LightestIndex(Totals(lots));
      lots := lots[lightest := OutputLot(lots[lightest].lotName, lots[lightest].groups + [sorted[k]])];
    }
  }

  // ---------------------------------------------------------------------
  // Properties of the balancing
  // ---------------------------------------------------------------------

  /** The groups of all lots, lot by lot. */
  function AllGroups(lots: seq<OutputLot>): seq<DocumentGroup> {
    if |lots| == 0 then [] else lots[0].groups + AllGroups(lots[1..])
  }

  /** The sum of the lots' totals. */
  function SumLotSizes(lots: seq<OutputLot>): int {
    if |lots| == 0 then 0 else lots[0].TotalSizeBytes() + SumLotSizes(lots[1..])
  }

  lemma {:induction false} AppendToLot(lots: seq<OutputLot>, i: nat, g: DocumentGroup)
    requires i < |lots|
    ensures var updated := lots[i := OutputLot(lots[i].lotName, lots[i].groups + [g])];
            multiset(AllGroups(updated)) == multiset(AllGroups(lots)) + multiset{g}
            && SumLotSizes(updated) == SumLotSizes(lots) + g.TotalSizeBytes()
  {
    var updated := lots[i := OutputLot(lots[i].lotName, lots[i].groups + [g])];
    if i == 0 {
      assert updated[1..] == lots[1..];
      SumGroupSizesAppend(lots[0].groups, [g]);
      assert SumGroupSizes([g]) == g.TotalSizeBytes() + SumGroupSizes([]);
    } else {
      assert updated[1..] == lots[1..][i - 1 := OutputLot(lots[i].lotName, lots[i].groups + [g])];
      AppendToLot(lots[1..], i - 1, g);
    }
  }

  /** Distributing adds every remaining group exactly once, and adds their
      sizes to the sum of the lot totals; names and number of lots stay. */
  lemma {:induction false} DistributeAccounts(lots: seq<OutputLot>, gs: seq<DocumentGroup>)
    requires |lots| > 0
    ensures multiset(AllGroups(Distribute(lots, gs))) == multiset(AllGroups(lots)) + multiset(gs)
    ensures SumLotSizes(Distribute(lots, gs)) == SumLotSizes(lots) + SumGroupSizes(gs)
    ensures forall i :: 0 <= i < |lots| ==> Distribute(lots, gs)[i].lotName == lots[i].lotName
    decreases gs
  {
    if gs != [] {
      var next := Place(lots, gs[0]);
      assert Distribute(lots, gs) == Distribute(next, gs[1..]);
      assert gs == [gs[0]] + gs[1..];
      AppendToLot(lots, LightestIndex(Totals(lots)), gs[0]);
      DistributeAccounts(next, gs[1..]);
    }
  }

  lemma {:induction false} EmptyLotsHoldNothing(lots: seq<OutputLot>)
    requires forall i :: 0 <= i < |lots| ==> lots[i].groups == []
    ensures AllGroups(lots) == [] && SumLotSizes(lots) == 0
  {
    if lots != [] {
      assert SumGroupSizes([]) == 0;
      EmptyLotsHoldNothing(lots[1..]);
    }
  }

  lemma {:induction false} SortKeepsSum(gs: seq<DocumentGroup>)
    ensures SumGroupSizes(SortBySizeDesc(gs)) == SumGroupSizes(gs)
  {
    if gs != [] {
      var init, last := gs[..|gs| - 1], gs[|gs| - 1];
      assert SortBySizeDesc(gs) == InsertBySize(SortBySizeDesc(init), last);
      SortKeepsSum(init);
      InsertKeepsSum(SortBySizeDesc(init), last);
      assert gs == init + [last];
      SumGroupSizesAppend(init, [last]);
      assert SumGroupSizes([last]) == last.TotalSizeBytes() + SumGroupSizes([]);
    }
  }

  lemma {:induction false} InsertKeepsSum(sorted: seq<DocumentGroup>, g: DocumentGroup)
    ensures SumGroupSizes(InsertBySize(sorted, g)) == SumGroupSizes(sorted) + g.TotalSizeBytes()
  {
    if sorted != [] && sorted[0].TotalSizeBytes() >= g.TotalSizeBytes() {
      InsertKeepsSum(sorted[1..], g);
      var r := [sorted[0]] + InsertBySize(sorted[1..], g);
      assert r[1..] == InsertBySize(sorted[1..], g);
    } else if sorted != [] {
      var r := [g] + sorted;
      assert r[1..] == sorted;
    }
  }

  /** The balancing result: no lots for no groups; otherwise ceil(n / limit)
      lots (one when the limit is 0 or less) named "Lote_1" … "Lote_k", which
      together hold every input group exactly once and whose totals add up
      to the total of the groups. */
  lemma BalanceResult(groups: seq<DocumentGroup>, maxDocsPerLot: int)
    ensures groups == [] ==> Balance(groups, maxDocsPerLot) == []
    ensures groups != [] ==>
              var lots := Balance(groups, maxDocsPerLot);
              |lots| == LotCount(|groups|, maxDocsPerLot)
              && (forall i :: 0 <= i < |lots| ==> lots[i].lotName == "Lote_" + NatToString(i + 1))
              && multiset(AllGroups(lots)) == multiset(groups)
              && SumLotSizes(lots) == SumGroupSizes(groups)
  {
    if groups != [] {
      var k := LotCount(|groups|, maxDocsPerLot);
      EmptyLotsHoldNothing(EmptyLots(k));
      SortIsOrderedPermutation(groups);
      DistributeAccounts(EmptyLots(k), SortBySizeDesc(groups));
      SortKeepsSum(groups);
    }
  }

  /** Each step appends the group to the first lot of smallest total and
      leaves every other lot as it was. */
  lemma {:induction false} PlaceInLightest(lots: seq<OutputLot>, g: DocumentGroup, i: nat)
    requires i < |lots|
    requires forall j :: 0 <= j < |lots| ==> lots[i].TotalSizeBytes() <= lots[j].TotalSizeBytes()
    requires forall j :: 0 <= j < i ==> lots[j].TotalSizeBytes() > lots[i].TotalSizeBytes()
    ensures Place(lots, g)[i] == OutputLot(lots[i].lotName, lots[i].groups + [g])
    ensures forall j :: 0 <= j < |lots| && j != i ==> Place(lots, g)[j] == lots[j]
  {
  }

  /** Inserting a group no heavier than any already placed appends it. */
  lemma {:induction false} InsertLightest(sorted: seq<DocumentGroup>, g: DocumentGroup)
    requires forall j :: 0 <= j < |sorted| ==> sorted[j].TotalSizeBytes() >= g.TotalSizeBytes()
    ensures InsertBySize(sorted, g) == sorted + [g]
  {
    if sorted != [] {
      InsertLightest(sorted[1..], g);
      assert [sorted[0]] + (sorted[1..] + [g]) == sorted + [g];
    }
  }

  /** Groups all of one size are left in their order. */
  lemma {:induction false} EqualSizesKeepOrder(gs: seq<DocumentGroup>, size: int)
    requires forall j :: 0 <= j < |gs| ==> gs[j].TotalSizeBytes() == size
    ensures SortBySizeDesc(gs) == gs
  {
    if gs != [] {
      var init, last := gs[..|gs| - 1], gs[|gs| - 1];
      assert gs == init + [last];
      EqualSizesKeepOrder(init, size);
      InsertLightest(init, last);
    }
  }

  /** One step of the loop, stated on groups and totals: `g` joins lot `i`,
      the first of smallest total, and no other lot changes. */
  lemma {:induction false} PlaceGroups(lots: seq<OutputLot>, g: DocumentGroup, i: nat)
    requires i < |lots|
    requires forall j :: 0 <= j < |lots| ==> lots[i].TotalSizeBytes() <= lots[j].TotalSizeBytes()
    requires forall j :: 0 <= j < i ==> lots[j].TotalSizeBytes() > lots[i].TotalSizeBytes()
    ensures |Place(lots, g)| == |lots|
    ensures Place(lots, g)[i].groups == lots[i].groups + [g]
    ensures Place(lots, g)[i].TotalSizeBytes() == lots[i].TotalSizeBytes() + g.TotalSizeBytes()
    ensures forall j :: 0 <= j < |lots| && j != i ==> Place(lots, g)[j] == lots[j]
  {
    PlaceInLightest(lots, g, i);
    SumGroupSizesAppend(lots[i].groups, [g]);
    assert SumGroupSizes([g]) == g.TotalSizeBytes() + SumGroupSizes([]);
  }

  /** Placing a group when there are two lots: it goes to the first unless
      the second is strictly lighter. */
  lemma PlaceInTwo(lots: seq<OutputLot>, g: DocumentGroup)
    requires |lots| == 2
    ensures var p := Place(lots, g);
            var first := lots[0].TotalSizeBytes() <= lots[1].TotalSizeBytes();
            var i := if first then 0 else 1;
            |p| == 2 && p[i].groups == lots[i].groups + [g]
            && p[i].TotalSizeBytes() == lots[i].TotalSizeBytes() + g.TotalSizeBytes()
            && p[1 - i] == lots[1 - i]
  {
    if lots[0].TotalSizeBytes() <= lots[1].TotalSizeBytes() {
      PlaceGroups(lots, g, 0);
    } else {
      PlaceGroups(lots, g, 1);
    }
  }

  lemma DistributeStep(lots: seq<OutputLot>, gs: seq<DocumentGroup>)
    requires |lots| > 0 && gs != []
    ensures Distribute(lots, gs) == Distribute(Place(lots, gs[0]), gs[1..])
  {
  }

  lemma SortStep(gs: seq<DocumentGroup>)
    requires gs != []
    ensures SortBySizeDesc(gs) == InsertBySize(SortBySizeDesc(gs[..|gs| - 1]), gs[|gs| - 1])
  {
  }

  lemma InsertStep(sorted: seq<DocumentGroup>, g: DocumentGroup)
    requires sorted != []
    ensures sorted[0].TotalSizeBytes() < g.TotalSizeBytes() ==> InsertBySize(sorted, g) == [g] + sorted
    ensures sorted[0].TotalSizeBytes() >= g.TotalSizeBytes() ==>
              InsertBySize(sorted, g) == [sorted[0]] + InsertBySize(sorted[1..], g)
  {
  }

  /** The first scenario of the balancer's tests: groups of 10, 80, 100 and
      60 bytes, at most two per lot, give two lots, 100 + 10 and 80 + 60. */
  lemma {:induction false} BalanceScenarioBySize(g10: DocumentGroup, g80: DocumentGroup, g100: DocumentGroup, g60: DocumentGroup)
    requires g10.TotalSizeBytes() == 10 && g80.TotalSizeBytes() == 80
    requires g100.TotalSizeBytes() == 100 && g60.TotalSizeBytes() == 60
    ensures var lots := Balance([g10, g80, g100, g60], 2);
            |lots| == 2 && lots[0].groups == [g100, g10] && lots[1].groups == [g80, g60]
            && lots[0].TotalSizeBytes() == 110 && lots[1].TotalSizeBytes() == 140
  {
    SortScenarioBySize(g10, g80, g100, g60);
    assert LotCount(4, 2) == 2;
    assert [g100, g80, g60, g10] == [g100, g80] + [g60, g10];
    BySizePlacements(EmptyLots(2), g100, g80, g60, g10);
  }

  lemma {:induction false} SortScenarioBySize(g10: DocumentGroup, g80: DocumentGroup, g100: DocumentGroup,
                                               g60: DocumentGroup)
    requires g10.TotalSizeBytes() == 10 && g80.TotalSizeBytes() == 80
    requires g100.TotalSizeBytes() == 100 && g60.TotalSizeBytes() == 60
    ensures SortBySizeDesc([g10, g80, g100, g60]) == [g100, g80, g60, g10]
  {
    SortSnoc([], g10, [], [g10]);
    assert [] + [g10] == [g10];
    assert InsertBySize([g10], g80) == [g80, g10] by {
      InsertStep([g10], g80);
    }
    SortSnoc([g10], g80, [g10], [g80, g10]);
    assert [g10] + [g80] == [g10, g80];
    assert InsertBySize([g80, g10], g100) == [g100, g80, g10] by {
      InsertStep([g80, g10], g100);
    }
    SortSnoc([g10, g80], g100, [g80, g10], [g100, g80, g10]);
    assert [g10, g80] + [g100] == [g10, g80, g100];
    assert InsertBySize([g10], g60) == [g60, g10] by {
      InsertStep([g10], g60);
    }
    assert InsertBySize([g80, g10], g60) == [g80, g60, g10] by {
      InsertStep([g80, g10], g60);
      assert [g80, g10][1..] == [g10];
    }
    assert InsertBySize([g100, g80, g10], g60) == [g100, g80, g60, g10] by {
      InsertStep([g100, g80, g10], g60);
      assert [g100, g80, g10][1..] == [g80, g10];
    }
    SortSnoc([g10, g80, g100], g60, [g100, g80, g10], [g100, g80, g60, g10]);
    assert [g10, g80, g100] + [g60] == [g10, g80, g100, g60];
  }

  /** Sorting one more group inserts it into the sorted rest. */
  lemma {:induction false} SortSnoc(gs: seq<DocumentGroup>, g: DocumentGroup, sortedInit: seq<DocumentGroup>,
                                    result: seq<DocumentGroup>)
    requires SortBySizeDesc(gs) == sortedInit && InsertBySize(sortedInit, g) == result
    ensures SortBySizeDesc(gs + [g]) == result
  {
    assert (gs + [g])[..|gs|] == gs;
  }

  lemma {:induction false} BySizePlacements(s0: seq<OutputLot>, g100: DocumentGroup, g80: DocumentGroup, g60: DocumentGroup,
                         g10: DocumentGroup)
    requires |s0| == 2 && s0[0].groups == [] && s0[1].groups == []
    requires g10.TotalSizeBytes() == 10 && g80.TotalSizeBytes() == 80
    requires g100.TotalSizeBytes() == 100 && g60.TotalSizeBytes() == 60
    ensures var lots := Distribute(s0, [g100, g80] + [g60, g10]);
            lots[0].groups == [g100, g10] && lots[1].groups == [g80, g60]
            && lots[0].TotalSizeBytes() == 110 && lots[1].TotalSizeBytes() == 140
  {
    DistributeAppend(s0, [g100, g80], [g60, g10]);
    FirstPairSplits(s0, g100, g80);
    PairCrosses(Distribute(s0, [g100, g80]), g60, g10);
  }

  /** Two groups on two empty lots, the heavier first: one to each lot. */
  lemma {:induction false} FirstPairSplits(s0: seq<OutputLot>, a: DocumentGroup, b: DocumentGroup)
    requires |s0| == 2 && s0[0].groups == [] && s0[1].groups == []
    requires a.TotalSizeBytes() > b.TotalSizeBytes() >= 0
    ensures var r := Distribute(s0, [a, b]);
            |r| == 2 && r[0].groups == [a] && r[1].groups == [b]
            && r[0].TotalSizeBytes() == a.TotalSizeBytes() && r[1].TotalSizeBytes() == b.TotalSizeBytes()
  {
    assert SumGroupSizes([]) == 0;
    PairOnTwo(s0, a, b);
  }

  /** From totals 100 and 80, groups of 60 and then 10 bytes go to the
      second lot and then the first. */
  lemma {:induction false} PairCrosses(s2: seq<OutputLot>, c: DocumentGroup, d: DocumentGroup)
    requires |s2| == 2 && s2[0].TotalSizeBytes() == 100 && s2[1].TotalSizeBytes() == 80
    requires c.TotalSizeBytes() == 60 && d.TotalSizeBytes() == 10
    ensures var r := Distribute(s2, [c, d]);
            |r| == 2 && r[0].groups == s2[0].groups + [d] && r[1].groups == s2[1].groups + [c]
            && r[0].TotalSizeBytes() == 110 && r[1].TotalSizeBytes() == 140
  {
    PairOnTwo(s2, c, d);
  }

  /** Two groups placed on two lots: the first goes to the lighter lot (the
      first lot on a tie), the second to the lighter lot after that. */
  lemma {:induction false} PairOnTwo(lots: seq<OutputLot>, x: DocumentGroup, y: DocumentGroup)
    requires |lots| == 2
    ensures var i := if lots[0].TotalSizeBytes() <= lots[1].TotalSizeBytes() then 0 else 1;
            var mid := Place(lots, x);
            var j := if mid[0].TotalSizeBytes() <= mid[1].TotalSizeBytes() then 0 else 1;
            var r := Distribute(lots, [x, y]);
            |mid| == 2 && mid[i].groups == lots[i].groups + [x]
            && mid[i].TotalSizeBytes() == lots[i].TotalSizeBytes() + x.TotalSizeBytes()
            && mid[1 - i] == lots[1 - i]
            && |r| == 2 && r[j].groups == mid[j].groups + [y]
            && r[j].TotalSizeBytes() == mid[j].TotalSizeBytes() + y.TotalSizeBytes()
            && r[1 - j] == mid[1 - j]
  {
    PlaceInTwo(lots, x);
    var mid := Place(lots, x);
    PlaceInTwo(mid, y);
    DistributeStep(lots, [x, y]);
    assert [x, y][1..] == [y];
    DistributeStep(mid, [y]);
    assert [y][1..] == [];
  }

  /** The second scenario: seven groups of one size, at most three per lot,
      give three lots holding three, two and two groups, dealt in turn. */
  lemma {:induction false} BalanceScenarioEqualSizes(gs: seq<DocumentGroup>)
    requires |gs| == 7 && forall j :: 0 <= j < 7 ==> gs[j].TotalSizeBytes() == 10
    ensures var lots := Balance(gs, 3);
            |lots| == 3 && lots[0].groups == [gs[0], gs[3], gs[6]]
            && lots[1].groups == [gs[1], gs[4]] && lots[2].groups == [gs[2], gs[5]]
  {
    EqualSizesKeepOrder(gs, 10);
    assert LotCount(7, 3) == 3;
    assert gs == [gs[0], gs[1], gs[2], gs[3], gs[4], gs[5], gs[6]];
    EqualSizePlacements(EmptyLots(3), gs[0], gs[1], gs[2], gs[3], gs[4], gs[5], gs[6]);
  }

  lemma {:induction false} EqualSizePlacements(s0: seq<OutputLot>, a: DocumentGroup, b: DocumentGroup,
                                                c: DocumentGroup, d: DocumentGroup, e: DocumentGroup,
                                                f: DocumentGroup, g: DocumentGroup)
    requires |s0| == 3 && s0[0].groups == [] && s0[1].groups == [] && s0[2].groups == []
    requires a.TotalSizeBytes() == 10 && b.TotalSizeBytes() == 10 && c.TotalSizeBytes() == 10
    requires d.TotalSizeBytes() == 10 && e.TotalSizeBytes() == 10 && f.TotalSizeBytes() == 10
    requires g.TotalSizeBytes() == 10
    ensures var lots := Distribute(s0, [a, b, c, d, e, f, g]);
            lots[0].groups == [a, d, g] && lots[1].groups == [b, e] && lots[2].groups == [c, f]
  {
    assert SumGroupSizes([]) == 0;
    assert [a, b, c, d, e, f, g] == [a, b, c] + ([d, e, f] + [g]);
    DistributeAppend(s0, [a, b, c], [d, e, f] + [g]);
    RoundOfThree(s0, [a, b, c], 0);
    var s3 := Distribute(s0, [a, b, c]);
    DistributeAppend(s3, [d, e, f], [g]);
    RoundOfThree(s3, [d, e, f], 10);
    var s6 := Distribute(s3, [d, e, f]);
    PlaceGroups(s6, g, 0);
    DistributeStep(s6, [g]);
    var s7 := Place(s6, g);
    assert Distribute(s0, [a, b, c, d, e, f, g]) == s7;
    assert s7[0].groups == [a, d, g] && s7[1].groups == [b, e] && s7[2].groups == [c, f];
  }

  /** Placing groups one after another is placing a first batch and then
      the rest. */
  lemma {:induction false} DistributeAppend(lots: seq<OutputLot>, a: seq<DocumentGroup>, b: seq<DocumentGroup>)
    requires |lots| > 0
    ensures Distribute(lots, a + b) == Distribute(Distribute(lots, a), b)
    decreases a
  {
    if a == [] {
      assert a + b == b;
    } else {
      assert (a + b)[0] == a[0] && (a + b)[1..] == a[1..] + b;
      DistributeAppend(Place(lots, a[0]), a[1..], b);
    }
  }

  /** Three groups of 10 bytes placed on three lots of equal total go one to
      each lot, in lot order. */
  lemma {:induction false} RoundOfThree(s0: seq<OutputLot>, r: seq<DocumentGroup>, t: int)
    requires |s0| == 3 && |r| == 3
    requires s0[0].TotalSizeBytes() == t && s0[1].TotalSizeBytes() == t && s0[2].TotalSizeBytes() == t
    requires r[0].TotalSizeBytes() == 10 && r[1].TotalSizeBytes() == 10 && r[2].TotalSizeBytes() == 10
    ensures var s3 := Distribute(s0, r);
            s3[0].groups == s0[0].groups + [r[0]] && s3[1].groups == s0[1].groups + [r[1]]
            && s3[2].groups == s0[2].groups + [r[2]]
            && s3[0].TotalSizeBytes() == t + 10 && s3[1].TotalSizeBytes() == t + 10
            && s3[2].TotalSizeBytes() == t + 10
  {
    PlaceGroups(s0, r[0], 0);
    var s1 := Place(s0, r[0]);
    DistributeStep(s0, r);
    PlaceGroups(s1, r[1], 1);
    var s2 := Place(s1, r[1]);
    DistributeStep(s1, r[1..]);
    PlaceGroups(s2, r[2], 2);
    var s3 := Place(s2, r[2]);
    DistributeStep(s2, r[2..]);
    assert r[1..][1..] == r[2..] && r[2..][1..] == [];
    assert r[1..][0] == r[1] && r[2..][0] == r[2];
    assert Distribute(s0, r) == s3;
  }

  /** The per-lot limit only fixes how many lots there are; the greedy
      placement can then exceed it: one heavy group and three light ones, at
      most two per lot, put all three light groups into the second lot. */
  lemma {:induction false} LimitNotEnforcedPerLot(heavy: DocumentGroup, x: DocumentGroup, y: DocumentGroup, z: DocumentGroup)
    requires heavy.TotalSizeBytes() == 100
    requires x.TotalSizeBytes() == 1 && y.TotalSizeBytes() == 1 && z.TotalSizeBytes() == 1
    ensures var lots := Balance([heavy, x, y, z], 2);
            |lots| == 2 && lots[0].groups == [heavy] && lots[1].groups == [x, y, z]
  {
    SortScenarioOverload(heavy, x, y, z);
    assert LotCount(4, 2) == 2;
    assert [heavy, x, y, z] == [heavy, x] + [y, z];
    OverloadPlacements(EmptyLots(2), heavy, x, y, z);
  }

  lemma {:induction false} SortScenarioOverload(heavy: DocumentGroup, x: DocumentGroup, y: DocumentGroup,
                                                 z: DocumentGroup)
    requires heavy.TotalSizeBytes() == 100
    requires x.TotalSizeBytes() == 1 && y.TotalSizeBytes() == 1 && z.TotalSizeBytes() == 1
    ensures SortBySizeDesc([heavy, x, y, z]) == [heavy, x, y, z]
  {
    SortSnoc([], heavy, [], [heavy]);
    assert [] + [heavy] == [heavy];
    assert InsertBySize([heavy], x) == [heavy, x] by {
      InsertLightest([heavy], x);
    }
    SortSnoc([heavy], x, [heavy], [heavy, x]);
    assert [heavy] + [x] == [heavy, x];
    assert InsertBySize([heavy, x], y) == [heavy, x, y] by {
      InsertLightest([heavy, x], y);
    }
    SortSnoc([heavy, x], y, [heavy, x], [heavy, x, y]);
    assert [heavy, x] + [y] == [heavy, x, y];
    assert InsertBySize([heavy, x, y], z) == [heavy, x, y, z] by {
      InsertLightest([heavy, x, y], z);
    }
    SortSnoc([heavy, x, y], z, [heavy, x, y], [heavy, x, y, z]);
    assert [heavy, x, y] + [z] == [heavy, x, y, z];
  }

  lemma {:induction false} OverloadPlacements(s0: seq<OutputLot>, heavy: DocumentGroup, x: DocumentGroup, y: DocumentGroup,
                           z: DocumentGroup)
    requires |s0| == 2 && s0[0].groups == [] && s0[1].groups == []
    requires heavy.TotalSizeBytes() == 100
    requires x.TotalSizeBytes() == 1 && y.TotalSizeBytes() == 1 && z.TotalSizeBytes() == 1
    ensures var lots := Distribute(s0, [heavy, x] + [y, z]);
            lots[0].groups == [heavy] && lots[1].groups == [x, y, z]
  {
    DistributeAppend(s0, [heavy, x], [y, z]);
    FirstPairSplits(s0, heavy, x);
    PairStaysLight(Distribute(s0, [heavy, x]), y, z);
  }

  /** From totals 100 and 1, two groups of one byte both go to the second
      lot. */
  lemma {:induction false} PairStaysLight(s2: seq<OutputLot>, y: DocumentGroup, z: DocumentGroup)
    requires |s2| == 2 && s2[0].TotalSizeBytes() == 100 && s2[1].TotalSizeBytes() == 1
    requires y.TotalSizeBytes() == 1 && z.TotalSizeBytes() == 1
    ensures var r := Distribute(s2, [y, z]);
            |r| == 2 && r[0] == s2[0] && r[1].groups == s2[1].groups + [y, z]
  {
    PairOnTwo(s2, y, z);
    assert s2[1].groups + [y] + [z] == s2[1].groups + [y, z];
  }

  // ---------------------------------------------------------------------
  // The lot type as it is declared
  // ---------------------------------------------------------------------

  /** `OutputLot` as the domain declares it: a name and a `files` list, with
      no `groups` attribute. */
  datatype DeclaredOutputLot = DeclaredOutputLot(lotName: string, files: seq<DocumentFile> := []) {
    function TotalSizeBytes(): int { SumSizes(files) }
  }

  const NoGroupsAttribute := Exception(AttributeError, "'OutputLot' object has no attribute 'groups'")

  /** `lightest_lot.groups.append(group)` on a declared lot: the attribute
      lookup raises before anything is appended. */
  function AppendGroupAsDeclared(lots: seq<DeclaredOutputLot>, i: nat, g: DocumentGroup)
    : Result<seq<DeclaredOutputLot>>
    requires i < |lots|
  {
    Err(NoGroupsAttribute)
  }

  function DeclaredLightest(lots: seq<DeclaredOutputLot>): (r: nat)
    requires |lots| > 0
    ensures r < |lots|
  {
    LightestIndex(seq(|lots|, i requires 0 <= i < |lots| => lots[i].TotalSizeBytes()))
  }

  /** The loop over the groups: its first append raises and ends it. */
  function DistributeAsDeclared(lots: seq<DeclaredOutputLot>, gs: seq<DocumentGroup>)
    : Result<seq<DeclaredOutputLot>>
    requires |lots| > 0
  {
    if |gs| == 0 then Ok(lots)
    else AppendGroupAsDeclared(lots, DeclaredLightest(lots), gs[0])
  }

  /** `balance_lots` run against the declared lot type. */
  function BalanceAsDeclared(groups: seq<DocumentGroup>, maxDocsPerLot: int): Result<seq<DeclaredOutputLot>> {
    if |groups| == 0 then Ok([])
    else
      var k := LotCount(|groups|, maxDocsPerLot);
      DistributeAsDeclared(seq(k, i requires 0 <= i < k => DeclaredOutputLot("Lote_" + NatToString(i + 1))),
                           SortBySizeDesc(groups))
  }

  /** Against the declared lot type, balancing raises `AttributeError` for
      every non-empty input and only the empty input succeeds. */
  lemma BalanceAsDeclaredFails(groups: seq<DocumentGroup>, maxDocsPerLot: int)
    ensures groups == [] ==> BalanceAsDeclared(groups, maxDocsPerLot) == Ok([])
    ensures groups != [] ==> BalanceAsDeclared(groups, maxDocsPerLot) == Err(NoGroupsAttribute)
  {
  }
}
