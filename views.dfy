/**
 * The projections the view renders from `stepRecords`: the searched and
 * filtered leaderboard (frontend/web/src/App.tsx:260-263) and the statistics
 * panel (frontend/web/src/App.tsx:265-273).
 */
module Views {
  import opened Records
  import opened Seqs
  import opened Text
  import opened Ranking

  /** The row predicate of `filteredRecords`. */
  function MatchesSearch(term: string, filterVerified: bool): StepRecord -> bool
  {
    (r: StepRecord) => Contains(Lower(r.name), Lower(term)) && (!filterVerified || r.isVerified)
  }

  /**
   * `filteredRecords`: the records whose name contains the search term, ignoring
   * case, restricted to verified records when the flag is set, in list order.
   */
  function FilteredRecords(records: seq<StepRecord>, term: string, filterVerified: bool): (v: seq<StepRecord>)
    ensures forall r :: r in v <==>
      r in records && Contains(Lower(r.name), Lower(term)) && (!filterVerified || r.isVerified)
    ensures forall r :: multiset(v)[r] == if MatchesSearch(term, filterVerified)(r) then multiset(records)[r] else 0
    ensures IsSubsequence(v, records)
  {
    FilterIsSubsequence(MatchesSearch(term, filterVerified), records);
    FilterCount(MatchesSearch(term, filterVerified), records);
    Filter(MatchesSearch(term, filterVerified), records)
  }

  /** An empty search with the flag off shows every record, in order. */
  lemma EmptySearchShowsAll(records: seq<StepRecord>)
    ensures FilteredRecords(records, "", false) == records
  {
    forall i | 0 <= i < |records| ensures MatchesSearch("", false)(records[i]) {
      assert OccursAt(Lower(records[i].name), Lower(""), 0);
    }
    FilterKeepsAll(MatchesSearch("", false), records);
  }

  /** The search ignores the case of the search term. */
  lemma SearchIgnoresTermCase(records: seq<StepRecord>, term: string, filterVerified: bool)
    ensures FilteredRecords(records, Lower(term), filterVerified) == FilteredRecords(records, term, filterVerified)
  {
    LowerIdempotent(term);
    FilterCongruent(MatchesSearch(Lower(term), filterVerified), MatchesSearch(term, filterVerified), records);
  }

  /**
   * On the leaderboard, which holds verified records only, the verified-only
   * flag changes nothing.
   */
  lemma VerifiedFlagIdleOnLeaderboard(board: seq<StepRecord>, term: string)
    requires IsLeaderboard(board)
    ensures FilteredRecords(board, term, true) == FilteredRecords(board, term, false)
  {
    FilterCongruent(MatchesSearch(term, true), MatchesSearch(term, false), board);
  }

  datatype Stats = Stats(
    totalRecords: nat,
    verifiedRecords: nat,
    totalSteps: nat,
    avgSteps: nat,
    topPerformer: Option<StepRecord>)

  /**
   * `Math.round(total / count)` for non-negative integers: the nearest integer
   * to total / count, halves rounded up, computed exactly.
   */
  function RoundedMean(total: nat, count: nat): (avg: nat)
    requires count > 0
    ensures -(count as int) < 2 * (avg * count - total) <= count
  {
    var n := 2 * total + count;
    var d := 2 * count;
    assert n == d * (n / d) + n % d;
    assert 2 * ((n / d) * count) == d * (n / d);
    n / d
  }

  /** Exactly one integer lies within half a unit of total / count on the rounding side. */
  lemma RoundedMeanUnique(total: nat, count: nat, a: int)
    requires count > 0
    requires -(count as int) < 2 * (a * count - total) <= count
    ensures a == RoundedMean(total, count)
  {
    var m := RoundedMean(total, count);
    var d := a - m;
    assert d * count == a * count - m * count;
    MultipleBound(d, count);
  }

  /** A non-zero multiple of `c` is at least `c` away from zero. */
  lemma MultipleBound(d: int, c: nat)
    ensures d >= 1 ==> d * c >= c
    ensures d <= -1 ==> d * c <= -(c as int)
  {
    if d >= 1 {
      MulMonotone(1, d, c);
    } else if d <= -1 {
      MulMonotone(d, -1, c);
    }
  }

  lemma MulMonotone(x: int, y: int, c: nat)
    requires x <= y
    ensures x * c <= y * c
  {
  }

  /** The statistics panel computed from `records` (frontend/web/src/App.tsx:265-273). */
  function ComputeStats(records: seq<StepRecord>): (st: Stats)
    ensures st.totalRecords == |records| && st.verifiedRecords == |Verified(records)|
    ensures st.totalSteps == SumValues(Verified(records))
    ensures st.verifiedRecords == 0 ==> st.avgSteps == 0
    ensures st.verifiedRecords > 0 ==>
      -(st.verifiedRecords as int) < 2 * (st.avgSteps * st.verifiedRecords - st.totalSteps) <= st.verifiedRecords
    ensures st.topPerformer.None? <==> st.verifiedRecords == 0
    ensures st.topPerformer.Some? ==> st.topPerformer.value in Verified(records)
  {
    var verified := Verified(records);
    var count := |verified|;
    var total := SumValues(verified);
    assert count > 0 ==> SortDesc(verified)[0] in multiset(verified);
    Stats(
      |records|,
      count,
      total,
      if count > 0 then RoundedMean(total, count) else 0,
      if count > 0 then Some(SortDesc(verified)[0]) else None)
  }

  /**
   * The top performer is a verified record of largest value, and the first such
   * record in list order.
   */
  lemma TopPerformerIsFirstMax(records: seq<StepRecord>)
    ensures ComputeStats(records).topPerformer.None? <==> forall r :: r in records ==> !r.isVerified
    ensures ComputeStats(records).topPerformer.Some? ==>
      exists k :: IsFirstMax(Verified(records), k) && ComputeStats(records).topPerformer.value == Verified(records)[k]
  {
    var verified := Verified(records);
    if verified != [] {
      var k := SortDescHead(verified);
      assert IsFirstMax(verified, k) && ComputeStats(records).topPerformer.value == verified[k];
      assert verified[0] in records && verified[0].isVerified;
    }
  }

  /**
   * On the ranked leaderboard the panel counts every row as verified, totals
   * the verified records that were loaded, and names the first row as top performer.
   */
  lemma LeaderboardStats(records: seq<StepRecord>)
    requires forall r :: r in records ==> r.rank == None
    ensures ComputeStats(Leaderboard(records)).totalRecords == |Verified(records)|
    ensures ComputeStats(Leaderboard(records)).verifiedRecords == |Verified(records)|
    ensures ComputeStats(Leaderboard(records)).totalSteps == SumValues(Verified(records))
    ensures ComputeStats(Leaderboard(records)).topPerformer ==
      if Leaderboard(records) == [] then None else Some(Leaderboard(records)[0])
  {
    var board := Leaderboard(records);
    LeaderboardSpec(records);
    FilterKeepsAll(IsVerified, board);
    assert Verified(board) == board;
    var sorted := SortDesc(Verified(records));
    SumValuesPointwise(board, sorted);
    SortDescSum(Verified(records));
    SortDescOfSorted(board);
  }

  function Submission(value: nat, verified: bool): RawRecord
  {
    RawRecord("runner", "0xAbC0000000", 0, Some(value), Some(0), verified, if verified then Some(value) else None)
  }

  /** Records of 500 (verified), 0 (unverified) and 1200 (verified), fetched in that order. */
  const ScenarioFetches := [
    Fetch("a", Some(Submission(500, true))),
    Fetch("b", Some(Submission(0, false))),
    Fetch("c", Some(Submission(1200, true)))]

  lemma ScenarioLoaded()
    ensures Loaded(ScenarioFetches) == [
      FromRaw("a", Submission(500, true)),
      FromRaw("b", Submission(0, false)),
      FromRaw("c", Submission(1200, true))]
  {
    var f := ScenarioFetches;
    assert f[..2][..1] == f[..1];
    assert f[..3][..2] == f[..2];
    assert f[..1][..0] == [];
    assert Loaded(f[..1]) == [FromRaw("a", Submission(500, true))];
    assert Loaded(f[..2]) == [FromRaw("a", Submission(500, true)), FromRaw("b", Submission(0, false))];
    assert f[..3] == f;
  }

  lemma ScenarioVerified(a: StepRecord, b: StepRecord, c: StepRecord)
    requires a.isVerified && !b.isVerified && c.isVerified
    ensures Verified([a, b, c]) == [a, c]
  {
    FilterCons(IsVerified, c, []);
    FilterCons(IsVerified, b, [c]);
    FilterCons(IsVerified, a, [b, c]);
  }

  lemma SortPair(a: StepRecord, c: StepRecord)
    requires a.decryptedValue < c.decryptedValue
    ensures SortDesc([a, c]) == [c, a]
  {
    assert [a, c][1..] == [c];
    assert SortDesc([c]) == Insert(c, []) == [c];
    assert Insert(a, [c]) == [c] + Insert(a, []);
  }

  lemma ScenarioRanked()
    ensures SortDesc(Verified(Loaded(ScenarioFetches))) ==
      [FromRaw("c", Submission(1200, true)), FromRaw("a", Submission(500, true))]
  {
    var a := FromRaw("a", Submission(500, true));
    var b := FromRaw("b", Submission(0, false));
    var c := FromRaw("c", Submission(1200, true));
    ScenarioLoaded();
    ScenarioVerified(a, b, c);
    SortPair(a, c);
  }

  lemma RankPair(first: StepRecord, second: StepRecord)
    ensures WithRanks([first, second]) == [first.(rank := Some(1)), second.(rank := Some(2))]
  {
  }

  lemma ScenarioBoard()
    ensures Leaderboard(Loaded(ScenarioFetches)) == [
      FromRaw("c", Submission(1200, true)).(rank := Some(1)),
      FromRaw("a", Submission(500, true)).(rank := Some(2))]
  {
    ScenarioRanked();
    RankPair(FromRaw("c", Submission(1200, true)), FromRaw("a", Submission(500, true)));
  }

  /** The panel over a ranked pair of 1200 and 500 steps. */
  lemma PairStats(first: StepRecord, second: StepRecord)
    requires first.isVerified && first.decryptedValue == 1200
    requires second.isVerified && second.decryptedValue == 500
    ensures ComputeStats([first, second]) == Stats(2, 2, 1700, 850, Some(first))
  {
    var board := [first, second];
    FilterKeepsAll(IsVerified, board);
    assert board[1..] == [second] && [second][1..] == [];
    assert SumValues([second]) == 500;
    assert SumValues(board) == 1700;
    assert NonIncreasing(board);
    SortDescOfSorted(board);
    RoundedMeanUnique(1700, 2, 850);
  }

  /**
   * Three records of 500 (verified), an unverified one and 1200 (verified)
   * give the leaderboard [1200 ranked 1, 500 ranked 2]; the panel, computed from
   * that leaderboard, counts 2 records, 2 verified, 1700 steps, 850 on average.
   */
  lemma ThreeRecordScenario()
    ensures var board := Leaderboard(Loaded(ScenarioFetches));
      && |board| == 2
      && board[0].id == "c" && board[0].decryptedValue == 1200 && board[0].rank == Some(1)
      && board[1].id == "a" && board[1].decryptedValue == 500 && board[1].rank == Some(2)
      && ComputeStats(board) == Stats(2, 2, 1700, 850, Some(board[0]))
  {
    var c := FromRaw("c", Submission(1200, true)).(rank := Some(1));
    var a := FromRaw("a", Submission(500, true)).(rank := Some(2));
    ScenarioBoard();
    PairStats(c, a);
  }
}
