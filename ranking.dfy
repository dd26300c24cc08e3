/**
 * The ranking chain of `loadStepData` (frontend/web/src/App.tsx:118-121) and
 * the personal history (frontend/web/src/App.tsx:125-128). The sort is
 * `Array.prototype.sort` with the comparator `b.decryptedValue - a.decryptedValue`,
 * which is stable: it is modelled as a stable insertion sort.
 */
module Ranking {
  import opened Records
  import opened Seqs
  import opened Text

  function IsVerified(r: StepRecord): bool { r.isVerified }

  /** The records of `s` that are verified, in their order. */
  function Verified(s: seq<StepRecord>): seq<StepRecord>
  {
    Filter(IsVerified, s)
  }

  /** The values never increase from left to right. */
  predicate NonIncreasing(s: seq<StepRecord>)
  {
    forall i, j :: 0 <= i < j < |s| ==> s[j].decryptedValue <= s[i].decryptedValue
  }

  /** Puts `x` just before the first element whose value does not exceed its own. */
  function Insert(x: StepRecord, s: seq<StepRecord>): (r: seq<StepRecord>)
    ensures multiset(r) == multiset(s) + multiset{x}
  {
    if s == [] || s[0].decryptedValue <= x.decryptedValue then
      [x] + s
    else
      assert s == [s[0]] + s[1..];
      [s[0]] + Insert(x, s[1..])
  }

  /** Inserting a record no larger than `bound` into records no larger than `bound` keeps them so. */
  lemma {:induction false} InsertBounded(x: StepRecord, s: seq<StepRecord>, bound: nat)
    requires x.decryptedValue <= bound
    requires forall i :: 0 <= i < |s| ==> s[i].decryptedValue <= bound
    ensures forall i :: 0 <= i < |Insert(x, s)| ==> Insert(x, s)[i].decryptedValue <= bound
  {
    if !(s == [] || s[0].decryptedValue <= x.decryptedValue) {
      var rest := Insert(x, s[1..]);
      InsertBounded(x, s[1..], bound);
      assert Insert(x, s) == [s[0]] + rest;
    }
  }

  lemma {:induction false} InsertSorted(x: StepRecord, s: seq<StepRecord>)
    requires NonIncreasing(s)
    ensures NonIncreasing(Insert(x, s))
  {
    if s == [] || s[0].decryptedValue <= x.decryptedValue {
      var r := [x] + s;
      forall i, j | 0 <= i < j < |r| ensures r[j].decryptedValue <= r[i].decryptedValue {
        assert r[j] == s[j - 1];
        if i > 0 {
          assert r[i] == s[i - 1];
        }
      }
    } else {
      var rest := Insert(x, s[1..]);
      InsertSorted(x, s[1..]);
      InsertBounded(x, s[1..], s[0].decryptedValue);
      var r := [s[0]] + rest;
      forall i, j | 0 <= i < j < |r| ensures r[j].decryptedValue <= r[i].decryptedValue {
        assert r[j] == rest[j - 1];
        if i > 0 {
          assert r[i] == rest[i - 1];
        }
      }
    }
  }

  /** The records of `s` ordered by `decryptedValue`, largest first; equal values keep their order. */
  function SortDesc(s: seq<StepRecord>): (r: seq<StepRecord>)
    ensures multiset(r) == multiset(s)
    ensures NonIncreasing(r)
  {
    if s == [] then []
    else
      assert s == [s[0]] + s[1..];
      InsertSorted(s[0], SortDesc(s[1..]));
      Insert(s[0], SortDesc(s[1..]))
  }

  /** The records of `s` whose value is `v`. */
  function HasValue(v: nat): StepRecord -> bool
  {
    (r: StepRecord) => r.decryptedValue == v
  }

  lemma {:induction false} InsertStable(x: StepRecord, s: seq<StepRecord>, v: nat)
    ensures Filter(HasValue(v), Insert(x, s)) == Filter(HasValue(v), [x] + s)
  {
    if !(s == [] || s[0].decryptedValue <= x.decryptedValue) {
      var p := HasValue(v);
      var head, tail := s[0], s[1..];
      var rest := Filter(p, tail);
      assert s == [head] + tail;
      assert Insert(x, s) == [head] + Insert(x, tail);
      InsertStable(x, tail, v);
      FilterCons(p, head, Insert(x, tail));
      FilterCons(p, x, tail);
      FilterCons(p, x, s);
      FilterCons(p, head, tail);
      if p(x) {
        assert !p(head);
        assert Filter(p, Insert(x, s)) == [x] + rest;
      } else if p(head) {
        assert Filter(p, Insert(x, s)) == [head] + rest;
      } else {
        assert Filter(p, Insert(x, s)) == rest;
      }
    }
  }

  /**
   * The sort is stable: for every value, the records carrying it appear in the
   * sorted sequence in exactly the order they had before.
   */
  lemma {:induction false} SortDescStable(s: seq<StepRecord>, v: nat)
    ensures Filter(HasValue(v), SortDesc(s)) == Filter(HasValue(v), s)
  {
    if s != [] {
      assert s == [s[0]] + s[1..];
      InsertStable(s[0], SortDesc(s[1..]), v);
      FilterCons(HasValue(v), s[0], SortDesc(s[1..]));
      SortDescStable(s[1..], v);
      FilterCons(HasValue(v), s[0], s[1..]);
    }
  }

  /** `s[k]` has the largest value of `s`, and no earlier record has that value. */
  predicate IsFirstMax(s: seq<StepRecord>, k: int)
  {
    && 0 <= k < |s|
    && (forall j :: 0 <= j < |s| ==> s[j].decryptedValue <= s[k].decryptedValue)
    && (forall j :: 0 <= j < k ==> s[j].decryptedValue < s[k].decryptedValue)
  }

  lemma InsertHead(x: StepRecord, s: seq<StepRecord>)
    ensures Insert(x, s)[0] == if s == [] || s[0].decryptedValue <= x.decryptedValue then x else s[0]
  {
  }

  /** The first maximum of `s` from the first maximum of its tail. */
  lemma FirstMaxCons(s: seq<StepRecord>, k: nat)
    requires |s| >= 2 && IsFirstMax(s[1..], k)
    ensures s[k + 1].decryptedValue <= s[0].decryptedValue ==> IsFirstMax(s, 0)
    ensures s[0].decryptedValue < s[k + 1].decryptedValue ==> IsFirstMax(s, k + 1)
  {
    forall j | 1 <= j < |s| ensures s[j] == s[1..][j - 1] {
    }
  }

  /** The head of the sorted sequence is the first record of largest value. */
  lemma {:induction false} SortDescHead(s: seq<StepRecord>) returns (k: nat)
    requires s != []
    ensures IsFirstMax(s, k) && SortDesc(s)[0] == s[k]
  {
    if |s| == 1 {
      k := 0;
    } else {
      var tail := s[1..];
      var t := SortDesc(tail);
      var k' := SortDescHead(tail);
      assert SortDesc(s) == Insert(s[0], t);
      InsertHead(s[0], t);
      FirstMaxCons(s, k');
      k := if s[k' + 1].decryptedValue <= s[0].decryptedValue then 0 else k' + 1;
    }
  }

  /** Sorting what is already sorted changes nothing. */
  lemma {:induction false} SortDescOfSorted(s: seq<StepRecord>)
    requires NonIncreasing(s)
    ensures SortDesc(s) == s
  {
    if s != [] {
      SortDescOfSorted(s[1..]);
      assert s == [s[0]] + s[1..];
    }
  }

  /** Sorting does not change the sum of the values. */
  lemma {:induction false} SortDescSum(s: seq<StepRecord>)
    ensures SumValues(SortDesc(s)) == SumValues(s)
  {
    if s != [] {
      SortDescSum(s[1..]);
      InsertSum(s[0], SortDesc(s[1..]));
    }
  }

  lemma {:induction false} InsertSum(x: StepRecord, s: seq<StepRecord>)
    ensures SumValues(Insert(x, s)) == x.decryptedValue + SumValues(s)
  {
    if !(s == [] || s[0].decryptedValue <= x.decryptedValue) {
      InsertSum(x, s[1..]);
      assert ([s[0]] + Insert(x, s[1..]))[1..] == Insert(x, s[1..]);
    } else {
      assert ([x] + s)[1..] == s;
    }
  }

  /** `rank = index + 1` over `s`. */
  function WithRanks(s: seq<StepRecord>): seq<StepRecord>
  {
    seq(|s|, i requires 0 <= i < |s| => s[i].(rank := Some(i + 1)))
  }

  /** The verified records, sorted by value, largest first, and ranked 1..k. */
  function Leaderboard(records: seq<StepRecord>): seq<StepRecord>
  {
    WithRanks(SortDesc(Verified(records)))
  }

  /** A leaderboard: verified records only, values non-increasing, the record at index i has rank i + 1. */
  predicate IsLeaderboard(s: seq<StepRecord>)
  {
    && NonIncreasing(s)
    && forall i :: 0 <= i < |s| ==> s[i].isVerified && s[i].rank == Some(i + 1)
  }

  /** `s` with every rank cleared, as the records are before ranking. */
  function Unranked(s: seq<StepRecord>): seq<StepRecord>
  {
    seq(|s|, i requires 0 <= i < |s| => s[i].(rank := None))
  }

  /** Ranking a sorted sequence of verified records makes a leaderboard. */
  lemma RankedIsLeaderboard(s: seq<StepRecord>)
    requires NonIncreasing(s)
    requires forall i :: 0 <= i < |s| ==> s[i].isVerified
    ensures IsLeaderboard(WithRanks(s))
  {
    var w := WithRanks(s);
    forall i, j | 0 <= i < j < |w| ensures w[j].decryptedValue <= w[i].decryptedValue {
      assert w[i].decryptedValue == s[i].decryptedValue && w[j].decryptedValue == s[j].decryptedValue;
    }
  }

  /** Clearing the ranks just given to unranked records restores them. */
  lemma UnrankRanked(s: seq<StepRecord>)
    requires forall i :: 0 <= i < |s| ==> s[i].rank == None
    ensures Unranked(WithRanks(s)) == s
  {
    var u := Unranked(WithRanks(s));
    assert |u| == |s|;
    forall i | 0 <= i < |s| ensures u[i] == s[i] {
    }
  }

  /**
   * Ranking yields a leaderboard that holds exactly the verified records: with
   * the ranks cleared, it is a permutation of them. Ranks run over 1..k with k
   * the number of verified records.
   */
  lemma LeaderboardSpec(records: seq<StepRecord>)
    requires forall r :: r in records ==> r.rank == None
    ensures IsLeaderboard(Leaderboard(records))
    ensures |Leaderboard(records)| == |Verified(records)|
    ensures multiset(Unranked(Leaderboard(records))) == multiset(Verified(records))
    ensures forall i :: 0 <= i < |Leaderboard(records)| ==> Leaderboard(records)[i].rank == Some(i + 1)
  {
    var verified := Verified(records);
    var sorted := SortDesc(verified);
    forall i | 0 <= i < |sorted| ensures sorted[i].isVerified && sorted[i].rank == None {
      assert sorted[i] in multiset(verified);
      assert sorted[i] in verified;
    }
    assert |sorted| == |multiset(sorted)| == |multiset(verified)| == |verified|;
    RankedIsLeaderboard(sorted);
    UnrankRanked(sorted);
  }

  /**
   * Records of equal value appear on the leaderboard in the order in which
   * they were loaded.
   */
  lemma LeaderboardStable(records: seq<StepRecord>, value: nat)
    requires forall r :: r in records ==> r.rank == None
    ensures Filter(HasValue(value), Unranked(Leaderboard(records))) == Filter(HasValue(value), Verified(records))
  {
    var sorted := SortDesc(Verified(records));
    forall i | 0 <= i < |sorted| ensures sorted[i].rank == None {
      assert sorted[i] in multiset(Verified(records));
    }
    UnrankRanked(sorted);
    SortDescStable(Verified(records), value);
  }

  /** The records created by `address`, compared case-insensitively. */
  function CreatedBy(address: string): StepRecord -> bool
  {
    (r: StepRecord) => Lower(r.creator) == Lower(address)
  }

  /** The caller's history: every loaded record, verified or not, whose creator is `address`. */
  function History(records: seq<StepRecord>, address: string): (h: seq<StepRecord>)
    ensures forall r :: r in h <==> r in records && Lower(r.creator) == Lower(address)
    ensures forall r :: multiset(h)[r] == if Lower(r.creator) == Lower(address) then multiset(records)[r] else 0
    ensures IsSubsequence(h, records)
  {
    FilterIsSubsequence(CreatedBy(address), records);
    FilterCount(CreatedBy(address), records);
    Filter(CreatedBy(address), records)
  }
}
