/**
 * Step records as the ledger returns them and as the client keeps them, the
 * outcomes of asynchronous calls, and the loop that collects one record per
 * identifier whose fetch succeeded.
 */
module Records {

  datatype Option<+T> = None | Some(value: T)

  /** What a thrown JavaScript error exposes to the client: an optional `message`. */
  datatype JsError = JsError(message: Option<string>)

  /** The settled outcome of one awaited call: its value, or the error it threw. */
  datatype Outcome<+T> = Ok(value: T) | Throws(error: JsError)

  /**
   * One record as `getBusinessData` returns it. A numeric field is `None` when
   * it is missing or is not a number.
   */
  datatype RawRecord = RawRecord(
    name: string,
    creator: string,
    timestamp: nat,
    publicValue1: Option<nat>,
    publicValue2: Option<nat>,
    isVerified: bool,
    decryptedValue: Option<nat>)

  /** The record the client keeps; `rank` is set only on the ranked leaderboard. */
  datatype StepRecord = StepRecord(
    id: string,
    name: string,
    steps: nat,
    timestamp: nat,
    creator: string,
    publicValue1: nat,
    publicValue2: nat,
    isVerified: bool,
    decryptedValue: nat,
    rank: Option<nat>)

  /** One identifier and the outcome of fetching its record (`None`: the fetch threw). */
  datatype Fetch = Fetch(id: string, data: Option<RawRecord>)

  /** `Number(x) || 0`: a missing or non-numeric field reads as 0. */
  function NumberOrZero(x: Option<nat>): nat
  {
    match x
    case Some(n) => n
    case None => 0
  }

  /** The record pushed for identifier `id` (frontend/web/src/App.tsx:102-112). */
  function FromRaw(id: string, raw: RawRecord): (r: StepRecord)
    ensures r.id == id && r.name == raw.name && r.creator == raw.creator
    ensures r.isVerified == raw.isVerified && r.rank == None
    ensures r.timestamp == raw.timestamp && r.steps == r.publicValue1
    ensures raw.publicValue1 == None ==> r.publicValue1 == 0
    ensures raw.publicValue1.Some? ==> r.publicValue1 == raw.publicValue1.value
    ensures raw.publicValue2 == None ==> r.publicValue2 == 0
    ensures raw.publicValue2.Some? ==> r.publicValue2 == raw.publicValue2.value
    ensures raw.decryptedValue == None ==> r.decryptedValue == 0
    ensures raw.decryptedValue.Some? ==> r.decryptedValue == raw.decryptedValue.value
  {
    StepRecord(
      id, raw.name, NumberOrZero(raw.publicValue1), raw.timestamp, raw.creator,
      NumberOrZero(raw.publicValue1), NumberOrZero(raw.publicValue2),
      raw.isVerified, NumberOrZero(raw.decryptedValue), None)
  }

  function LoadOne(f: Fetch): seq<StepRecord>
  {
    match f.data
    case None => []
    case Some(raw) => [FromRaw(f.id, raw)]
  }

  /** The records collected from `fetches`, in fetch order, skipping failed fetches. */
  function Loaded(fetches: seq<Fetch>): seq<StepRecord>
  {
    if fetches == [] then []
    else Loaded(fetches[..|fetches| - 1]) + LoadOne(fetches[|fetches| - 1])
  }

  /** The number of fetches that succeeded. */
  function Successes(fetches: seq<Fetch>): nat
  {
    if fetches == [] then 0
    else Successes(fetches[..|fetches| - 1]) + (if fetches[|fetches| - 1].data.Some? then 1 else 0)
  }

  /**
   * The loop of `loadStepData`: walk the identifiers, push one record per
   * successful fetch and skip the identifiers whose fetch threw.
   */
  method CollectRecords(fetches: seq<Fetch>) returns (records: seq<StepRecord>)
    ensures records == Loaded(fetches)
    ensures |records| == Successes(fetches)
  {
    records := [];
    for i := 0 to |fetches|
      invariant records == Loaded(fetches[..i])
      invariant |records| == Successes(fetches[..i])
    {
      assert fetches[..i + 1][..i] == fetches[..i];
      match fetches[i].data {
        case None =>
        case Some(raw) =>
          records := records + [FromRaw(fetches[i].id, raw)];
      }
    }
    assert fetches[..|fetches|] == fetches;
  }

  /** Some identifier of `fetches` was fetched successfully and yields `r`. */
  predicate Fetched(fetches: seq<Fetch>, r: StepRecord)
  {
    exists i :: 0 <= i < |fetches| && fetches[i].data.Some? && r == FromRaw(fetches[i].id, fetches[i].data.value)
  }

  /** Loading keeps exactly the successful fetches, in order, and never ranks. */
  lemma {:induction false} LoadedMembers(fetches: seq<Fetch>)
    ensures |Loaded(fetches)| == Successes(fetches)
    ensures forall r :: r in Loaded(fetches) ==> r.rank == None
    ensures forall r :: r in Loaded(fetches) <==> Fetched(fetches, r)
  {
    if fetches != [] {
      var n := |fetches| - 1;
      var init, last := fetches[..n], LoadOne(fetches[n]);
      LoadedMembers(init);
      assert Loaded(fetches) == Loaded(init) + last;
      forall r ensures r in Loaded(fetches) <==> Fetched(fetches, r) {
        if r in Loaded(init) {
          var i :| 0 <= i < |init| && init[i].data.Some? && r == FromRaw(init[i].id, init[i].data.value);
          assert fetches[i] == init[i];
        } else if r in last {
          assert fetches[n].data.Some? && r == FromRaw(fetches[n].id, fetches[n].data.value);
        }
        if Fetched(fetches, r) {
          var i :| 0 <= i < |fetches| && fetches[i].data.Some? && r == FromRaw(fetches[i].id, fetches[i].data.value);
          if i < n {
            assert init[i] == fetches[i];
            assert Fetched(init, r);
          } else {
            assert r in last;
          }
        }
      }
    }
  }

  /** Loading a concatenation of fetch runs is loading each run in turn. */
  lemma {:induction false} LoadedConcat(a: seq<Fetch>, b: seq<Fetch>)
    ensures Loaded(a + b) == Loaded(a) + Loaded(b)
    decreases |b|
  {
    if b == [] {
      assert a + b == a;
    } else {
      var n := |b| - 1;
      assert (a + b)[..|a + b| - 1] == a + b[..n];
      assert (a + b)[|a + b| - 1] == b[n];
      LoadedConcat(a, b[..n]);
    }
  }

  /** The sum of `decryptedValue` over `s`. */
  function SumValues(s: seq<StepRecord>): nat
  {
    if s == [] then 0 else s[0].decryptedValue + SumValues(s[1..])
  }

  /** Two sequences that agree position by position on `decryptedValue` have the same sum. */
  lemma {:induction false} SumValuesPointwise(a: seq<StepRecord>, b: seq<StepRecord>)
    requires |a| == |b|
    requires forall i :: 0 <= i < |a| ==> a[i].decryptedValue == b[i].decryptedValue
    ensures SumValues(a) == SumValues(b)
  {
    if a != [] {
      SumValuesPointwise(a[1..], b[1..]);
    }
  }
}
