/** The patient dashboard's risk summary over stored health records. */
module Risk {
  import opened Models

  /** Probabilities at or above this are shown as high risk. */
  const Threshold: real := 0.5

  /** The elements of `s` satisfying `p`, in their original order (a `filter_by` query). */
  function Filter<T>(s: seq<T>, p: T -> bool): (r: seq<T>)
    ensures |r| <= |s|
    ensures forall x | x in r :: x in s && p(x)
    ensures forall x | x in s && p(x) :: x in r
  {
    if s == [] then []
    else (if p(s[0]) then [s[0]] else []) + Filter(s[1..], p)
  }

  /** Each kept element appears in the result as often as in the input. */
  lemma {:induction false} FilterMultiplicity<T>(s: seq<T>, p: T -> bool)
    ensures multiset(Filter(s, p)) <= multiset(s)
    ensures forall x | x in s :: multiset(Filter(s, p))[x] == if p(x) then multiset(s)[x] else 0
  {
    if s != [] {
      assert s == [s[0]] + s[1..];
      FilterMultiplicity(s[1..], p);
    }
  }

  lemma {:induction false} FilterAppend<T>(s: seq<T>, x: T, p: T -> bool)
    ensures Filter(s + [x], p) == Filter(s, p) + (if p(x) then [x] else [])
  {
    var tail := if p(x) then [x] else [];
    if s == [] {
      assert s + [x] == [x] && [x][1..] == [];
    } else {
      var head := if p(s[0]) then [s[0]] else [];
      assert (s + [x])[0] == s[0] && (s + [x])[1..] == s[1..] + [x];
      FilterAppend(s[1..], x, p);
      assert Filter(s + [x], p) == head + (Filter(s[1..], p) + tail);
      assert head + (Filter(s[1..], p) + tail) == (head + Filter(s[1..], p)) + tail;
    }
  }

  /** The query condition `user_id == uid`. */
  function OwnedBy(uid: Id): HealthRecord -> bool {
    (h: HealthRecord) => h.userId == uid
  }

  /** The health records owned by user `uid`. */
  function RecordsOf(records: seq<HealthRecord>, uid: Id): (r: seq<HealthRecord>)
    ensures forall h | h in r :: h in records && h.userId == uid
    ensures forall h | h in records && h.userId == uid :: h in r
    ensures multiset(r) <= multiset(records)
    ensures forall h | h in records :: multiset(r)[h] == if h.userId == uid then multiset(records)[h] else 0
  {
    FilterMultiplicity(records, OwnedBy(uid));
    Filter(records, OwnedBy(uid))
  }

  /** The display condition for a high-risk record. */
  function HighRisk(): HealthRecord -> bool {
    (h: HealthRecord) => h.prediction >= Threshold
  }

  /** The display condition for a low-risk record. */
  function LowRisk(): HealthRecord -> bool {
    (h: HealthRecord) => h.prediction < Threshold
  }

  /** `sum(1 for h in records if h.prediction < 0.5)` */
  function LowRiskCount(records: seq<HealthRecord>): (n: nat)
    ensures n <= |records|
    ensures (forall h | h in records :: h.prediction >= Threshold) ==> n == 0
  {
    if records == [] then 0
    else (if records[0].prediction < Threshold then 1 else 0) + LowRiskCount(records[1..])
  }

  /** `sum(1 for h in records if h.prediction >= 0.5)` */
  function HighRiskCount(records: seq<HealthRecord>): (n: nat)
    ensures n <= |records|
    ensures (forall h | h in records :: h.prediction < Threshold) ==> n == 0
  {
    if records == [] then 0
    else (if records[0].prediction >= Threshold then 1 else 0) + HighRiskCount(records[1..])
  }

  /** Every record is counted exactly once: as low or as high risk. */
  lemma {:induction false} RiskCountsPartition(records: seq<HealthRecord>)
    ensures LowRiskCount(records) + HighRiskCount(records) == |records|
  {
    if records != [] {
      RiskCountsPartition(records[1..]);
    }
  }

  /** The high count is the number of records at or above the threshold. */
  lemma {:induction false} HighRiskCountIsFilter(records: seq<HealthRecord>)
    ensures HighRiskCount(records) == |Filter(records, HighRisk())|
  {
    if records != [] {
      HighRiskCountIsFilter(records[1..]);
    }
  }

  /** The low count is the number of records below the threshold. */
  lemma {:induction false} LowRiskCountIsFilter(records: seq<HealthRecord>)
    ensures LowRiskCount(records) == |Filter(records, LowRisk())|
  {
    if records != [] {
      LowRiskCountIsFilter(records[1..]);
    }
  }

  /** A new record is counted as high exactly when its prediction is at least 0.5. */
  lemma {:induction false} RiskCountsAppend(records: seq<HealthRecord>, h: HealthRecord)
    ensures HighRiskCount(records + [h]) == HighRiskCount(records) + (if h.prediction >= Threshold then 1 else 0)
    ensures LowRiskCount(records + [h]) == LowRiskCount(records) + (if h.prediction < Threshold then 1 else 0)
  {
    if records == [] {
      assert records + [h] == [h];
    } else {
      assert (records + [h])[1..] == records[1..] + [h];
      RiskCountsAppend(records[1..], h);
    }
  }

  /**
   * Storing one record shifts only its owner's summary, by one,
   * on the side of the threshold its prediction falls.
   */
  lemma NewRecordShiftsCounts(records: seq<HealthRecord>, h: HealthRecord, uid: Id)
    ensures var before, after := RecordsOf(records, uid), RecordsOf(records + [h], uid);
            && HighRiskCount(after) == HighRiskCount(before) + (if h.userId == uid && h.prediction >= Threshold then 1 else 0)
            && LowRiskCount(after) == LowRiskCount(before) + (if h.userId == uid && h.prediction < Threshold then 1 else 0)
  {
    FilterAppend(records, h, OwnedBy(uid));
    assert OwnedBy(uid)(h) == (h.userId == uid);
    if h.userId == uid {
      RiskCountsAppend(RecordsOf(records, uid), h);
    } else {
      assert RecordsOf(records, uid) + [] == RecordsOf(records, uid);
    }
  }
}
