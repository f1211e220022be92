/**
 * The storage protocol every backend implements (`MemoStorage`), stated as
 * the answers a conforming backend may give over its records, and the
 * `MissingMemoError` / `ExpiredMemoError` hierarchy.
 */
module StorageBase {
  import opened PyRuntime

  /** What a backend keeps for a key: the stored text and when it was written. */
  datatype Record = Record(value: string, created: Timestamp)

  /** A record for `key` exists and, when a bound is given, was created at or after it. */
  predicate Valid(records: map<string, Record>, key: string, createdAfter: Option<Timestamp>) {
    key in records && (createdAfter.None? || records[key].created >= createdAfter.value)
  }

  /** `exists(key, created_after)` answered `answer`, as the protocol demands. */
  ghost predicate ExistsMeets(records: map<string, Record>, key: string, createdAfter: Option<Timestamp>, answer: bool)
    ensures ExistsMeets(records, key, createdAfter, answer) && answer ==> key in records
    ensures ExistsMeets(records, key, createdAfter, answer) && key !in records ==> !answer
  {
    answer == Valid(records, key, createdAfter)
  }

  /** `get(key, created_after)` returned or raised `r`, as the protocol demands. */
  ghost predicate GetMeets(records: map<string, Record>, key: string, createdAfter: Option<Timestamp>,
                           r: Result<string, Exception>)
    ensures GetMeets(records, key, createdAfter, r) ==> (r.Success? <==> Valid(records, key, createdAfter))
    ensures GetMeets(records, key, createdAfter, r) && key !in records ==> r.Failure?
  {
    if Valid(records, key, createdAfter) then r == Success(records[key].value)
    else r.Failure? && IsInstance(r.error, MissingMemoErrorClass)
  }

  /** `set(key, value)` took the records from `before` to `after`, as the protocol demands. */
  ghost predicate SetMeets(before: map<string, Record>, after: map<string, Record>, key: string, value: string)
    ensures SetMeets(before, after, key, value) ==> before.Keys <= after.Keys && |after| <= |before| + 1
  {
    && key in after && after[key].value == value
    && after.Keys == before.Keys + {key}
    && forall k :: k in before && k != key ==> after[k] == before[k]
  }

  /** The records after a backend writes `value` under `key` at time `now`. */
  function Stamp(records: map<string, Record>, key: string, value: string, now: Timestamp): (after: map<string, Record>)
    ensures SetMeets(records, after, key, value)
    ensures after[key].created == now
  {
    records[key := Record(value, now)]
  }

  /** A timestamped view of a plain key-to-text cache: same keys, same texts. */
  ghost predicate Mirrors(records: map<string, Record>, cache: map<string, string>) {
    records.Keys == cache.Keys && forall k :: k in cache ==> records[k].value == cache[k]
  }

  /**
   * `ExpiredMemoError` derives from `MissingMemoError`: an `except MissingMemoError`
   * also catches the expired case, while only an expired record is an `ExpiredMemoError`.
   */
  lemma ErrorHierarchy(e: Exception)
    ensures IsInstance(e, MissingMemoErrorClass) <==> (e.MissingMemoError? || e.ExpiredMemoError?)
    ensures IsInstance(e, ExpiredMemoErrorClass) <==> e.ExpiredMemoError?
    ensures IsInstance(e, ExpiredMemoErrorClass) ==> IsInstance(e, MissingMemoErrorClass)
  {
  }

  /** Without a time bound, `exists` and `get` see plain presence of the key. */
  lemma UnboundedIsPresence(records: map<string, Record>, key: string, b: bool, r: Result<string, Exception>)
    requires ExistsMeets(records, key, None, b) && GetMeets(records, key, None, r)
    ensures b <==> key in records
    ensures r.Success? <==> key in records
    ensures key in records ==> r.value == records[key].value
  {
  }

  /** `get` succeeds exactly when `exists` (with the same bound) holds. */
  lemma GetAgreesWithExists(records: map<string, Record>, key: string, createdAfter: Option<Timestamp>,
                            b: bool, r: Result<string, Exception>)
    requires ExistsMeets(records, key, createdAfter, b) && GetMeets(records, key, createdAfter, r)
    ensures r.Success? <==> b
  {
  }

  /** After `set(key, value)`, an unbounded `get(key)` returns `value`, and every other key reads as before. */
  lemma SetThenGet(before: map<string, Record>, after: map<string, Record>, key: string, value: string,
                   other: string, createdAfter: Option<Timestamp>, r: Result<string, Exception>)
    requires SetMeets(before, after, key, value)
    ensures GetMeets(after, key, None, r) ==> r == Success(value)
    ensures other != key ==> (GetMeets(after, other, createdAfter, r) <==> GetMeets(before, other, createdAfter, r))
  {
  }

  /**
   * A backend without timestamps is judged through any timestamped view of its
   * cache: for unbounded calls the protocol's answers depend only on the texts.
   */
  lemma MirrorsDecideUnbounded(records: map<string, Record>, cache: map<string, string>, key: string)
    requires Mirrors(records, cache)
    ensures Valid(records, key, None) <==> key in cache
    ensures key in cache ==> records[key].value == cache[key]
  {
  }
}
