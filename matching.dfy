/**
 * The loop shared by the seven Auth* checks of CHardwareAuth and CSoftwareAuth:
 * every record the enumerator yields is asked for one property; when that Get
 * succeeds its value is compared with the first iCount candidates, and a hit sets
 * bResult. The variadic candidate list is a sequence; a record is `Some(value)`
 * when Get succeeded and `None` when it failed.
 */
module Matching {
  import opened Wrappers

  /** The candidates the loop `for (i = 0; i < iCount; i++)` actually reads. */
  function Allowed(candidates: seq<string>, iCount: int): (allowed: seq<string>)
    requires iCount <= |candidates|
    ensures |allowed| == (if iCount <= 0 then 0 else iCount)
    ensures allowed == candidates[..|allowed|]
  {
    if iCount <= 0 then [] else candidates[..iCount]
  }

  /** Some record whose Get succeeded carries an allowed value. */
  ghost predicate AnyMatch(records: seq<Option<string>>, allowed: seq<string>) {
    exists k :: 0 <= k < |records| && records[k].Some? && records[k].value in allowed
  }

  /** The property values of the records whose Get succeeded, in enumeration order. */
  function Values(records: seq<Option<string>>): seq<string> {
    if records == [] then []
    else (if records[0].Some? then [records[0].value] else []) + Values(records[1..])
  }

  lemma {:induction false} ValuesSound(records: seq<Option<string>>, v: string)
    ensures v in Values(records) <==> Some(v) in records
  {
    if records != [] {
      ValuesSound(records[1..], v);
      assert records == [records[0]] + records[1..];
    }
  }

  /** Matching is a question about the successfully read values only: failed Gets are skipped. */
  lemma {:induction false} AnyMatchByValues(records: seq<Option<string>>, allowed: seq<string>)
    ensures AnyMatch(records, allowed) <==> exists v :: v in Values(records) && v in allowed
  {
    if AnyMatch(records, allowed) {
      var k :| 0 <= k < |records| && records[k].Some? && records[k].value in allowed;
      ValuesSound(records, records[k].value);
    }
    if v :| v in Values(records) && v in allowed {
      ValuesSound(records, v);
      var k :| 0 <= k < |records| && records[k] == Some(v);
      assert records[k].Some? && records[k].value in allowed;
    }
  }

  lemma AnyMatchSnoc(records: seq<Option<string>>, r: Option<string>, allowed: seq<string>)
    ensures AnyMatch(records + [r], allowed) <==> AnyMatch(records, allowed) || (r.Some? && r.value in allowed)
  {
    var all := records + [r];
    if r.Some? && r.value in allowed {
      assert all[|records|] == r;
    }
    if AnyMatch(records, allowed) {
      var k :| 0 <= k < |records| && records[k].Some? && records[k].value in allowed;
      assert all[k] == records[k];
    }
    if AnyMatch(all, allowed) {
      var k :| 0 <= k < |all| && all[k].Some? && all[k].value in allowed;
      if k < |records| {
        assert records[k] == all[k];
      }
    }
  }

  /**
   * Once bResult is TRUE it stays TRUE: a hit among the first j records is still
   * a hit among the first k.
   */
  lemma AnyMatchMonotone(records: seq<Option<string>>, allowed: seq<string>, j: nat, k: nat)
    requires j <= k <= |records|
    requires AnyMatch(records[..j], allowed)
    ensures AnyMatch(records[..k], allowed)
  {
    var i :| 0 <= i < j && records[..j][i].Some? && records[..j][i].value in allowed;
    assert records[..k][i] == records[..j][i];
  }

  /** No candidates, no match, whatever the records. */
  lemma NoCandidatesNoMatch(records: seq<Option<string>>, candidates: seq<string>, iCount: int)
    requires iCount <= 0 && iCount <= |candidates|
    ensures !AnyMatch(records, Allowed(candidates, iCount))
  {
  }

  /**
   * The inner `for` over the candidates, which stops at the first candidate
   * equal to the value (`break`).
   */
  method MatchCandidates(value: string, candidates: seq<string>, iCount: int) returns (found: bool)
    requires iCount <= |candidates|
    ensures found <==> value in Allowed(candidates, iCount)
  {
    found := false;
    var i := 0;
    while i < iCount
      invariant 0 <= i <= |candidates|
      invariant i <= iCount || i == 0
      invariant value !in candidates[..i]
    {
      if candidates[i] == value {
        assert candidates[..iCount][i] == value;
        found := true;
        break;
      }
      assert candidates[..i + 1] == candidates[..i] + [candidates[i]];
      i := i + 1;
    }
  }

  /**
   * The `while (lpEnumerator->Next(...) == S_OK)` loop. It runs to the end of the
   * enumeration (the `break` leaves only the candidate loop) and releases every
   * record once; `released` counts the VariantClear/Release steps.
   */
  method MatchRecords(records: seq<Option<string>>, candidates: seq<string>, iCount: int)
    returns (bResult: bool, released: nat)
    requires iCount <= |candidates|
    ensures bResult <==> AnyMatch(records, Allowed(candidates, iCount))
    ensures released == |records|
  {
    bResult := false;
    released := 0;
    var k := 0;
    while k < |records|
      invariant 0 <= k <= |records|
      invariant released == k
      invariant bResult <==> AnyMatch(records[..k], Allowed(candidates, iCount))
    {
      var record := records[k];
      if record.Some? {
        var found := MatchCandidates(record.value, candidates, iCount);
        if found {
          bResult := true;
        }
      }
      released := released + 1;
      assert records[..k + 1] == records[..k] + [record];
      AnyMatchSnoc(records[..k], record, Allowed(candidates, iCount));
      k := k + 1;
    }
    assert records[..k] == records;
  }
}
