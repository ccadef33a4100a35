/**
 * The windowed failure count both `IsSevere` methods perform over the stored
 * results of a check (database_server_check.go:178-192,
 * database_website_check.go:171-185).
 */
module Window {
  import opened Storage

  /** The results not before `from` (`!Timestamp.Before(timeFrom)`), in order. */
  function InWindow(rs: seq<Sample>, from: int): (w: seq<Sample>)
    ensures |w| <= |rs|
  {
    if rs == [] then []
    else
      var last := rs[|rs| - 1];
      InWindow(rs[..|rs| - 1], from) + (if last.timestamp >= from then [last] else [])
  }

  /** The window holds exactly the results stamped at or after its start. */
  lemma {:induction false} InWindowMembers(rs: seq<Sample>, from: int, x: Sample)
    ensures x in InWindow(rs, from) <==> x in rs && x.timestamp >= from
  {
    if rs != [] {
      var p := rs[..|rs| - 1];
      assert rs == p + [rs[|rs| - 1]];
      InWindowMembers(p, from, x);
    }
  }

  /** Some result is older than the window start. */
  predicate HasOlder(rs: seq<Sample>, from: int) {
    exists i :: 0 <= i < |rs| && rs[i].timestamp < from
  }

  /** The number of failed results. */
  function Failures(rs: seq<Sample>): (n: nat)
    ensures n <= |rs|
  {
    if rs == [] then 0
    else Failures(rs[..|rs| - 1]) + (if rs[|rs| - 1].passed then 0 else 1)
  }

  /**
   * The severity verdict over a result list: an older record must exist, and the
   * in-window failure percentage must exceed the threshold, that is
   * failures * 100 > threshold * total (an empty window is never severe).
   */
  predicate Severe(rs: seq<Sample>, from: int, threshold: int)
    ensures Severe(rs, from, threshold) ==> HasOlder(rs, from) && InWindow(rs, from) != []
  {
    var w := InWindow(rs, from);
    HasOlder(rs, from) && Failures(w) * 100 > threshold * |w|
  }

  /** The counting loop: whether an older record exists, and the in-window failure and total counts. */
  method Tally(results: seq<Sample>, timeFrom: int) returns (hasOlder: bool, failureCount: nat, totalCount: nat)
    ensures hasOlder == HasOlder(results, timeFrom)
    ensures totalCount == |InWindow(results, timeFrom)|
    ensures failureCount == Failures(InWindow(results, timeFrom))
  {
    hasOlder, failureCount, totalCount := false, 0, 0;
    for i := 0 to |results|
      invariant hasOlder == HasOlder(results[..i], timeFrom)
      invariant totalCount == |InWindow(results[..i], timeFrom)|
      invariant failureCount == Failures(InWindow(results[..i], timeFrom))
    {
      var result := results[i];
      assert results[..i + 1][..i] == results[..i];
      ghost var added := if result.timestamp >= timeFrom then [result] else [];
      assert InWindow(results[..i + 1], timeFrom) == InWindow(results[..i], timeFrom) + added;
      FailuresAppend(InWindow(results[..i], timeFrom), added);
      if result.timestamp < timeFrom {
        hasOlder := true;
        continue;
      }
      totalCount := totalCount + 1;
      if !result.passed {
        failureCount := failureCount + 1;
      }
    }
    assert results[..|results|] == results;
  }

  /** Without an older record nothing is severe, whatever the failures. */
  lemma NoOlderNeverSevere(rs: seq<Sample>, from: int, threshold: int)
    requires !HasOlder(rs, from)
    ensures !Severe(rs, from, threshold)
  {
  }

  /** An empty window is never severe, even with a negative threshold. */
  lemma EmptyWindowNeverSevere(rs: seq<Sample>, from: int, threshold: int)
    requires InWindow(rs, from) == []
    ensures !Severe(rs, from, threshold)
  {
  }

  /**
   * A severe verdict needs at least one failure in the window (for a threshold
   * that is not negative), and a threshold of 100 percent or more is never exceeded.
   */
  lemma SevereBounds(rs: seq<Sample>, from: int, threshold: int)
    ensures threshold >= 0 && Failures(InWindow(rs, from)) == 0 ==> !Severe(rs, from, threshold)
    ensures threshold >= 100 ==> !Severe(rs, from, threshold)
  {
    var w := InWindow(rs, from);
    var f, n := Failures(w), |w|;
    if threshold >= 0 {
      assert threshold * n >= 0;
    }
    if threshold >= 100 {
      assert f * 100 <= n * 100 <= threshold * n;
    }
  }

  /** Results before the window start matter only through the older-record guard. */
  lemma OnlyWindowCounts(rs: seq<Sample>, rs': seq<Sample>, from: int, threshold: int)
    requires InWindow(rs, from) == InWindow(rs', from)
    requires HasOlder(rs, from) == HasOlder(rs', from)
    ensures Severe(rs, from, threshold) == Severe(rs', from, threshold)
  {
  }

  /** Turning one passed result into a failure keeps the window size and never lowers the failure count. */
  lemma {:induction false} FailMoreCounts(rs: seq<Sample>, k: nat, from: int)
    requires k < |rs|
    ensures |InWindow(rs[k := Sample(false, rs[k].timestamp)], from)| == |InWindow(rs, from)|
    ensures Failures(InWindow(rs, from)) <= Failures(InWindow(rs[k := Sample(false, rs[k].timestamp)], from))
  {
    var rs' := rs[k := Sample(false, rs[k].timestamp)];
    var n := |rs| - 1;
    if k < n {
      assert rs'[..n] == rs[..n][k := Sample(false, rs[k].timestamp)];
      FailMoreCounts(rs[..n], k, from);
    } else {
      assert rs'[..n] == rs[..n];
    }
    assert InWindow(rs', from) == InWindow(rs'[..n], from) + (if rs'[n].timestamp >= from then [rs'[n]] else []);
    assert InWindow(rs, from) == InWindow(rs[..n], from) + (if rs[n].timestamp >= from then [rs[n]] else []);
    FailuresAppend(InWindow(rs'[..n], from), if rs'[n].timestamp >= from then [rs'[n]] else []);
    FailuresAppend(InWindow(rs[..n], from), if rs[n].timestamp >= from then [rs[n]] else []);
  }

  lemma FailuresAppend(a: seq<Sample>, b: seq<Sample>)
    requires |b| <= 1
    ensures Failures(a + b) == Failures(a) + Failures(b)
  {
    if |b| == 1 {
      assert (a + b)[..|a + b| - 1] == a;
    } else {
      assert a + b == a;
    }
  }

  /** Turning one passed result into a failure never turns a severe verdict into a non-severe one. */
  lemma SevereMonotone(rs: seq<Sample>, k: nat, from: int, threshold: int)
    requires k < |rs|
    requires Severe(rs, from, threshold)
    ensures Severe(rs[k := Sample(false, rs[k].timestamp)], from, threshold)
  {
    var rs' := rs[k := Sample(false, rs[k].timestamp)];
    FailMoreCounts(rs, k, from);
    var i :| 0 <= i < |rs| && rs[i].timestamp < from;
    assert rs'[i].timestamp < from;
  }
}
