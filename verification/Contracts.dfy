/** The semantic checks of coverage and runtime-window manifests. */
module Contracts {
  import opened Common

  datatype ContractError = ContractError(path: string, message: string)

  // ---------------------------------------------------------------- coverage

  /** The scopes of a coverage manifest; a field that is not a list is `None`. */
  datatype Coverage = Coverage(
    state: string,
    expected: Option<seq<string>>,
    completed: Option<seq<string>>,
    reused: Option<seq<string>>,
    skipped: Option<seq<string>>,
    unsupported: Option<seq<string>>,
    quarantined: Option<seq<string>>,
    failed: Option<seq<string>>)

  predicate AllLists(c: Coverage)
  {
    c.expected.Some? && c.completed.Some? && c.reused.Some? && c.skipped.Some? && c.unsupported.Some?
    && c.quarantined.Some? && c.failed.Some?
  }

  /** The six scopes, in order. */
  function Scopes(c: Coverage): (scopes: seq<seq<string>>)
    requires AllLists(c)
    ensures |scopes| == 6
  {
    [c.completed.value, c.reused.value, c.skipped.value, c.unsupported.value, c.quarantined.value, c.failed.value]
  }

  function Flat(scopes: seq<seq<string>>): seq<string>
  {
    if scopes == [] then [] else Flat(scopes[..|scopes| - 1]) + scopes[|scopes| - 1]
  }

  const UNACCOUNTED := ContractError("expectedScope", "every expected scope must be accounted exactly once")
  const INCOMPLETE := ContractError("state", "COMPLETE coverage cannot contain unsupported, quarantined, or failed scope")

  /** What the checks report; nothing unless every scope is a list. */
  function CoverageErrors(c: Coverage): seq<ContractError>
  {
    if !AllLists(c) then []
    else
      (if c.state != "PLANNED" && multiset(c.expected.value) != multiset(Flat(Scopes(c))) then [UNACCOUNTED] else [])
      + if c.state == "COMPLETE" && (c.unsupported.value != [] || c.quarantined.value != [] || c.failed.value != [])
        then [INCOMPLETE] else []
  }

  method ValidateCoverage(c: Coverage) returns (errors: seq<ContractError>)
    ensures errors == CoverageErrors(c)
  {
    errors := [];
    if !AllLists(c) {
      return;
    }
    var accounted, i := [], 0;
    var scopes := Scopes(c);
    while i < 6
      invariant i <= 6 && accounted == Flat(scopes[..i])
    {
      assert scopes[..i + 1][..i] == scopes[..i];
      accounted := accounted + scopes[i];
      i := i + 1;
    }
    assert scopes[..6] == scopes;
    if c.state != "PLANNED" && multiset(c.expected.value) != multiset(accounted) {
      errors := errors + [UNACCOUNTED];
    }
    if c.state == "COMPLETE"
       && (c.unsupported.value != [] || c.quarantined.value != [] || c.failed.value != []) {
      errors := errors + [INCOMPLETE];
    }
  }

  /** Each scope is free of duplicates, no two share a path, and together they hold exactly the expected paths. */
  ghost predicate Partitions(scopes: seq<seq<string>>, expected: seq<string>)
  {
    && (forall i :: 0 <= i < |scopes| ==> Distinct(scopes[i]))
    && (forall i, j, x :: 0 <= i < j < |scopes| && x in scopes[i] ==> x !in scopes[j])
    && (forall x :: x in expected <==> exists i :: 0 <= i < |scopes| && x in scopes[i])
  }

  lemma {:induction false} DistinctIff(s: seq<string>)
    ensures Distinct(s) <==> forall x :: multiset(s)[x] <= 1
    decreases |s|
  {
    if s != [] {
      var n := |s| - 1;
      DistinctIff(s[..n]);
      assert s == s[..n] + [s[n]];
      if Distinct(s) {
        assert s[n] !in s[..n];
        assert multiset(s[..n])[s[n]] == 0;
      } else if Distinct(s[..n]) {
        assert s[n] in multiset(s[..n]);
        assert multiset(s)[s[n]] >= 2;
      } else {
        var x :| multiset(s[..n])[x] > 1;
        assert multiset(s)[x] > 1;
      }
    }
  }

  lemma FlatStep(scopes: seq<seq<string>>, n: nat)
    requires n < |scopes|
    ensures Flat(scopes[..n + 1]) == Flat(scopes[..n]) + scopes[n]
  {
    assert scopes[..n + 1][..n] == scopes[..n];
  }

  lemma {:induction false} FlatMembers(scopes: seq<seq<string>>, x: string)
    ensures x in Flat(scopes) <==> exists i :: 0 <= i < |scopes| && x in scopes[i]
    decreases |scopes|
  {
    if scopes != [] {
      FlatMembers(scopes[..|scopes| - 1], x);
    }
  }

  /** Prefixes of the scopes count at most what all of them count. */
  lemma {:induction false} FlatCounts(scopes: seq<seq<string>>, n: nat, x: string)
    requires n <= |scopes|
    ensures multiset(Flat(scopes[..n]))[x] <= multiset(Flat(scopes))[x]
    decreases |scopes| - n
  {
    if n == |scopes| {
      assert scopes[..n] == scopes;
    } else {
      FlatStep(scopes, n);
      FlatCounts(scopes, n + 1, x);
    }
  }

  lemma {:induction false} OneCounts(scopes: seq<seq<string>>, i: nat, n: nat, x: string)
    requires i < n <= |scopes|
    ensures multiset(scopes[i])[x] <= multiset(Flat(scopes[..n]))[x]
    decreases n
  {
    FlatStep(scopes, n - 1);
    if i < n - 1 {
      OneCounts(scopes, i, n - 1, x);
    }
  }

  lemma TwoCount(scopes: seq<seq<string>>, i: nat, j: nat, x: string)
    requires i < j < |scopes|
    ensures multiset(scopes[i])[x] + multiset(scopes[j])[x] <= multiset(Flat(scopes))[x]
  {
    OneCounts(scopes, i, j, x);
    FlatStep(scopes, j);
    FlatCounts(scopes, j + 1, x);
  }

  /** With distinct expected paths, equality of the counts is an exact partition. */
  lemma CountsPartition(scopes: seq<seq<string>>, expected: seq<string>)
    requires Distinct(expected) && multiset(expected) == multiset(Flat(scopes))
    ensures Partitions(scopes, expected)
  {
    var flat := Flat(scopes);
    DistinctIff(expected);
    forall i | 0 <= i < |scopes| ensures Distinct(scopes[i]) {
      forall x ensures multiset(scopes[i])[x] <= 1 {
        OneCounts(scopes, i, i + 1, x);
        FlatCounts(scopes, i + 1, x);
        assert multiset(flat)[x] <= 1;
      }
      DistinctIff(scopes[i]);
    }
    forall i, j, x | 0 <= i < j < |scopes| && x in scopes[i] ensures x !in scopes[j] {
      TwoCount(scopes, i, j, x);
      assert multiset(scopes[i])[x] >= 1 && multiset(flat)[x] <= 1;
      assert multiset(scopes[j])[x] == 0;
    }
    forall x ensures x in expected <==> exists i :: 0 <= i < |scopes| && x in scopes[i] {
      FlatMembers(scopes, x);
      assert x in expected <==> x in multiset(expected);
      assert x in flat <==> x in multiset(flat);
    }
  }

  /** When which error is reported, in any state; a manifest still being planned need not account for anything. */
  lemma ReportedIff(c: Coverage)
    requires AllLists(c)
    ensures UNACCOUNTED in CoverageErrors(c)
            <==> c.state != "PLANNED"
                 && multiset(c.expected.value)
                    != multiset(c.completed.value) + multiset(c.reused.value) + multiset(c.skipped.value)
                       + multiset(c.unsupported.value) + multiset(c.quarantined.value) + multiset(c.failed.value)
    ensures INCOMPLETE in CoverageErrors(c)
            <==> c.state == "COMPLETE"
                 && (c.unsupported.value != [] || c.quarantined.value != [] || c.failed.value != [])
    ensures c.state == "PLANNED" ==> CoverageErrors(c) == []
    ensures forall e :: e in CoverageErrors(c) ==> e == UNACCOUNTED || e == INCOMPLETE
  {
    FlatSix(Scopes(c));
    assert |UNACCOUNTED.path| == 13 && |INCOMPLETE.path| == 5;
  }

  /**
   * A manifest past planning for which nothing is reported accounts for the expected paths exactly; when it
   * is complete, the completed, reused and skipped paths are all of them.
   */
  lemma AcceptedCoverageIsExact(c: Coverage)
    requires AllLists(c) && CoverageErrors(c) == [] && c.state != "PLANNED"
    ensures Distinct(c.expected.value) ==> Partitions(Scopes(c), c.expected.value)
    ensures c.state == "COMPLETE" ==>
              multiset(c.expected.value)
              == multiset(c.completed.value) + multiset(c.reused.value) + multiset(c.skipped.value)
  {
    if Distinct(c.expected.value) {
      CountsPartition(Scopes(c), c.expected.value);
    }
    FlatSix(Scopes(c));
  }

  /** With distinct expected paths nothing is reported exactly when the scopes partition them and completion is honest. */
  lemma CoveragePassesIff(c: Coverage)
    requires AllLists(c) && c.state != "PLANNED" && Distinct(c.expected.value)
    ensures CoverageErrors(c) == []
            <==>
            Partitions(Scopes(c), c.expected.value)
            && (c.state == "COMPLETE" ==> c.unsupported.value == [] && c.quarantined.value == [] && c.failed.value == [])
  {
    if Partitions(Scopes(c), c.expected.value) {
      PartitionCounts(Scopes(c), c.expected.value);
    }
    if CoverageErrors(c) == [] {
      CountsPartition(Scopes(c), c.expected.value);
    }
  }

  lemma {:induction false} FlatIsDistinct(scopes: seq<seq<string>>)
    requires forall i :: 0 <= i < |scopes| ==> Distinct(scopes[i])
    requires forall i, j, x :: 0 <= i < j < |scopes| && x in scopes[i] ==> x !in scopes[j]
    ensures Distinct(Flat(scopes))
    decreases |scopes|
  {
    if scopes != [] {
      var n := |scopes| - 1;
      var init := scopes[..n];
      forall i, j, x | 0 <= i < j < |init| && x in init[i] ensures x !in init[j] {
        assert x in scopes[i];
      }
      FlatIsDistinct(init);
      forall x | x in Flat(init) ensures x !in scopes[n] {
        FlatMembers(init, x);
        var i :| 0 <= i < n && x in init[i];
        assert x in scopes[i];
      }
      JoinIsDistinct(Flat(init), scopes[n]);
    }
  }

  lemma JoinIsDistinct(a: seq<string>, b: seq<string>)
    requires Distinct(a) && Distinct(b) && forall x :: x in a ==> x !in b
    ensures Distinct(a + b)
  {
    forall i, j | 0 <= i < j < |a + b| ensures (a + b)[i] != (a + b)[j] {
      if i < |a| <= j {
        assert a[i] in a;
      }
    }
  }

  /** An exact partition counts every expected path once. */
  lemma PartitionCounts(scopes: seq<seq<string>>, expected: seq<string>)
    requires Distinct(expected) && Partitions(scopes, expected)
    ensures multiset(expected) == multiset(Flat(scopes))
  {
    var flat := Flat(scopes);
    FlatIsDistinct(scopes);
    DistinctIff(expected);
    DistinctIff(flat);
    forall x ensures multiset(expected)[x] == multiset(flat)[x] {
      FlatMembers(scopes, x);
      assert x in expected <==> x in flat;
      assert x in expected <==> x in multiset(expected);
      assert x in flat <==> x in multiset(flat);
    }
  }

  /** How often `x` occurs in the first `n` scopes. */
  function Tally(scopes: seq<seq<string>>, n: nat, x: string): nat
    requires n <= |scopes|
  {
    if n == 0 then 0 else Tally(scopes, n - 1, x) + multiset(scopes[n - 1])[x]
  }

  lemma {:induction false} FlatTally(scopes: seq<seq<string>>, n: nat, x: string)
    requires n <= |scopes|
    ensures multiset(Flat(scopes[..n]))[x] == Tally(scopes, n, x)
  {
    if n > 0 {
      FlatTally(scopes, n - 1, x);
      FlatStep(scopes, n - 1);
    }
  }

  lemma WholeTally(scopes: seq<seq<string>>, x: string)
    ensures multiset(Flat(scopes))[x] == Tally(scopes, |scopes|, x)
  {
    FlatTally(scopes, |scopes|, x);
    assert scopes[..|scopes|] == scopes;
  }

  lemma TallySix(s: seq<seq<string>>, x: string)
    requires |s| == 6
    ensures Tally(s, 6, x)
            == multiset(s[0])[x] + multiset(s[1])[x] + multiset(s[2])[x] + multiset(s[3])[x] + multiset(s[4])[x]
               + multiset(s[5])[x]
  {
    assert Tally(s, 1, x) == Tally(s, 0, x) + multiset(s[0])[x];
    assert Tally(s, 2, x) == Tally(s, 1, x) + multiset(s[1])[x];
    assert Tally(s, 4, x) == Tally(s, 2, x) + multiset(s[2])[x] + multiset(s[3])[x];
  }

  lemma FlatSix(s: seq<seq<string>>)
    requires |s| == 6
    ensures multiset(Flat(s))
            == multiset(s[0]) + multiset(s[1]) + multiset(s[2]) + multiset(s[3]) + multiset(s[4]) + multiset(s[5])
  {
    forall x ensures multiset(Flat(s))[x]
                     == (multiset(s[0]) + multiset(s[1]) + multiset(s[2]) + multiset(s[3]) + multiset(s[4])
                         + multiset(s[5]))[x]
    {
      WholeTally(s, x);
      TallySix(s, x);
    }
  }
}
