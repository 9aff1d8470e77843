/** Cutting the tests into shards (scripts/ci/run_tests.py). */
module TestShards {
  import opened Outcomes
  import opened Sorting

  predicate Distinct(nodes: seq<string>) {
    forall i, j :: 0 <= i < j < |nodes| ==> nodes[i] != nodes[j]
  }

  /** Tests in the order of their digests; equal digests fall back to the name. */
  function BySpread(digest: string -> seq<int>): (string, string) -> bool {
    (a, b) => if digest(a) == digest(b) then ByText()(a, b) else Lex(digest(a), digest(b))
  }

  /** `s[index::count]`. */
  function Stride(s: seq<string>, index: nat, count: nat): seq<string>
    requires count > 0
    decreases |s| - index
  {
    if index >= |s| then [] else [s[index]] + Stride(s, index + count, count)
  }

  function Spread(nodes: seq<string>, digest: string -> seq<int>): seq<string> {
    Sort(nodes, BySpread(digest))
  }

  /** `partitions`. */
  function Partitions(nodes: seq<string>, count: int, digest: string -> seq<int>): Checked<seq<seq<string>>> {
    if !(1 <= count <= 32) || !Distinct(nodes) then Rejected
    else Accepted(Cut(Spread(nodes, digest), count))
  }

  function Cut(spread: seq<string>, count: nat): (parts: seq<seq<string>>)
    requires count > 0
    ensures |parts| == count
  {
    seq(count, i requires 0 <= i < count => Sort(Stride(spread, i, count), ByText()))
  }

  // ----- an exact, disjoint, balanced partition -----

  /** Whole rounds of count in n, and what is left. */
  function Rounds(n: nat, count: nat): nat
    requires count > 0
  {
    if n < count then 0 else 1 + Rounds(n - count, count)
  }

  function Rest(n: nat, count: nat): (r: nat)
    requires count > 0
    ensures r < count
  {
    if n < count then n else Rest(n - count, count)
  }

  lemma {:induction false} NextRest(n: nat, count: nat)
    requires count > 0
    ensures Rest(n + 1, count) == if Rest(n, count) == count - 1 then 0 else Rest(n, count) + 1
    ensures Rounds(n + 1, count) == Rounds(n, count) + if Rest(n, count) == count - 1 then 1 else 0
  {
    if n >= count {
      NextRest(n - count, count);
    }
  }

  lemma {:induction false} RestFrom(n: nat, index: nat, count: nat)
    requires index < count
    ensures index <= n && Rest(n - index, count) == 0 <==> Rest(n, count) == index
  {
    if n >= count {
      RestFrom(n - count, index, count);
    }
  }

  lemma {:induction false} StrideGrows(s: seq<string>, x: string, index: nat, count: nat)
    requires count > 0
    ensures Stride(s + [x], index, count) ==
              if index <= |s| && Rest(|s| - index, count) == 0 then Stride(s, index, count) + [x]
              else Stride(s, index, count)
    decreases |s| - index
  {
    var longer := s + [x];
    if index < |s| {
      StrideGrows(s, x, index + count, count);
      assert longer[index] == s[index];
    } else if index == |s| {
      assert longer[index] == x;
      assert Stride(longer, index + count, count) == [];
    }
  }

  /** Of the shards below n, all elements together. */
  function Together(s: seq<string>, n: nat, count: nat): multiset<string>
    requires count > 0
  {
    if n == 0 then multiset{} else Together(s, n - 1, count) + multiset(Stride(s, n - 1, count))
  }

  /** A new element goes to exactly one shard. */
  lemma ShardGrows(s: seq<string>, x: string, index: nat, count: nat, y: string)
    requires index < count
    ensures multiset(Stride(s + [x], index, count))[y] ==
              multiset(Stride(s, index, count))[y] + if y == x && Rest(|s|, count) == index then 1 else 0
  {
    StrideGrows(s, x, index, count);
    RestFrom(|s|, index, count);
    hide Stride, Rest;
    assert multiset(Stride(s, index, count) + [x]) == multiset(Stride(s, index, count)) + multiset{x};
  }

  lemma {:induction false} TogetherGrows(s: seq<string>, x: string, n: nat, count: nat, y: string)
    requires count > 0 && n <= count
    ensures Together(s + [x], n, count)[y] ==
              Together(s, n, count)[y] + if y == x && Rest(|s|, count) < n then 1 else 0
  {
    hide Stride, Rest;
    var longer := s + [x];
    OneMoreShard(s, n, count, y);
    OneMoreShard(longer, n, count, y);
    if n > 0 {
      TogetherGrows(s, x, n - 1, count, y);
      ShardGrows(s, x, n - 1, count, y);
      hide Together;
    }
  }

  lemma OneMoreShard(s: seq<string>, n: nat, count: nat, y: string)
    requires count > 0
    ensures Together(s, n, count)[y] ==
              if n == 0 then 0 else Together(s, n - 1, count)[y] + multiset(Stride(s, n - 1, count))[y]
  {
  }

  lemma {:induction false} NothingTogether(n: nat, count: nat)
    requires count > 0
    ensures Together([], n, count) == multiset{}
  {
    if n > 0 {
      NothingTogether(n - 1, count);
    }
  }

  /** The shards together hold every element exactly as often as the whole. */
  lemma {:induction false} StridesCover(s: seq<string>, count: nat)
    requires count > 0
    ensures Together(s, count, count) == multiset(s)
  {
    if s == [] {
      NothingTogether(count, count);
    } else {
      var init, last := s[..|s| - 1], s[|s| - 1];
      assert s == init + [last];
      StridesCover(init, count);
      forall y ensures Together(s, count, count)[y] == multiset(s)[y] {
        TogetherGrows(init, last, count, count, y);
      }
    }
  }

  /** Every shard has the average size, rounded down or up. */
  lemma {:induction false} StridesAreBalanced(s: seq<string>, index: nat, count: nat)
    requires index < count
    ensures |Stride(s, index, count)| == Rounds(|s|, count) + if index < Rest(|s|, count) then 1 else 0
  {
    if s == [] {
      assert Rounds(0, count) == 0 && Rest(0, count) == 0;
    } else {
      var init, last := s[..|s| - 1], s[|s| - 1];
      assert s == init + [last];
      StridesAreBalanced(init, index, count);
      StrideGrows(init, last, index, count);
      RestFrom(|init|, index, count);
      NextRest(|init|, count);
    }
  }

  // ----- the partition itself -----

  /** Of the first n parts, all elements together. */
  function Union(parts: seq<seq<string>>): multiset<string> {
    if parts == [] then multiset{} else Union(parts[..|parts| - 1]) + multiset(parts[|parts| - 1])
  }

  lemma {:induction false} UnionIsTogether(s: seq<string>, parts: seq<seq<string>>, count: nat)
    requires count > 0 && forall i :: 0 <= i < |parts| ==> multiset(parts[i]) == multiset(Stride(s, i, count))
    ensures Union(parts) == Together(s, |parts|, count)
  {
    if parts != [] {
      UnionIsTogether(s, parts[..|parts| - 1], count);
    }
  }

  lemma {:induction false} PartWithinUnion(parts: seq<seq<string>>, i: nat, j: nat, x: string)
    requires i < |parts| && j < |parts|
    ensures multiset(parts[i])[x] <= Union(parts)[x]
    ensures i != j ==> multiset(parts[i])[x] + multiset(parts[j])[x] <= Union(parts)[x]
  {
    var init := parts[..|parts| - 1];
    if i < |init| && j < |init| {
      PartWithinUnion(init, i, j, x);
    } else if i < |init| {
      PartWithinUnion(init, i, i, x);
    } else if j < |init| {
      PartWithinUnion(init, j, j, x);
    }
  }

  lemma DistinctCountsOnce(nodes: seq<string>, x: string)
    requires Distinct(nodes)
    ensures multiset(nodes)[x] <= 1
  {
    if multiset(nodes)[x] >= 2 {
      var i, j := TwicePresent(nodes, x);
      assert false;
    }
  }

  /** The main result: the parts are an exact, disjoint and balanced partition of the tests. */
  lemma PartitionsPartition(nodes: seq<string>, count: int, digest: string -> seq<int>)
    requires Partitions(nodes, count, digest).Accepted?
    ensures var parts := Partitions(nodes, count, digest).value;
            && |parts| == count && Union(parts) == multiset(nodes)
            && (forall i, j, x :: 0 <= i < j < count && x in parts[i] ==> x !in parts[j])
            && (forall i, j :: 0 <= i < j < count ==> |parts[j]| <= |parts[i]| <= |parts[j]| + 1)
  {
    hide Sort, Stride;
    var parts, s := Partitions(nodes, count, digest).value, Spread(nodes, digest);
    UnionIsTogether(s, parts, count);
    StridesCover(s, count);
    forall i, j, x | 0 <= i < j < count && x in parts[i] ensures x !in parts[j] {
      DistinctCountsOnce(nodes, x);
      PartWithinUnion(parts, i, j, x);
    }
    forall i | 0 <= i < count ensures |parts[i]| == Rounds(|nodes|, count) + if i < Rest(|nodes|, count) then 1 else 0 {
      StridesAreBalanced(s, i, count);
    }
  }

  /** Only with more shards than tests does a shard stay empty. */
  lemma PartsAreInhabited(nodes: seq<string>, count: int, digest: string -> seq<int>, i: nat)
    requires Partitions(nodes, count, digest).Accepted? && i < count
    ensures Partitions(nodes, count, digest).value[i] != [] <==> i < |nodes|
  {
    StridesAreBalanced(Spread(nodes, digest), i, count);
  }

  lemma SpreadIsOrder(digest: string -> seq<int>, m: multiset<string>)
    ensures Ordering(BySpread(digest)) && TellsApart(m, BySpread(digest))
  {
    TextsAreOrdered(multiset{});
    forall x: string, y: string
      ensures BySpread(digest)(x, y) || BySpread(digest)(y, x)
      ensures BySpread(digest)(x, y) && BySpread(digest)(y, x) ==> x == y
    {
      LexIsTotal(digest(x), digest(y));
      TextsAreOrdered(multiset{x, y});
    }
    forall x: string, y: string, z: string | BySpread(digest)(x, y) && BySpread(digest)(y, z)
      ensures BySpread(digest)(x, z)
    {
      if digest(x) == digest(y) == digest(z) {
        assert ByText()(x, y) && ByText()(y, z);
      } else if digest(x) != digest(y) && digest(y) != digest(z) {
        LexIsTransitive(digest(x), digest(y), digest(z));
        LexIsTotal(digest(x), digest(y));
      }
    }
  }

  /** The partition does not depend on the order in which the tests were collected. */
  lemma PartitionsForgetOrder(a: seq<string>, b: seq<string>, count: int, digest: string -> seq<int>)
    requires multiset(a) == multiset(b)
    ensures Partitions(a, count, digest) == Partitions(b, count, digest)
  {
    if Distinct(a) {
      DistinctForgetsOrder(a, b);
    }
    if Distinct(b) {
      DistinctForgetsOrder(b, a);
    }
    hide Stride, Distinct, Ordering, TellsApart;
    SpreadIsOrder(digest, multiset(a));
    SortForgetsOrder(a, b, BySpread(digest));
  }

  lemma DistinctForgetsOrder(a: seq<string>, b: seq<string>)
    requires multiset(a) == multiset(b) && Distinct(a)
    ensures Distinct(b)
  {
    forall i, j | 0 <= i < j < |b| ensures b[i] != b[j] {
      if b[i] == b[j] {
        TwiceCounted(b, i, j);
        DistinctCountsOnce(a, b[i]);
        assert false;
      }
    }
  }

  // ----- one runner -----

  /** What a runner leaves behind for the coverage check. */
  datatype Manifest = Manifest(
    revision: string, mysql: string, index: int, count: int, attempt: int, collected: seq<string>,
    selected: seq<string>, passed: seq<string>, skipped: seq<string>, exit: int)

  function Kept(items: seq<string>, chosen: seq<string>): seq<string> {
    if items == [] then [] else Kept(items[..|items| - 1], chosen) + if items[|items| - 1] in chosen then [items[|items| - 1]] else []
  }

  function Excluded(items: seq<string>, chosen: seq<string>): seq<string> {
    if items == [] then [] else Excluded(items[..|items| - 1], chosen) + if items[|items| - 1] in chosen then [] else [items[|items| - 1]]
  }

  lemma {:induction false} KeptCounts(items: seq<string>, chosen: seq<string>, x: string)
    ensures multiset(Kept(items, chosen))[x] == if x in chosen then multiset(items)[x] else 0
  {
    if items != [] {
      KeptCounts(items[..|items| - 1], chosen, x);
      assert items == items[..|items| - 1] + [items[|items| - 1]];
    }
  }

  lemma {:induction false} ExcludedCounts(items: seq<string>, chosen: seq<string>, x: string)
    ensures multiset(Excluded(items, chosen))[x] == if x in chosen then 0 else multiset(items)[x]
  {
    if items != [] {
      ExcludedCounts(items[..|items| - 1], chosen, x);
      assert items == items[..|items| - 1] + [items[|items| - 1]];
    }
  }

  /** A set listed in order. */
  method Listing(s: set<string>) returns (l: seq<string>)
    ensures multiset(l) == multiset(s) && Ascending(l, ByText())
  {
    var rest, listed: seq<string> := s, [];
    while rest != {}
      invariant rest <= s && multiset(listed) == multiset(s - rest)
      decreases rest
    {
      var x :| x in rest;
      assert s - (rest - {x}) == (s - rest) + {x};
      rest, listed := rest - {x}, listed + [x];
    }
    assert s - rest == s;
    TextsAreOrdered(multiset(listed));
    SortIsAscending(listed, ByText());
    l := Sort(listed, ByText());
  }

  /** A manifest reports success only for a runner that selected tests, passed exactly them and skipped none. */
  predicate Honest(m: Manifest) {
    m.exit == 0 ==> m.selected != [] && m.skipped == [] && multiset(m.passed) == multiset(m.selected)
  }

  class Shard {
    const index: nat
    const count: nat
    const revision: string
    const mysql: string
    const digest: string -> seq<int>
    var collected: seq<string>
    var selected: seq<string>
    var passed: set<string>
    var skipped: set<string>

    constructor (index: nat, count: nat, revision: string, mysql: string, digest: string -> seq<int>)
      requires index < count <= 32
      ensures this.index == index && this.count == count && this.digest == digest
      ensures collected == [] && selected == [] && passed == {} && skipped == {}
    {
      this.index, this.count, this.revision, this.mysql, this.digest := index, count, revision, mysql, digest;
      collected, selected, passed, skipped := [], [], {}, {};
    }

    /** The runner keeps exactly its own part of what was collected, in the order it was collected in. */
    method Collect(items: seq<string>) returns (r: Checked<(seq<string>, seq<string>)>)
      requires index < count <= 32
      modifies this`collected, this`selected
      ensures r.Accepted? <==> Distinct(items)
      ensures r.Accepted? ==>
                && multiset(collected) == multiset(items)
                && Partitions(items, count, digest).Accepted?
                && selected == Partitions(items, count, digest).value[index] && Distinct(selected)
                && multiset(r.value.0) == multiset(selected)
                && multiset(r.value.0) + multiset(r.value.1) == multiset(items)
    {
      hide Cut, Spread, Sort, Kept, Excluded, Distinct;
      collected := Sort(items, ByText());
      PartitionsForgetOrder(items, collected, count, digest);
      var parts := Partitions(collected, count, digest);
      if parts.Rejected? {
        return Rejected;
      }
      selected := parts.value[index];
      PartIsDistinct(items, count, digest, index);
      CollectionSplits(items, count, digest, index);
      r := Accepted((Kept(items, selected), Excluded(items, selected)));
    }

    method Report(node: string, call: bool, hasPassed: bool, wasSkipped: bool)
      modifies this`passed, this`skipped
      ensures passed == old(passed) + (if call && hasPassed then {node} else {})
      ensures skipped == old(skipped) + (if wasSkipped then {node} else {})
    {
      if call && hasPassed {
        passed := passed + {node};
      }
      if wasSkipped {
        skipped := skipped + {node};
      }
    }

    /** A session that did not pass everything it selected never reports success. */
    method Finish(exit: int, attempt: int) returns (m: Manifest)
      requires Distinct(selected)
      ensures m.exit == 0 <==> exit == 0 && selected != [] && passed == (set x | x in selected) && skipped == {}
      ensures Honest(m)
      ensures m == Manifest(revision, mysql, index, count, attempt, collected, selected, m.passed, m.skipped, m.exit)
      ensures multiset(m.passed) == multiset(passed) && multiset(m.skipped) == multiset(skipped)
    {
      var complete := selected != [] && passed == (set x | x in selected) && skipped == {};
      var status := if exit == 0 && !complete then 1 else exit;
      var p := Listing(passed);
      var s := Listing(skipped);
      if complete {
        DistinctIsSet(selected);
        assert |s| == |multiset(s)| == 0;
      }
      m := Manifest(revision, mysql, index, count, attempt, collected, selected, p, s, status);
    }
  }

  lemma DistinctIsSet(nodes: seq<string>)
    requires Distinct(nodes)
    ensures multiset(nodes) == multiset(set x | x in nodes)
  {
    forall x ensures multiset(nodes)[x] == multiset(set x | x in nodes)[x] {
      DistinctCountsOnce(nodes, x);
      assert x in nodes <==> x in multiset(nodes);
    }
  }

  lemma PartIsDistinct(nodes: seq<string>, count: int, digest: string -> seq<int>, i: nat)
    requires Partitions(nodes, count, digest).Accepted? && i < count
    ensures Distinct(Partitions(nodes, count, digest).value[i])
  {
    var parts := Partitions(nodes, count, digest).value;
    PartitionsPartition(nodes, count, digest);
    forall k, l | 0 <= k < l < |parts[i]| ensures parts[i][k] != parts[i][l] {
      if parts[i][k] == parts[i][l] {
        TwiceCounted(parts[i], k, l);
        PartWithinUnion(parts, i, i, parts[i][k]);
        DistinctCountsOnce(nodes, parts[i][k]);
        assert false;
      }
    }
  }

  /** Keeping what was selected and excluding the rest loses and repeats nothing. */
  lemma CollectionSplits(items: seq<string>, count: int, digest: string -> seq<int>, index: nat)
    requires Partitions(items, count, digest).Accepted? && index < count
    ensures var selected := Partitions(items, count, digest).value[index];
            && multiset(Kept(items, selected)) == multiset(selected)
            && multiset(Kept(items, selected)) + multiset(Excluded(items, selected)) == multiset(items)
  {
    hide Kept, Excluded, Cut, Spread, Distinct;
    var selected := Partitions(items, count, digest).value[index];
    forall x ensures multiset(Kept(items, selected))[x] == multiset(selected)[x]
    {
      KeptCounts(items, selected, x);
      SelectedCounts(items, count, digest, index, x);
    }
    forall x ensures (multiset(Kept(items, selected)) + multiset(Excluded(items, selected)))[x] == multiset(items)[x] {
      KeptCounts(items, selected, x);
      ExcludedCounts(items, selected, x);
    }
  }

  lemma SelectedCounts(nodes: seq<string>, count: int, digest: string -> seq<int>, i: nat, x: string)
    requires Partitions(nodes, count, digest).Accepted? && i < count
    ensures var part := Partitions(nodes, count, digest).value[i];
            multiset(part)[x] == if x in part then multiset(nodes)[x] else 0
  {
    var parts := Partitions(nodes, count, digest).value;
    PartitionsPartition(nodes, count, digest);
    PartWithinUnion(parts, i, i, x);
    DistinctCountsOnce(nodes, x);
    assert x in parts[i] <==> multiset(parts[i])[x] > 0;
  }
}
