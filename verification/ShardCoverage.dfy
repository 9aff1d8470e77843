/** The coverage check over all runners' manifests (scripts/ci/verify_test_shards.py). */
module ShardCoverage {
  import opened Outcomes
  import opened Sorting
  import opened TestShards

  datatype Key = Key(mysql: string, index: int)

  function KeyOf(m: Manifest): Key {
    Key(m.mysql, m.index)
  }

  function Tests(m: Manifest): set<string> {
    set t | t in m.collected
  }

  // ----- what is demanded of the manifests -----

  /** One manifest on its own. */
  predicate Fits(m: Manifest, revision: string, versions: seq<string>, count: int, maxAttempt: int) {
    && m.revision == revision && m.mysql in versions && 0 <= m.index < count && m.count == count
    && 1 <= m.attempt <= maxAttempt
    && m.collected != [] && Distinct(m.collected)
    && m.selected != [] && Distinct(m.selected) && forall t :: t in m.selected ==> t in m.collected
  }

  /** Two manifests agree on the tests, and attempts of one shard on its part. */
  predicate Agree(a: Manifest, b: Manifest) {
    && Tests(a) == Tests(b)
    && (KeyOf(a) == KeyOf(b) ==> a.attempt != b.attempt && multiset(a.selected) == multiset(b.selected))
  }

  predicate AllFit(ms: seq<Manifest>, revision: string, versions: seq<string>, count: int, maxAttempt: int) {
    forall i :: 0 <= i < |ms| ==> Fits(ms[i], revision, versions, count, maxAttempt)
  }

  predicate AllAgree(ms: seq<Manifest>) {
    forall i, j :: 0 <= i < j < |ms| ==> Agree(ms[i], ms[j])
  }

  /** The newest attempt of a shard, passing or not. */
  function Newest(ms: seq<Manifest>, key: Key): Option<Manifest> {
    if ms == [] then None
    else
      var earlier, last := Newest(ms[..|ms| - 1], key), ms[|ms| - 1];
      if KeyOf(last) == key && (earlier.None? || last.attempt > earlier.value.attempt) then Some(last) else earlier
  }

  predicate Passes(m: Manifest) {
    m.exit == 0 && m.skipped == [] && multiset(m.selected) == multiset(m.passed)
  }

  /** The newest attempt of every shard below n of a version has passed completely. */
  predicate ShardsPass(ms: seq<Manifest>, mysql: string, n: int) {
    forall i :: 0 <= i < n ==> Newest(ms, Key(mysql, i)).Some? && Passes(Newest(ms, Key(mysql, i)).value)
  }

  /** How often the newest attempts of the shards below n passed each test. */
  function PassedBelow(ms: seq<Manifest>, mysql: string, n: nat): multiset<string> {
    if n == 0 then multiset{}
    else
      PassedBelow(ms, mysql, n - 1) +
      match Newest(ms, Key(mysql, n - 1)) case None => multiset{} case Some(m) => multiset(m.passed)
  }

  predicate Inventory(ms: seq<Manifest>, versions: seq<string>, maxAttempt: int) {
    maxAttempt >= 1 && ms != [] && versions != [] && Distinct(versions)
  }

  predicate VersionCovered(ms: seq<Manifest>, mysql: string, count: nat, tests: set<string>) {
    ShardsPass(ms, mysql, count) && PassedBelow(ms, mysql, count) == multiset(tests)
  }

  /** The whole demand. */
  ghost predicate Covered(ms: seq<Manifest>, revision: string, versions: seq<string>, count: int, maxAttempt: int) {
    && Inventory(ms, versions, maxAttempt)
    && AllFit(ms, revision, versions, count, maxAttempt) && AllAgree(ms)
    && forall v :: v in versions ==> VersionCovered(ms, v, if count < 0 then 0 else count, Tests(ms[0]))
  }

  // ----- the grouping loop -----

  type History = map<int, Manifest>

  /** Every manifest is filed under its shard and attempt, and nothing else is. */
  ghost predicate Filed(ms: seq<Manifest>, grouped: map<Key, History>) {
    && (forall i :: 0 <= i < |ms| ==>
          KeyOf(ms[i]) in grouped && ms[i].attempt in grouped[KeyOf(ms[i])]
          && grouped[KeyOf(ms[i])][ms[i].attempt] == ms[i])
    && (forall key :: key in grouped ==> grouped[key] != map[])
    && (forall key, n :: key in grouped && n in grouped[key] ==>
          grouped[key][n] in ms && KeyOf(grouped[key][n]) == key && grouped[key][n].attempt == n)
  }

  function HistoryOf(grouped: map<Key, History>, key: Key): History {
    if key in grouped then grouped[key] else map[]
  }

  lemma FileOne(ms: seq<Manifest>, grouped: map<Key, History>, m: Manifest)
    requires Filed(ms, grouped) && m.attempt !in HistoryOf(grouped, KeyOf(m))
    ensures Filed(ms + [m], grouped[KeyOf(m) := HistoryOf(grouped, KeyOf(m))[m.attempt := m]])
  {
    var history := HistoryOf(grouped, KeyOf(m))[m.attempt := m];
    assert m.attempt in history;
    var longer, more := ms + [m], grouped[KeyOf(m) := history];
    forall i | 0 <= i < |longer|
      ensures KeyOf(longer[i]) in more && longer[i].attempt in more[KeyOf(longer[i])]
      ensures more[KeyOf(longer[i])][longer[i].attempt] == longer[i]
    {
      if i < |ms| {
        assert longer[i] == ms[i];
      }
    }
  }

  /** A manifest that agrees with all earlier ones is exactly one that the loop lets through. */
  lemma AgreesWithHistory(ms: seq<Manifest>, grouped: map<Key, History>, m: Manifest, chosen: int)
    requires Filed(ms, grouped) && AllAgree(ms)
    requires KeyOf(m) in grouped ==> chosen in grouped[KeyOf(m)]
    ensures (forall i :: 0 <= i < |ms| ==> Agree(ms[i], m)) <==>
              && (forall i :: 0 <= i < |ms| ==> Tests(ms[i]) == Tests(m))
              && m.attempt !in HistoryOf(grouped, KeyOf(m))
              && (KeyOf(m) in grouped ==> multiset(m.selected) == multiset(grouped[KeyOf(m)][chosen].selected))
  {
    hide Tests;
    var history := HistoryOf(grouped, KeyOf(m));
    if KeyOf(m) in grouped {
      var k :| 0 <= k < |ms| && ms[k] == history[chosen];
      forall i | 0 <= i < |ms| && KeyOf(ms[i]) == KeyOf(m)
        ensures ms[i].attempt in history && multiset(ms[i].selected) == multiset(ms[k].selected)
      {
        if i < k {
          assert Agree(ms[i], ms[k]);
        } else if k < i {
          assert Agree(ms[k], ms[i]);
        }
      }
      if m.attempt in history {
        var i :| 0 <= i < |ms| && ms[i] == history[m.attempt];
        assert !Agree(ms[i], m);
      }
    }
  }

  lemma AgreeOneMore(ms: seq<Manifest>, i: nat)
    requires i < |ms| && AllAgree(ms[..i])
    ensures AllAgree(ms[..i + 1]) <==> forall k :: 0 <= k < i ==> Agree(ms[..i][k], ms[i])
  {
    hide Agree;
    assert ms[..i + 1][i] == ms[i];
    assert forall k :: 0 <= k < i ==> ms[..i + 1][k] == ms[..i][k] == ms[k];
  }

  lemma DisagreeEarly(ms: seq<Manifest>, i: nat)
    requires i <= |ms| && !AllAgree(ms[..i])
    ensures !AllAgree(ms)
  {
    var k, l :| 0 <= k < l < i && !Agree(ms[..i][k], ms[..i][l]);
    assert !Agree(ms[k], ms[l]);
  }

  // ----- choosing the newest -----

  predicate IsNewest(ms: seq<Manifest>, key: Key, m: Manifest) {
    && m in ms && KeyOf(m) == key
    && forall i :: 0 <= i < |ms| && KeyOf(ms[i]) == key ==> ms[i].attempt <= m.attempt
  }

  lemma {:induction false} NewestIsNewest(ms: seq<Manifest>, key: Key)
    ensures Newest(ms, key).None? <==> forall i :: 0 <= i < |ms| ==> KeyOf(ms[i]) != key
    ensures Newest(ms, key).Some? ==> IsNewest(ms, key, Newest(ms, key).value)
  {
    if ms != [] {
      var init, last := ms[..|ms| - 1], ms[|ms| - 1];
      NewestIsNewest(init, key);
      assert ms == init + [last];
    }
  }

  lemma AttemptsDiffer(ms: seq<Manifest>, i: nat, j: nat)
    requires AllAgree(ms) && i < |ms| && j < |ms| && KeyOf(ms[i]) == KeyOf(ms[j])
    ensures ms[i].attempt == ms[j].attempt ==> i == j
  {
    assert i < j ==> Agree(ms[i], ms[j]);
    assert j < i ==> Agree(ms[j], ms[i]);
  }

  lemma NewestIsUnique(ms: seq<Manifest>, key: Key, m: Manifest)
    requires AllAgree(ms) && IsNewest(ms, key, m)
    ensures Newest(ms, key) == Some(m)
  {
    NewestIsNewest(ms, key);
    var i :| 0 <= i < |ms| && ms[i] == m;
    var n := Newest(ms, key).value;
    var j :| 0 <= j < |ms| && ms[j] == n;
    AttemptsDiffer(ms, i, j);
  }

  function Greatest(s: set<int>): (n: int)
    requires s != {}
    ensures n in s && forall k :: k in s ==> k <= n
  {
    GreatestExists(s);
    var n :| n in s && forall k :: k in s ==> k <= n;
    n
  }

  lemma Element<T>(s: set<T>) returns (x: T)
    requires s != {}
    ensures x in s
  {
    x :| x in s;
  }

  lemma {:induction false} GreatestExists(s: set<int>)
    requires s != {}
    ensures exists n :: n in s && forall k :: k in s ==> k <= n
  {
    var x := Element(s);
    if s != {x} {
      assert s == (s - {x}) + {x};
      GreatestExists(s - {x});
      var n :| n in s - {x} && forall k :: k in s - {x} ==> k <= n;
      var m := if x <= n then n else x;
      assert m in s && forall k :: k in s ==> k <= m;
    }
  }

  lemma GreatestIsNewest(ms: seq<Manifest>, grouped: map<Key, History>, key: Key)
    requires Filed(ms, grouped) && AllAgree(ms) && key in grouped
    ensures Newest(ms, key) == Some(grouped[key][Greatest(grouped[key].Keys)])
  {
    var m := grouped[key][Greatest(grouped[key].Keys)];
    forall i | 0 <= i < |ms| && KeyOf(ms[i]) == key ensures ms[i].attempt <= m.attempt {
      assert ms[i].attempt in grouped[key].Keys;
    }
    NewestIsUnique(ms, key, m);
  }

  // ----- counting the shards -----

  function Expected(versions: seq<string>, count: nat): set<Key> {
    set v, i | v in versions && 0 <= i < count :: Key(v, i)
  }

  function OfVersion(v: string, count: nat): set<Key> {
    set i | 0 <= i < count :: Key(v, i)
  }

  lemma {:induction false} VersionSize(v: string, count: nat)
    ensures |OfVersion(v, count)| == count
  {
    if count == 0 {
      assert OfVersion(v, 0) == {};
    } else {
      VersionSize(v, count - 1);
      assert OfVersion(v, count) == OfVersion(v, count - 1) + {Key(v, count - 1)};
    }
  }

  lemma {:induction false} ExpectedSize(versions: seq<string>, count: nat)
    requires Distinct(versions)
    ensures |Expected(versions, count)| == |versions| * count
  {
    if versions == [] {
      assert Expected(versions, count) == {};
    } else {
      var init, last := versions[..|versions| - 1], versions[|versions| - 1];
      assert versions == init + [last];
      ExpectedSize(init, count);
      VersionSize(last, count);
      ExpectedSplits(init, last, count);
      hide Expected;
      OneMoreTimes(|init|, count);
    }
  }

  lemma OneMoreTimes(n: nat, count: nat)
    ensures (n + 1) * count == n * count + count
  {
  }

  lemma ExpectedSplits(init: seq<string>, last: string, count: nat)
    requires last !in init
    ensures |Expected(init + [last], count)| == |Expected(init, count)| + |OfVersion(last, count)|
  {
    assert Expected(init + [last], count) == Expected(init, count) + OfVersion(last, count);
    assert Expected(init, count) !! OfVersion(last, count);
  }

  lemma SameSizeSame<T>(a: set<T>, b: set<T>)
    requires a <= b
    ensures |a| == |b| <==> a == b
  {
    assert |b - a| == |b| - |a|;
  }

  // ----- the check -----

  lemma NothingFiled()
    ensures Filed([], map[]) && AllAgree([])
  {
  }

  /** The first loop: manifests are grouped by shard and attempt, or one of them is refused. */
  method Group(ms: seq<Manifest>, revision: string, versions: seq<string>, count: int, maxAttempt: int)
    returns (r: Checked<map<Key, History>>)
    requires ms != []
    ensures r.Accepted? <==> AllFit(ms, revision, versions, count, maxAttempt) && AllAgree(ms)
    ensures r.Accepted? ==> Filed(ms, r.value)
  {
    hide Fits, AllAgree, Filed, Agree, HistoryOf;
    var grouped: map<Key, History> := map[];
    NothingFiled();
    assert ms[..0] == [];
    for i := 0 to |ms|
      invariant forall k :: 0 <= k < i ==> Fits(ms[k], revision, versions, count, maxAttempt)
      invariant Filed(ms[..i], grouped) && AllAgree(ms[..i])
    {
      var m := ms[i];
      if !Fits(m, revision, versions, count, maxAttempt) {
        return Rejected;
      }
      var history := HistoryOf(grouped, KeyOf(m));
      // Any recorded attempt of the shard stands for its part; the earlier ones have been compared already.
      var chosen := 0;
      if history != map[] {
        chosen := Greatest(history.Keys);
      }
      ChosenIsFiled(ms[..i], grouped, KeyOf(m), chosen);
      AgreesWithHistory(ms[..i], grouped, m, chosen);
      AgreeOneMore(ms, i);
      FirstStands(ms[..i], m);
      if || (i > 0 && Tests(m) != Tests(ms[0]))
         || m.attempt in history
         || (history != map[] && multiset(m.selected) != multiset(history[chosen].selected))
      {
        DisagreeEarly(ms, i + 1);
        return Rejected;
      }
      assert ms[..i + 1] == ms[..i] + [m];
      FileOne(ms[..i], grouped, m);
      grouped := grouped[KeyOf(m) := history[m.attempt := m]];
    }
    assert ms[..|ms|] == ms;
    r := Accepted(grouped);
  }

  lemma ChosenIsFiled(ms: seq<Manifest>, grouped: map<Key, History>, key: Key, chosen: int)
    requires Filed(ms, grouped) && (HistoryOf(grouped, key) != map[] ==> chosen in HistoryOf(grouped, key))
    ensures key in grouped <==> HistoryOf(grouped, key) != map[]
    ensures key in grouped ==> chosen in grouped[key] && HistoryOf(grouped, key) == grouped[key]
  {
  }

  /** Comparing the tests with the first manifest is comparing them with all. */
  lemma FirstStands(ms: seq<Manifest>, m: Manifest)
    requires AllAgree(ms)
    ensures (forall i :: 0 <= i < |ms| ==> Tests(ms[i]) == Tests(m)) <==> ms == [] || Tests(ms[0]) == Tests(m)
  {
    hide Tests;
    forall i | 0 < i < |ms| ensures Tests(ms[0]) == Tests(ms[i]) {
      assert Agree(ms[0], ms[i]);
    }
  }

  /** Counting the groups tells whether every shard of every version has reported. */
  lemma GroupsAreComplete(ms: seq<Manifest>, grouped: map<Key, History>, revision: string, versions: seq<string>,
                          count: nat, maxAttempt: int)
    requires Filed(ms, grouped) && AllFit(ms, revision, versions, count, maxAttempt) && Distinct(versions)
    ensures |grouped| == |versions| * count <==> forall key :: key in Expected(versions, count) ==> key in grouped
  {
    forall key | key in grouped ensures key in Expected(versions, count) {
      var n := Element(grouped[key].Keys);
      var i :| 0 <= i < |ms| && ms[i] == grouped[key][n];
      assert Fits(ms[i], revision, versions, count, maxAttempt);
    }
    ExpectedSize(versions, count);
    hide Filed, AllFit, Expected, Distinct;
    SameSizeSame(grouped.Keys, Expected(versions, count));
    assert |grouped| == |grouped.Keys|;
  }

  /** The shards of one version: all newest attempts pass, and together they pass every test once. */
  method CheckVersion(ms: seq<Manifest>, grouped: map<Key, History>, mysql: string, count: nat, tests: set<string>)
    returns (ok: bool)
    requires Filed(ms, grouped) && AllAgree(ms)
    requires forall i :: 0 <= i < count ==> Key(mysql, i) in grouped
    requires forall i :: 0 <= i < count ==> grouped[Key(mysql, i)] != map[]
    ensures ok <==> VersionCovered(ms, mysql, count, tests)
  {
    hide Filed, AllAgree, Newest, Passes;
    var combined: multiset<string> := multiset{};
    for i := 0 to count
      invariant ShardsPass(ms, mysql, i) && combined == PassedBelow(ms, mysql, i)
    {
      var history := grouped[Key(mysql, i)];
      GreatestIsNewest(ms, grouped, Key(mysql, i));
      var m := history[Greatest(history.Keys)];
      if !Passes(m) {
        return false;
      }
      combined := combined + multiset(m.passed);
    }
    ok := combined == multiset(tests);
  }

  /** `verify`: the number of tests, exactly when the manifests cover them. */
  method Verify(ms: seq<Manifest>, revision: string, versions: seq<string>, count: int, maxAttempt: int)
    returns (r: Checked<nat>)
    ensures r.Accepted? <==> Covered(ms, revision, versions, count, maxAttempt)
    ensures r.Accepted? ==> r.value == |Tests(ms[0])|
  {
    hide AllFit, AllAgree, Filed, VersionCovered, Tests, Distinct, Expected;
    if !Inventory(ms, versions, maxAttempt) {
      return Rejected;
    }
    var grouping := Group(ms, revision, versions, count, maxAttempt);
    if grouping.Rejected? {
      return Rejected;
    }
    var grouped := grouping.value;
    CountIsPositive(ms, revision, versions, count, maxAttempt);
    GroupsAreComplete(ms, grouped, revision, versions, count, maxAttempt);
    if |grouped| != |versions| * count {
      MissingIsUncovered(ms, grouped, versions, count, Tests(ms[0]));
      return Rejected;
    }
    for k := 0 to |versions|
      invariant forall l :: 0 <= l < k ==> VersionCovered(ms, versions[l], count, Tests(ms[0]))
    {
      CompleteVersion(ms, grouped, versions, count, versions[k]);
      var covered := CheckVersion(ms, grouped, versions[k], count, Tests(ms[0]));
      if !covered {
        return Rejected;
      }
    }
    r := Accepted(|Tests(ms[0])|);
  }

  lemma CountIsPositive(ms: seq<Manifest>, revision: string, versions: seq<string>, count: int, maxAttempt: int)
    requires ms != [] && AllFit(ms, revision, versions, count, maxAttempt)
    ensures count > 0
  {
    assert Fits(ms[0], revision, versions, count, maxAttempt);
  }

  lemma CompleteVersion(ms: seq<Manifest>, grouped: map<Key, History>, versions: seq<string>, count: nat, v: string)
    requires Filed(ms, grouped) && v in versions
    requires forall key :: key in Expected(versions, count) ==> key in grouped
    ensures forall i :: 0 <= i < count ==> Key(v, i) in grouped && grouped[Key(v, i)] != map[]
  {
    forall i | 0 <= i < count ensures Key(v, i) in grouped {
      assert Key(v, i) in Expected(versions, count);
    }
  }

  lemma MissingIsUncovered(ms: seq<Manifest>, grouped: map<Key, History>, versions: seq<string>, count: nat,
                           tests: set<string>)
    requires Filed(ms, grouped)
    requires !forall key :: key in Expected(versions, count) ==> key in grouped
    ensures exists v :: v in versions && !VersionCovered(ms, v, count, tests)
  {
    var key :| key in Expected(versions, count) && key !in grouped;
    NewestIsNewest(ms, key);
    assert !ShardsPass(ms, key.mysql, count);
  }

  // ----- what acceptance means, and who is accepted -----

  function PassCount(ms: seq<Manifest>, mysql: string, i: int, t: string): nat {
    match Newest(ms, Key(mysql, i)) case None => 0 case Some(m) => multiset(m.passed)[t]
  }

  /** The test was passed by one shard of this version, once, and by no other. */
  ghost predicate PassedOnce(ms: seq<Manifest>, mysql: string, n: nat, t: string) {
    exists i :: 0 <= i < n && PassCount(ms, mysql, i, t) == 1
                && forall j :: 0 <= j < n && j != i ==> PassCount(ms, mysql, j, t) == 0
  }

  lemma {:induction false} CountTellsOnce(ms: seq<Manifest>, mysql: string, n: nat, t: string)
    ensures PassedBelow(ms, mysql, n)[t] == 0 ==> forall i :: 0 <= i < n ==> PassCount(ms, mysql, i, t) == 0
    ensures PassedBelow(ms, mysql, n)[t] == 1 ==> PassedOnce(ms, mysql, n, t)
  {
    hide Newest;
    if n > 0 {
      CountTellsOnce(ms, mysql, n - 1, t);
      assert PassedBelow(ms, mysql, n)[t] == PassedBelow(ms, mysql, n - 1)[t] + PassCount(ms, mysql, n - 1, t);
    }
  }

  /** Acceptance means: on every version each collected test passed exactly once in the newest attempts, and
      nothing else passed. */
  lemma CoveredMeansOnce(ms: seq<Manifest>, revision: string, versions: seq<string>, count: int, maxAttempt: int,
                         v: string, t: string)
    requires Covered(ms, revision, versions, count, maxAttempt) && v in versions
    ensures count > 0
    ensures t in Tests(ms[0]) ==> PassedOnce(ms, v, count, t)
    ensures t !in Tests(ms[0]) ==> forall i :: 0 <= i < count ==> PassCount(ms, v, i, t) == 0
  {
    CountIsPositive(ms, revision, versions, count, maxAttempt);
    CountTellsOnce(ms, v, count, t);
    hide AllFit, AllAgree, ShardsPass, Tests, PassCount;
    assert VersionCovered(ms, v, count, Tests(ms[0]));
  }

  /** A manifest as `Shard.Finish` writes it, of a runner that collected these tests and cut them by
      `partitions`. */
  predicate Runs(m: Manifest, nodes: seq<string>, parts: seq<seq<string>>, revision: string, versions: seq<string>,
                 maxAttempt: int)
  {
    && m.revision == revision && m.mysql in versions && 0 <= m.index < |parts| && m.count == |parts|
    && 1 <= m.attempt <= maxAttempt
    && multiset(m.collected) == multiset(nodes) && multiset(m.selected) == multiset(parts[m.index])
    && Honest(m)
  }

  /** The newest attempt of every shard below n of a version reports success. */
  predicate ShardsSucceed(ms: seq<Manifest>, mysql: string, n: int) {
    forall i :: 0 <= i < n ==> Newest(ms, Key(mysql, i)).Some? && Newest(ms, Key(mysql, i)).value.exit == 0
  }

  /** Runners of these versions wrote these manifests, none of them the same attempt twice. */
  ghost predicate WrittenByRuns(ms: seq<Manifest>, nodes: seq<string>, parts: seq<seq<string>>, revision: string,
                               versions: seq<string>, maxAttempt: int)
  {
    && (forall i :: 0 <= i < |ms| ==> Runs(ms[i], nodes, parts, revision, versions, maxAttempt))
    && (forall i, j :: 0 <= i < j < |ms| && KeyOf(ms[i]) == KeyOf(ms[j]) ==> ms[i].attempt != ms[j].attempt)
  }

  lemma SameSet(a: seq<string>, b: seq<string>)
    requires multiset(a) == multiset(b)
    ensures (set t | t in a) == (set t | t in b)
  {
    forall t ensures t in a <==> t in b {
      SameElements(a, b, t);
    }
  }

  /** With at least as many tests as shards, every manifest of such a runner fits. */
  lemma RunFits(m: Manifest, nodes: seq<string>, count: int, digest: string -> seq<int>, revision: string,
                versions: seq<string>, maxAttempt: int)
    requires Partitions(nodes, count, digest).Accepted? && count <= |nodes|
    requires Runs(m, nodes, Partitions(nodes, count, digest).value, revision, versions, maxAttempt)
    ensures Fits(m, revision, versions, count, maxAttempt) && Tests(m) == (set t | t in nodes)
  {
    hide Cut, Spread;
    var part := Partitions(nodes, count, digest).value[m.index];
    DistinctForgetsOrder(nodes, m.collected);
    PartIsDistinct(nodes, count, digest, m.index);
    DistinctForgetsOrder(part, m.selected);
    PartsAreInhabited(nodes, count, digest, m.index);
    SameSet(nodes, m.collected);
    assert |m.collected| == |multiset(m.collected)| == |multiset(nodes)| == |nodes|;
    assert |m.selected| == |multiset(m.selected)| == |multiset(part)| == |part|;
    forall t | t in m.selected ensures t in m.collected {
      SameElements(m.selected, part, t);
      SelectedCounts(nodes, count, digest, m.index, t);
      assert t in multiset(part);
      assert t in multiset(nodes);
    }
  }

  lemma {:induction false} PassedIsUnion(ms: seq<Manifest>, nodes: seq<string>, parts: seq<seq<string>>, revision: string,
                                         versions: seq<string>, maxAttempt: int, v: string, n: nat)
    requires WrittenByRuns(ms, nodes, parts, revision, versions, maxAttempt) && ShardsPass(ms, v, |parts|) && n <= |parts|
    ensures PassedBelow(ms, v, n) == Union(parts[..n])
  {
    if n > 0 {
      PassedIsUnion(ms, nodes, parts, revision, versions, maxAttempt, v, n - 1);
      assert parts[..n][..n - 1] == parts[..n - 1];
      var key := Key(v, n - 1);
      assert Newest(ms, key).Some? && Passes(Newest(ms, key).value);
      NewestIsNewest(ms, key);
      var m := Newest(ms, key).value;
      var i :| 0 <= i < |ms| && ms[i] == m;
      assert Runs(ms[i], nodes, parts, revision, versions, maxAttempt);
      assert multiset(m.passed) == multiset(parts[n - 1]);
    }
  }

  lemma RunsAgree(ms: seq<Manifest>, nodes: seq<string>, parts: seq<seq<string>>, revision: string,
                  versions: seq<string>, maxAttempt: int)
    requires WrittenByRuns(ms, nodes, parts, revision, versions, maxAttempt)
    ensures AllAgree(ms)
  {
    forall i, j | 0 <= i < j < |ms| ensures Agree(ms[i], ms[j]) {
      assert Runs(ms[i], nodes, parts, revision, versions, maxAttempt);
      assert Runs(ms[j], nodes, parts, revision, versions, maxAttempt);
      SameSet(ms[i].collected, ms[j].collected);
    }
  }

  /** For what runners write, success is passing completely. */
  lemma SuccessIsPassing(ms: seq<Manifest>, nodes: seq<string>, parts: seq<seq<string>>, revision: string,
                         versions: seq<string>, maxAttempt: int, v: string)
    requires WrittenByRuns(ms, nodes, parts, revision, versions, maxAttempt)
    ensures ShardsSucceed(ms, v, |parts|) <==> ShardsPass(ms, v, |parts|)
  {
    forall i | 0 <= i < |parts| && Newest(ms, Key(v, i)).Some?
      ensures Newest(ms, Key(v, i)).value.exit == 0 <==> Passes(Newest(ms, Key(v, i)).value)
    {
      NewestIsNewest(ms, Key(v, i));
      var k :| 0 <= k < |ms| && ms[k] == Newest(ms, Key(v, i)).value;
      assert Runs(ms[k], nodes, parts, revision, versions, maxAttempt);
    }
  }

  /** A shard without tests never reports success, so success everywhere takes as many tests as shards. */
  lemma SuccessNeedsTests(ms: seq<Manifest>, nodes: seq<string>, count: int, digest: string -> seq<int>,
                          revision: string, versions: seq<string>, maxAttempt: int, v: string)
    requires Partitions(nodes, count, digest).Accepted?
    requires WrittenByRuns(ms, nodes, Partitions(nodes, count, digest).value, revision, versions, maxAttempt)
    ensures ShardsSucceed(ms, v, count) ==> count <= |nodes|
  {
    hide Cut, Spread;
    if ShardsSucceed(ms, v, count) {
      var parts, key := Partitions(nodes, count, digest).value, Key(v, count - 1);
      PartsAreInhabited(nodes, count, digest, count - 1);
      assert Newest(ms, key).Some?;
      NewestIsNewest(ms, key);
      var i :| 0 <= i < |ms| && ms[i] == Newest(ms, key).value;
      assert Runs(ms[i], nodes, parts, revision, versions, maxAttempt);
      assert |ms[i].selected| == |multiset(ms[i].selected)| == |parts[count - 1]|;
    }
  }

  /** The main result: the manifests that runners write over parts cut by `partitions` are accepted exactly
      when every newest attempt reports success; then there are no more shards than tests, and the number
      returned is the number of tests. */
  lemma WrittenRunsAreCovered(ms: seq<Manifest>, nodes: seq<string>, count: int, digest: string -> seq<int>,
                              revision: string, versions: seq<string>, maxAttempt: int)
    requires Partitions(nodes, count, digest).Accepted? && versions != [] && Distinct(versions) && maxAttempt >= 1
    requires WrittenByRuns(ms, nodes, Partitions(nodes, count, digest).value, revision, versions, maxAttempt)
    ensures Covered(ms, revision, versions, count, maxAttempt)
            <==> forall v :: v in versions ==> ShardsSucceed(ms, v, count)
    ensures Covered(ms, revision, versions, count, maxAttempt) ==> count <= |nodes| && |Tests(ms[0])| == |nodes|
  {
    var parts := Partitions(nodes, count, digest).value;
    assert |parts| == count;
    hide Cut, Spread, ShardsPass, ShardsSucceed, PassedBelow, Newest, AllFit, AllAgree, Tests;
    forall v | v in versions ensures ShardsSucceed(ms, v, count) <==> ShardsPass(ms, v, count) {
      SuccessIsPassing(ms, nodes, parts, revision, versions, maxAttempt, v);
    }
    if forall v :: v in versions ==> ShardsSucceed(ms, v, count) {
      SuccessNeedsTests(ms, nodes, count, digest, revision, versions, maxAttempt, versions[0]);
      PassingRunsAreCovered(ms, nodes, count, digest, revision, versions, maxAttempt);
    }
  }

  lemma PassingRunsAreCovered(ms: seq<Manifest>, nodes: seq<string>, count: int, digest: string -> seq<int>,
                              revision: string, versions: seq<string>, maxAttempt: int)
    requires Partitions(nodes, count, digest).Accepted? && versions != [] && Distinct(versions) && maxAttempt >= 1
    requires WrittenByRuns(ms, nodes, Partitions(nodes, count, digest).value, revision, versions, maxAttempt)
    requires count <= |nodes| && forall v :: v in versions ==> ShardsPass(ms, v, count)
    ensures Covered(ms, revision, versions, count, maxAttempt) && |Tests(ms[0])| == |nodes|
  {
    var parts := Partitions(nodes, count, digest).value;
    hide Cut, Spread;
    FirstShardRan(ms, versions, parts);
    forall i | 0 <= i < |ms|
      ensures Fits(ms[i], revision, versions, count, maxAttempt) && Tests(ms[i]) == (set t | t in nodes)
    {
      RunFits(ms[i], nodes, count, digest, revision, versions, maxAttempt);
    }
    RunsAgree(ms, nodes, parts, revision, versions, maxAttempt);
    DistinctIsSet(nodes);
    PartitionsPartition(nodes, count, digest);
    assert parts[..count] == parts;
    forall v | v in versions ensures VersionCovered(ms, v, count, Tests(ms[0])) {
      PassedIsUnion(ms, nodes, parts, revision, versions, maxAttempt, v, count);
    }
    hide WrittenByRuns, Fits, VersionCovered;
    assert |set t | t in nodes| == |multiset(set t | t in nodes)| == |multiset(nodes)| == |nodes|;
  }

  lemma FirstShardRan(ms: seq<Manifest>, versions: seq<string>, parts: seq<seq<string>>)
    requires versions != [] && |parts| > 0 && forall v :: v in versions ==> ShardsPass(ms, v, |parts|)
    ensures ms != []
  {
    assert ShardsPass(ms, versions[0], |parts|);
    assert Newest(ms, Key(versions[0], 0)).Some?;
  }
}
