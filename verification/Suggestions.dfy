/** The suggestions of a report projection: `_suggestions` of
    src/qs_ai/application/interpretation/input_values.py, its collecting loops and what their result means. */
module Suggestions {
  import opened Escapes
  import opened Outcomes
  import opened Texts

  datatype Suggestion = Suggestion(
    sourceIndex: int, category: string, content: string, dimensionCode: Option<string>)

  /** What a dimension of the snapshot contributes: its own suggestion. */
  datatype Advice = Advice(code: string, suggestion: string)

  datatype Item = Item(ref: string, category: string, content: string, dimensionRefs: seq<string>)

  datatype Projection = Projection(items: seq<Item>, byDimension: map<string, seq<string>>)

  /** One call of the inner `append`; the empty code names no dimension. */
  datatype Attempt = Attempt(ref: string, category: string, content: string, code: string) {
    function Triple(): (string, string, string) {
      (category, content, code)
    }

    predicate Clean() {
      category != "" && Plain(content, 2000, true)
    }
  }

  // ----- what is offered -----

  predicate WellIndexed(s: seq<Suggestion>) {
    && (forall i :: 0 <= i < |s| ==> s[i].sourceIndex >= 0)
    && (forall i, j :: 0 <= i < j < |s| ==> s[i].sourceIndex != s[j].sourceIndex)
  }

  predicate DistinctCodes(a: seq<Advice>) {
    forall i, j :: 0 <= i < j < |a| ==> a[i].code != a[j].code
  }

  function FromReport(s: Suggestion): Attempt
    requires s.sourceIndex >= 0
  {
    Attempt("suggestion:report:" + Decimal(s.sourceIndex + 1), s.category, s.content,
            if s.dimensionCode.Some? then s.dimensionCode.value else "")
  }

  function FromDimension(a: Advice): Attempt {
    Attempt("suggestion:dimension:" + Ref(a.code), "dimension", a.suggestion, a.code)
  }

  function Reported(s: seq<Suggestion>): (r: seq<Attempt>)
    requires forall i :: 0 <= i < |s| ==> s[i].sourceIndex >= 0
    ensures |r| == |s| && forall i :: 0 <= i < |s| ==> r[i] == FromReport(s[i])
  {
    seq(|s|, i requires 0 <= i < |s| => FromReport(s[i]))
  }

  function Advised(a: seq<Advice>): seq<Attempt> {
    if a == [] then []
    else Advised(a[..|a| - 1]) + if Blank(a[|a| - 1].suggestion) then [] else [FromDimension(a[|a| - 1])]
  }

  function Attempts(s: seq<Suggestion>, a: seq<Advice>): seq<Attempt>
    requires WellIndexed(s)
  {
    Reported(s) + Advised(a)
  }

  predicate AllClean(attempts: seq<Attempt>) {
    forall i :: 0 <= i < |attempts| ==> attempts[i].Clean()
  }

  lemma CleanParts(a: seq<Attempt>, b: seq<Attempt>)
    ensures AllClean(a + b) <==> AllClean(a) && AllClean(b)
  {
    assert forall i :: 0 <= i < |b| ==> (a + b)[|a| + i] == b[i];
    assert forall i :: 0 <= i < |a| ==> (a + b)[i] == a[i];
  }

  // ----- what is kept of it -----

  predicate Repeats(earlier: seq<Attempt>, a: Attempt) {
    exists j :: 0 <= j < |earlier| && earlier[j].Triple() == a.Triple()
  }

  /** An attempt is kept if it is the first with its triple and its dimension, if any, is projected. */
  predicate Keeps(earlier: seq<Attempt>, a: Attempt, refs: map<string, string>) {
    !Repeats(earlier, a) && (a.code == "" || a.code in refs)
  }

  function ItemOf(a: Attempt, refs: map<string, string>): Item
    requires a.code == "" || a.code in refs
  {
    Item(a.ref, a.category, a.content, if a.code == "" then [] else [refs[a.code]])
  }

  function Items(attempts: seq<Attempt>, refs: map<string, string>): seq<Item> {
    if attempts == [] then []
    else
      var earlier, last := attempts[..|attempts| - 1], attempts[|attempts| - 1];
      Items(earlier, refs) + if Keeps(earlier, last, refs) then [ItemOf(last, refs)] else []
  }

  /** The references listed under a dimension code, in order. */
  function Listed(attempts: seq<Attempt>, refs: map<string, string>, code: string): seq<string> {
    if attempts == [] then []
    else
      var earlier, last := attempts[..|attempts| - 1], attempts[|attempts| - 1];
      Listed(earlier, refs, code)
      + if Keeps(earlier, last, refs) && last.code == code then [last.ref] else []
  }

  function ByDimension(attempts: seq<Attempt>, refs: map<string, string>): map<string, seq<string>> {
    map code | code in refs.Keys && code != "" && Listed(attempts, refs, code) != [] :: Listed(attempts, refs, code)
  }

  /** `_suggestions` as a function of its inputs. */
  function Projected(s: seq<Suggestion>, a: seq<Advice>, refs: map<string, string>): Checked<Projection> {
    if !WellIndexed(s) || !AllClean(Attempts(s, a)) then Rejected
    else Accepted(Projection(Items(Attempts(s, a), refs), ByDimension(Attempts(s, a), refs)))
  }

  // ----- the collecting code -----

  ghost predicate Recorded(seen: set<(string, string, string)>, attempts: seq<Attempt>) {
    forall t :: t in seen <==> exists j :: 0 <= j < |attempts| && attempts[j].Triple() == t
  }

  lemma RecordOne(seen: set<(string, string, string)>, attempts: seq<Attempt>, a: Attempt)
    requires Recorded(seen, attempts)
    ensures Repeats(attempts, a) <==> a.Triple() in seen
    ensures Recorded(seen + {a.Triple()}, attempts + [a])
    ensures a.Triple() in seen ==> Recorded(seen, attempts + [a])
    ensures AllClean(attempts) && a.Clean() ==> AllClean(attempts + [a])
  {
    var longer := attempts + [a];
    assert longer[|attempts|] == a;
    forall t | t in seen ensures exists j :: 0 <= j < |longer| && longer[j].Triple() == t {
      var j :| 0 <= j < |attempts| && attempts[j].Triple() == t;
      assert longer[j] == attempts[j];
    }
  }

  class Collector {
    const refs: map<string, string>
    var result: seq<Item>
    var byDimension: map<string, seq<string>>
    var seen: set<(string, string, string)>
    ghost var attempts: seq<Attempt>

    ghost predicate Valid()
      reads this
    {
      && result == Items(attempts, refs)
      && byDimension == ByDimension(attempts, refs)
      && AllClean(attempts)
      && Recorded(seen, attempts)
    }

    constructor (refs: map<string, string>)
      ensures Valid() && attempts == [] && this.refs == refs
    {
      this.refs := refs;
      result, byDimension, seen, attempts := [], map[], {}, [];
    }

    method Append(a: Attempt) returns (r: Checked<()>)
      requires Valid()
      modifies this
      ensures Valid()
      ensures r.Accepted? <==> a.Clean()
      ensures attempts == if r.Accepted? then old(attempts) + [a] else old(attempts)
    {
      if a.category == "" || !Plain(a.content, 2000, true) {
        return Rejected;
      }
      OneMore(attempts, a, refs);
      ByDimensionGrows(attempts, a, refs);
      RecordOne(seen, attempts, a);
      hide Items, ByDimension, Listed, Repeats, Recorded, AllClean;
      attempts := attempts + [a];
      r := Accepted(());
      if a.Triple() in seen {
        return;
      }
      seen := seen + {a.Triple()};
      if a.code != "" && a.code !in refs {
        return;
      }
      var dimensionRefs := if a.code != "" then [refs[a.code]] else [];
      if a.code != "" {
        byDimension := byDimension[a.code := (if a.code in byDimension then byDimension[a.code] else []) + [a.ref]];
      }
      result := result + [Item(a.ref, a.category, a.content, dimensionRefs)];
    }
  }

  lemma ByDimensionGrows(attempts: seq<Attempt>, a: Attempt, refs: map<string, string>)
    ensures ByDimension(attempts + [a], refs) ==
              var listed := ByDimension(attempts, refs);
              if a.code == "" || !Keeps(attempts, a, refs) then listed
              else listed[a.code := (if a.code in listed then listed[a.code] else []) + [a.ref]]
  {
    OneMore(attempts, a, refs);
    hide Repeats, Listed;
    if a.code != "" && Keeps(attempts, a, refs) {
      assert a.code in refs.Keys;
    }
  }

  lemma OneMore(attempts: seq<Attempt>, a: Attempt, refs: map<string, string>)
    ensures var longer := attempts + [a];
            && Items(longer, refs) == (if Keeps(attempts, a, refs) then Items(attempts, refs) + [ItemOf(a, refs)]
                                       else Items(attempts, refs))
            && forall code :: Listed(longer, refs, code) ==
                              if Keeps(attempts, a, refs) && a.code == code then Listed(attempts, refs, code) + [a.ref]
                              else Listed(attempts, refs, code)
  {
    assert (attempts + [a])[..|attempts|] == attempts;
  }

  method CollectSuggestions(suggestions: seq<Suggestion>, advice: seq<Advice>, refs: map<string, string>)
    returns (r: Checked<Projection>)
    ensures r == Projected(suggestions, advice, refs)
  {
    hide ByDimension, Items, AllClean, Attempts, Advised, Collector.Valid;
    var collector := new Collector(refs);
    var indices: set<int> := {};
    for i := 0 to |suggestions|
      invariant collector.Valid() && collector.refs == refs && fresh(collector)
      invariant WellIndexed(suggestions[..i]) && collector.attempts == Reported(suggestions[..i])
      invariant forall n :: n in indices <==> exists j :: 0 <= j < i && suggestions[j].sourceIndex == n
    {
      var suggestion := suggestions[i];
      var index := suggestion.sourceIndex;
      if index < 0 || index in indices {
        return Rejected;
      }
      indices := indices + {index};
      var appended := collector.Append(FromReport(suggestion));
      if appended.Rejected? {
        UncleanReport(suggestions, advice, refs, i);
        return Rejected;
      }
      assert suggestions[..i + 1] == suggestions[..i] + [suggestion];
    }
    assert suggestions[..|suggestions|] == suggestions;
    AttemptsBegin(suggestions, advice);
    for i := 0 to |advice|
      invariant collector.Valid() && collector.refs == refs && fresh(collector)
      invariant collector.attempts == Attempts(suggestions, advice[..i])
    {
      AttemptsGrow(suggestions, advice, i);
      if !Blank(advice[i].suggestion) {
        var appended := collector.Append(FromDimension(advice[i]));
        if appended.Rejected? {
          UncleanAdvice(suggestions, advice, refs, i);
          return Rejected;
        }
      }
    }
    assert advice[..|advice|] == advice;
    CollectorHolds(collector);
    r := Accepted(Projection(collector.result, collector.byDimension));
  }

  lemma AdvisedGrows(a: seq<Advice>, i: nat)
    requires i < |a|
    ensures Advised(a[..i + 1]) == Advised(a[..i]) + if Blank(a[i].suggestion) then [] else [FromDimension(a[i])]
  {
    assert a[..i + 1][..i] == a[..i];
  }

  lemma AttemptsBegin(s: seq<Suggestion>, a: seq<Advice>)
    requires WellIndexed(s)
    ensures Attempts(s, a[..0]) == Reported(s)
  {
    assert Reported(s) + [] == Reported(s);
  }

  lemma AttemptsGrow(s: seq<Suggestion>, a: seq<Advice>, i: nat)
    requires WellIndexed(s) && i < |a|
    ensures Attempts(s, a[..i + 1]) ==
              Attempts(s, a[..i]) + if Blank(a[i].suggestion) then [] else [FromDimension(a[i])]
  {
    AdvisedGrows(a, i);
  }

  lemma CollectorHolds(c: Collector)
    requires c.Valid()
    ensures c.result == Items(c.attempts, c.refs) && c.byDimension == ByDimension(c.attempts, c.refs)
    ensures AllClean(c.attempts)
  {
  }

  /** One unclean suggestion is enough to reject everything. */
  lemma UncleanReport(s: seq<Suggestion>, a: seq<Advice>, refs: map<string, string>, i: nat)
    requires i < |s| && s[i].sourceIndex >= 0 && !FromReport(s[i]).Clean()
    ensures Projected(s, a, refs).Rejected?
  {
    if WellIndexed(s) {
      assert Attempts(s, a)[i] == FromReport(s[i]);
    }
  }

  lemma UncleanAdvice(s: seq<Suggestion>, a: seq<Advice>, refs: map<string, string>, i: nat)
    requires WellIndexed(s) && i < |a| && !Blank(a[i].suggestion) && !FromDimension(a[i]).Clean()
    ensures Projected(s, a, refs).Rejected?
  {
    AdvisedGrows(a, i);
    AdvisedPrefix(a, i + 1);
    assert Advised(a)[|Advised(a[..i])|] == FromDimension(a[i]);
    assert Attempts(s, a)[|s| + |Advised(a[..i])|] == FromDimension(a[i]);
  }

  lemma {:induction false} AdvisedPrefix(a: seq<Advice>, i: nat)
    requires i <= |a|
    ensures Advised(a[..i]) <= Advised(a)
    decreases |a| - i
  {
    if i == |a| {
      assert a[..i] == a;
    } else {
      AdvisedGrows(a, i);
      AdvisedPrefix(a, i + 1);
    }
  }

  // ----- what the result means -----

  ghost predicate OneToOne(refs: map<string, string>) {
    forall a, b :: a in refs && b in refs && refs[a] == refs[b] ==> a == b
  }

  /** The references of the items that name the given dimension reference, in order. */
  function Naming(items: seq<Item>, dimensionRef: string): seq<string> {
    if items == [] then []
    else
      var last := items[|items| - 1];
      Naming(items[..|items| - 1], dimensionRef) + if dimensionRef in last.dimensionRefs then [last.ref] else []
  }

  predicate DistinctRefs(items: seq<Item>) {
    forall i, j :: 0 <= i < j < |items| ==> items[i].ref != items[j].ref
  }

  predicate DistinctTriples(items: seq<Item>) {
    forall i, j :: 0 <= i < j < |items| ==>
      (items[i].category, items[i].content, items[i].dimensionRefs)
      != (items[j].category, items[j].content, items[j].dimensionRefs)
  }

  predicate DistinctAttempts(attempts: seq<Attempt>) {
    forall i, j :: 0 <= i < j < |attempts| ==> attempts[i].ref != attempts[j].ref
  }

  /** A projection can be read from either side: items name dimensions, dimensions list items. */
  ghost predicate Consistent(p: Projection, refs: map<string, string>) {
    && DistinctRefs(p.items) && DistinctTriples(p.items)
    && (forall i :: 0 <= i < |p.items| ==>
          |p.items[i].dimensionRefs| <= 1 && forall d :: d in p.items[i].dimensionRefs ==> d in refs.Values)
    && p.byDimension.Keys <= refs.Keys
    && forall code :: code in refs ==>
         (if code in p.byDimension then p.byDimension[code] else []) == Naming(p.items, refs[code])
  }

  predicate Advises(a: seq<Advice>, code: string) {
    exists i :: 0 <= i < |a| && a[i].code == code
  }

  lemma {:induction false} AdviceIsDistinct(a: seq<Advice>)
    requires DistinctCodes(a)
    ensures forall k :: 0 <= k < |Advised(a)| ==>
              Advised(a)[k].ref == "suggestion:dimension:" + Ref(Advised(a)[k].code) && Advises(a, Advised(a)[k].code)
    ensures forall k, l :: 0 <= k < l < |Advised(a)| ==> Advised(a)[k].code != Advised(a)[l].code
  {
    if a != [] {
      var init := a[..|a| - 1];
      AdviceIsDistinct(init);
      forall k | 0 <= k < |Advised(init)|
        ensures Advised(init)[k].code != a[|a| - 1].code && Advises(a, Advised(init)[k].code)
      {
        var i :| 0 <= i < |init| && init[i].code == Advised(init)[k].code;
        assert a[i] == init[i];
      }
    }
  }

  /** Numerals, percent-encoded codes and the two prefixes keep all offered references apart. */
  lemma AttemptsAreDistinct(s: seq<Suggestion>, a: seq<Advice>)
    requires WellIndexed(s) && DistinctCodes(a)
    ensures DistinctAttempts(Attempts(s, a))
  {
    var all := Attempts(s, a);
    AdviceIsDistinct(a);
    forall i, j | 0 <= i < j < |all| ensures all[i].ref != all[j].ref {
      if j < |s| {
        var m, n := s[i].sourceIndex + 1, s[j].sourceIndex + 1;
        DecimalIsInjective(m, n);
        assert all[i].ref[18..] == Decimal(m) && all[j].ref[18..] == Decimal(n);
      } else if i < |s| {
        assert all[i].ref[11] == 'r' && all[j].ref[11] == 'd';
      } else {
        RefIsInjective(all[i].code, all[j].code);
        assert all[i].ref[21..] == Ref(all[i].code) && all[j].ref[21..] == Ref(all[j].code);
      }
    }
  }

  lemma {:induction false} ItemSource(attempts: seq<Attempt>, refs: map<string, string>, k: nat) returns (i: nat)
    requires k < |Items(attempts, refs)|
    ensures i < |attempts| && (attempts[i].code == "" || attempts[i].code in refs)
    ensures Items(attempts, refs)[k] == ItemOf(attempts[i], refs)
  {
    var earlier := attempts[..|attempts| - 1];
    if k < |Items(earlier, refs)| {
      i := ItemSource(earlier, refs, k);
    } else {
      i := |attempts| - 1;
    }
  }

  lemma {:induction false} ItemsAreDistinct(attempts: seq<Attempt>, refs: map<string, string>)
    requires DistinctAttempts(attempts) && OneToOne(refs)
    ensures DistinctRefs(Items(attempts, refs)) && DistinctTriples(Items(attempts, refs))
  {
    if attempts != [] {
      var earlier, last := attempts[..|attempts| - 1], attempts[|attempts| - 1];
      ItemsAreDistinct(earlier, refs);
      if Keeps(earlier, last, refs) {
        var items := Items(earlier, refs);
        forall k | 0 <= k < |items|
          ensures items[k].ref != last.ref
          ensures (items[k].category, items[k].content, items[k].dimensionRefs)
                  != (last.category, last.content, ItemOf(last, refs).dimensionRefs)
        {
          var i := ItemSource(earlier, refs, k);
          assert attempts[i] == earlier[i] && earlier[i].Triple() != last.Triple();
        }
      }
    }
  }

  lemma {:induction false} ListedIsNaming(attempts: seq<Attempt>, refs: map<string, string>, code: string)
    requires OneToOne(refs) && code in refs && code != ""
    ensures Listed(attempts, refs, code) == Naming(Items(attempts, refs), refs[code])
  {
    if attempts != [] {
      var earlier, last := attempts[..|attempts| - 1], attempts[|attempts| - 1];
      ListedIsNaming(earlier, refs, code);
      assert attempts == earlier + [last];
      OneMore(earlier, last, refs);
      if Keeps(earlier, last, refs) {
        NamingGrows(Items(earlier, refs), ItemOf(last, refs), refs[code]);
      }
    }
  }

  lemma NamingGrows(items: seq<Item>, item: Item, dimensionRef: string)
    ensures Naming(items + [item], dimensionRef) ==
              if dimensionRef in item.dimensionRefs then Naming(items, dimensionRef) + [item.ref]
              else Naming(items, dimensionRef)
  {
    assert (items + [item])[..|items|] == items;
  }

  /** The main result: whatever was suggested, the projection is consistent from both sides. */
  lemma ProjectionIsConsistent(s: seq<Suggestion>, a: seq<Advice>, refs: map<string, string>)
    requires DistinctCodes(a) && OneToOne(refs) && "" !in refs
    requires Projected(s, a, refs).Accepted?
    ensures Consistent(Projected(s, a, refs).value, refs)
  {
    var attempts := Attempts(s, a);
    AttemptsAreDistinct(s, a);
    ItemsAreDistinct(attempts, refs);
    forall k | 0 <= k < |Items(attempts, refs)|
      ensures var d := Items(attempts, refs)[k].dimensionRefs; |d| <= 1 && forall r :: r in d ==> r in refs.Values
    {
      var i := ItemSource(attempts, refs, k);
    }
    forall code | code in refs ensures Listed(attempts, refs, code) == Naming(Items(attempts, refs), refs[code]) {
      ListedIsNaming(attempts, refs, code);
    }
  }

  /** Nothing is lost: every suggestion for a projected dimension, or for none, is present under its text. */
  lemma {:induction false} EveryTripleIsKept(attempts: seq<Attempt>, refs: map<string, string>, i: nat)
    requires i < |attempts| && (attempts[i].code == "" || attempts[i].code in refs)
    ensures exists k :: 0 <= k < |Items(attempts, refs)| &&
              Items(attempts, refs)[k].(ref := "") == ItemOf(attempts[i], refs).(ref := "")
    decreases |attempts|
  {
    var earlier, last := attempts[..|attempts| - 1], attempts[|attempts| - 1];
    var items := Items(attempts, refs);
    if i < |earlier| {
      EveryTripleIsKept(earlier, refs, i);
      var k :| 0 <= k < |Items(earlier, refs)| &&
               Items(earlier, refs)[k].(ref := "") == ItemOf(earlier[i], refs).(ref := "");
      assert items[k] == Items(earlier, refs)[k];
    } else if Repeats(earlier, last) {
      var j :| 0 <= j < |earlier| && earlier[j].Triple() == last.Triple();
      EveryTripleIsKept(earlier, refs, j);
      var k :| 0 <= k < |Items(earlier, refs)| &&
               Items(earlier, refs)[k].(ref := "") == ItemOf(earlier[j], refs).(ref := "");
      assert items[k] == Items(earlier, refs)[k];
    } else {
      assert items[|items| - 1] == ItemOf(last, refs);
    }
  }

  /** The item shows this suggestion of the report, under its own number and for its own dimension. */
  predicate Shows(item: Item, s: Suggestion, refs: map<string, string>) {
    && s.sourceIndex >= 0 && item.ref == "suggestion:report:" + Decimal(s.sourceIndex + 1)
    && item.category == s.category && item.content == s.content
    && (if s.dimensionCode in {None, Some("")} then item.dimensionRefs == []
        else s.dimensionCode.value in refs && item.dimensionRefs == [refs[s.dimensionCode.value]])
  }

  /** The item shows what this dimension itself suggests. */
  predicate ShowsAdvice(item: Item, a: Advice, refs: map<string, string>) {
    && item.ref == "suggestion:dimension:" + Ref(a.code) && item.category == "dimension" && item.content == a.suggestion
    && a.code in refs && item.dimensionRefs == [refs[a.code]]
  }

  lemma {:induction false} AdvisedSource(a: seq<Advice>, k: nat) returns (i: nat)
    requires k < |Advised(a)|
    ensures i < |a| && Advised(a)[k] == FromDimension(a[i])
  {
    var init := a[..|a| - 1];
    if k < |Advised(init)| {
      i := AdvisedSource(init, k);
    } else {
      i := |a| - 1;
    }
  }

  /** Nothing is made up: every item shows one suggestion of the report or of a dimension. */
  lemma EveryItemWasOffered(s: seq<Suggestion>, a: seq<Advice>, refs: map<string, string>, k: nat)
    requires Projected(s, a, refs).Accepted? && k < |Projected(s, a, refs).value.items| && "" !in refs
    requires forall i :: 0 <= i < |a| ==> a[i].code != ""
    ensures var item := Projected(s, a, refs).value.items[k];
            (exists i :: 0 <= i < |s| && Shows(item, s[i], refs)) || (exists i :: 0 <= i < |a| && ShowsAdvice(item, a[i], refs))
  {
    hide Ref;
    var item := Projected(s, a, refs).value.items[k];
    var i := ItemSource(Attempts(s, a), refs, k);
    if i < |s| {
      assert Attempts(s, a)[i] == FromReport(s[i]);
      assert Shows(item, s[i], refs);
    } else {
      var j := AdvisedSource(a, i - |s|);
      assert ShowsAdvice(item, a[j], refs);
    }
  }

  /** References made of percent-encoded codes tell the dimensions apart. */
  lemma EncodedRefsAreOneToOne(refs: map<string, string>)
    requires forall code :: code in refs ==> refs[code] == "dimension:" + Ref(code)
    ensures OneToOne(refs)
  {
    forall a, b | a in refs && b in refs && refs[a] == refs[b] ensures a == b {
      RefIsInjective(a, b);
      assert refs[a][10..] == Ref(a) && refs[b][10..] == Ref(b);
    }
  }
}
