/** From a valid snapshot to the frozen document (`project_mbti`), and the second validator that evaluation
    applies to such projections on its own (`validate_mbti_projection`), both of
    src/qs_ai/application/interpretation/mbti_input.py. */
module MbtiProjection {
  import opened MbtiInput
  import opened MbtiScenes
  import opened Outcomes
  import opened Sorting
  import opened Suggestions
  import opened Texts

  // ----- the policy and the request -----

  predicate LowerHex(c: char) {
    Digit(c) || 'a' <= c <= 'f'
  }

  predicate Fingerprint(s: string) {
    |s| == 71 && s[..7] == "sha256:" && forall i :: 7 <= i < 71 ==> LowerHex(s[i])
  }

  /** Letters or digits from index i up to j. */
  predicate Alphanumeric(s: string, i: int, j: int) {
    0 <= i <= j <= |s| && forall k :: i <= k < j ==> Letter(s[k]) || Digit(s[k])
  }

  /** Groups of two to eight letters or digits, each after a hyphen. */
  predicate LocaleTail(s: string) {
    s == "" || (s[0] == '-' && exists end :: 3 <= end <= 9 && Alphanumeric(s, 1, end) && LocaleTail(s[end..]))
  }

  predicate Locale(s: string) {
    && |s| <= 35
    && exists end :: 2 <= end <= 3 && Alphanumeric(s, 0, end) && (forall k :: 0 <= k < end ==> Letter(s[k]))
                     && LocaleTail(s[end..])
  }

  predicate FocusArea(s: string) {
    && 1 <= |s| <= 64 && 'a' <= s[0] <= 'z'
    && forall i :: 1 <= i < |s| ==> 'a' <= s[i] <= 'z' || Digit(s[i]) || s[i] in "_.-"
  }

  predicate FocusHolds(focus: seq<string>, p: Policy) {
    && |focus| <= 3
    && (forall i, j :: 0 <= i < j < |focus| ==> focus[i] != focus[j])
    && forall i :: 0 <= i < |focus| ==> FocusArea(focus[i]) && focus[i] in p.allowedFocus
  }

  predicate PolicyHolds(p: Policy, m: Model) {
    && p.sceneContract == SINGLE_CONTRACT
    && ContractOf(p.modelCode, p.modelVersion).Some?
    && m.code == p.modelCode && m.version == p.modelVersion
    && p.minDimensions == 4 && p.maxDimensions == 4
    && p.eligible == AXIS_CODES && p.excluded == [] && !p.includeNorm && p.includeResult
    && !Blank(p.profileId) && !Blank(p.profileVersion) && Fingerprint(p.profileFingerprint)
  }

  // ----- the projection -----

  function Codes(dimensions: seq<Dimension>): set<string> {
    set d | d in dimensions :: d.code
  }

  function Refs(codes: set<string>): map<string, string> {
    map code | code in codes :: "dimension:" + code
  }

  function AdviceOf(dimensions: seq<Dimension>): seq<Advice> {
    seq(|dimensions|, i requires 0 <= i < |dimensions| => Advice(dimensions[i].code, dimensions[i].suggestion))
  }

  function ProjectDimension(d: Dimension, byDimension: map<string, seq<string>>): ProjectedDimension {
    ProjectedDimension("dimension:" + d.code, d.code, d.kind, d.name, d.rawScore, d.pole.max, d.pole, d.description,
                       if d.code in byDimension then byDimension[d.code] else [])
  }

  function ProjectDimensions(dimensions: seq<Dimension>, byDimension: map<string, seq<string>>): seq<ProjectedDimension> {
    seq(|dimensions|, i requires 0 <= i < |dimensions| => ProjectDimension(dimensions[i], byDimension))
  }

  function DocumentOf(s: Snapshot, dimensions: seq<Dimension>, p: Projection, policy: Policy, locale: string,
                      focus: seq<string>): Document {
    Document("ai-explanation-input/v2", policy.sceneContract, s.source,
             Profile(policy.profileId, policy.profileVersion, policy.profileFingerprint),
             Context(locale, focus != [], focus),
             Facts(s.decisionKind, s.model, s.conclusion, ProjectDimensions(dimensions, p.byDimension), p.items, s.result))
  }

  function SortedDimensions(s: Snapshot): seq<Dimension> {
    Sort(s.dimensions, ByKey(Order))
  }

  function SortedSuggestions(s: Snapshot): seq<Suggestion> {
    Sort(s.suggestions, ByKey(SourceIndex))
  }

  /** `project_mbti` as a function of its inputs. */
  ghost function Project(s: Snapshot, policy: Policy, locale: string, focus: seq<string>): Checked<Document> {
    if !ValidSnapshot(s) || !PolicyHolds(policy, s.model) || !Locale(locale) || !FocusHolds(focus, policy) then Rejected
    else
      var dimensions := SortedDimensions(s);
      match Projected(SortedSuggestions(s), AdviceOf(dimensions), Refs(Codes(s.dimensions)))
      case Rejected => Rejected
      case Accepted(p) => Accepted(DocumentOf(s, dimensions, p, policy, locale, focus))
  }

  method ProjectMbti(value: Snapshot, policy: Policy, locale: string, focus: seq<string>)
    returns (r: Checked<Document>)
    ensures r == Project(value, policy, locale, focus)
  {
    hide ValidSnapshot, PolicyHolds, Locale, FocusHolds, Projected, Codes, Refs, AdviceOf;
    var decoded := DecodeSnapshot(value);
    if decoded.Rejected? || !PolicyHolds(policy, value.model) || !Locale(locale) || !FocusHolds(focus, policy) {
      return Rejected;
    }
    var snapshot := decoded.value;
    var refs := Refs(Codes(snapshot.dimensions));
    var ordered := SortedDimensions(snapshot);
    var collected := CollectSuggestions(SortedSuggestions(snapshot), AdviceOf(ordered), refs);
    if collected.Rejected? {
      return Rejected;
    }
    var projection := collected.value;
    var dimensions: seq<ProjectedDimension> := [];
    for i := 0 to |ordered|
      invariant dimensions == ProjectDimensions(ordered[..i], projection.byDimension)
    {
      dimensions := dimensions + [ProjectDimension(ordered[i], projection.byDimension)];
    }
    assert ordered[..|ordered|] == ordered;
    r := Accepted(DocumentOf(snapshot, ordered, projection, policy, locale, focus).(
                    facts := Facts(snapshot.decisionKind, snapshot.model, snapshot.conclusion, dimensions,
                                   projection.items, snapshot.result)));
  }

  // ----- order independence -----

  lemma SortedForgetOrder(a: Snapshot, b: Snapshot)
    requires Rearranged(a, b) && ValidSnapshot(a)
    ensures SortedDimensions(a) == SortedDimensions(b) && SortedSuggestions(a) == SortedSuggestions(b)
    ensures Codes(a.dimensions) == Codes(b.dimensions)
  {
    DistinctKeysTellApart(a.dimensions, Order);
    SortForgetsOrder(a.dimensions, b.dimensions, ByKey(Order));
    DistinctKeysTellApart(a.suggestions, SourceIndex);
    SortForgetsOrder(a.suggestions, b.suggestions, ByKey(SourceIndex));
    forall d ensures d in a.dimensions <==> d in b.dimensions {
      SameElements(a.dimensions, b.dimensions, d);
    }
  }

  /** Two listings of the same report give the same document, or are both rejected. */
  lemma ProjectionForgetsOrder(a: Snapshot, b: Snapshot, policy: Policy, locale: string, focus: seq<string>)
    requires Rearranged(a, b)
    ensures Project(a, policy, locale, focus) == Project(b, policy, locale, focus)
  {
    assert Rearranged(b, a);
    if ValidSnapshot(a) {
      ValidityForgetsOrder(a, b);
      SortedForgetOrder(a, b);
    } else if ValidSnapshot(b) {
      ValidityForgetsOrder(b, a);
    }
  }

  // ----- the second validator -----

  predicate AxisAccepted(d: ProjectedDimension, c: ModelContract)
    requires |c.axes| == 4 && |c.bounds| == 4
  {
    && PoleHolds(d.kind, d.code, d.rawScore, d.pole, c)
    && (c.thematicVersion == INPUT_V4 ==>
          Bounded(d.rawMax, c.bounds[d.pole.order - 1].max, c.bounds[d.pole.order - 1].max))
    && d.ref == "dimension:" + d.code
  }

  function ProjectedPoles(dimensions: seq<ProjectedDimension>): seq<PoleFacts> {
    seq(|dimensions|, i requires 0 <= i < |dimensions| => dimensions[i].pole)
  }

  function ItemRefs(items: seq<Item>): set<string> {
    set item | item in items :: item.ref
  }

  function DimensionRefs(dimensions: seq<ProjectedDimension>): set<string> {
    set d | d in dimensions :: d.ref
  }

  ghost predicate AcceptableAxes(dimensions: seq<ProjectedDimension>, c: ModelContract, typeCode: string) {
    && FourAxes(c) && |dimensions| == 4 && |typeCode| == 4
    && (forall i :: 0 <= i < 4 ==> AxisAccepted(dimensions[i], c) && Spells(typeCode, dimensions[i].pole))
    && DistinctOrders(ProjectedPoles(dimensions))
  }

  /** References between dimensions and suggestions resolve in both directions. */
  predicate Resolved(dimensions: seq<ProjectedDimension>, items: seq<Item>) {
    && (forall d, ref :: d in dimensions && ref in d.suggestionRefs ==> ref in ItemRefs(items))
    && (forall item, ref :: item in items && ref in item.dimensionRefs ==> ref in DimensionRefs(dimensions))
  }

  /** What evaluation demands of facts it did not project itself. */
  ghost predicate AcceptableFacts(f: Facts) {
    && ContractOf(f.model.code, f.model.version).Some?
    && f.model.kind == "typology" && f.model.algorithm == "personality_typology"
    && f.decisionKind == "pole_composition"
    && AcceptableAxes(f.dimensions, ContractOf(f.model.code, f.model.version).value, f.result.typeCode)
    && DistinctRefs(f.suggestions)
    && Resolved(f.dimensions, f.suggestions)
  }

  lemma AcceptedIsUsable(d: ProjectedDimension, c: ModelContract)
    requires FourAxes(c) && |c.axes| == 4 && |c.bounds| == 4 && AxisAccepted(d, c)
    ensures 1 <= d.pole.order <= 4 && |d.pole.preference| == 1
  {
    PoleIsUsable(d.kind, d.code, d.rawScore, d.pole, c);
  }

  method AcceptAxes(dimensions: seq<ProjectedDimension>, c: ModelContract, typeCode: string) returns (ok: bool)
    requires FourAxes(c)
    ensures ok <==> AcceptableAxes(dimensions, c, typeCode)
  {
    hide AxisAccepted, Spells, Collected, FourAxes, DistinctOrders;
    FourAxesCount(c);
    var preferences: map<int, string> := map[];
    CollectNone();
    ghost var all := ProjectedPoles(dimensions);
    assert all[..0] == [];
    for i := 0 to |dimensions|
      invariant forall k :: 0 <= k < i ==> AxisAccepted(dimensions[k], c)
      invariant Collected(all[..i], preferences) && DistinctOrders(all[..i])
    {
      var d := dimensions[i];
      if !AxisAccepted(d, c) {
        assert i < 4 || |dimensions| != 4;
        return false;
      }
      assert all[..i] + [d.pole] == all[..i + 1];
      OneMorePole(all[..i], preferences, d.pole);
      if d.pole.order in preferences {
        NotDistinctLater(all, i + 1);
        return false;
      }
      AcceptedIsUsable(d, c);
      CollectOne(all[..i], preferences, d.pole);
      preferences := preferences[d.pole.order := d.pole.preference];
    }
    assert all[..|dimensions|] == all;
    CollectedCount(all, preferences);
    if |preferences| != 4 {
      return false;
    }
    JoinSpells(all, preferences, typeCode);
    ok := Joined(preferences) == typeCode;
    assert forall i :: 0 <= i < 4 ==> all[i] == dimensions[i].pole;
  }

  lemma CollectedCount(poles: seq<PoleFacts>, preferences: map<int, string>)
    requires Collected(poles, preferences)
    ensures |preferences| == |poles|
  {
  }

  lemma OneMoreRef(init: seq<Item>, last: Item)
    ensures ItemRefs(init + [last]) == ItemRefs(init) + {last.ref}
    ensures DistinctRefs(init + [last]) <==> DistinctRefs(init) && last.ref !in ItemRefs(init)
  {
    var items := init + [last];
    assert items[|init|] == last;
    forall k | 0 <= k < |init| ensures items[k] == init[k] && init[k] in init {
    }
    if last.ref in ItemRefs(init) {
      var item :| item in init && item.ref == last.ref;
      var k :| 0 <= k < |init| && init[k] == item;
      assert items[k].ref == items[|init|].ref;
    }
  }

  /** Counting different references tells whether any is repeated. */
  lemma {:induction false} RefsCount(items: seq<Item>)
    ensures |ItemRefs(items)| <= |items|
    ensures |ItemRefs(items)| == |items| <==> DistinctRefs(items)
  {
    if items == [] {
      assert ItemRefs(items) == {};
    } else {
      var init, last := items[..|items| - 1], items[|items| - 1];
      RefsCount(init);
      assert items == init + [last];
      OneMoreRef(init, last);
      hide ItemRefs, DistinctRefs;
    }
  }

  method ValidateProjection(f: Facts) returns (ok: bool)
    ensures ok <==> AcceptableFacts(f)
  {
    hide AcceptableAxes, Resolved, DistinctRefs;
    var contract := ContractOf(f.model.code, f.model.version);
    if || contract.None?
       || f.model.kind != "typology" || f.model.algorithm != "personality_typology"
       || f.decisionKind != "pole_composition"
    {
      return false;
    }
    ContractsHaveFourAxes(f.model.code, f.model.version);
    var axes := AcceptAxes(f.dimensions, contract.value, f.result.typeCode);
    if !axes {
      return false;
    }
    RefsCount(f.suggestions);
    ok := |ItemRefs(f.suggestions)| == |f.suggestions| && Resolved(f.dimensions, f.suggestions);
  }

  // ----- what one accepts the other accepts -----

  lemma {:induction false} NamingIsAmongItems(items: seq<Item>, dimensionRef: string, ref: string)
    requires ref in Naming(items, dimensionRef)
    ensures ref in ItemRefs(items)
  {
    var init, last := items[..|items| - 1], items[|items| - 1];
    assert items == init + [last];
    if ref in Naming(init, dimensionRef) {
      NamingIsAmongItems(init, dimensionRef, ref);
      var item :| item in init && item.ref == ref;
      assert item in items;
    } else {
      assert ref == last.ref && last in items;
    }
  }

  /** The axes of a valid report have different, non-empty codes. */
  lemma AxesAreDistinct(dimensions: seq<Dimension>, c: ModelContract, typeCode: string)
    requires FourAxes(c) && ValidAxes(dimensions, c, typeCode)
    ensures DistinctCodes(AdviceOf(dimensions)) && "" !in Codes(dimensions)
  {
    hide ValidDimension, FourAxes, Spells;
    forall i | 0 <= i < |dimensions| ensures 1 <= Order(dimensions[i]) <= 4 && dimensions[i].code == AXIS_CODES[Order(dimensions[i]) - 1] {
      ValidDimensionIsUsable(dimensions[i], c);
    }
    forall i, j | 0 <= i < j < |dimensions| ensures dimensions[i].code != dimensions[j].code {
      assert Order(dimensions[i]) != Order(dimensions[j]);
    }
  }

  /** Sorting keeps the report valid and its codes the same. */
  lemma SortedIsValid(s: Snapshot)
    requires ValidSnapshot(s)
    ensures ValidSnapshot(s.(dimensions := SortedDimensions(s), suggestions := SortedSuggestions(s)))
    ensures Codes(SortedDimensions(s)) == Codes(s.dimensions)
  {
    hide ValidSnapshot;
    var sorted := SortedDimensions(s);
    var again := s.(dimensions := sorted, suggestions := SortedSuggestions(s));
    assert Rearranged(s, again);
    ValidityForgetsOrder(s, again);
    forall d ensures d in s.dimensions <==> d in sorted {
      SameElements(s.dimensions, sorted, d);
    }
  }

  lemma ProjectedAxesAreAccepted(dimensions: seq<Dimension>, c: ModelContract, typeCode: string,
                                 byDimension: map<string, seq<string>>)
    requires FourAxes(c) && ValidAxes(dimensions, c, typeCode)
    ensures AcceptableAxes(ProjectDimensions(dimensions, byDimension), c, typeCode)
  {
    hide Spells, PoleHolds, FourAxes;
    FourAxesCount(c);
    var projected := ProjectDimensions(dimensions, byDimension);
    DistinctDimensions(dimensions);
    assert ProjectedPoles(projected) == Poles(dimensions);
    forall i | 0 <= i < 4 ensures AxisAccepted(projected[i], c) {
      MaximumIsBounded(dimensions[i], c);
      assert ValidDimension(dimensions[i], c);
    }
  }

  lemma MaximumIsBounded(d: Dimension, c: ModelContract)
    requires |c.axes| == 4 && |c.bounds| == 4 && ValidDimension(d, c)
    ensures 1 <= d.pole.order <= 4
    ensures Bounded(d.pole.max, c.bounds[d.pole.order - 1].max, c.bounds[d.pole.order - 1].max)
  {
  }

  /** Consistent suggestions give references that resolve from both sides. */
  lemma ProjectedRefsResolve(dimensions: seq<Dimension>, p: Projection)
    requires Consistent(p, Refs(Codes(dimensions)))
    ensures Resolved(ProjectDimensions(dimensions, p.byDimension), p.items)
  {
    var projected, refs := ProjectDimensions(dimensions, p.byDimension), Refs(Codes(dimensions));
    forall d, ref | d in projected && ref in d.suggestionRefs ensures ref in ItemRefs(p.items) {
      var i :| 0 <= i < |projected| && projected[i] == d;
      assert dimensions[i] in dimensions && dimensions[i].code in refs;
      NamingIsAmongItems(p.items, refs[d.code], ref);
    }
    forall item, ref | item in p.items && ref in item.dimensionRefs ensures ref in DimensionRefs(projected) {
      var k :| 0 <= k < |p.items| && p.items[k] == item;
      assert ref in refs.Values;
      var code :| code in refs && refs[code] == ref;
      var d :| d in dimensions && d.code == code;
      var i :| 0 <= i < |dimensions| && dimensions[i] == d;
      assert projected[i].ref == ref && projected[i] in projected;
    }
  }

  lemma PlainRefsAreOneToOne(codes: set<string>)
    ensures OneToOne(Refs(codes))
  {
    var refs := Refs(codes);
    forall a, b | a in refs && b in refs && refs[a] == refs[b] ensures a == b {
      assert refs[a][10..] == a && refs[b][10..] == b;
    }
  }

  /** The main result: whatever is projected, evaluation's own validator accepts. */
  lemma ProjectionIsAccepted(s: Snapshot, policy: Policy, locale: string, focus: seq<string>)
    ensures var r := Project(s, policy, locale, focus);
            r.Accepted? ==> AcceptableFacts(r.value.facts)
  {
    if Project(s, policy, locale, focus).Accepted? {
      AcceptedFactsHold(s, policy, locale, focus);
    }
  }

  lemma AcceptedFactsHold(s: Snapshot, policy: Policy, locale: string, focus: seq<string>)
    requires Project(s, policy, locale, focus).Accepted?
    ensures AcceptableFacts(Project(s, policy, locale, focus).value.facts)
  {
    hide Projected, Consistent, Codes, Refs, AdviceOf, Resolved, AcceptableAxes, DistinctRefs, OneToOne, ProjectDimensions;
    hide PolicyHolds, Locale, FocusHolds, ValidAxes, ValidSuggestions, FourAxes, DistinctCodes;
    var sorted, codes := SortedDimensions(s), Codes(s.dimensions);
    var c := ContractOf(s.model.code, s.model.version).value;
    SortedIsValid(s);
    AxesAreDistinct(sorted, c, s.result.typeCode);
    PlainRefsAreOneToOne(codes);
    NoEmptyRef(codes);
    ProjectionIsConsistent(SortedSuggestions(s), AdviceOf(sorted), Refs(codes));
    var p := Projected(SortedSuggestions(s), AdviceOf(sorted), Refs(codes)).value;
    ProjectedAxesAreAccepted(sorted, c, s.result.typeCode, p.byDimension);
    ProjectedRefsResolve(sorted, p);
    ConsistentIsDistinct(p, Refs(codes));
  }

  /** A projection is always about the model of its policy. */
  lemma ProjectedModelFits(s: Snapshot, policy: Policy, locale: string, focus: seq<string>)
    ensures var r := Project(s, policy, locale, focus);
            r.Accepted? ==> r.value.facts.model.code == policy.modelCode && r.value.facts.model.version == policy.modelVersion
  {
    hide ValidSnapshot, Locale, FocusHolds, Projected, Codes, Refs, AdviceOf, SortedDimensions, SortedSuggestions;
  }

  lemma NoEmptyRef(codes: set<string>)
    requires "" !in codes
    ensures "" !in Refs(codes)
  {
  }

  lemma ConsistentIsDistinct(p: Projection, refs: map<string, string>)
    requires Consistent(p, refs)
    ensures DistinctRefs(p.items)
  {
  }

  // ----- what the document says of the report -----

  function WithoutAdvice(d: Dimension): Dimension {
    d.(suggestion := "")
  }

  /** The dimension that a projected one was made from, but for its suggestion. */
  function Reading(p: ProjectedDimension): Dimension {
    Dimension(p.code, p.kind, p.name, p.rawScore, p.pole, p.description, "")
  }

  /** The dimensions of the report can be read back from the document, each at the place of its order. */
  ghost predicate ReadsBack(projected: seq<ProjectedDimension>, dimensions: seq<Dimension>) {
    && |projected| == 4
    && multiset(Map(projected, Reading)) == multiset(Map(dimensions, WithoutAdvice))
    && forall k :: 0 <= k < 4 ==> projected[k].pole.order == k + 1 && projected[k].rawMax == projected[k].pole.max
  }

  lemma OrdersAreOneToFour(sorted: seq<Dimension>, c: ModelContract, typeCode: string)
    requires FourAxes(c) && ValidAxes(sorted, c, typeCode) && Ascending(sorted, ByKey(Order))
    ensures |sorted| == 4 && forall k :: 0 <= k < 4 ==> sorted[k].pole.order == k + 1
  {
    hide FourAxes, Spells, ValidDimension;
    forall i | 0 <= i < 4 ensures 1 <= Order(sorted[i]) <= 4 {
      ValidDimensionIsUsable(sorted[i], c);
    }
    assert ByKey(Order)(sorted[0], sorted[1]) && ByKey(Order)(sorted[1], sorted[2]) && ByKey(Order)(sorted[2], sorted[3]);
    assert Order(sorted[0]) < Order(sorted[1]) < Order(sorted[2]) < Order(sorted[3]);
  }

  lemma DimensionsReadBack(s: Snapshot, byDimension: map<string, seq<string>>)
    requires ValidSnapshot(s)
    ensures ReadsBack(ProjectDimensions(SortedDimensions(s), byDimension), s.dimensions)
  {
    var sorted := SortedDimensions(s);
    SortedIsValid(s);
    OrdersAscend(s);
    hide ValidHeader, ValidSuggestions, SortedSuggestions, ValidAxes, FourAxes, Ascending;
    OrdersAreOneToFour(sorted, ContractOf(s.model.code, s.model.version).value, s.result.typeCode);
    hide ValidSnapshot, SortedDimensions;
    MapForgetsOrder(sorted, s.dimensions, WithoutAdvice);
    ReadingUndoesProjecting(sorted, byDimension);
  }

  lemma ReadingUndoesProjecting(dimensions: seq<Dimension>, byDimension: map<string, seq<string>>)
    ensures Map(ProjectDimensions(dimensions, byDimension), Reading) == Map(dimensions, WithoutAdvice)
  {
  }

  lemma OrdersAscend(s: Snapshot)
    ensures Ascending(SortedDimensions(s), ByKey(Order))
  {
    SortIsAscending(s.dimensions, ByKey(Order));
  }

  /** What an accepted projection says is what the report, the policy and the request say. */
  lemma ProjectionReadsBack(s: Snapshot, policy: Policy, locale: string, focus: seq<string>)
    ensures var r := Project(s, policy, locale, focus);
            r.Accepted? ==>
              var d := r.value;
              && d.source == s.source && d.schemaVersion == "ai-explanation-input/v2" && d.sceneContract == SINGLE_CONTRACT
              && d.profile.id == policy.profileId && d.profile.version == policy.profileVersion
              && d.profile.fingerprint == policy.profileFingerprint
              && d.context.locale == locale && d.context.focus == focus && (d.context.personalized <==> focus != [])
              && d.facts.model == s.model && d.facts.decisionKind == s.decisionKind && d.facts.conclusion == s.conclusion
              && d.facts.result == s.result && ReadsBack(d.facts.dimensions, s.dimensions)
  {
    hide ReadsBack, Projected, Codes, Refs, AdviceOf, Locale, FocusHolds, ValidSnapshot, SortedDimensions, SortedSuggestions, ProjectDimensions;
    if Project(s, policy, locale, focus).Accepted? {
      var p := Projected(SortedSuggestions(s), AdviceOf(SortedDimensions(s)), Refs(Codes(s.dimensions))).value;
      DimensionsReadBack(s, p.byDimension);
    }
  }

  predicate SuggestionsFit(dimensions: seq<Dimension>) {
    forall d :: d in dimensions ==> Blank(d.suggestion) || |d.suggestion| <= 2000
  }

  /** The snapshot validator admits dimension suggestions of up to 4000 characters, the projection only up to
      2000. That is the one way a valid, permitted report is refused. */
  lemma ProjectionSucceeds(s: Snapshot, policy: Policy, locale: string, focus: seq<string>)
    requires ValidSnapshot(s) && PolicyHolds(policy, s.model) && Locale(locale) && FocusHolds(focus, policy)
    ensures Project(s, policy, locale, focus).Accepted? <==> SuggestionsFit(s.dimensions)
  {
    hide PolicyHolds, Locale, FocusHolds, FourAxes, Blank, ValidHeader, Spells;
    var sorted, suggestions := SortedDimensions(s), SortedSuggestions(s);
    SortedIsValid(s);
    hide SortedDimensions, SortedSuggestions;
    var advice := AdviceOf(sorted);
    ReportedAreClean(suggestions);
    forall d ensures d in s.dimensions <==> d in sorted {
      SameElements(s.dimensions, sorted, d);
    }
    AdvisedAreClean(sorted);
    assert Attempts(suggestions, advice) == Reported(suggestions) + Advised(advice);
    hide AllClean, Advised, Reported;
    CleanParts(Reported(suggestions), Advised(advice));
  }

  lemma ReportedAreClean(s: seq<Suggestion>)
    requires ValidSuggestions(s)
    ensures WellIndexed(s) && AllClean(Reported(s))
  {
    forall i, j | 0 <= i < j < |s| ensures s[i].sourceIndex != s[j].sourceIndex {
      assert SourceIndex(s[i]) != SourceIndex(s[j]);
    }
  }

  lemma OneAdviceIsClean(d: Dimension)
    requires Plain(d.suggestion, 4000, false) && !Blank(d.suggestion)
    ensures AllClean([FromDimension(Advice(d.code, d.suggestion))]) <==> |d.suggestion| <= 2000
  {
    var attempts := [FromDimension(Advice(d.code, d.suggestion))];
    assert Blank("");
    assert AllClean(attempts) <==> attempts[0].Clean();
  }

  lemma FitOneMore(init: seq<Dimension>, last: Dimension)
    ensures SuggestionsFit(init + [last]) <==> SuggestionsFit(init) && SuggestionsFit([last])
  {
    assert last in init + [last];
    assert forall d :: d in init ==> d in init + [last];
  }

  lemma {:induction false} AdvisedAreClean(dimensions: seq<Dimension>)
    requires forall i :: 0 <= i < |dimensions| ==> Plain(dimensions[i].suggestion, 4000, false)
    ensures AllClean(Advised(AdviceOf(dimensions))) <==> SuggestionsFit(dimensions)
  {
    if dimensions == [] {
      assert AdviceOf(dimensions) == [];
    } else {
      var init, last := dimensions[..|dimensions| - 1], dimensions[|dimensions| - 1];
      var advice := AdviceOf(dimensions);
      AdvisedAreClean(init);
      assert dimensions == init + [last];
      FitOneMore(init, last);
      assert advice[..|init|] == AdviceOf(init) && advice[..|advice|] == advice;
      AdvisedGrows(advice, |init|);
      assert SuggestionsFit([last]) <==> Blank(last.suggestion) || |last.suggestion| <= 2000;
      if !Blank(last.suggestion) {
        CleanParts(Advised(AdviceOf(init)), [FromDimension(Advice(last.code, last.suggestion))]);
        OneAdviceIsClean(last);
      } else {
        assert Advised(advice) == Advised(AdviceOf(init));
      }
    }
  }

  // ----- a valid report that is refused -----

  function AxisWith(order: int, advice: string): Dimension
    requires 1 <= order <= 4
  {
    var axis := Basic.axes[order - 1];
    Dimension(axis.code, "pole", axis.code, Number(24.0),
              PoleFacts("mbti-pole-facts/v1", axis.left, axis.right, axis.left, Number(50.0),
                        Number(8.0), Number(40.0), Number(24.0), order),
              "", advice)
  }

  /** A complete basic report whose first dimension carries the given suggestion. */
  function ReportWith(advice: string): Snapshot {
    Snapshot("qs-report-snapshot/v2",
             BasicSource,
             Model("typology", "personality_typology", "MBTI_OEJTS", "v64-report-202608-v1", "m"),
             "pole_composition", "",
             [AxisWith(1, advice), AxisWith(2, ""), AxisWith(3, ""), AxisWith(4, "")],
             [],
             TypeResult("personality_type", "ISFJ", "n", "", Number(50.0), ""))
  }

  const BasicSource := Source("1", "2", "standard", "t", "c", "b", Timestamp("z", true))

  const BasicPolicy := Policy(
    SINGLE_CONTRACT, "MBTI_OEJTS", "v64-report-202608-v1", 4, 4, AXIS_CODES, [], [], false, true, "p", "1",
    "sha256:" + seq(64, _ => '0'))

  lemma ZhCnIsALocale()
    ensures Locale("zh-CN")
  {
    var s := "zh-CN";
    var tail := s[2..];
    assert tail == "-CN" && tail[3..] == "";
    assert Alphanumeric(tail, 1, 3) && LocaleTail(tail[3..]);
    assert LocaleTail(tail);
    assert Alphanumeric(s, 0, 2) && LocaleTail(s[2..]);
  }

  lemma BasicPolicyHolds(m: Model)
    requires m.code == BasicPolicy.modelCode && m.version == BasicPolicy.modelVersion
    ensures PolicyHolds(BasicPolicy, m) && FocusHolds([], BasicPolicy)
  {
    var p := BasicPolicy;
    assert Fingerprint(p.profileFingerprint) by {
      assert p.profileFingerprint[..7] == "sha256:";
    }
    hide Fingerprint;
    assert p.profileId[0] == 'p' && p.profileVersion[0] == '1';
  }

  lemma AxisWithIsValid(order: int, advice: string)
    requires 1 <= order <= 4 && Plain(advice, 4000, false)
    ensures |Basic.axes| == 4 && |Basic.bounds| == 4 && ValidDimension(AxisWith(order, advice), Basic)
    ensures Spells("ISFJ", AxisWith(order, advice).pole) && Order(AxisWith(order, advice)) == order
    ensures AxisWith(order, advice).suggestion == advice
  {
  }

  lemma SingleDigitIsAnId(s: string)
    requires |s| == 1 && '1' <= s[0] <= '9'
    ensures ValidId(s)
  {
    assert Value(s[..0]) == 0;
  }

  lemma BasicSourceIsValid()
    ensures ValidSource(BasicSource)
  {
    SingleDigitIsAnId("1");
    SingleDigitIsAnId("2");
    hide ValidId;
  }

  lemma ReportHeaderIsValid(advice: string)
    ensures ValidHeader(ReportWith(advice))
    ensures ContractOf(ReportWith(advice).model.code, ReportWith(advice).model.version) == Some(Basic)
  {
    BasicSourceIsValid();
    hide AxisWith, ValidSource;
  }

  lemma AxesWithAreValid(advice: string)
    requires Plain(advice, 4000, false)
    ensures FourAxes(Basic) && ValidAxes([AxisWith(1, advice), AxisWith(2, ""), AxisWith(3, ""), AxisWith(4, "")], Basic, "ISFJ")
  {
    AxisWithIsValid(1, advice);
    AxisWithIsValid(2, "");
    AxisWithIsValid(3, "");
    AxisWithIsValid(4, "");
    hide ValidDimension, Spells, AxisWith;
  }

  lemma ReportWithIsValid(advice: string)
    requires Plain(advice, 4000, false)
    ensures ValidSnapshot(ReportWith(advice))
  {
    ReportHeaderIsValid(advice);
    AxesWithAreValid(advice);
    hide ValidHeader, ValidAxes, AxisWith, FourAxes;
  }

  lemma ReportFits(advice: string)
    requires !Blank(advice)
    ensures SuggestionsFit(ReportWith(advice).dimensions) <==> |advice| <= 2000
  {
    var dimensions := [AxisWith(1, advice), AxisWith(2, ""), AxisWith(3, ""), AxisWith(4, "")];
    assert dimensions[0] in dimensions && dimensions[0].suggestion == advice;
    assert Blank("");
    hide Blank;
  }

  /** The limits really disagree: a valid report under a permitting policy, with a dimension suggestion between
      2001 and 4000 characters, is refused, and it would be projected with a shorter one. */
  lemma LimitsDisagree(advice: string)
    requires Plain(advice, 4000, false) && !Blank(advice)
    ensures ValidSnapshot(ReportWith(advice))
    ensures Project(ReportWith(advice), BasicPolicy, "zh-CN", []).Accepted? <==> |advice| <= 2000
  {
    ReportWithIsValid(advice);
    ReportFits(advice);
    ZhCnIsALocale();
    BasicPolicyHolds(ReportWith(advice).model);
    hide ValidSnapshot, Project, PolicyHolds, Locale, FocusHolds, ReportWith, SuggestionsFit;
    ProjectionSucceeds(ReportWith(advice), BasicPolicy, "zh-CN", []);
  }

  lemma SomeReportIsRefused(advice: string)
    requires advice == seq(2001, _ => 'x')
    ensures ValidSnapshot(ReportWith(advice)) && Project(ReportWith(advice), BasicPolicy, "zh-CN", []).Rejected?
  {
    assert |advice| == 2001 && advice[0] == 'x' && !Space('x');
    LimitsDisagree(advice);
  }
}
