/** Projection of frozen MBTI reports (src/qs_ai/application/interpretation/mbti_input.py): the snapshot
    validator, the projection, and the independent validator of projections.

    Values are typed here: a snapshot whose JSON has other shapes is outside this model. */
module MbtiInput {
  import opened MbtiScenes
  import opened Outcomes
  import opened Sorting
  import opened Suggestions
  import opened Texts

  /** An int or a finite float, or a float that is not finite. */
  datatype Number = Number(value: real) | NotFinite

  datatype PoleFacts = PoleFacts(
    schemaVersion: string, left: string, right: string, preference: string, strength: Number,
    min: Number, max: Number, threshold: Number, order: int)

  datatype Dimension = Dimension(
    code: string, kind: string, name: string, rawScore: Number, pole: PoleFacts,
    description: string, suggestion: string)

  /** The time text of a source, and whether it parses as an ISO time with an offset. */
  datatype Timestamp = Timestamp(text: string, zoned: bool)

  datatype Source = Source(
    reportId: string, outcomeId: string, reportType: string, templateVersion: string,
    contentVersion: string, builder: string, generatedAt: Timestamp)

  datatype Model = Model(kind: string, algorithm: string, code: string, version: string, title: string)

  datatype TypeResult = TypeResult(
    kind: string, typeCode: string, typeName: string, oneLiner: string, matchPercent: Number, commentary: string)

  datatype Snapshot = Snapshot(
    schemaVersion: string, source: Source, model: Model, decisionKind: string, conclusion: string,
    dimensions: seq<Dimension>, suggestions: seq<Suggestion>, result: TypeResult)

  datatype Policy = Policy(
    sceneContract: string, modelCode: string, modelVersion: string, minDimensions: int, maxDimensions: int,
    eligible: seq<string>, excluded: seq<string>, allowedFocus: seq<string>, includeNorm: bool,
    includeResult: bool, profileId: string, profileVersion: string, profileFingerprint: string)

  datatype ProjectedDimension = ProjectedDimension(
    ref: string, code: string, kind: string, name: string, rawScore: Number, rawMax: Number,
    pole: PoleFacts, description: string, suggestionRefs: seq<string>)

  datatype Context = Context(locale: string, personalized: bool, focus: seq<string>)

  datatype Facts = Facts(
    decisionKind: string, model: Model, conclusion: string, dimensions: seq<ProjectedDimension>,
    suggestions: seq<Item>, result: TypeResult)

  datatype Profile = Profile(id: string, version: string, fingerprint: string)

  datatype Document = Document(
    schemaVersion: string, sceneContract: string, source: Source, profile: Profile, context: Context, facts: Facts)

  // ----- the shared checks -----

  predicate Bounded(n: Number, low: real, high: real) {
    n.Number? && low <= n.value <= high
  }

  /** `_pole_preference` succeeds. */
  predicate PoleHolds(kind: string, code: string, score: Number, p: PoleFacts, c: ModelContract)
    requires |c.axes| == 4 && |c.bounds| == 4
  {
    && 1 <= p.order <= 4
    && var b := c.bounds[p.order - 1];
    && Bounded(score, b.min, b.max)
    && kind == "pole" && p.schemaVersion == "mbti-pole-facts/v1"
    && Axis(code, p.left, p.right) == c.axes[p.order - 1]
    && (p.preference == p.left || p.preference == p.right)
    && Bounded(p.min, b.min, b.min) && Bounded(p.max, b.max, b.max) && Bounded(p.threshold, b.threshold, b.threshold)
    && Bounded(p.strength, 0.0, 100.0)
  }

  /** The letter of the type at the place of this pole is its preference. */
  predicate Spells(typeCode: string, p: PoleFacts) {
    1 <= p.order <= |typeCode| && [typeCode[p.order - 1]] == p.preference
  }

  function Order(d: Dimension): int {
    d.pole.order
  }

  function SourceIndex(s: Suggestion): int {
    s.sourceIndex
  }

  // ----- a valid snapshot -----

  predicate ValidId(s: string) {
    1 <= |s| <= 20 && Digits(s) && s[0] != '0' && Value(s) < 0x1_0000_0000_0000_0000
  }

  predicate ValidSource(s: Source) {
    && ValidId(s.reportId) && ValidId(s.outcomeId)
    && Plain(s.templateVersion, 255, true) && Plain(s.contentVersion, 255, true) && Plain(s.builder, 255, true)
    && Plain(s.generatedAt.text, 255, true) && s.reportType == "standard" && s.generatedAt.zoned
  }

  predicate ValidTypeCode(t: string) {
    |t| == 4 && t[0] in "IE" && t[1] in "SN" && t[2] in "FT" && t[3] in "JP"
  }

  /** Everything but the two lists. */
  predicate ValidHeader(s: Snapshot) {
    && s.schemaVersion == "qs-report-snapshot/v2" && ValidSource(s.source)
    && ContractOf(s.model.code, s.model.version).Some?
    && s.model.kind == "typology" && s.model.algorithm == "personality_typology" && Plain(s.model.title, 2000, true)
    && s.decisionKind == "pole_composition" && Plain(s.conclusion, 4000, false)
    && s.result.kind == "personality_type" && ValidTypeCode(s.result.typeCode)
    && Plain(s.result.typeName, 2000, true) && Plain(s.result.oneLiner, 4000, false)
    && Plain(s.result.commentary, 4000, false) && Bounded(s.result.matchPercent, 0.0, 100.0)
  }

  predicate ValidDimension(d: Dimension, c: ModelContract)
    requires |c.axes| == 4 && |c.bounds| == 4
  {
    && Plain(d.name, 2000, true) && Plain(d.description, 4000, false) && Plain(d.suggestion, 4000, false)
    && PoleHolds(d.kind, d.code, d.rawScore, d.pole, c)
  }

  predicate ValidSuggestion(s: Suggestion) {
    && s.sourceIndex >= 0 && Plain(s.category, 2000, true) && Plain(s.content, 2000, true)
    && (s.dimensionCode.Some? ==> s.dimensionCode.value in AXIS_CODES)
  }

  /** Four different axes whose preferences spell the type. */
  ghost predicate ValidAxes(dimensions: seq<Dimension>, c: ModelContract, typeCode: string)
    requires |c.axes| == 4 && |c.bounds| == 4
  {
    && |dimensions| == 4 && |typeCode| == 4
    && (forall i :: 0 <= i < |dimensions| ==> ValidDimension(dimensions[i], c) && Spells(typeCode, dimensions[i].pole))
    && DistinctKeys(dimensions, Order)
  }

  ghost predicate ValidSuggestions(s: seq<Suggestion>) {
    && |s| <= 50
    && (forall i :: 0 <= i < |s| ==> ValidSuggestion(s[i]))
    && DistinctKeys(s, SourceIndex)
  }

  ghost predicate ValidSnapshot(s: Snapshot) {
    && ValidHeader(s)
    && FourAxes(ContractOf(s.model.code, s.model.version).value)
    && ValidAxes(s.dimensions, ContractOf(s.model.code, s.model.version).value, s.result.typeCode)
    && ValidSuggestions(s.suggestions)
  }

  // ----- reading the axes -----

  /** The preference of the pole is filed under its order. */
  predicate Filed(p: PoleFacts, preferences: map<int, string>) {
    1 <= p.order <= 4 && |p.preference| == 1 && p.order in preferences && preferences[p.order] == p.preference
  }

  predicate Covers(poles: seq<PoleFacts>, n: int) {
    exists i :: 0 <= i < |poles| && poles[i].order == n
  }

  /** What a loop over the axes has collected: the preference of every pole by its order. */
  ghost predicate Collected(poles: seq<PoleFacts>, preferences: map<int, string>) {
    && |preferences| == |poles|
    && (forall i :: 0 <= i < |poles| ==> Filed(poles[i], preferences))
    && (forall n :: n in preferences ==> Covers(poles, n))
  }

  lemma CollectOne(poles: seq<PoleFacts>, preferences: map<int, string>, p: PoleFacts)
    requires Collected(poles, preferences)
    requires 1 <= p.order <= 4 && |p.preference| == 1 && p.order !in preferences
    ensures Collected(poles + [p], preferences[p.order := p.preference])
  {
    var longer, more := poles + [p], preferences[p.order := p.preference];
    assert more.Keys == preferences.Keys + {p.order};
    forall n | n in more ensures Covers(longer, n) {
      if n == p.order {
        assert longer[|poles|].order == n;
      } else {
        var i :| 0 <= i < |poles| && poles[i].order == n;
        assert longer[i].order == n;
      }
    }
    forall i | 0 <= i < |longer| ensures Filed(longer[i], more) {
      if i < |poles| {
        assert Filed(poles[i], preferences) && Covers(poles, poles[i].order);
      }
    }
  }

  lemma SubsetOfSameSize(a: set<int>, b: set<int>)
    requires a <= b && |a| >= |b|
    ensures a == b
  {
    assert |b - a| == |b| - |a|;
  }

  function Joined(preferences: map<int, string>): string
    requires preferences.Keys == {1, 2, 3, 4}
  {
    preferences[1] + preferences[2] + preferences[3] + preferences[4]
  }

  lemma FourCoverAll(poles: seq<PoleFacts>, preferences: map<int, string>)
    requires Collected(poles, preferences) && |poles| == 4
    ensures preferences.Keys == {1, 2, 3, 4} && |Joined(preferences)| == 4
    ensures forall i :: 0 <= i < 4 ==> [Joined(preferences)[poles[i].order - 1]] == poles[i].preference
  {
    forall n | n in preferences.Keys ensures n in {1, 2, 3, 4} {
      var i :| 0 <= i < |poles| && poles[i].order == n;
      assert Filed(poles[i], preferences);
    }
    SubsetOfSameSize(preferences.Keys, {1, 2, 3, 4});
    forall n | n in preferences.Keys ensures |preferences[n]| == 1 {
      var i :| 0 <= i < |poles| && poles[i].order == n;
      assert Filed(poles[i], preferences);
    }
    forall i | 0 <= i < 4 ensures [Joined(preferences)[poles[i].order - 1]] == poles[i].preference {
      assert Filed(poles[i], preferences);
    }
  }

  /** Four collected preferences, joined in order, make the type code exactly when every pole spells it. */
  lemma JoinSpells(poles: seq<PoleFacts>, preferences: map<int, string>, typeCode: string)
    requires Collected(poles, preferences) && |poles| == 4
    ensures preferences.Keys == {1, 2, 3, 4}
    ensures Joined(preferences) == typeCode
            <==> |typeCode| == 4 && forall i :: 0 <= i < 4 ==> Spells(typeCode, poles[i])
  {
    FourCoverAll(poles, preferences);
    var joined := Joined(preferences);
    hide Joined;
    forall i | 0 <= i < 4 ensures 1 <= poles[i].order <= 4 {
      assert Filed(poles[i], preferences);
    }
    if |typeCode| == 4 && forall i :: 0 <= i < 4 ==> Spells(typeCode, poles[i]) {
      forall k | 0 <= k < 4 ensures typeCode[k] == joined[k] {
        assert Covers(poles, k + 1);
        var i :| 0 <= i < 4 && poles[i].order == k + 1;
        assert Spells(typeCode, poles[i]);
        assert [typeCode[k]][0] == [joined[k]][0];
      }
      assert typeCode == joined;
    }
  }

  function Poles(dimensions: seq<Dimension>): seq<PoleFacts> {
    seq(|dimensions|, i requires 0 <= i < |dimensions| => dimensions[i].pole)
  }

  lemma PoleIsUsable(kind: string, code: string, score: Number, p: PoleFacts, c: ModelContract)
    requires FourAxes(c) && PoleHolds(kind, code, score, p, c)
    ensures 1 <= p.order <= 4 && |p.preference| == 1 && code == AXIS_CODES[p.order - 1]
  {
  }

  predicate DistinctOrders(poles: seq<PoleFacts>) {
    forall i, j :: 0 <= i < j < |poles| ==> poles[i].order != poles[j].order
  }

  /** A pole whose order is already filed repeats one; any other keeps the orders distinct. */
  lemma OneMorePole(poles: seq<PoleFacts>, preferences: map<int, string>, p: PoleFacts)
    requires Collected(poles, preferences) && DistinctOrders(poles)
    ensures DistinctOrders(poles + [p]) <==> p.order !in preferences
  {
    var longer := poles + [p];
    assert longer[|poles|] == p;
    if p.order in preferences {
      assert Covers(poles, p.order);
      var i :| 0 <= i < |poles| && poles[i].order == p.order;
      assert longer[i].order == p.order;
    } else {
      forall i | 0 <= i < |poles| ensures poles[i].order != p.order {
        assert Filed(poles[i], preferences);
      }
    }
  }

  lemma NotDistinctLater(poles: seq<PoleFacts>, i: nat)
    requires i <= |poles| && !DistinctOrders(poles[..i])
    ensures !DistinctOrders(poles)
  {
    var k, l :| 0 <= k < l < i && poles[..i][k].order == poles[..i][l].order;
    assert poles[k].order == poles[l].order;
  }

  lemma DistinctDimensions(dimensions: seq<Dimension>)
    ensures DistinctKeys(dimensions, Order) <==> DistinctOrders(Poles(dimensions))
  {
    var poles := Poles(dimensions);
    assert forall i :: 0 <= i < |poles| ==> poles[i].order == Order(dimensions[i]);
  }

  /** The loop over the dimensions of a snapshot accepts exactly four different axes that spell the type. */
  method ReadAxes(dimensions: seq<Dimension>, c: ModelContract, typeCode: string) returns (ok: bool)
    requires FourAxes(c)
    ensures ok <==> ValidAxes(dimensions, c, typeCode)
  {
    hide ValidDimension, Spells, Collected, PoleHolds, FourAxes, DistinctOrders;
    if |dimensions| != 4 {
      return false;
    }
    assert FourAxes(c) ==> |c.axes| == 4 && |c.bounds| == 4 by { FourAxesCount(c); }
    var preferences: map<int, string> := map[];
    CollectNone();
    DistinctDimensions(dimensions);
    assert Poles(dimensions)[..0] == [];
    for i := 0 to 4
      invariant forall k :: 0 <= k < i ==> ValidDimension(dimensions[k], c)
      invariant Collected(Poles(dimensions)[..i], preferences) && DistinctOrders(Poles(dimensions)[..i])
    {
      var d := dimensions[i];
      if !ValidDimension(d, c) {
        return false;
      }
      ghost var poles := Poles(dimensions)[..i];
      assert poles + [d.pole] == Poles(dimensions)[..i + 1];
      OneMorePole(poles, preferences, d.pole);
      if d.pole.order in preferences {
        NotDistinctLater(Poles(dimensions), i + 1);
        return false;
      }
      ValidDimensionIsUsable(d, c);
      CollectOne(poles, preferences, d.pole);
      preferences := preferences[d.pole.order := d.pole.preference];
    }
    assert Poles(dimensions)[..4] == Poles(dimensions);
    JoinSpells(Poles(dimensions), preferences, typeCode);
    ok := Joined(preferences) == typeCode;
    assert forall i :: 0 <= i < 4 ==> Poles(dimensions)[i] == dimensions[i].pole;
  }

  lemma FourAxesCount(c: ModelContract)
    requires FourAxes(c)
    ensures |c.axes| == 4 && |c.bounds| == 4
  {
  }

  lemma CollectNone()
    ensures Collected([], map[]) && DistinctOrders([])
  {
  }

  lemma ValidDimensionIsUsable(d: Dimension, c: ModelContract)
    requires FourAxes(c) && ValidDimension(d, c)
    ensures 1 <= d.pole.order <= 4 && |d.pole.preference| == 1 && d.code == AXIS_CODES[d.pole.order - 1]
  {
    PoleIsUsable(d.kind, d.code, d.rawScore, d.pole, c);
  }

  /** The loop over the suggestions accepts exactly plain ones with different indices. */
  method ReadSuggestions(suggestions: seq<Suggestion>) returns (ok: bool)
    ensures ok <==> ValidSuggestions(suggestions)
  {
    hide ValidSuggestion;
    if |suggestions| > 50 {
      return false;
    }
    var indices: set<int> := {};
    for i := 0 to |suggestions|
      invariant forall k :: 0 <= k < i ==> ValidSuggestion(suggestions[k])
      invariant forall k, l :: 0 <= k < l < i ==> SourceIndex(suggestions[k]) != SourceIndex(suggestions[l])
      invariant forall n :: n in indices <==> exists k :: 0 <= k < i && SourceIndex(suggestions[k]) == n
    {
      var suggestion := suggestions[i];
      if SourceIndex(suggestion) in indices || !ValidSuggestion(suggestion) {
        return false;
      }
      indices := indices + {SourceIndex(suggestion)};
    }
    ok := true;
  }

  method DecodeSnapshot(s: Snapshot) returns (r: Checked<Snapshot>)
    ensures r == if ValidSnapshot(s) then Accepted(s) else Rejected
  {
    hide ValidAxes, ValidSuggestions;
    if !ValidHeader(s) {
      return Rejected;
    }
    ContractsHaveFourAxes(s.model.code, s.model.version);
    var axes := ReadAxes(s.dimensions, ContractOf(s.model.code, s.model.version).value, s.result.typeCode);
    if !axes {
      return Rejected;
    }
    var suggestions := ReadSuggestions(s.suggestions);
    r := if suggestions then Accepted(s) else Rejected;
  }

  // ----- order does not matter -----

  /** The same report with its dimensions and suggestions listed in another order. */
  ghost predicate Rearranged(a: Snapshot, b: Snapshot) {
    && b == a.(dimensions := b.dimensions, suggestions := b.suggestions)
    && multiset(a.dimensions) == multiset(b.dimensions)
    && multiset(a.suggestions) == multiset(b.suggestions)
  }

  lemma ValidityForgetsOrder(a: Snapshot, b: Snapshot)
    requires Rearranged(a, b) && ValidSnapshot(a)
    ensures ValidSnapshot(b)
  {
    assert ValidHeader(b) && ContractOf(a.model.code, a.model.version).Some?;
    hide ValidHeader, ValidDimension, ValidSuggestion, Spells, FourAxes;
    assert |ContractOf(a.model.code, a.model.version).value.axes| == 4 by {
      FourAxesCount(ContractOf(a.model.code, a.model.version).value);
    }
    var c := ContractOf(a.model.code, a.model.version).value;
    assert |a.dimensions| == |multiset(a.dimensions)| && |b.dimensions| == |multiset(b.dimensions)|;
    assert |a.suggestions| == |multiset(a.suggestions)| && |b.suggestions| == |multiset(b.suggestions)|;
    DistinctKeysForgetOrder(a.dimensions, b.dimensions, Order);
    DistinctKeysForgetOrder(a.suggestions, b.suggestions, SourceIndex);
    forall i | 0 <= i < |b.dimensions|
      ensures ValidDimension(b.dimensions[i], c) && Spells(a.result.typeCode, b.dimensions[i].pole)
    {
      SameElements(a.dimensions, b.dimensions, b.dimensions[i]);
      var k :| 0 <= k < |a.dimensions| && a.dimensions[k] == b.dimensions[i];
    }
    forall i | 0 <= i < |b.suggestions| ensures ValidSuggestion(b.suggestions[i]) {
      SameElements(a.suggestions, b.suggestions, b.suggestions[i]);
      var k :| 0 <= k < |a.suggestions| && a.suggestions[k] == b.suggestions[i];
    }
  }
}
