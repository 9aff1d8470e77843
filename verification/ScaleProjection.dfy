/** Projection of scale reports: selection, references, parents, ordering and suggestions of `_assemble`
    (src/qs_ai/application/interpretation/input.py). Scores, levels and norms are carried through unread. */
module ScaleProjection {
  import opened Escapes
  import opened Outcomes
  import opened Sorting
  import opened Suggestions
  import opened Texts

  /** `facts` stands for the fields of a dimension that are checked on their own and copied. */
  datatype Dimension = Dimension(
    code: string, parentCode: Option<string>, hierarchy: int, sortOrder: int, kind: string, name: string,
    description: string, suggestion: string, facts: string)

  datatype Projected = Projected(
    ref: string, code: string, parentRef: Option<string>, hierarchy: int, sortOrder: int, kind: string,
    name: string, description: string, suggestionRefs: seq<string>, facts: string)

  datatype Policy = Policy(minDimensions: int, maxDimensions: int, eligible: seq<string>, excluded: seq<string>)

  datatype Assembly = Assembly(dimensions: seq<Projected>, suggestions: seq<Item>)

  predicate PolicyHolds(p: Policy) {
    && 2 <= p.minDimensions <= p.maxDimensions <= 50
    && forall code :: code in p.eligible ==> code !in p.excluded
  }

  predicate Eligible(d: Dimension, p: Policy) {
    (p.eligible == [] || d.code in p.eligible) && d.code !in p.excluded
  }

  predicate Coded(dimensions: seq<Dimension>) {
    && (forall i :: 0 <= i < |dimensions| ==> dimensions[i].code != "")
    && (forall i, j :: 0 <= i < j < |dimensions| ==> dimensions[i].code != dimensions[j].code)
  }

  function Selected(dimensions: seq<Dimension>, p: Policy): seq<Dimension> {
    if dimensions == [] then []
    else Selected(dimensions[..|dimensions| - 1], p)
         + if Eligible(dimensions[|dimensions| - 1], p) then [dimensions[|dimensions| - 1]] else []
  }

  function Refs(selected: seq<Dimension>): map<string, string> {
    map d | d in selected :: d.code := "dimension:" + Ref(d.code)
  }

  function AdviceOf(dimensions: seq<Dimension>): seq<Advice> {
    seq(|dimensions|, i requires 0 <= i < |dimensions| => Advice(dimensions[i].code, dimensions[i].suggestion))
  }

  predicate Usable(d: Dimension) {
    && d.hierarchy >= 0 && d.sortOrder >= 0
    && Plain(d.kind, 255, true) && Plain(d.name, 2000, true) && Plain(d.description, 4000, false)
  }

  function Project(d: Dimension, refs: map<string, string>, byDimension: map<string, seq<string>>): Projected
    requires d.code in refs
  {
    Projected(refs[d.code], d.code,
              if d.parentCode.Some? && d.parentCode.value in refs then Some(refs[d.parentCode.value]) else None,
              d.hierarchy, d.sortOrder, d.kind, d.name, d.description,
              if d.code in byDimension then byDimension[d.code] else [], d.facts)
  }

  function ProjectAll(selected: seq<Dimension>, refs: map<string, string>, byDimension: map<string, seq<string>>): seq<Projected>
    requires forall d :: d in selected ==> d.code in refs
  {
    seq(|selected|, i requires 0 <= i < |selected| => Project(selected[i], refs, byDimension))
  }

  /** The order of the key (sort_order, code). */
  function ByPlace(): (Projected, Projected) -> bool {
    (a: Projected, b: Projected) => a.sortOrder < b.sortOrder || (a.sortOrder == b.sortOrder && ByText()(a.code, b.code))
  }

  lemma SelectedIsSelected(dimensions: seq<Dimension>, p: Policy)
    requires Coded(dimensions)
    ensures Coded(Selected(dimensions, p))
    ensures forall d :: d in Selected(dimensions, p) <==> d in dimensions && Eligible(d, p)
  {
    if dimensions != [] {
      var init, last := dimensions[..|dimensions| - 1], dimensions[|dimensions| - 1];
      SelectedIsSelected(init, p);
      assert dimensions == init + [last];
      forall i | 0 <= i < |Selected(init, p)| ensures Selected(init, p)[i].code != last.code {
        assert Selected(init, p)[i] in init;
      }
    }
  }

  lemma RefsHold(selected: seq<Dimension>)
    requires Coded(selected)
    ensures OneToOne(Refs(selected)) && "" !in Refs(selected)
    ensures forall d :: d in selected ==> d.code in Refs(selected)
    ensures forall code :: code in Refs(selected) ==> Refs(selected)[code] == "dimension:" + Ref(code)
  {
    EncodedRefsAreOneToOne(Refs(selected));
  }

  /** `_assemble`, from its policy check to the sorted dimensions. */
  method Assemble(dimensions: seq<Dimension>, suggestions: seq<Suggestion>, policy: Policy)
    returns (r: Checked<Assembly>)
    ensures r == Assembled(dimensions, suggestions, policy)
  {
    hide PolicyHolds, Coded, Selected, Usable, Suggestions.Projected, Sort, Refs, AdviceOf;
    if !PolicyHolds(policy) || !Coded(dimensions) {
      return Rejected;
    }
    var selected := Selected(dimensions, policy);
    if !(policy.minDimensions <= |selected| <= policy.maxDimensions) {
      return Rejected;
    }
    var refs := Refs(selected);
    RefsCover(selected);
    var collected := CollectSuggestions(suggestions, AdviceOf(dimensions), refs);
    if collected.Rejected? {
      return Rejected;
    }
    var projected: seq<Projected> := [];
    for i := 0 to |selected|
      invariant forall k :: 0 <= k < i ==> Usable(selected[k])
      invariant projected == ProjectAll(selected[..i], refs, collected.value.byDimension)
    {
      var d := selected[i];
      assert d in selected;
      if !Usable(d) {
        return Rejected;
      }
      projected := projected + [Project(d, refs, collected.value.byDimension)];
    }
    assert selected[..|selected|] == selected;
    r := Accepted(Assembly(Sort(projected, ByPlace()), collected.value.items));
  }

  lemma RefsCover(selected: seq<Dimension>)
    ensures forall d :: d in selected ==> d.code in Refs(selected)
  {
  }

  function Assembled(dimensions: seq<Dimension>, suggestions: seq<Suggestion>, policy: Policy): Checked<Assembly> {
    if !PolicyHolds(policy) || !Coded(dimensions) then Rejected
    else
      var selected := Selected(dimensions, policy);
      if !(policy.minDimensions <= |selected| <= policy.maxDimensions) then Rejected
      else
        var refs := Refs(selected);
        RefsCover(selected);
        match Suggestions.Projected(suggestions, AdviceOf(dimensions), refs)
        case Rejected => Rejected
        case Accepted(p) =>
          if exists d :: d in selected && !Usable(d) then Rejected
          else Accepted(Assembly(Sort(ProjectAll(selected, refs, p.byDimension), ByPlace()), p.items))
  }

  // ----- what an assembly guarantees -----

  /** Some projected dimension has this reference and this code. */
  predicate Refers(dimensions: seq<Projected>, ref: string, code: string) {
    exists d :: d in dimensions && d.ref == ref && d.code == code
  }

  predicate Present(dimensions: seq<Projected>, code: string) {
    exists d :: d in dimensions && d.code == code
  }

  /** A parent is named exactly when it is projected too, and then by its own reference. */
  predicate ParentHolds(all: seq<Projected>, parentRef: Option<string>, parentCode: Option<string>) {
    && (parentRef.Some? ==> parentCode.Some? && Refers(all, parentRef.value, parentCode.value))
    && (parentRef.None? ==> parentCode.None? || !Present(all, parentCode.value))
  }

  /** p is the projection of d among all. */
  predicate Projects(all: seq<Projected>, p: Projected, d: Dimension) {
    && p.ref == "dimension:" + Ref(d.code) && p.code == d.code && p.sortOrder == d.sortOrder
    && p.hierarchy == d.hierarchy && p.kind == d.kind && p.name == d.name && p.description == d.description && p.facts == d.facts
    && ParentHolds(all, p.parentRef, d.parentCode)
  }

  /** Every projected dimension is an eligible one, and every eligible one is projected. */
  ghost predicate Faithful(all: seq<Projected>, dimensions: seq<Dimension>, policy: Policy) {
    && (forall p :: p in all ==> exists d :: d in dimensions && Eligible(d, policy) && Projects(all, p, d))
    && (forall d :: d in dimensions && Eligible(d, policy) ==> Present(all, d.code))
  }

  /** References between dimensions and suggestions agree from both sides. */
  ghost predicate Linked(all: seq<Projected>, items: seq<Item>) {
    && (forall p :: p in all ==> p.suggestionRefs == Naming(items, p.ref))
    && (forall item, ref :: item in items && ref in item.dimensionRefs ==> exists p :: p in all && p.ref == ref)
  }

  function RefOf(p: Projected): string {
    p.ref
  }

  lemma PlacesAreOrdered()
    ensures Ordering(ByPlace())
  {
    TextsAreOrdered(multiset{});
    forall x: Projected, y: Projected ensures ByPlace()(x, y) || ByPlace()(y, x) {
      assert ByText()(x.code, y.code) || ByText()(y.code, x.code);
    }
    forall x: Projected, y: Projected, z: Projected | ByPlace()(x, y) && ByPlace()(y, z) ensures ByPlace()(x, z) {
      if x.sortOrder == y.sortOrder == z.sortOrder {
        assert ByText()(x.code, y.code) && ByText()(y.code, z.code);
      }
    }
  }

  /** Membership is all that faithfulness and linking depend on. */
  lemma SortingKeeps(all: seq<Projected>, sorted: seq<Projected>, dimensions: seq<Dimension>, policy: Policy, items: seq<Item>)
    requires multiset(all) == multiset(sorted)
    requires Faithful(all, dimensions, policy) && Linked(all, items) && DistinctKeys(all, RefOf)
    ensures Faithful(sorted, dimensions, policy) && Linked(sorted, items) && DistinctKeys(sorted, RefOf)
  {
    forall p ensures p in all <==> p in sorted {
      SameElements(all, sorted, p);
    }
    DistinctKeysForgetOrder(all, sorted, RefOf);
    hide Naming, Eligible;
    forall ref, code ensures Refers(all, ref, code) <==> Refers(sorted, ref, code) {
    }
    forall code ensures Present(all, code) <==> Present(sorted, code) {
    }
    forall p, d | Projects(all, p, d) ensures Projects(sorted, p, d) {
    }
  }

  /** The references used for a selection, and the projections made with them. */
  ghost predicate Covers(refs: map<string, string>, selected: seq<Dimension>) {
    && (forall d :: d in selected ==> d.code in refs)
    && (forall code :: code in refs ==> refs[code] == "dimension:" + Ref(code) && exists d :: d in selected && d.code == code)
  }

  lemma RefsAreCovering(selected: seq<Dimension>)
    requires Coded(selected)
    ensures Covers(Refs(selected), selected)
  {
    hide Ref;
    RefsHold(selected);
  }

  lemma ProjectedFrom(selected: seq<Dimension>, refs: map<string, string>, byDimension: map<string, seq<string>>, p: Projected)
    returns (d: Dimension)
    requires (forall d :: d in selected ==> d.code in refs) && p in ProjectAll(selected, refs, byDimension)
    ensures d in selected && p == Project(d, refs, byDimension)
  {
    var k :| 0 <= k < |selected| && ProjectAll(selected, refs, byDimension)[k] == p;
    d := selected[k];
  }

  lemma ProjectedTo(selected: seq<Dimension>, refs: map<string, string>, byDimension: map<string, seq<string>>, d: Dimension)
    requires (forall d :: d in selected ==> d.code in refs) && d in selected
    ensures Project(d, refs, byDimension) in ProjectAll(selected, refs, byDimension)
  {
    var k :| 0 <= k < |selected| && selected[k] == d;
    assert ProjectAll(selected, refs, byDimension)[k] == Project(d, refs, byDimension);
  }

  lemma ParentIsFound(selected: seq<Dimension>, refs: map<string, string>, byDimension: map<string, seq<string>>, d: Dimension)
    requires Covers(refs, selected) && d in selected
    ensures ParentHolds(ProjectAll(selected, refs, byDimension), Project(d, refs, byDimension).parentRef, d.parentCode)
  {
    hide Ref;
    var all := ProjectAll(selected, refs, byDimension);
    if d.parentCode.Some? {
      var code := d.parentCode.value;
      if code in refs {
        var parent :| parent in selected && parent.code == code;
        ProjectedTo(selected, refs, byDimension, parent);
        assert Refers(all, refs[code], code);
      } else if Present(all, code) {
        var p :| p in all && p.code == code;
        var q := ProjectedFrom(selected, refs, byDimension, p);
        assert false;
      }
    }
  }

  lemma ProjectionIsFaithful(dimensions: seq<Dimension>, selected: seq<Dimension>, policy: Policy,
                             refs: map<string, string>, byDimension: map<string, seq<string>>)
    requires Covers(refs, selected) && forall d :: d in selected <==> d in dimensions && Eligible(d, policy)
    ensures Faithful(ProjectAll(selected, refs, byDimension), dimensions, policy)
  {
    var all := ProjectAll(selected, refs, byDimension);
    hide Ref, Eligible, ProjectAll, ParentHolds;
    forall p | p in all ensures exists d :: d in dimensions && Eligible(d, policy) && Projects(all, p, d) {
      var d := ProjectedFrom(selected, refs, byDimension, p);
      ParentIsFound(selected, refs, byDimension, d);
      assert Projects(all, p, d);
    }
    forall d | d in dimensions && Eligible(d, policy) ensures Present(all, d.code) {
      ProjectedTo(selected, refs, byDimension, d);
    }
  }

  lemma RefsAreDistinct(selected: seq<Dimension>, refs: map<string, string>, byDimension: map<string, seq<string>>)
    requires Covers(refs, selected) && Coded(selected) && OneToOne(refs)
    ensures DistinctKeys(ProjectAll(selected, refs, byDimension), RefOf)
  {
    hide Ref;
    var all := ProjectAll(selected, refs, byDimension);
    forall i, j | 0 <= i < j < |all| ensures RefOf(all[i]) != RefOf(all[j]) {
      assert selected[i] in selected && selected[j] in selected;
      assert selected[i].code != selected[j].code;
    }
  }

  lemma ConsistentIsLinked(selected: seq<Dimension>, refs: map<string, string>, p: Projection)
    requires Covers(refs, selected) && Consistent(p, refs)
    ensures Linked(ProjectAll(selected, refs, p.byDimension), p.items)
  {
    var all := ProjectAll(selected, refs, p.byDimension);
    hide Ref, Naming, ProjectAll;
    forall q | q in all ensures q.suggestionRefs == Naming(p.items, q.ref) {
      var d := ProjectedFrom(selected, refs, p.byDimension, q);
    }
    forall item, ref | item in p.items && ref in item.dimensionRefs ensures exists q :: q in all && q.ref == ref {
      var i :| 0 <= i < |p.items| && p.items[i] == item;
      assert ref in refs.Values;
      var code :| code in refs && refs[code] == ref;
      var d :| d in selected && d.code == code;
      ProjectedTo(selected, refs, p.byDimension, d);
    }
  }

  /** The main result: an assembly lists exactly the eligible dimensions, in their order, under distinct
      references that decode to their codes; parents and suggestions resolve. */
  lemma AssemblyIsSound(dimensions: seq<Dimension>, suggestions: seq<Suggestion>, policy: Policy)
    ensures var r := Assembled(dimensions, suggestions, policy);
            r.Accepted? ==>
              var a := r.value;
              && policy.minDimensions <= |a.dimensions| <= policy.maxDimensions
              && Ascending(a.dimensions, ByPlace()) && DistinctKeys(a.dimensions, RefOf)
              && Faithful(a.dimensions, dimensions, policy) && Linked(a.dimensions, a.suggestions)
              && DistinctRefs(a.suggestions) && DistinctTriples(a.suggestions)
  {
    if Assembled(dimensions, suggestions, policy).Rejected? {
      return;
    }
    hide Selected, Suggestions.Projected, Sort, Faithful, Linked, DistinctKeys, Ascending, Ordering, Consistent, Usable;
    var selected := Selected(dimensions, policy);
    var refs, advice := Refs(selected), AdviceOf(dimensions);
    SelectedIsSelected(dimensions, policy);
    RefsHold(selected);
    RefsAreCovering(selected);
    AdviceHasCodes(dimensions);
    hide AdviceOf, Refs, OneToOne, DistinctCodes, Coded, Covers, Ref, Eligible;
    ProjectionIsConsistent(suggestions, advice, refs);
    var p := Suggestions.Projected(suggestions, advice, refs).value;
    var all := ProjectAll(selected, refs, p.byDimension);
    ProjectionIsFaithful(dimensions, selected, policy, refs, p.byDimension);
    RefsAreDistinct(selected, refs, p.byDimension);
    ConsistentIsLinked(selected, refs, p);
    PlacesAreOrdered();
    SortIsAscending(all, ByPlace());
    SortingKeeps(all, Sort(all, ByPlace()), dimensions, policy, p.items);
    ConsistentIsDistinct(p, refs);
  }

  // ----- when there is an assembly -----

  function EligibleCodes(dimensions: seq<Dimension>, p: Policy): set<string> {
    set d | d in dimensions && Eligible(d, p) :: d.code
  }

  /** A text that the projection accepts as a suggestion. */
  predicate Suitable(category: string, text: string) {
    category != "" && text != "" && |text| <= 2000 && '<' !in text && '>' !in text
  }

  /** What the report must offer, whether it is projected or not. */
  predicate Offers(dimensions: seq<Dimension>, suggestions: seq<Suggestion>) {
    && WellIndexed(suggestions)
    && (forall s :: s in suggestions ==> Suitable(s.category, s.content))
    && (forall d :: d in dimensions && !Blank(d.suggestion) ==> Suitable("dimension", d.suggestion))
  }

  lemma {:induction false} SelectedCount(dimensions: seq<Dimension>, p: Policy)
    requires Coded(dimensions)
    ensures |Selected(dimensions, p)| == |EligibleCodes(dimensions, p)|
  {
    if dimensions == [] {
      assert EligibleCodes(dimensions, p) == {};
    } else {
      var init, last := dimensions[..|dimensions| - 1], dimensions[|dimensions| - 1];
      assert dimensions == init + [last];
      SelectedCount(init, p);
      hide Eligible;
      assert EligibleCodes(dimensions, p) == EligibleCodes(init, p) + if Eligible(last, p) then {last.code} else {};
      forall d | d in init ensures d.code != last.code {
        var i :| 0 <= i < |init| && init[i] == d;
        assert dimensions[i].code != dimensions[|dimensions| - 1].code;
      }
      assert last.code !in EligibleCodes(init, p);
    }
  }

  lemma {:induction false} AdvisedAreClean(dimensions: seq<Dimension>)
    ensures AllClean(Advised(AdviceOf(dimensions)))
            <==> forall d :: d in dimensions && !Blank(d.suggestion) ==> Suitable("dimension", d.suggestion)
  {
    if dimensions != [] {
      var init, last := dimensions[..|dimensions| - 1], dimensions[|dimensions| - 1];
      assert dimensions == init + [last] && AdviceOf(dimensions)[..|init|] == AdviceOf(init);
      AdvisedAreClean(init);
      var a := FromDimension(Advice(last.code, last.suggestion));
      assert a.Clean() <==> Suitable("dimension", last.suggestion);
      assert AllClean([]);
      var single := [a];
      assert AllClean(single) <==> single[0].Clean();
      hide Attempt.Clean, FromDimension, Suitable, Blank, Ref, AllClean;
      CleanParts(Advised(AdviceOf(init)), if Blank(last.suggestion) then [] else single);
    }
  }

  lemma OffersAreClean(dimensions: seq<Dimension>, suggestions: seq<Suggestion>)
    ensures Offers(dimensions, suggestions)
            <==> WellIndexed(suggestions) && AllClean(Attempts(suggestions, AdviceOf(dimensions)))
  {
    AdvisedAreClean(dimensions);
    if WellIndexed(suggestions) {
      var reported, advised := Reported(suggestions), Advised(AdviceOf(dimensions));
      CleanParts(reported, advised);
      forall i | 0 <= i < |suggestions|
        ensures reported[i].Clean() <==> Suitable(suggestions[i].category, suggestions[i].content)
      {
      }
    }
  }

  /** An assembly is made exactly when the policy is sound, the codes tell the dimensions apart, the number of
      eligible dimensions is within its bounds, these are usable, and everything suggested is suitable. */
  lemma AssemblyIsMade(dimensions: seq<Dimension>, suggestions: seq<Suggestion>, policy: Policy)
    ensures Assembled(dimensions, suggestions, policy).Accepted?
            <==> && PolicyHolds(policy) && Coded(dimensions)
                 && policy.minDimensions <= |EligibleCodes(dimensions, policy)| <= policy.maxDimensions
                 && (forall d :: d in dimensions && Eligible(d, policy) ==> Usable(d))
                 && Offers(dimensions, suggestions)
  {
    hide Attempts, AllClean, WellIndexed, Offers, Usable, PolicyHolds, Eligible, Items, ByDimension, Sort, Refs, AdviceOf, EligibleCodes, ProjectAll;
    OffersAreClean(dimensions, suggestions);
    if Coded(dimensions) {
      SelectedCount(dimensions, policy);
      SelectedIsSelected(dimensions, policy);
    }
    hide Selected, Coded;
  }

  lemma AdviceHasCodes(dimensions: seq<Dimension>)
    requires Coded(dimensions)
    ensures DistinctCodes(AdviceOf(dimensions))
  {
  }

  lemma ConsistentIsDistinct(p: Projection, refs: map<string, string>)
    requires Consistent(p, refs)
    ensures DistinctRefs(p.items) && DistinctTriples(p.items)
  {
  }
}
