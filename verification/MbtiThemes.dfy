/** Thematic MBTI inputs (src/qs_ai/application/interpretation/mbti_themes_input.py): frozen reference
    material is added to the unchanged projection, and its validator checks both again. */
module MbtiThemes {
  import opened MbtiInput
  import opened MbtiProjection
  import opened MbtiScenes
  import opened Outcomes

  datatype Citation = Citation(id: string, text: string)

  datatype Entry = Entry(id: string, axis: string, pole: char, text: string, sources: seq<string>)

  datatype Material = Material(
    version: string, modelCode: string, modelVersion: string, sources: seq<Citation>, entries: seq<Entry>)

  datatype Selected = Selected(
    version: string, modelCode: string, modelVersion: string, typeCode: string, sources: seq<Citation>, entries: seq<Entry>)

  datatype ThematicDocument = ThematicDocument(document: Document, reference: Selected)

  datatype Payload = Payload(context: Context, facts: Facts, reference: Selected)

  function PoleOf(typeCode: string, axis: string): Option<char> {
    if |typeCode| != 4 then None
    else if axis == "EI" then Some(typeCode[0])
    else if axis == "SN" then Some(typeCode[1])
    else if axis == "TF" then Some(typeCode[2])
    else if axis == "JP" then Some(typeCode[3])
    else None
  }

  function Chosen(entries: seq<Entry>, typeCode: string): seq<Entry> {
    if entries == [] then []
    else (if PoleOf(typeCode, entries[0].axis) == Some(entries[0].pole) then [entries[0]] else [])
         + Chosen(entries[1..], typeCode)
  }

  /** The sources that some entry names. */
  function Cited(sources: seq<Citation>, entries: seq<Entry>): seq<Citation> {
    if sources == [] then []
    else (if exists e :: e in entries && sources[0].id in e.sources then [sources[0]] else []) + Cited(sources[1..], entries)
  }

  /** The entries of the four poles of one type; any text that is not a type is refused. */
  function Select(m: Material, typeCode: string): Checked<Selected> {
    if !ValidTypeCode(typeCode) then Rejected
    else Accepted(Selected(m.version, m.modelCode, m.modelVersion, typeCode,
                           Cited(m.sources, Chosen(m.entries, typeCode)), Chosen(m.entries, typeCode)))
  }

  // ----- what is selected -----

  /** The entry is about one of the two poles of its axis, and that pole is a letter of the type. */
  predicate Tells(typeCode: string, e: Entry) {
    e.axis in AXIS_CODES && e.pole in e.axis && e.pole in typeCode
  }

  /** No letter belongs to two axes, so the place of a pole in the type does not matter. */
  lemma PoleTells(typeCode: string, e: Entry)
    requires ValidTypeCode(typeCode)
    ensures PoleOf(typeCode, e.axis) == Some(e.pole) <==> Tells(typeCode, e)
  {
    assert typeCode == [typeCode[0], typeCode[1], typeCode[2], typeCode[3]];
  }

  /** Exactly the entries of the type's four poles are chosen, as often as they are listed. */
  lemma {:induction false} ChosenTell(entries: seq<Entry>, typeCode: string, e: Entry)
    requires ValidTypeCode(typeCode)
    ensures multiset(Chosen(entries, typeCode))[e] == if Tells(typeCode, e) then multiset(entries)[e] else 0
  {
    if entries != [] {
      assert entries == [entries[0]] + entries[1..];
      ChosenTell(entries[1..], typeCode, e);
      PoleTells(typeCode, entries[0]);
      hide Tells, PoleOf;
    }
  }

  /** ... and in the order in which they are listed. */
  lemma {:induction false} ChosenKeepOrder(a: seq<Entry>, b: seq<Entry>, typeCode: string)
    ensures Chosen(a + b, typeCode) == Chosen(a, typeCode) + Chosen(b, typeCode)
  {
    hide PoleOf;
    if a == [] {
      assert a + b == b;
    } else {
      assert (a + b)[1..] == a[1..] + b;
      ChosenKeepOrder(a[1..], b, typeCode);
    }
  }

  lemma {:induction false} CitedAreNamed(sources: seq<Citation>, entries: seq<Entry>, c: Citation)
    ensures c in Cited(sources, entries) <==> c in sources && exists e :: e in entries && c.id in e.sources
  {
    if sources != [] {
      assert sources == [sources[0]] + sources[1..];
      CitedAreNamed(sources[1..], entries, c);
    }
  }

  /** The selection of a type: its entries and exactly the sources these name, of the same material. */
  lemma SelectionTellsType(m: Material, typeCode: string)
    ensures Select(m, typeCode).Accepted? <==> ValidTypeCode(typeCode)
    ensures ValidTypeCode(typeCode) ==>
              var r := Select(m, typeCode).value;
              && r.version == m.version && r.modelCode == m.modelCode && r.modelVersion == m.modelVersion && r.typeCode == typeCode
              && (forall e :: e in r.entries <==> e in m.entries && Tells(typeCode, e))
              && (forall c :: c in r.sources <==> c in m.sources && exists e :: e in r.entries && c.id in e.sources)
  {
    if ValidTypeCode(typeCode) {
      var chosen := Chosen(m.entries, typeCode);
      forall e ensures e in chosen <==> e in m.entries && Tells(typeCode, e) {
        ChosenTell(m.entries, typeCode, e);
        assert e in chosen <==> multiset(chosen)[e] > 0;
        assert e in m.entries <==> multiset(m.entries)[e] > 0;
      }
      forall c ensures c in Cited(m.sources, chosen) <==> c in m.sources && exists e :: e in chosen && c.id in e.sources {
        CitedAreNamed(m.sources, chosen, c);
      }
    }
  }

  /** `assemble_mbti_themes`. */
  ghost function Assemble(s: Snapshot, policy: Policy, m: Material, locale: string, focus: seq<string>)
    : Checked<ThematicDocument>
  {
    var contract := ContractOf(policy.modelCode, policy.modelVersion);
    if contract.None? || policy.sceneContract != THEMATIC_CONTRACT then Rejected
    else
      var baseline :- Project(s, policy.(sceneContract := SINGLE_CONTRACT), locale, focus);
      if (m.modelCode, m.modelVersion) != (policy.modelCode, policy.modelVersion) then Rejected
      else
        var selected :- Select(m, baseline.facts.result.typeCode);
        Accepted(ThematicDocument(
                   baseline.(schemaVersion := contract.value.thematicVersion, sceneContract := THEMATIC_CONTRACT),
                   selected))
  }

  function PayloadOf(d: ThematicDocument): Payload {
    Payload(d.document.context, d.document.facts, d.reference)
  }

  /** `validate_mbti_themes_projection` accepts. */
  ghost predicate AcceptablePayload(p: Payload, policy: Policy, m: Material) {
    && p.facts.model.code == policy.modelCode && p.facts.model.version == policy.modelVersion
    && AcceptableFacts(p.facts)
    && Select(m, p.facts.result.typeCode) == Accepted(p.reference)
  }

  method ValidateThemes(p: Payload, policy: Policy, m: Material) returns (ok: bool)
    ensures ok <==> AcceptablePayload(p, policy, m)
  {
    if p.facts.model.code != policy.modelCode || p.facts.model.version != policy.modelVersion {
      return false;
    }
    var facts := ValidateProjection(p.facts);
    ok := facts && Select(m, p.facts.result.typeCode) == Accepted(p.reference);
  }

  /** What is assembled under a policy and its material is accepted under the same ones, and the facts are
      exactly those of the basic projection. */
  lemma AssembledIsAccepted(s: Snapshot, policy: Policy, m: Material, locale: string, focus: seq<string>)
    ensures var r, basic := Assemble(s, policy, m, locale, focus),
                            Project(s, policy.(sceneContract := SINGLE_CONTRACT), locale, focus);
            r.Accepted? ==>
              && AcceptablePayload(PayloadOf(r.value), policy, m)
              && basic.Accepted? && r.value.document.facts == basic.value.facts
              && r.value.document.context == basic.value.context && r.value.document.profile == basic.value.profile
              && r.value.document.source == basic.value.source && r.value.document.sceneContract == THEMATIC_CONTRACT
              && r.value.document.schemaVersion == ContractOf(policy.modelCode, policy.modelVersion).value.thematicVersion
  {
    ProjectionIsAccepted(s, policy.(sceneContract := SINGLE_CONTRACT), locale, focus);
    ProjectedModelFits(s, policy.(sceneContract := SINGLE_CONTRACT), locale, focus);
    hide AcceptableFacts, Project;
  }

  /** With material of the policy's model, theming refuses nothing that the basic projection accepts. */
  lemma ThemesRefuseNothingMore(s: Snapshot, policy: Policy, m: Material, locale: string, focus: seq<string>)
    requires policy.sceneContract == THEMATIC_CONTRACT
    requires m.modelCode == policy.modelCode && m.modelVersion == policy.modelVersion
    ensures Assemble(s, policy, m, locale, focus).Accepted? <==>
              Project(s, policy.(sceneContract := SINGLE_CONTRACT), locale, focus).Accepted?
  {
    hide ValidAxes, ValidSuggestions, Locale, FocusHolds, AcceptableFacts;
  }

  /** Order independence carries over. */
  lemma ThemesForgetOrder(a: Snapshot, b: Snapshot, policy: Policy, m: Material, locale: string, focus: seq<string>)
    requires Rearranged(a, b)
    ensures Assemble(a, policy, m, locale, focus) == Assemble(b, policy, m, locale, focus)
  {
    ProjectionForgetsOrder(a, b, policy.(sceneContract := SINGLE_CONTRACT), locale, focus);
    hide Project;
  }
}
