/** The finite MBTI scene identities (src/qs_ai/domain/governance/scenes.py). */
module MbtiScenes {
  import opened Outcomes

  const SINGLE_CONTRACT := "mbti-single-assessment/v1"
  const THEMATIC_CONTRACT := "mbti-single-assessment/v2"
  const INPUT_V4 := "ai-explanation-input/v4"

  datatype Axis = Axis(code: string, left: string, right: string)
  datatype Bounds = Bounds(min: real, max: real, threshold: real)

  /** Axes and bounds are listed by composition order, starting at 1 for index 0. */
  datatype ModelContract = ModelContract(axes: seq<Axis>, bounds: seq<Bounds>, thematicVersion: string)

  const AXIS_CODES := ["EI", "SN", "TF", "JP"]

  const Basic := ModelContract(
    [Axis("EI", "I", "E"), Axis("SN", "S", "N"), Axis("TF", "F", "T"), Axis("JP", "J", "P")],
    [Bounds(8.0, 40.0, 24.0), Bounds(8.0, 40.0, 24.0), Bounds(8.0, 40.0, 24.0), Bounds(8.0, 40.0, 24.0)],
    "ai-explanation-input/v3")

  const Exploration := ModelContract(
    [Axis("EI", "E", "I"), Axis("SN", "S", "N"), Axis("TF", "T", "F"), Axis("JP", "J", "P")],
    [Bounds(0.0, 23.0, 11.5), Bounds(0.0, 23.0, 11.5), Bounds(0.0, 23.0, 11.5), Bounds(0.0, 24.0, 11.5)],
    INPUT_V4)

  function ContractOf(code: string, version: string): Option<ModelContract> {
    if code == "MBTI_OEJTS" && version == "v64-report-202608-v1" then Some(Basic)
    else if code == "MBTI_FC_93" && version == "v55-report-202608-v1" then Some(Exploration)
    else None
  }

  /** What every contract guarantees: four axes under the four codes, with single-letter poles. */
  ghost predicate FourAxes(c: ModelContract) {
    && |c.axes| == 4 && |c.bounds| == 4
    && forall i :: 0 <= i < 4 ==>
         c.axes[i].code == AXIS_CODES[i] && |c.axes[i].left| == 1 && |c.axes[i].right| == 1
  }

  lemma ContractsHaveFourAxes(code: string, version: string)
    requires ContractOf(code, version).Some?
    ensures FourAxes(ContractOf(code, version).value)
  {
  }
}
