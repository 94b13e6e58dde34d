/**
 * The tracker's domain: countries and their segments, the kinds of test a
 * model goes through, projects made of workflow rounds, and the six steps
 * of a round with their labels.
 */
module Tracker {
  import opened Wrappers

  datatype Segment = Consumer | Business | Tagger

  datatype TestType = Categorization | TestSuite | Tagging

  datatype ProjectStatus = Waiting | InProgress | Completed | OnHold

  /** A workflow step: 1 to 6. */
  type WorkflowStep = n: int | 1 <= n <= 6 witness 1

  /** One pass of a model through the workflow. */
  datatype WorkflowRound = WorkflowRound(
    id: string, roundNumber: int, testType: TestType, currentStep: WorkflowStep,
    startedAt: string, completedAt: Option<string>, notes: Option<string>)

  datatype Project = Project(
    id: string, country: string, segment: Segment, status: ProjectStatus, currentRound: int,
    rounds: seq<WorkflowRound>, createdAt: string, updatedAt: string,
    confirmedAt: Option<string>, awaitingConfirmation: Option<bool>)

  /** The position of the first round with the number. */
  function FindRound(rounds: seq<WorkflowRound>, roundNumber: int): (r: Option<nat>)
    ensures r.Some? ==> r.value < |rounds| && rounds[r.value].roundNumber == roundNumber
    ensures r.Some? ==> forall j :: 0 <= j < r.value ==> rounds[j].roundNumber != roundNumber
    ensures r.None? <==> forall j :: 0 <= j < |rounds| ==> rounds[j].roundNumber != roundNumber
    decreases |rounds|
  {
    if |rounds| == 0 then None
    else if rounds[0].roundNumber == roundNumber then Some(0)
    else match FindRound(rounds[1..], roundNumber)
      case None => None
      case Some(k) => Some(k + 1)
  }

  /** A position holding the number with no earlier one is what `FindRound` answers. */
  lemma {:induction false} FindRoundFirst(rounds: seq<WorkflowRound>, roundNumber: int, k: nat)
    requires k < |rounds| && rounds[k].roundNumber == roundNumber
    requires forall j :: 0 <= j < k ==> rounds[j].roundNumber != roundNumber
    ensures FindRound(rounds, roundNumber) == Some(k)
    decreases k
  {
    if k > 0 {
      FindRoundFirst(rounds[1..], roundNumber, k - 1);
    }
  }

  /** The round set to `step`; step 3 also stamps `completedAt`. */
  function StepRound(round: WorkflowRound, step: WorkflowStep, now: string): WorkflowRound {
    round.(currentStep := step, completedAt := if step == 3 then Some(now) else round.completedAt)
  }

  /**
   * The rounds after moving the round with the number to `step`, or None
   * when no round has that number; only the first such round changes.
   */
  function SteppedRounds(rounds: seq<WorkflowRound>, roundNumber: int, step: WorkflowStep, now: string): (r: Option<seq<WorkflowRound>>)
    ensures r.None? <==> forall j :: 0 <= j < |rounds| ==> rounds[j].roundNumber != roundNumber
    ensures r.Some? ==> |r.value| == |rounds|
  {
    match FindRound(rounds, roundNumber)
    case None => None
    case Some(idx) => Some(rounds[idx := StepRound(rounds[idx], step, now)])
  }

  /**
   * Moving a round changes exactly the first round with the number: it gets
   * the step, keeps its number, and step 3 stamps its completion.
   */
  lemma SteppedRoundsEffect(rounds: seq<WorkflowRound>, roundNumber: int, step: WorkflowStep, now: string)
    requires exists j :: 0 <= j < |rounds| && rounds[j].roundNumber == roundNumber
    ensures var idx := FindRound(rounds, roundNumber).value;
            var r := SteppedRounds(rounds, roundNumber, step, now).value;
            rounds[idx].roundNumber == roundNumber &&
            (forall j :: 0 <= j < idx ==> rounds[j].roundNumber != roundNumber) &&
            r[idx].currentStep == step && r[idx].roundNumber == roundNumber && r[idx].id == rounds[idx].id &&
            r[idx].completedAt == (if step == 3 then Some(now) else rounds[idx].completedAt) &&
            r[idx].notes == rounds[idx].notes &&
            forall j :: 0 <= j < |rounds| && j != idx ==> r[j] == rounds[j]
  {
  }

  /** The round a new round starts with. */
  function FreshRound(id: string, roundNumber: int, testType: TestType, now: string): WorkflowRound {
    WorkflowRound(id, roundNumber, testType, 1, now, None, None)
  }

  datatype StepInfo = StepInfo(stepLabel: string, description: string)

  /** The label and description of every workflow step. */
  const WorkflowSteps: map<WorkflowStep, StepInfo> := map[
    1 := StepInfo("Analisi Team", "Il team esegue le analisi sul cliente"),
    2 := StepInfo("Email Ricevuta", "Email ricevuta con le informazioni per il modello"),
    3 := StepInfo("Tipo Test", "Categorizzazione, Tagging o Test Suite completa"),
    4 := StepInfo("Generazione Modello", "Generazione modello e esecuzione test"),
    5 := StepInfo("Upload ZIP", "Creazione e upload ZIP sul server condiviso"),
    6 := StepInfo("Email Inviata", "Email di notifica inviata al team")]

  /** Every step has an entry with a non-empty label, and no two steps share a label. */
  lemma WorkflowStepsComplete()
    ensures forall s: WorkflowStep :: s in WorkflowSteps && WorkflowSteps[s].stepLabel != ""
    ensures forall s: WorkflowStep, t: WorkflowStep :: s != t ==> WorkflowSteps[s].stepLabel != WorkflowSteps[t].stepLabel
  {
    assert WorkflowSteps.Keys == {1, 2, 3, 4, 5, 6};
  }

  datatype CountryConfig = CountryConfig(code: string, name: string, segments: seq<Segment>)

  /** The default country list. */
  const DefaultCountries: seq<CountryConfig> := [
    CountryConfig("AUT", "Austria", [Consumer]),
    CountryConfig("BEL", "Belgio", [Consumer, Business]),
    CountryConfig("CZE", "Rep. Ceca", [Consumer, Business]),
    CountryConfig("DEU", "Germania", [Consumer, Business, Tagger]),
    CountryConfig("ESP", "Spagna", [Consumer, Business, Tagger]),
    CountryConfig("FRA", "Francia", [Consumer, Business, Tagger]),
    CountryConfig("GBR", "Regno Unito", [Consumer, Business, Tagger]),
    CountryConfig("IND", "India", [Consumer, Business, Tagger]),
    CountryConfig("IRL", "Irlanda", [Consumer, Business]),
    CountryConfig("ITA", "Italia", [Consumer, Business, Tagger]),
    CountryConfig("ITA2", "Italia 2", [Consumer, Business]),
    CountryConfig("MEX", "Messico", [Tagger]),
    CountryConfig("POL", "Polonia", [Consumer]),
    CountryConfig("POR", "Portogallo", [Consumer]),
    CountryConfig("USA", "USA", [Consumer])]

  /** No two entries of a country list share a code. */
  predicate DistinctCodes(list: seq<CountryConfig>) {
    forall i, j :: 0 <= i < j < |list| ==> list[i].code != list[j].code
  }

  /** The codes of the default list, in order. */
  const DefaultCodes: seq<string> :=
    ["AUT", "BEL", "CZE", "DEU", "ESP", "FRA", "GBR", "IND", "IRL", "ITA", "ITA2", "MEX", "POL", "POR", "USA"]

  lemma DefaultCodesDistinct()
    ensures forall i, j :: 0 <= i < j < |DefaultCodes| ==> DefaultCodes[i] != DefaultCodes[j]
  {
  }

  /** The defaults have distinct codes and every default country has at least one segment. */
  lemma DefaultCountriesWellFormed()
    ensures DistinctCodes(DefaultCountries)
    ensures forall c :: c in DefaultCountries ==> |c.segments| > 0
  {
    assert |DefaultCountries| == |DefaultCodes|;
    assert forall i :: 0 <= i < |DefaultCountries| ==> DefaultCountries[i].code == DefaultCodes[i];
    DefaultCodesDistinct();
  }

  const SegmentLabels: map<Segment, string> := map[Consumer := "Consumer", Business := "Business", Tagger := "Tagger"]

  const TestTypeLabels: map<TestType, string> :=
    map[Categorization := "Categorizzazione", TestSuite := "Test Suite", Tagging := "Tagging"]

  /** Both label tables cover every value of their enumeration. */
  lemma LabelsComplete()
    ensures forall s: Segment :: s in SegmentLabels && SegmentLabels[s] != ""
    ensures forall t: TestType :: t in TestTypeLabels && TestTypeLabels[t] != ""
  {
    forall s: Segment
      ensures s in SegmentLabels && SegmentLabels[s] != ""
    {
      match s
      case Consumer =>
      case Business =>
      case Tagger =>
    }
    forall t: TestType
      ensures t in TestTypeLabels && TestTypeLabels[t] != ""
    {
      match t
      case Categorization =>
      case TestSuite =>
      case Tagging =>
    }
  }

  /** The kinds of test offered for a segment. */
  function TestTypesForSegment(segment: Segment): (r: seq<TestType>)
    ensures |r| == 2 && r[1] == TestSuite
  {
    if segment == Tagger then [Tagging, TestSuite] else [Categorization, TestSuite]
  }

  /** Tagging is offered exactly for Tagger and categorisation exactly for the other segments; the full suite always. */
  lemma TestTypesBySegment(segment: Segment)
    ensures TestSuite in TestTypesForSegment(segment)
    ensures Tagging in TestTypesForSegment(segment) <==> segment == Tagger
    ensures Categorization in TestTypesForSegment(segment) <==> segment != Tagger
  {
    var r := TestTypesForSegment(segment);
    assert r[1] == TestSuite;
  }
}
