/**
 * The shape of the structured clinical report. The pipeline passes the parsed
 * model output around as a dictionary, so every field is optional here: `None`
 * stands for a key the dictionary does not have.
 */
module Schemas {
  import opened Wrappers

  /** One reported symptom; `name` is the only field the report schema requires. */
  datatype SymptomItem = SymptomItem(
    name: Option<string>,
    onsetDate: Option<string>,
    onsetRelative: Option<string>,
    durationDays: Option<int>,
    severity: Option<string>,
    associatedSymptoms: Option<seq<string>>,
    triggers: Option<seq<string>>,
    relievers: Option<seq<string>>,
    notes: Option<string>)

  /**
   * One element of `evidence_snippets`: either a question/answer dictionary or
   * some other JSON value the model produced there.
   */
  datatype EvidenceSnippet =
    | QA(question: Option<string>, answer: Option<string>)
    | NonDict

  /** The report as a dictionary with the fields of the report schema. */
  datatype StructuredReport = StructuredReport(
    sessionId: Option<string>,
    patientId: Option<string>,
    collectedAt: Option<string>,
    presentingComplaint: Option<string>,
    symptoms: Option<seq<SymptomItem>>,
    allergies: Option<seq<string>>,
    currentMedications: Option<seq<string>>,
    pastMedicalHistory: Option<seq<string>>,
    urgency: Option<string>,
    differentialHypotheses: Option<seq<string>>,
    recommendedNextAction: Option<string>,
    evidenceSnippets: Option<seq<EvidenceSnippet>>,
    modelVersion: Option<string>,
    notesForDoctor: Option<string>)

  /** `report.get("symptoms", [])` */
  function SymptomsOf(r: StructuredReport): seq<SymptomItem> {
    r.symptoms.GetOr([])
  }

  /** `report.get("evidence_snippets", [])` */
  function SnippetsOf(r: StructuredReport): seq<EvidenceSnippet> {
    r.evidenceSnippets.GetOr([])
  }

  /** `s.get("name", "")` */
  function NameText(s: SymptomItem): string {
    s.name.GetOr("")
  }

  /** `ev.get("answer", "") if isinstance(ev, dict) else ""` */
  function AnswerText(e: EvidenceSnippet): string {
    match e
    case QA(_, answer) => answer.GetOr("")
    case NonDict => ""
  }
}
