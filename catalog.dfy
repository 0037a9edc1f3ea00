/**
 * The built-in AI goal templates (the `aiGoalTemplates` list of src/hooks/useTasks.ts,
 * repeated as `defaultAIGoalTemplates` in CreateLoanDialog.tsx with other task ids).
 * Every text is a named constant, so that a proof that never looks at a text never
 * has to unfold it.
 */
module Catalog {
  import opened Wrappers
  import opened Seqs
  import opened Types

  const InitialReviewId := "template-initial-review"
  const RemoteWorkId := "template-remote-work"
  const FullUnderwritingId := "template-full-underwriting"

  const InitialReviewName := "Initial Loan Review"
  const InitialReviewText := "Complete initial review of loan application including credit check, document review, and property verification."
  const RemoteWorkName := "Remote Work Verification"
  const RemoteWorkText := "Verify remote work arrangement and distance to employer."
  const FullUnderwritingName := "Full Underwriting Review"
  const FullUnderwritingText := "Complete comprehensive underwriting review of all loan aspects."

  const LoanAmountField := "loanAmount"
  const PropertyTypeField := "propertyType"
  const OwnerOccupiedTypes := ["single_family", "condo", "townhouse"]
  const NonPrimaryTypes := ["investment", "secondary"]
  const JumboThreshold := 1000000

  const ReviewCreditTitle := "Review Credit Report"
  const ReviewCreditText := "Review credit score, history, and recent inquiries"
  const ReviewIncomeTitle := "Review Income Documents"
  const ReviewIncomeText := "Verify W2s, paystubs, and tax returns"
  const LinkPropertiesTitle := "Link Properties"
  const LinkPropertiesText := "Link mortgage liabilities to respective properties"
  const DistanceTitle := "Check Distance to Employer"
  const DistanceText := "Calculate distance between subject property and employer address"
  const DistanceCondition := "If distance > 50 miles, request LOE for remote work"
  const VerifyEmploymentTitle := "Verify Employment"
  const VerifyEmploymentText := "Contact employer to verify employment status and remote work arrangement"
  const CreditAnalysisTitle := "Credit Analysis"
  const CreditAnalysisText := "Complete credit analysis including inquiries and derogatory items"
  const DocumentVerificationTitle := "Document Verification"
  const DocumentVerificationText := "Verify all required documents are present and valid"
  const IncomeCalculationTitle := "Income Calculation"
  const IncomeCalculationText := "Calculate qualifying income from all sources"
  const PropertyAnalysisTitle := "Property Analysis"
  const PropertyAnalysisText := "Analyze all properties and linked liabilities"

  /** `p` prefixes the task-definition ids: `tt1`..`tt9` in the store, `t1`..`t9` in the dialog. */
  function InitialReview(p: string): GoalTemplate
  {
    GoalTemplate(InitialReviewId, InitialReviewName, InitialReviewText, Standard,
      [Rule(LoanAmountField, AtMost, Number(JumboThreshold)), Rule(PropertyTypeField, OneOf, Names(OwnerOccupiedTypes))],
      [TaskDefinition(p + "1", CreditCheck, ReviewCreditTitle, ReviewCreditText, true, None),
       TaskDefinition(p + "2", DocumentReview, ReviewIncomeTitle, ReviewIncomeText, true, None),
       TaskDefinition(p + "3", PropertyLink, LinkPropertiesTitle, LinkPropertiesText, true, None)],
      true)
  }

  function RemoteWork(p: string): GoalTemplate
  {
    GoalTemplate(RemoteWorkId, RemoteWorkName, RemoteWorkText, Verification,
      [Rule(PropertyTypeField, OneOf, Names(NonPrimaryTypes))],
      [TaskDefinition(p + "4", DistanceCheck, DistanceTitle, DistanceText, true, Some(DistanceCondition)),
       TaskDefinition(p + "5", IncomeVerification, VerifyEmploymentTitle, VerifyEmploymentText, false, None)],
      true)
  }

  function FullUnderwriting(p: string): GoalTemplate
  {
    GoalTemplate(FullUnderwritingId, FullUnderwritingName, FullUnderwritingText, Comprehensive,
      [Rule(LoanAmountField, Greater, Number(JumboThreshold))],
      [TaskDefinition(p + "6", CreditCheck, CreditAnalysisTitle, CreditAnalysisText, true, None),
       TaskDefinition(p + "7", DocumentReview, DocumentVerificationTitle, DocumentVerificationText, true, None),
       TaskDefinition(p + "8", IncomeVerification, IncomeCalculationTitle, IncomeCalculationText, true, None),
       TaskDefinition(p + "9", PropertyLink, PropertyAnalysisTitle, PropertyAnalysisText, true, None)],
      true)
  }

  function TemplateCatalog(p: string): seq<GoalTemplate>
  {
    [InitialReview(p), RemoteWork(p), FullUnderwriting(p)]
  }

  /** `aiGoalTemplates`. */
  const AIGoalTemplates := TemplateCatalog("tt")

  function TemplateIdIs(id: string): GoalTemplate -> bool { (t: GoalTemplate) => t.id == id }

  /** `templates.find(t => t.id === id)`. */
  function FindTemplate(templates: seq<GoalTemplate>, id: string): (r: Option<GoalTemplate>)
    ensures r.Some? ==> r.value in templates && r.value.id == id
    ensures r.None? <==> forall i :: 0 <= i < |templates| ==> templates[i].id != id
  {
    Find(templates, TemplateIdIs(id))
  }

  /** Each catalog id finds its own template, with three, two and four task definitions. */
  lemma CatalogFindsEach(p: string)
    ensures FindTemplate(TemplateCatalog(p), InitialReviewId) == Some(InitialReview(p))
    ensures FindTemplate(TemplateCatalog(p), RemoteWorkId) == Some(RemoteWork(p))
    ensures FindTemplate(TemplateCatalog(p), FullUnderwritingId) == Some(FullUnderwriting(p))
    ensures |InitialReview(p).tasks| == 3 && |RemoteWork(p).tasks| == 2 && |FullUnderwriting(p).tasks| == 4
  {
    var c := TemplateCatalog(p);
    assert |InitialReviewId| == 23 && |RemoteWorkId| == 20 && |FullUnderwritingId| == 26;
    FindFirst(c, TemplateIdIs(InitialReviewId), 0);
    FindFirst(c, TemplateIdIs(RemoteWorkId), 1);
    FindFirst(c, TemplateIdIs(FullUnderwritingId), 2);
  }

  /** No other id finds a template. */
  lemma CatalogFindsNothingElse(p: string, id: string)
    requires id != InitialReviewId && id != RemoteWorkId && id != FullUnderwritingId
    ensures FindTemplate(TemplateCatalog(p), id).None?
  {
  }
}
