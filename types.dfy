/**
 * The records and enumerations of the loan dashboard (src/types/index.ts).
 * Optional TypeScript properties (`x?: T`) are `Option<T>`; `number` fields that hold money or
 * counts are `int`, the interest rate is `real`.  Fields named `type` in the source are
 * renamed (`taskType`, `liabilityType`, ...) because `type` is a Dafny keyword.
 */
module Types {
  import opened Wrappers

  datatype LoanStatus = Draft | Submitted | InReview | Conditions | Approved | Denied | Closed
  datatype TaskStatus = Pending | InProgress | Completed | Failed
  datatype TaskType = CreditCheck | DocumentReview | PropertyLink | DistanceCheck | IncomeVerification | Custom
  datatype DecisionType = Approval | Denial | Conditional | AutoAction
  datatype PropertyType = SingleFamily | Condo | Townhouse | MultiFamily | Commercial
  datatype LoanPurpose = Purchase | RefinanceRateTerm | RefinanceCashOut | Construction | HomeEquity
  datatype OccupancyType = Primary | Secondary | Investment

  /** Every value of each enumeration, in the order the source declares them. */
  const LoanStatuses: seq<LoanStatus> := [Draft, Submitted, InReview, Conditions, Approved, Denied, Closed]
  const TaskStatuses: seq<TaskStatus> := [Pending, InProgress, Completed, Failed]
  const DecisionTypes: seq<DecisionType> := [Approval, Denial, Conditional, AutoAction]

  /** The string literal of each enumeration value. */
  function LoanStatusName(s: LoanStatus): string
  {
    match s
    case Draft => "draft"
    case Submitted => "submitted"
    case InReview => "in_review"
    case Conditions => "conditions"
    case Approved => "approved"
    case Denied => "denied"
    case Closed => "closed"
  }

  function TaskTypeName(t: TaskType): string
  {
    match t
    case CreditCheck => "credit_check"
    case DocumentReview => "document_review"
    case PropertyLink => "property_link"
    case DistanceCheck => "distance_check"
    case IncomeVerification => "income_verification"
    case Custom => "custom"
  }

  function PropertyTypeName(p: PropertyType): string
  {
    match p
    case SingleFamily => "single_family"
    case Condo => "condo"
    case Townhouse => "townhouse"
    case MultiFamily => "multi_family"
    case Commercial => "commercial"
  }

  function LoanPurposeName(p: LoanPurpose): string
  {
    match p
    case Purchase => "purchase"
    case RefinanceRateTerm => "refinance_rate_term"
    case RefinanceCashOut => "refinance_cash_out"
    case Construction => "construction"
    case HomeEquity => "home_equity"
  }

  function OccupancyTypeName(o: OccupancyType): string
  {
    match o
    case Primary => "primary"
    case Secondary => "secondary"
    case Investment => "investment"
  }

  /** The enumerations have exactly seven, four and four values, each listed once. */
  lemma EnumerationSizes()
    ensures |LoanStatuses| == 7 && (forall s: LoanStatus :: s in LoanStatuses)
    ensures forall i, j :: 0 <= i < j < |LoanStatuses| ==> LoanStatuses[i] != LoanStatuses[j]
    ensures |TaskStatuses| == 4 && (forall s: TaskStatus :: s in TaskStatuses)
    ensures forall i, j :: 0 <= i < j < |TaskStatuses| ==> TaskStatuses[i] != TaskStatuses[j]
    ensures |DecisionTypes| == 4 && (forall d: DecisionType :: d in DecisionTypes)
    ensures forall i, j :: 0 <= i < j < |DecisionTypes| ==> DecisionTypes[i] != DecisionTypes[j]
  {
    forall s: LoanStatus ensures s in LoanStatuses {
      match s
      case Draft => assert LoanStatuses[0] == s;
      case Submitted => assert LoanStatuses[1] == s;
      case InReview => assert LoanStatuses[2] == s;
      case Conditions => assert LoanStatuses[3] == s;
      case Approved => assert LoanStatuses[4] == s;
      case Denied => assert LoanStatuses[5] == s;
      case Closed => assert LoanStatuses[6] == s;
    }
    forall s: TaskStatus ensures s in TaskStatuses {
      match s
      case Pending => assert TaskStatuses[0] == s;
      case InProgress => assert TaskStatuses[1] == s;
      case Completed => assert TaskStatuses[2] == s;
      case Failed => assert TaskStatuses[3] == s;
    }
    forall d: DecisionType ensures d in DecisionTypes {
      match d
      case Approval => assert DecisionTypes[0] == d;
      case Denial => assert DecisionTypes[1] == d;
      case Conditional => assert DecisionTypes[2] == d;
      case AutoAction => assert DecisionTypes[3] == d;
    }
  }

  /** Distinct statuses have distinct literals, so a record keyed by the literal has one slot per status. */
  lemma LoanStatusNameInjective(a: LoanStatus, b: LoanStatus)
    ensures LoanStatusName(a) == LoanStatusName(b) ==> a == b
  {
  }

  /** `'investment'` is an occupancy type but not a property type. */
  lemma InvestmentIsOnlyAnOccupancy()
    ensures OccupancyTypeName(Investment) == "investment"
    ensures forall p: PropertyType :: PropertyTypeName(p) != "investment"
  {
  }

  datatype Address = Address(street: string, city: string, state: string, zipCode: string)

  datatype Employment = Employment(
    employerName: string,
    position: string,
    startDate: string,
    monthlyIncome: int,
    employerAddress: Option<Address>,
    isRemote: Option<bool>)

  datatype LiabilityType = Mortgage | CreditCard | AutoLoan | StudentLoan | OtherLiability

  /** `propertyId` optionally links the liability to one of the loan's properties. */
  datatype Liability = Liability(
    id: string,
    liabilityType: LiabilityType,
    lender: string,
    balance: int,
    monthlyPayment: int,
    propertyId: Option<string>)

  datatype Property = Property(
    id: string,
    address: Address,
    estimatedValue: int,
    occupancyType: OccupancyType,
    isSubjectProperty: bool)

  datatype DocumentType = W2 | BankStatement | MortgageStatement | IdDocument | Paystub | TaxReturn | OtherDocument
  datatype DocumentStatus = Uploaded | Processing | Verified | Rejected

  datatype Document = Document(
    id: string,
    name: string,
    documentType: DocumentType,
    status: DocumentStatus,
    uploadDate: string,
    url: Option<string>)

  datatype Loan = Loan(
    id: string,
    loanNumber: string,
    borrowerName: string,
    borrowerEmail: string,
    borrowerPhone: string,
    loanPurpose: LoanPurpose,
    propertyType: PropertyType,
    loanAmount: int,
    estimatedValue: int,
    interestRate: Option<real>,
    term: Option<int>,
    subjectProperty: Address,
    properties: seq<Property>,
    employment: seq<Employment>,
    liabilities: seq<Liability>,
    documents: seq<Document>,
    status: LoanStatus,
    createdAt: string,
    updatedAt: string,
    assignedTo: Option<string>,
    notes: Option<string>)

  /** `assignedTo` is the sentinel `"ai_agent"` or a person's name; `approved` may be absent. */
  datatype Task = Task(
    id: string,
    loanId: string,
    loanNumber: string,
    borrowerName: string,
    taskType: TaskType,
    title: string,
    description: string,
    status: TaskStatus,
    createdAt: string,
    completedAt: Option<string>,
    assignedTo: Option<string>,
    result: Option<string>,
    requiresApproval: bool,
    approved: Option<bool>,
    approvedBy: Option<string>,
    approvedAt: Option<string>,
    autoAction: Option<bool>,
    conditionText: Option<string>)

  const AIAgent := "ai_agent"

  /** `!task.approved` is false only for `approved === true`: an absent flag reads as "not approved". */
  predicate IsApproved(t: Task)
  {
    t.approved == Some(true)
  }

  datatype TaskDefinition = TaskDefinition(
    id: string,
    taskType: TaskType,
    title: string,
    description: string,
    autoExecute: bool,
    condition: Option<string>)

  datatype GoalStatus = ActiveGoal | PausedGoal | CompletedGoal

  datatype AIGoal = AIGoal(
    id: string,
    loanId: string,
    name: string,
    description: string,
    tasks: seq<TaskDefinition>,
    status: GoalStatus,
    createdAt: string)

  /** An audit record: it always carries both the status before and the status after. */
  datatype Decision = Decision(
    id: string,
    loanId: string,
    loanNumber: string,
    borrowerName: string,
    decisionType: DecisionType,
    madeBy: string,
    madeAt: string,
    reason: string,
    details: Option<string>,
    conditions: Option<seq<string>>,
    autoExecuted: Option<bool>,
    previousStatus: LoanStatus,
    newStatus: LoanStatus)

  datatype TemplateCategory = Standard | Verification | Comprehensive | CustomCategory
  datatype RuleOperator = Greater | Less | AtLeast | AtMost | Equal | OneOf
  datatype RuleValue = Number(n: int) | Names(names: seq<string>)

  /** A matching rule; carried as data only, nothing evaluates it. */
  datatype Rule = Rule(field: string, operator: RuleOperator, value: RuleValue)

  datatype GoalTemplate = GoalTemplate(
    id: string,
    name: string,
    description: string,
    category: TemplateCategory,
    rules: seq<Rule>,
    tasks: seq<TaskDefinition>,
    isActive: bool)

  /** `total` and one counter per loan status. */
  datatype PipelineStats = PipelineStats(
    total: nat,
    draft: nat,
    submitted: nat,
    inReview: nat,
    conditions: nat,
    approved: nat,
    denied: nat,
    closed: nat)

  /** `total`, one counter per task status, and the tasks waiting for approval. */
  datatype TaskStats = TaskStats(
    total: nat,
    pending: nat,
    inProgress: nat,
    completed: nat,
    failed: nat,
    requiresApproval: nat)
}
