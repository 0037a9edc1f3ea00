/**
 * The loan-creation dialog (src/components/CreateLoanDialog.tsx): the rule that picks an AI
 * goal template from loan metadata, the simulated metadata extraction from an uploaded file's
 * name, the edits of the custom task list, and the payload the two submit buttons hand to
 * `handleCreateLoan`.  The dialog's `useState` hooks are the fields of `LoanForm`.
 */
module CreateLoan {
  import opened Wrappers
  import opened Text
  import opened Seqs
  import opened Types
  import opened Env
  import opened Catalog
  import opened LoanStore

  // ---------------------------------------------------------------- template matching

  /** `LoanMetadata`: the purpose and property type are plain strings, as in the source. */
  datatype LoanMetadata = LoanMetadata(purpose: string, amount: int, propertyType: string, estimatedValue: int)

  const PurchaseName := "purchase"
  const RefinanceName := "refinance_rate_term"
  const ConstructionName := "construction"
  const HomeEquityName := "home_equity"
  const InvestmentName := "investment"
  const SingleFamilyName := "single_family"
  const RefiWord := "refi"

  /** Above these an application escalates to full underwriting; the limits themselves do not. */
  const AmountLimit := 1000000
  const ValueLimit := 1500000

  /** The fixed figures the simulated extraction reports. */
  const SimulatedAmount := 350000
  const SimulatedValue := 500000

  /** The rule of `findBestMatchingGoal` that fires first. */
  predicate EscalatingPurpose(m: LoanMetadata)
  {
    m.purpose == ConstructionName || m.purpose == HomeEquityName
  }

  predicate LargeLoan(m: LoanMetadata)
  {
    m.amount > AmountLimit || m.estimatedValue > ValueLimit
  }

  /** The template id `findBestMatchingGoal` looks up: the first of its four rules that applies. */
  function MatchedTemplateId(m: LoanMetadata): (id: string)
    ensures id == FullUnderwritingId || id == RemoteWorkId || id == InitialReviewId
  {
    if EscalatingPurpose(m) then FullUnderwritingId
    else if LargeLoan(m) then FullUnderwritingId
    else if m.propertyType == InvestmentName then RemoteWorkId
    else InitialReviewId
  }

  /** The three template ids are different strings. */
  lemma TemplateIdsDistinct()
    ensures FullUnderwritingId != RemoteWorkId && FullUnderwritingId != InitialReviewId
    ensures RemoteWorkId != InitialReviewId
  {
    assert |InitialReviewId| == 23 && |RemoteWorkId| == 20 && |FullUnderwritingId| == 26;
  }

  /** Each template is chosen exactly when its rule is the first that applies. */
  lemma MatcherRules(m: LoanMetadata)
    ensures MatchedTemplateId(m) == FullUnderwritingId <==> EscalatingPurpose(m) || LargeLoan(m)
    ensures MatchedTemplateId(m) == RemoteWorkId <==>
              !EscalatingPurpose(m) && !LargeLoan(m) && m.propertyType == InvestmentName
    ensures MatchedTemplateId(m) == InitialReviewId <==>
              !EscalatingPurpose(m) && !LargeLoan(m) && m.propertyType != InvestmentName
  {
    TemplateIdsDistinct();
  }

  /** A construction or home-equity purpose decides alone: amount, value and type do not matter. */
  lemma PurposeDecidesAlone(m: LoanMetadata, amount: int, propertyType: string, value: int)
    requires EscalatingPurpose(m)
    ensures MatchedTemplateId(m.(amount := amount, propertyType := propertyType, estimatedValue := value))
            == FullUnderwritingId
  {
  }

  /** The limits are strict: exactly 1,000,000 and 1,500,000 do not escalate, one more does. */
  lemma LimitsAreStrict(purpose: string, propertyType: string)
    requires purpose != ConstructionName && purpose != HomeEquityName
    ensures MatchedTemplateId(LoanMetadata(purpose, AmountLimit, propertyType, ValueLimit))
            == if propertyType == InvestmentName then RemoteWorkId else InitialReviewId
    ensures MatchedTemplateId(LoanMetadata(purpose, AmountLimit + 1, propertyType, 0)) == FullUnderwritingId
    ensures MatchedTemplateId(LoanMetadata(purpose, 0, propertyType, ValueLimit + 1)) == FullUnderwritingId
  {
  }

  /**
   * `findBestMatchingGoal`: the first template carrying the chosen id, or nothing when the list
   * has none; no other template is ever offered in its place.
   */
  function FindBestMatchingGoal(m: LoanMetadata, goals: seq<GoalTemplate>): (r: Option<GoalTemplate>)
    ensures r.Some? ==> r.value in goals && r.value.id == MatchedTemplateId(m)
    ensures r.None? <==> forall i :: 0 <= i < |goals| ==> goals[i].id != MatchedTemplateId(m)
  {
    FindTemplate(goals, MatchedTemplateId(m))
  }

  /** Against the built-in catalog the matcher always finds the template its rules name. */
  lemma MatcherOnCatalog(m: LoanMetadata, p: string)
    ensures var r := FindBestMatchingGoal(m, TemplateCatalog(p));
      && (MatchedTemplateId(m) == FullUnderwritingId ==> r == Some(FullUnderwriting(p)))
      && (MatchedTemplateId(m) == RemoteWorkId ==> r == Some(RemoteWork(p)))
      && (MatchedTemplateId(m) == InitialReviewId ==> r == Some(InitialReview(p)))
  {
    CatalogFindsEach(p);
  }

  // ---------------------------------------------------------------- metadata extraction

  /**
   * `extractDocumentMetadata`: the purpose is read off the lowercased file name, testing
   * `purchase`, then `refi`, then `construction`; the figures are fixed.
   */
  function ExtractDocumentMetadata(fileName: string): (m: LoanMetadata)
    ensures m.amount == SimulatedAmount && m.estimatedValue == SimulatedValue
    ensures m.propertyType == SingleFamilyName
  {
    var name := ToLower(fileName);
    LoanMetadata(
      if Contains(name, PurchaseName) then PurchaseName
      else if Contains(name, RefiWord) then RefinanceName
      else if Contains(name, ConstructionName) then ConstructionName
      else PurchaseName,
      SimulatedAmount, SingleFamilyName, SimulatedValue)
  }

  /** Which purpose each file name yields, stated as three exact conditions. */
  lemma ExtractedPurpose(fileName: string)
    ensures var m := ExtractDocumentMetadata(fileName);
      var name := ToLower(fileName);
      && (m.purpose == ConstructionName <==>
            !Contains(name, PurchaseName) && !Contains(name, RefiWord) && Contains(name, ConstructionName))
      && (m.purpose == RefinanceName <==> !Contains(name, PurchaseName) && Contains(name, RefiWord))
      && (m.purpose == PurchaseName <==>
            Contains(name, PurchaseName) || (!Contains(name, RefiWord) && !Contains(name, ConstructionName)))
  {
    assert |PurchaseName| == 8 && |RefinanceName| == 19 && |ConstructionName| == 12;
  }

  /**
   * An upload never selects remote work, and it selects full underwriting exactly when the
   * lowercased name contains `construction` but neither `purchase` nor `refi`.
   */
  lemma UploadTemplate(fileName: string)
    ensures var id := MatchedTemplateId(ExtractDocumentMetadata(fileName));
      var name := ToLower(fileName);
      && id != RemoteWorkId
      && (id == FullUnderwritingId <==>
            Contains(name, ConstructionName) && !Contains(name, PurchaseName) && !Contains(name, RefiWord))
      && (id != FullUnderwritingId ==> id == InitialReviewId)
  {
    var m := ExtractDocumentMetadata(fileName);
    ExtractedPurpose(fileName);
    assert |HomeEquityName| == 11 && |InvestmentName| == 10 && |SingleFamilyName| == 13;
    assert m.purpose != HomeEquityName;
    assert !LargeLoan(m);
    assert m.propertyType != InvestmentName;
    MatcherRules(m);
  }

  // ---------------------------------------------------------------- the custom task list

  /** `CustomTask` has exactly the fields of a task definition. */
  type CustomTask = TaskDefinition

  const CustomIdPrefix := "custom-"
  const NewTaskTitle := "New Custom Task"

  function DefIdIs(id: string): CustomTask -> bool { (t: CustomTask) => t.id == id }
  function DefIdIsNot(id: string): CustomTask -> bool { (t: CustomTask) => t.id != id }

  /** The task `handleAddTask` appends: manual, of type `custom`, with an empty description. */
  function NewCustomTask(millis: nat): (t: CustomTask)
    ensures t.taskType == Custom && !t.autoExecute && t.condition.None?
    ensures t.title == NewTaskTitle && t.description == ""
    ensures |t.id| > |CustomIdPrefix| && t.id[..|CustomIdPrefix|] == CustomIdPrefix
  {
    TaskDefinition(CustomIdPrefix + NatToString(millis), Custom, NewTaskTitle, "", false, None)
  }

  /** `handleRemoveTask`: the tasks with another id, in their order. */
  function RemoveCustomTask(ts: seq<CustomTask>, id: string): (r: seq<CustomTask>)
    ensures forall i :: 0 <= i < |r| ==> r[i].id != id
    ensures forall i :: 0 <= i < |ts| && ts[i].id != id ==> ts[i] in r
  {
    Filter(ts, DefIdIsNot(id))
  }

  /** Removing keeps every other task as often as it occurred, and drops the id entirely. */
  lemma RemoveCustomTaskCounts(ts: seq<CustomTask>, id: string, t: CustomTask)
    ensures multiset(RemoveCustomTask(ts, id))[t] == if t.id == id then 0 else multiset(ts)[t]
  {
    FilterMultiset(ts, DefIdIsNot(id), t);
  }

  /** Removing an id no task has leaves the list as it was. */
  lemma RemoveAbsentCustomTask(ts: seq<CustomTask>, id: string)
    requires forall i :: 0 <= i < |ts| ==> ts[i].id != id
    ensures RemoveCustomTask(ts, id) == ts
  {
    FilterKeepsAll(ts, DefIdIsNot(id));
  }

  function WithTitle(title: string): CustomTask -> CustomTask { (t: CustomTask) => t.(title := title) }
  function Toggled(): CustomTask -> CustomTask { (t: CustomTask) => t.(autoExecute := !t.autoExecute) }

  /** `handleEditTask`: only the title of the tasks with that id changes. */
  function EditCustomTask(ts: seq<CustomTask>, id: string, title: string): (r: seq<CustomTask>)
    ensures |r| == |ts|
    ensures forall i :: 0 <= i < |ts| ==> r[i] == if ts[i].id == id then ts[i].(title := title) else ts[i]
  {
    MapWhere(ts, DefIdIs(id), WithTitle(title))
  }

  /** `handleToggleAuto`: only the `autoExecute` flag of the tasks with that id changes. */
  function ToggleCustomTask(ts: seq<CustomTask>, id: string): (r: seq<CustomTask>)
    ensures |r| == |ts|
    ensures forall i :: 0 <= i < |ts| ==>
              r[i] == if ts[i].id == id then ts[i].(autoExecute := !ts[i].autoExecute) else ts[i]
  {
    MapWhere(ts, DefIdIs(id), Toggled())
  }

  /** Of two edits of the same task, the later title wins. */
  lemma EditTwice(ts: seq<CustomTask>, id: string, first: string, second: string)
    ensures EditCustomTask(EditCustomTask(ts, id, first), id, second) == EditCustomTask(ts, id, second)
  {
    var a := EditCustomTask(ts, id, first);
    var b := EditCustomTask(a, id, second);
    var c := EditCustomTask(ts, id, second);
    forall i | 0 <= i < |ts| ensures b[i] == c[i] {
      assert a[i].id == ts[i].id;
    }
  }

  /** Toggling the same task twice restores the list. */
  lemma ToggleTwice(ts: seq<CustomTask>, id: string)
    ensures ToggleCustomTask(ToggleCustomTask(ts, id), id) == ts
  {
    var a := ToggleCustomTask(ts, id);
    var b := ToggleCustomTask(a, id);
    forall i | 0 <= i < |ts| ensures b[i] == ts[i] {
      assert a[i].id == ts[i].id;
    }
  }

  /** The effect that follows a template change: the tasks of the first template with that id. */
  function TasksForTemplate(goals: seq<GoalTemplate>, id: string, current: seq<CustomTask>): (r: seq<CustomTask>)
    ensures FindTemplate(goals, id).None? ==> r == current
    ensures FindTemplate(goals, id).Some? ==> r == FindTemplate(goals, id).value.tasks
  {
    match FindTemplate(goals, id)
    case None => current
    case Some(t) => t.tasks
  }

  // ---------------------------------------------------------------- the form

  /**
   * The text fields of the form, held as the numbers `parseFloat`/`parseInt` make of them;
   * `0` stands for `NaN` as well, since `x || d` treats the two alike.
   */
  datatype FormFields = FormFields(
    borrowerName: string,
    borrowerEmail: string,
    borrowerPhone: string,
    loanPurpose: LoanPurpose,
    propertyType: PropertyType,
    loanAmount: int,
    estimatedValue: int,
    interestRate: real,
    term: int)

  /** The dialog state the handlers read and replace; `uploadedFile` is the file's name. */
  datatype FormState = FormState(
    fields: FormFields,
    uploadedFile: Option<string>,
    selectedTemplateId: string,
    customTasks: seq<CustomTask>,
    properties: seq<Property>,
    employment: seq<Employment>,
    liabilities: seq<Liability>)

  /** `availableAIGoals.length > 0 ? availableAIGoals : defaultAIGoalTemplates`. */
  function OfferedGoals(available: seq<GoalTemplate>): (r: seq<GoalTemplate>)
    ensures |r| > 0
    ensures |available| > 0 ==> r == available
  {
    if |available| > 0 then available else TemplateCatalog("t")
  }

  /** `aiGoals[0]?.id || ''` and `aiGoals[0]?.tasks || []`. */
  function FirstTemplateId(goals: seq<GoalTemplate>): string
  {
    if |goals| > 0 then goals[0].id else ""
  }

  function FirstTemplateTasks(goals: seq<GoalTemplate>): seq<CustomTask>
  {
    if |goals| > 0 then goals[0].tasks else []
  }

  const EmptyAddress := Address("", "", "", "")
  const BlankProperty := Property("temp-1", EmptyAddress, 0, Primary, true)
  const BlankEmployment := Employment("", "", "", 0, None, None)
  const DefaultTerm := 30

  /** The form as the dialog opens: one blank subject property and one blank employment. */
  function InitialForm(goals: seq<GoalTemplate>): FormState
  {
    FormState(FormFields("", "", "", Purchase, SingleFamily, 0, 0, 0.0, DefaultTerm), None,
              FirstTemplateId(goals), FirstTemplateTasks(goals), [BlankProperty], [BlankEmployment], [])
  }

  /**
   * `resetForm`: the opening form again, except that the purpose and the property type are
   * not among the fields it resets and so survive.
   */
  function ResetForm(s: FormState, goals: seq<GoalTemplate>): (r: FormState)
    ensures r.fields.loanPurpose == s.fields.loanPurpose && r.fields.propertyType == s.fields.propertyType
    ensures r.(fields := r.fields.(loanPurpose := Purchase, propertyType := SingleFamily)) == InitialForm(goals)
  {
    var i := InitialForm(goals);
    i.(fields := i.fields.(loanPurpose := s.fields.loanPurpose, propertyType := s.fields.propertyType))
  }

  /**
   * `handleFileUpload`: with a file chosen, remember it and, when the matcher finds a
   * template for the extracted metadata, select it and take over its tasks.
   */
  function UploadEffect(s: FormState, goals: seq<GoalTemplate>, file: Option<string>): FormState
  {
    match file
    case None => s
    case Some(name) =>
      var s1 := s.(uploadedFile := Some(name));
      match FindBestMatchingGoal(ExtractDocumentMetadata(name), goals)
      case None => s1
      case Some(g) => s1.(selectedTemplateId := g.id, customTasks := g.tasks)
  }

  /**
   * Uploading into a form offering the built-in catalog selects the template the file name
   * calls for, never remote work, and loads its tasks; nothing else but the file changes.
   */
  lemma UploadOnCatalog(s: FormState, p: string, name: string)
    ensures var r := UploadEffect(s, TemplateCatalog(p), Some(name));
      var id := MatchedTemplateId(ExtractDocumentMetadata(name));
      && r.uploadedFile == Some(name)
      && r.selectedTemplateId == id && id != RemoteWorkId
      && r.customTasks == (if id == FullUnderwritingId then FullUnderwriting(p) else InitialReview(p)).tasks
      && r.(uploadedFile := s.uploadedFile, selectedTemplateId := s.selectedTemplateId,
            customTasks := s.customTasks) == s
  {
    var m := ExtractDocumentMetadata(name);
    UploadTemplate(name);
    MatcherOnCatalog(m, p);
  }

  /** When the offered list lacks the chosen id, the upload is remembered but the selection stays. */
  lemma UploadWithoutMatch(s: FormState, goals: seq<GoalTemplate>, name: string)
    requires forall i :: 0 <= i < |goals| ==> goals[i].id != MatchedTemplateId(ExtractDocumentMetadata(name))
    ensures UploadEffect(s, goals, Some(name)) == s.(uploadedFile := Some(name))
  {
  }

  // ---------------------------------------------------------------- the submitted payload

  const PropIdPrefix := "prop-"
  const LiabIdPrefix := "liab-"
  const DefaultOfficer := "John Smith"

  /** `` `${prefix}${i}` ``. */
  function PositionId(prefix: string, i: nat): string
  {
    prefix + NatToString(i)
  }

  /** Distinct positions give distinct ids. */
  lemma PositionIdInjective(prefix: string, i: nat, j: nat)
    ensures PositionId(prefix, i) == PositionId(prefix, j) ==> i == j
  {
    NatToStringFacts(i);
    NatToStringFacts(j);
    if PositionId(prefix, i) == PositionId(prefix, j) {
      assert PositionId(prefix, i)[|prefix|..] == NatToString(i);
      assert PositionId(prefix, j)[|prefix|..] == NatToString(j);
    }
  }

  /** `properties.map((p, i) => ({ ...p, id: `prop-${i}` }))`. */
  function ReIdProperties(ps: seq<Property>): (r: seq<Property>)
    ensures |r| == |ps|
    ensures forall i :: 0 <= i < |ps| ==> r[i] == ps[i].(id := PositionId(PropIdPrefix, i))
  {
    seq(|ps|, i requires 0 <= i < |ps| => ps[i].(id := PositionId(PropIdPrefix, i)))
  }

  /** `liabilities.map((l, i) => ({ ...l, id: `liab-${i}` }))`. */
  function ReIdLiabilities(ls: seq<Liability>): (r: seq<Liability>)
    ensures |r| == |ls|
    ensures forall i :: 0 <= i < |ls| ==> r[i] == ls[i].(id := PositionId(LiabIdPrefix, i))
  {
    seq(|ls|, i requires 0 <= i < |ls| => ls[i].(id := PositionId(LiabIdPrefix, i)))
  }

  /** Whatever ids the form held, the submitted properties and liabilities have pairwise distinct ids. */
  lemma ReIdDistinct(ps: seq<Property>, ls: seq<Liability>)
    ensures var rp := ReIdProperties(ps);
      forall i, j :: 0 <= i < j < |rp| ==> rp[i].id != rp[j].id
    ensures var rl := ReIdLiabilities(ls);
      forall i, j :: 0 <= i < j < |rl| ==> rl[i].id != rl[j].id
  {
    var rp := ReIdProperties(ps);
    var rl := ReIdLiabilities(ls);
    forall i, j | 0 <= i < j < |rp| ensures rp[i].id != rp[j].id {
      PositionIdInjective(PropIdPrefix, i, j);
    }
    forall i, j | 0 <= i < j < |rl| ensures rl[i].id != rl[j].id {
      PositionIdInjective(LiabIdPrefix, i, j);
    }
  }

  const SubjectTest: Property -> bool := (p: Property) => p.isSubjectProperty

  /** `properties.find(p => p.isSubjectProperty) || properties[0]`. */
  function SubjectProperty(ps: seq<Property>): (p: Property)
    requires |ps| > 0
    ensures (forall i :: 0 <= i < |ps| ==> !ps[i].isSubjectProperty) ==> p == ps[0]
    ensures (exists i :: 0 <= i < |ps| && ps[i].isSubjectProperty) ==>
              exists i :: 0 <= i < |ps| && ps[i].isSubjectProperty && p == ps[i] &&
                          forall j :: 0 <= j < i ==> !ps[j].isSubjectProperty
  {
    match Find(ps, SubjectTest)
    case Some(q) => q
    case None => ps[0]
  }

  /** What `onSubmit` receives: the loan fields, and the selected template id as a one-element list. */
  datatype Submission = Submission(loan: LoanInput, templateIds: seq<string>)

  /**
   * The part both submit handlers share. With no property at all `subjectProp.address` throws,
   * which is `None` here.
   */
  function Assemble(s: FormState, name: string, email: string, phone: string, amount: int, value: int,
                    rate: Option<real>, documents: seq<Document>): (r: Option<Submission>)
    ensures r.None? <==> |s.properties| == 0
    ensures r.Some? ==> r.value.templateIds == [s.selectedTemplateId]
    ensures r.Some? ==> r.value.loan.subjectProperty == SubjectProperty(s.properties).address
    ensures r.Some? ==> r.value.loan.properties == ReIdProperties(s.properties)
    ensures r.Some? ==> r.value.loan.liabilities == ReIdLiabilities(s.liabilities)
  {
    if |s.properties| == 0 then None
    else
      var f := s.fields;
      Some(Submission(
        LoanInput(name, email, phone, f.loanPurpose, f.propertyType, amount, value, rate,
                  Some(if f.term == 0 then DefaultTerm else f.term),
                  SubjectProperty(s.properties).address, ReIdProperties(s.properties), s.employment,
                  ReIdLiabilities(s.liabilities), documents, Some(DefaultOfficer), None),
        [s.selectedTemplateId]))
  }

  /** `handleSubmit`: the form as typed; an empty interest rate is left out, no documents. */
  function SubmitPayload(s: FormState): (r: Option<Submission>)
    ensures r.None? <==> |s.properties| == 0
  {
    var f := s.fields;
    Assemble(s, f.borrowerName, f.borrowerEmail, f.borrowerPhone, f.loanAmount, f.estimatedValue,
             if f.interestRate == 0.0 then None else Some(f.interestRate), [])
  }

  const DefaultBorrower := "John Smith"
  const DefaultEmail := "john.smith@email.com"
  const DefaultPhone := "(555) 123-4567"
  const DefaultRate := 6.5
  const UploadedDocumentId := "doc-1"

  /** `x || d` on a string. */
  function OrDefault(x: string, d: string): string
  {
    if x == "" then d else x
  }

  /** The single `other`, `uploaded` document the continue button records for an uploaded file. */
  function UploadedDocuments(file: Option<string>, at: Clock): (r: seq<Document>)
    ensures file.None? ==> r == []
    ensures file.Some? ==> |r| == 1 && r[0].name == file.value && r[0].documentType == OtherDocument
                           && r[0].status == Uploaded && r[0].uploadDate == at.iso
  {
    match file
    case None => []
    case Some(name) => [Document(UploadedDocumentId, name, OtherDocument, Uploaded, at.iso, None)]
  }

  /**
   * `handleContinueFromAIGoal`: as `handleSubmit`, but every empty field falls back to a
   * sample value and an uploaded file becomes the loan's one document.
   */
  function ContinuePayload(s: FormState, at: Clock): (r: Option<Submission>)
    ensures r.None? <==> |s.properties| == 0
  {
    var f := s.fields;
    Assemble(s, OrDefault(f.borrowerName, DefaultBorrower), OrDefault(f.borrowerEmail, DefaultEmail),
             OrDefault(f.borrowerPhone, DefaultPhone),
             if f.loanAmount == 0 then SimulatedAmount else f.loanAmount,
             if f.estimatedValue == 0 then SimulatedValue else f.estimatedValue,
             Some(if f.interestRate == 0.0 then DefaultRate else f.interestRate),
             UploadedDocuments(s.uploadedFile, at))
  }

  /** A submitted loan is assigned to the officer, has no notes and carries the form's lists. */
  lemma SubmitPayloadShape(s: FormState)
    requires |s.properties| > 0
    ensures var r := SubmitPayload(s).value.loan;
      && r.borrowerName == s.fields.borrowerName && r.loanAmount == s.fields.loanAmount
      && r.estimatedValue == s.fields.estimatedValue
      && (r.interestRate.None? <==> s.fields.interestRate == 0.0)
      && r.term == Some(if s.fields.term == 0 then DefaultTerm else s.fields.term)
      && r.documents == [] && r.assignedTo == Some(DefaultOfficer) && r.notes.None?
      && r.employment == s.employment
  {
  }

  /** The continue button only fills in what is empty: on a complete form without a file it submits the same loan. */
  lemma ContinueOnCompleteForm(s: FormState, at: Clock)
    requires s.fields.borrowerName != "" && s.fields.borrowerEmail != "" && s.fields.borrowerPhone != ""
    requires s.fields.loanAmount != 0 && s.fields.estimatedValue != 0 && s.fields.interestRate != 0.0
    requires s.uploadedFile.None?
    ensures ContinuePayload(s, at) == SubmitPayload(s)
  {
  }

  /** The edited custom tasks never reach the payload: only the selected template id does. */
  lemma PayloadIgnoresCustomTasks(s: FormState, ts: seq<CustomTask>, at: Clock)
    ensures SubmitPayload(s.(customTasks := ts)) == SubmitPayload(s)
    ensures ContinuePayload(s.(customTasks := ts), at) == ContinuePayload(s, at)
  {
  }

  /** A reset form has its one subject property, so either button submits it without throwing. */
  lemma ResetFormSubmits(s: FormState, goals: seq<GoalTemplate>)
    ensures var r := SubmitPayload(ResetForm(s, goals));
      r.Some? && r.value.loan.subjectProperty == EmptyAddress && r.value.templateIds == [FirstTemplateId(goals)]
  {
    var f := ResetForm(s, goals);
    assert f.properties == [BlankProperty];
    assert Find(f.properties, SubjectTest) == Some(BlankProperty);
  }

  /** The dialog: its state hooks as fields, its handlers as methods. */
  class LoanForm {
    /** `aiGoals`, fixed while the dialog is mounted. */
    const aiGoals: seq<GoalTemplate>
    var fields: FormFields
    var uploadedFile: Option<string>
    var selectedTemplateId: string
    var customTasks: seq<CustomTask>
    var properties: seq<Property>
    var employment: seq<Employment>
    var liabilities: seq<Liability>

    function State(): FormState
      reads this
    {
      FormState(fields, uploadedFile, selectedTemplateId, customTasks, properties, employment, liabilities)
    }

    method SetState(s: FormState)
      modifies this
      ensures State() == s
    {
      fields, uploadedFile, selectedTemplateId := s.fields, s.uploadedFile, s.selectedTemplateId;
      customTasks, properties, employment, liabilities := s.customTasks, s.properties, s.employment, s.liabilities;
    }

    constructor(available: seq<GoalTemplate>)
      ensures aiGoals == OfferedGoals(available)
      ensures State() == InitialForm(aiGoals)
    {
      aiGoals := OfferedGoals(available);
      var s := InitialForm(OfferedGoals(available));
      fields, uploadedFile, selectedTemplateId := s.fields, s.uploadedFile, s.selectedTemplateId;
      customTasks, properties, employment, liabilities := s.customTasks, s.properties, s.employment, s.liabilities;
    }

    method AddTask(millis: nat)
      modifies this
      ensures State() == old(State()).(customTasks := old(customTasks) + [NewCustomTask(millis)])
    {
      customTasks := customTasks + [NewCustomTask(millis)];
    }

    method RemoveTask(id: string)
      modifies this
      ensures State() == old(State()).(customTasks := RemoveCustomTask(old(customTasks), id))
    {
      customTasks := RemoveCustomTask(customTasks, id);
    }

    method EditTask(id: string, title: string)
      modifies this
      ensures State() == old(State()).(customTasks := EditCustomTask(old(customTasks), id, title))
    {
      customTasks := EditCustomTask(customTasks, id, title);
    }

    method ToggleAuto(id: string)
      modifies this
      ensures State() == old(State()).(customTasks := ToggleCustomTask(old(customTasks), id))
    {
      customTasks := ToggleCustomTask(customTasks, id);
    }

    /**
     * `onTemplateChange`, followed by the effect that loads the template's tasks. The effect
     * depends on the selected id, so it runs only when the id actually changes: choosing the
     * template already selected keeps the edited tasks.
     */
    method SelectTemplate(id: string)
      modifies this
      ensures State() == old(State()).(selectedTemplateId := id,
                                       customTasks := if id == old(selectedTemplateId) then old(customTasks)
                                                      else TasksForTemplate(aiGoals, id, old(customTasks)))
    {
      if id != selectedTemplateId {
        selectedTemplateId := id;
        customTasks := TasksForTemplate(aiGoals, id, customTasks);
      }
    }

    method HandleFileUpload(file: Option<string>)
      modifies this
      ensures State() == UploadEffect(old(State()), aiGoals, file)
    {
      if file.Some? {
        uploadedFile := file;
        var best := FindBestMatchingGoal(ExtractDocumentMetadata(file.value), aiGoals);
        if best.Some? {
          selectedTemplateId := best.value.id;
          customTasks := best.value.tasks;
        }
      }
    }

    /** `handleSubmit`: hands over the payload, then resets the form; with no property it throws first. */
    method HandleSubmit() returns (payload: Option<Submission>)
      modifies this
      ensures payload == SubmitPayload(old(State()))
      ensures State() == if payload.Some? then ResetForm(old(State()), aiGoals) else old(State())
    {
      payload := SubmitPayload(State());
      if payload.Some? {
        SetState(ResetForm(State(), aiGoals));
      }
    }

    /** `handleContinueFromAIGoal`: hands over the defaulted payload, then resets the form. */
    method HandleContinue(at: Clock) returns (payload: Option<Submission>)
      modifies this
      ensures payload == ContinuePayload(old(State()), at)
      ensures State() == if payload.Some? then ResetForm(old(State()), aiGoals) else old(State())
    {
      payload := ContinuePayload(State(), at);
      if payload.Some? {
        SetState(ResetForm(State(), aiGoals));
      }
    }
  }
}
