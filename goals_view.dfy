/**
 * The AI goals screen (src/components/AIGoalsView.tsx): the keyword rules that draft a task
 * list from a goal's description, the saved-template list (the module-level
 * `savedTemplates` and the screen's copy of it) with its save, update, delete and duplicate
 * handlers, and the screen's counters.
 */
module GoalsView {
  import opened Wrappers
  import opened Text
  import opened Seqs
  import opened Types
  import opened Env
  import opened TaskStore

  // ---------------------------------------------------------------- keyword task generation

  const CreditTask := TaskSpec(CreditCheck, "Review Credit Report",
    "Analyze credit score, history, and recent inquiries", true, None)
  const DocumentTask := TaskSpec(DocumentReview, "Review Income Documents",
    "Verify W2s, paystubs, tax returns, and other income documentation", true, None)
  const PropertyTask := TaskSpec(PropertyLink, "Link Mortgage to Properties",
    "Associate mortgage liabilities with respective subject and investment properties", true, None)
  const DistanceTask := TaskSpec(DistanceCheck, "Check Distance to Employer",
    "Calculate distance between subject property and employer address", true,
    Some("If distance > 50 miles, request Letter of Explanation for remote work arrangement"))
  const EmploymentTask := TaskSpec(IncomeVerification, "Verify Employment",
    "Contact employer to verify employment status, position, and income", false, None)
  const CreditAnalysisTask := TaskSpec(CreditCheck, "Complete Credit Analysis",
    "Deep analysis of credit profile including inquiries, derogatory items, and score factors", true, None)
  const DocumentVerificationTask := TaskSpec(DocumentReview, "Document Verification",
    "Verify all required documents are present, valid, and consistent", true, None)
  const IncomeCalculationTask := TaskSpec(IncomeVerification, "Income Calculation",
    "Calculate qualifying income from all sources including base, overtime, bonuses, and other income", true, None)
  const PropertyAnalysisTask := TaskSpec(PropertyLink, "Property Analysis",
    "Analyze all properties and linked liabilities for complete picture", true, None)
  const UnderwritingTasks := [CreditAnalysisTask, DocumentVerificationTask, IncomeCalculationTask, PropertyAnalysisTask]
  const FallbackTask := TaskSpec(Custom, "Review Loan Application",
    "Complete review of loan application based on goal requirements", false, None)

  /** The six rules, each a disjunction of keywords looked up in the lowercased description. */
  predicate CreditRule(d: string) { Contains(d, "credit") || Contains(d, "initial") || Contains(d, "review") }
  predicate DocumentRule(d: string)
  {
    Contains(d, "document") || Contains(d, "income") || Contains(d, "initial") || Contains(d, "review")
  }
  predicate PropertyRule(d: string) { Contains(d, "property") || Contains(d, "link") || Contains(d, "initial") }
  predicate DistanceRule(d: string) { Contains(d, "distance") || Contains(d, "remote") || Contains(d, "work") }
  predicate EmploymentRule(d: string) { Contains(d, "employment") || Contains(d, "income") || Contains(d, "verify") }
  predicate UnderwritingRule(d: string)
  {
    Contains(d, "underwriting") || Contains(d, "comprehensive") || Contains(d, "full")
  }

  predicate AnyRule(d: string)
  {
    CreditRule(d) || DocumentRule(d) || PropertyRule(d) || DistanceRule(d) || EmploymentRule(d) || UnderwritingRule(d)
  }

  function When(c: bool, ts: seq<TaskSpec>): seq<TaskSpec>
  {
    if c then ts else []
  }

  /** What the six rules push, in rule order, for the lowercased description `d`. */
  function RuleTasks(d: string): (r: seq<TaskSpec>)
    ensures |r| <= 9
    ensures r == [] <==> !AnyRule(d)
    ensures forall t :: t in r ==> t.taskType != Custom
  {
    When(CreditRule(d), [CreditTask]) + When(DocumentRule(d), [DocumentTask]) + When(PropertyRule(d), [PropertyTask])
    + When(DistanceRule(d), [DistanceTask]) + When(EmploymentRule(d), [EmploymentTask])
    + When(UnderwritingRule(d), UnderwritingTasks)
  }

  /** The list `generateTasksWithAI` produces: the rules' tasks, or the one generic task. */
  function GeneratedTasks(description: string): (r: seq<TaskSpec>)
    ensures 1 <= |r| <= 9
  {
    var found := RuleTasks(ToLower(description));
    if found == [] then [FallbackTask] else found
  }

  /** The body of `generateTasksWithAI` after its guard: one `push` per rule that fires. */
  method KeywordTasks(description: string) returns (generated: seq<TaskSpec>)
    ensures generated == GeneratedTasks(description)
  {
    var d := ToLower(description);
    ghost var a := When(CreditRule(d), [CreditTask]);
    ghost var b := When(DocumentRule(d), [DocumentTask]);
    ghost var c := When(PropertyRule(d), [PropertyTask]);
    ghost var e := When(DistanceRule(d), [DistanceTask]);
    ghost var f := When(EmploymentRule(d), [EmploymentTask]);
    ghost var g := When(UnderwritingRule(d), UnderwritingTasks);
    generated := [];
    if CreditRule(d) {
      generated := generated + [CreditTask];
    }
    assert generated == a;
    if DocumentRule(d) {
      generated := generated + [DocumentTask];
    }
    assert generated == a + b;
    if PropertyRule(d) {
      generated := generated + [PropertyTask];
    }
    assert generated == a + b + c;
    if DistanceRule(d) {
      generated := generated + [DistanceTask];
    }
    assert generated == a + b + c + e;
    if EmploymentRule(d) {
      generated := generated + [EmploymentTask];
    }
    assert generated == a + b + c + e + f;
    if UnderwritingRule(d) {
      generated := generated + UnderwritingTasks;
    }
    assert generated == a + b + c + e + f + g == RuleTasks(d);
    if |generated| == 0 {
      generated := generated + [FallbackTask];
    }
  }

  const CustomTest: TaskSpec -> bool := (t: TaskSpec) => t.taskType == Custom
  const CreditTest: TaskSpec -> bool := (t: TaskSpec) => t.taskType == CreditCheck

  /**
   * The generic manual `custom` task appears exactly when no rule fires, and then it is the
   * whole list.
   */
  lemma FallbackExactly(description: string)
    ensures var r := GeneratedTasks(description);
      && (!AnyRule(ToLower(description)) <==> r == [FallbackTask])
      && (!AnyRule(ToLower(description)) <==> exists i :: 0 <= i < |r| && r[i].taskType == Custom)
  {
    var d := ToLower(description);
    var r := GeneratedTasks(description);
    if AnyRule(d) {
      assert r == RuleTasks(d);
      assert FallbackTask !in r;
      forall i | 0 <= i < |r| ensures r[i].taskType != Custom {
        assert r[i] in r;
      }
    } else {
      assert r[0].taskType == Custom;
    }
  }

  lemma CountWhenSingle(c: bool, x: TaskSpec, p: TaskSpec -> bool)
    ensures Count(When(c, [x]), p) == if c && p(x) then 1 else 0
  {
    CountSingleton(x, p);
  }

  /** The underwriting block holds one `credit_check`. */
  lemma UnderwritingCredit()
    ensures Count(UnderwritingTasks, CreditTest) == 1
  {
    var rest := [DocumentVerificationTask, IncomeCalculationTask, PropertyAnalysisTask];
    assert UnderwritingTasks == [CreditAnalysisTask] + rest;
    CountConcat([CreditAnalysisTask], rest, CreditTest);
    CountSingleton(CreditAnalysisTask, CreditTest);
    assert rest[..2] == [DocumentVerificationTask, IncomeCalculationTask];
    assert rest[..2][..1] == [DocumentVerificationTask];
    CountSingleton(DocumentVerificationTask, CreditTest);
  }

  /** Counting over the rule blocks, block by block. */
  lemma CountRuleTasks(d: string, p: TaskSpec -> bool)
    ensures Count(RuleTasks(d), p)
      == Count(When(CreditRule(d), [CreditTask]), p) + Count(When(DocumentRule(d), [DocumentTask]), p)
       + Count(When(PropertyRule(d), [PropertyTask]), p) + Count(When(DistanceRule(d), [DistanceTask]), p)
       + Count(When(EmploymentRule(d), [EmploymentTask]), p) + Count(When(UnderwritingRule(d), UnderwritingTasks), p)
  {
    var a := When(CreditRule(d), [CreditTask]);
    var b := When(DocumentRule(d), [DocumentTask]);
    var c := When(PropertyRule(d), [PropertyTask]);
    var e := When(DistanceRule(d), [DistanceTask]);
    var f := When(EmploymentRule(d), [EmploymentTask]);
    var g := When(UnderwritingRule(d), UnderwritingTasks);
    CountConcat(a, b, p);
    CountConcat(a + b, c, p);
    CountConcat(a + b + c, e, p);
    CountConcat(a + b + c + e, f, p);
    CountConcat(a + b + c + e + f, g, p);
  }

  /**
   * The rules are independent, so a type can occur twice: there is one `credit_check` per
   * firing of the credit rule and one per firing of the underwriting rule.
   */
  lemma CreditCheckCount(description: string)
    requires AnyRule(ToLower(description))
    ensures Count(GeneratedTasks(description), CreditTest)
            == (if CreditRule(ToLower(description)) then 1 else 0)
             + (if UnderwritingRule(ToLower(description)) then 1 else 0)
  {
    var d := ToLower(description);
    CountRuleTasks(d, CreditTest);
    CountWhenSingle(CreditRule(d), CreditTask, CreditTest);
    CountWhenSingle(DocumentRule(d), DocumentTask, CreditTest);
    CountWhenSingle(PropertyRule(d), PropertyTask, CreditTest);
    CountWhenSingle(DistanceRule(d), DistanceTask, CreditTest);
    CountWhenSingle(EmploymentRule(d), EmploymentTask, CreditTest);
    UnderwritingCredit();
  }

  /** A description with both `review` and `full` yields two `credit_check` tasks. */
  lemma ReviewAndFullDuplicateCredit(description: string)
    requires Contains(ToLower(description), "review") && Contains(ToLower(description), "full")
    ensures Count(GeneratedTasks(description), CreditTest) == 2
  {
    CreditCheckCount(description);
  }

  /** The underwriting rule ends the list with its four auto-executed tasks exactly when it fires. */
  lemma UnderwritingBlock(description: string)
    ensures var r := GeneratedTasks(description);
      UnderwritingRule(ToLower(description)) <==> |r| >= 4 && r[|r| - 4..] == UnderwritingTasks
    ensures forall i :: 0 <= i < |UnderwritingTasks| ==> UnderwritingTasks[i].autoExecute
  {
    var d := ToLower(description);
    var r := GeneratedTasks(description);
    if UnderwritingRule(d) {
      assert r == RuleTasks(d);
      var front := When(CreditRule(d), [CreditTask]) + When(DocumentRule(d), [DocumentTask])
        + When(PropertyRule(d), [PropertyTask]) + When(DistanceRule(d), [DistanceTask])
        + When(EmploymentRule(d), [EmploymentTask]);
      assert r == front + UnderwritingTasks;
      assert r[|r| - 4..] == UnderwritingTasks;
    } else if |r| >= 4 {
      assert |"Property Analysis"| == 17;
      assert r[|r| - 1] != PropertyAnalysisTask;
      assert r[|r| - 4..][3] == r[|r| - 1];
    }
  }

  // ---------------------------------------------------------------- saved templates

  /** A saved template is an `AIGoal` with an empty `loanId`. */
  type Template = AIGoal

  const TemplateIdPrefix := "template-"
  const CopySuffix := " (Copy)"

  /** `` `tt-${Date.now()}-${i}` ``. */
  function SavedTaskId(millis: nat, i: nat): string
  {
    "tt-" + NatToString(millis) + "-" + NatToString(i)
  }

  /** `tasks.map((t, i) => ({ id: `tt-...-${i}`, ...t }))`. */
  function SavedDefinitions(specs: seq<TaskSpec>, millis: nat): (r: seq<TaskDefinition>)
    ensures |r| == |specs| && SpecsOf(r) == specs
    ensures forall i :: 0 <= i < |r| ==> r[i].id == SavedTaskId(millis, i)
  {
    seq(|specs|, i requires 0 <= i < |specs| =>
      TaskDefinition(SavedTaskId(millis, i), specs[i].taskType, specs[i].title, specs[i].description,
                     specs[i].autoExecute, specs[i].condition))
  }

  /** The template `handleSaveTemplate` prepends: active, bound to no loan, one definition per task. */
  function SavedTemplate(name: string, description: string, specs: seq<TaskSpec>, at: Clock): (t: Template)
    ensures t.status == ActiveGoal && t.loanId == "" && t.name == name && t.description == description
    ensures |t.tasks| == |specs| && SpecsOf(t.tasks) == specs
    ensures t.createdAt == at.iso
  {
    AIGoal(TemplateIdPrefix + NatToString(at.millis), "", name, description, SavedDefinitions(specs, at.millis),
           ActiveGoal, at.iso)
  }

  /** `task.type + i`. */
  function EditedTaskId(t: TaskType, i: nat): string
  {
    TaskTypeName(t) + NatToString(i)
  }

  /** The definitions `handleUpdateTemplate` stores: the edited tasks, re-identified as type plus index. */
  function EditedDefinitions(specs: seq<TaskSpec>): (r: seq<TaskDefinition>)
    ensures |r| == |specs| && SpecsOf(r) == specs
    ensures forall i :: 0 <= i < |r| ==> r[i].id == EditedTaskId(specs[i].taskType, i)
  {
    seq(|specs|, i requires 0 <= i < |specs| =>
      TaskDefinition(EditedTaskId(specs[i].taskType, i), specs[i].taskType, specs[i].title,
                     specs[i].description, specs[i].autoExecute, specs[i].condition))
  }

  function TemplateIdIs(id: string): Template -> bool { (t: Template) => t.id == id }
  function TemplateIdIsNot(id: string): Template -> bool { (t: Template) => t.id != id }

  function Edited(name: string, description: string, specs: seq<TaskSpec>): Template -> Template
  {
    (t: Template) => t.(name := name, description := description, tasks := EditedDefinitions(specs))
  }

  /** `handleUpdateTemplate`'s map: only the templates with the edited id take the form's content. */
  function UpdateTemplateIn(ts: seq<Template>, id: string, name: string, description: string,
                            specs: seq<TaskSpec>): (r: seq<Template>)
    ensures |r| == |ts|
    ensures forall i :: 0 <= i < |ts| ==> r[i].id == ts[i].id && r[i].status == ts[i].status
    ensures forall i :: 0 <= i < |ts| && ts[i].id != id ==> r[i] == ts[i]
    ensures forall i :: 0 <= i < |ts| && ts[i].id == id ==>
              r[i].name == name && r[i].description == description && r[i].tasks == EditedDefinitions(specs)
  {
    MapWhere(ts, TemplateIdIs(id), Edited(name, description, specs))
  }

  /** An updated template holds the form's name, description and tasks, and keeps the rest. */
  lemma UpdatedTemplate(ts: seq<Template>, id: string, name: string, description: string,
                        specs: seq<TaskSpec>, i: nat)
    requires i < |ts| && ts[i].id == id
    ensures var r := UpdateTemplateIn(ts, id, name, description, specs)[i];
      && r.name == name && r.description == description
      && r.tasks == EditedDefinitions(specs) && SpecsOf(r.tasks) == specs
      && r.(name := ts[i].name, description := ts[i].description, tasks := ts[i].tasks) == ts[i]
  {
  }

  /** Saving the same edit twice changes nothing more. */
  lemma UpdateTemplateIdempotent(ts: seq<Template>, id: string, name: string, description: string,
                                 specs: seq<TaskSpec>)
    ensures var once := UpdateTemplateIn(ts, id, name, description, specs);
      UpdateTemplateIn(once, id, name, description, specs) == once
  {
    var once := UpdateTemplateIn(ts, id, name, description, specs);
    var twice := UpdateTemplateIn(once, id, name, description, specs);
    forall i | 0 <= i < |ts| ensures twice[i] == once[i] {
      assert once[i].id == ts[i].id;
    }
  }

  /** `handleDeleteTemplate`'s filter. */
  function DeleteTemplateIn(ts: seq<Template>, id: string): (r: seq<Template>)
    ensures forall i :: 0 <= i < |r| ==> r[i].id != id
    ensures forall i :: 0 <= i < |ts| && ts[i].id != id ==> ts[i] in r
  {
    Filter(ts, TemplateIdIsNot(id))
  }

  /** Deleting keeps every other template as often as it occurred. */
  lemma DeleteTemplateCounts(ts: seq<Template>, id: string, t: Template)
    ensures multiset(DeleteTemplateIn(ts, id))[t] == if t.id == id then 0 else multiset(ts)[t]
  {
    FilterMultiset(ts, TemplateIdIsNot(id), t);
  }

  /** `handleDuplicateTemplate`'s copy: a fresh id and creation time, the name marked as a copy. */
  function Duplicate(t: Template, at: Clock): (r: Template)
    ensures r.name == t.name + CopySuffix && r.tasks == t.tasks && r.status == t.status
    ensures r.loanId == t.loanId && r.description == t.description && r.createdAt == at.iso
  {
    t.(id := TemplateIdPrefix + NatToString(at.millis), name := t.name + CopySuffix, createdAt := at.iso)
  }

  // ---------------------------------------------------------------- counters

  /** The screen's `stats`. */
  datatype ViewStats = ViewStats(total: nat, active: nat, applied: nat, totalTasks: nat)

  const ActiveTest: Template -> bool := (t: Template) => t.status == ActiveGoal

  /** The `reduce` that adds up the templates' task counts. */
  function TotalTasks(ts: seq<Template>): nat
  {
    if ts == [] then 0 else |ts[0].tasks| + TotalTasks(ts[1..])
  }

  function Stats(templates: seq<Template>, goals: seq<AIGoal>): (s: ViewStats)
    ensures s.total == |templates| && s.applied == |goals| && s.active <= s.total
  {
    ViewStats(|templates|, Count(templates, ActiveTest), |goals|, TotalTasks(templates))
  }

  lemma TotalTasksPrepend(t: Template, ts: seq<Template>)
    ensures TotalTasks([t] + ts) == |t.tasks| + TotalTasks(ts)
  {
    assert ([t] + ts)[1..] == ts;
  }

  /** Prepending a template counts it once, its tasks into the task total, and as active if it is. */
  lemma StatsPrepend(t: Template, ts: seq<Template>, goals: seq<AIGoal>)
    ensures var before := Stats(ts, goals);
      var after := Stats([t] + ts, goals);
      && after.total == before.total + 1
      && after.active == before.active + (if t.status == ActiveGoal then 1 else 0)
      && after.totalTasks == before.totalTasks + |t.tasks|
      && after.applied == before.applied
  {
    TotalTasksPrepend(t, ts);
    CountConcat([t], ts, ActiveTest);
    CountSingleton(t, ActiveTest);
  }

  /** An update changes neither the number of templates nor how many are active. */
  lemma StatsAfterUpdate(ts: seq<Template>, id: string, name: string, description: string,
                         specs: seq<TaskSpec>, goals: seq<AIGoal>)
    ensures var before := Stats(ts, goals);
      var after := Stats(UpdateTemplateIn(ts, id, name, description, specs), goals);
      after.total == before.total && after.active == before.active
  {
    var r := UpdateTemplateIn(ts, id, name, description, specs);
    CountPointwise(r, ts, ActiveTest, ActiveTest);
  }

  lemma {:induction false} TotalTasksFilter(ts: seq<Template>, p: Template -> bool)
    ensures TotalTasks(Filter(ts, p)) <= TotalTasks(ts)
  {
    if ts != [] {
      TotalTasksFilter(ts[1..], p);
      if p(ts[0]) {
        TotalTasksPrepend(ts[0], Filter(ts[1..], p));
      } else {
        assert Filter(ts, p) == Filter(ts[1..], p);
      }
    }
  }

  /** A deletion never raises a counter, and deleting an id no template has changes none. */
  lemma StatsAfterDelete(ts: seq<Template>, id: string, goals: seq<AIGoal>)
    ensures var before := Stats(ts, goals);
      var after := Stats(DeleteTemplateIn(ts, id), goals);
      && after.total <= before.total && after.totalTasks <= before.totalTasks
      && ((forall i :: 0 <= i < |ts| ==> ts[i].id != id) ==> after == before)
  {
    TotalTasksFilter(ts, TemplateIdIsNot(id));
    if forall i :: 0 <= i < |ts| ==> ts[i].id != id {
      FilterKeepsAll(ts, TemplateIdIsNot(id));
    }
  }

  // ---------------------------------------------------------------- the screen

  /** The template form: name, description, draft tasks and the template being edited, if any. */
  datatype GoalForm = GoalForm(name: string, description: string, tasks: seq<TaskSpec>, editing: Option<Template>)

  const EmptyForm := GoalForm("", "", [], None)

  /**
   * The screen. `saved` is the module-level `savedTemplates`, `local` the screen's state copy;
   * every handler assigns both the same list, so they never differ.
   */
  class TemplateScreen {
    var saved: seq<Template>
    var local: seq<Template>
    var form: GoalForm

    predicate Valid()
      reads this
    {
      saved == local
    }

    /** Mounting the screen copies `savedTemplates` into its state. */
    constructor(savedTemplates: seq<Template>)
      ensures Valid() && saved == savedTemplates && form == EmptyForm
    {
      saved := savedTemplates;
      local := savedTemplates;
      form := EmptyForm;
    }

    /** `generateTasksWithAI`: nothing for an empty description, else the drafted list. */
    method GenerateTasksWithAI()
      modifies this
      ensures saved == old(saved) && local == old(local)
      ensures form == if old(form).description == "" then old(form)
                      else old(form).(tasks := GeneratedTasks(old(form).description))
    {
      if form.description == "" {
        return;
      }
      var generated := KeywordTasks(form.description);
      form := form.(tasks := generated);
    }

    /** `loadGoalForEdit`: the form takes the template's content, its definitions without ids. */
    method LoadGoalForEdit(goal: Template)
      modifies this
      ensures saved == old(saved) && local == old(local)
      ensures form == GoalForm(goal.name, goal.description, SpecsOf(goal.tasks), Some(goal))
    {
      form := GoalForm(goal.name, goal.description, SpecsOf(goal.tasks), Some(goal));
    }

    /** `handleSaveTemplate`: acts only with a name and at least one task. */
    method SaveTemplate(at: Clock)
      requires Valid()
      modifies this
      ensures Valid()
      ensures var acts := old(form).name != "" && |old(form).tasks| > 0;
        && saved == (if acts then [SavedTemplate(old(form).name, old(form).description, old(form).tasks, at)]
                                  + old(saved) else old(saved))
        && form == (if acts then EmptyForm else old(form))
    {
      if form.name != "" && |form.tasks| > 0 {
        saved := [SavedTemplate(form.name, form.description, form.tasks, at)] + saved;
        local := saved;
        form := EmptyForm;
      }
    }

    /** `handleUpdateTemplate`: acts only while editing, with a name and at least one task. */
    method UpdateTemplate()
      requires Valid()
      modifies this
      ensures Valid()
      ensures var acts := old(form).editing.Some? && old(form).name != "" && |old(form).tasks| > 0;
        && local == (if acts then UpdateTemplateIn(old(local), old(form).editing.value.id, old(form).name,
                                                   old(form).description, old(form).tasks)
                     else old(local))
        && form == (if acts then EmptyForm else old(form))
    {
      if form.editing.Some? && form.name != "" && |form.tasks| > 0 {
        local := UpdateTemplateIn(local, form.editing.value.id, form.name, form.description, form.tasks);
        saved := local;
        form := EmptyForm;
      }
    }

    method DeleteTemplate(id: string)
      requires Valid()
      modifies this
      ensures Valid() && local == DeleteTemplateIn(old(local), id) && form == old(form)
    {
      local := DeleteTemplateIn(local, id);
      saved := local;
    }

    method DuplicateTemplate(template: Template, at: Clock)
      requires Valid()
      modifies this
      ensures Valid() && saved == [Duplicate(template, at)] + old(saved) && form == old(form)
    {
      saved := [Duplicate(template, at)] + saved;
      local := saved;
    }

    function ScreenStats(goals: seq<AIGoal>): ViewStats
      reads this
    {
      Stats(local, goals)
    }
  }
}
