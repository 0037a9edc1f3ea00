/**
 * The handlers of the application shell (src/App.tsx): each reads the stores, then calls
 * them in a fixed order. `World` is the state both stores hold together with the number of
 * random draws made; each handler is a method of `Dashboard` proved equal to an effect
 * function on `World`, and the lemmas below say what those effects do.
 */
module App {
  import opened Wrappers
  import opened Text
  import opened Seqs
  import opened Types
  import opened Env
  import opened Catalog
  import opened TaskStore
  import opened LoanStore

  /** The loan officer the shell acts as, and the other fixed names it passes. */
  const Officer := "John Smith"
  const BulkAssignee := "Jane Doe"
  const RejectReason := "Task rejected by loan officer"
  const StatusReasonPrefix := "Loan status changed to "
  const CompletedPrefix := "AI Agent completed "
  const ConditionWord := "condition"

  /** Both stores' collections and the draw counter of the shared random source. */
  datatype World = World(loans: seq<Loan>, tasks: seq<Task>, goals: seq<AIGoal>, decisions: seq<Decision>,
                         drawn: nat)

  function LedgerOf(w: World): Ledger
  {
    Ledger(w.tasks, w.goals, w.drawn)
  }

  function WithLedger(w: World, l: Ledger): World
  {
    w.(tasks := l.tasks, goals := l.goals, drawn := l.drawn)
  }

  // ---------------------------------------------------------------- status changes

  /** The decision type recorded for a new loan status. */
  function DecisionTypeFor(s: LoanStatus): (d: DecisionType)
    ensures d == Approval <==> s == Approved
    ensures d == Denial <==> s == Denied
    ensures d == Conditional <==> s == Conditions
    ensures d == AutoAction <==> s != Approved && s != Denied && s != Conditions
  {
    if s == Approved then Approval
    else if s == Denied then Denial
    else if s == Conditions then Conditional
    else AutoAction
  }

  /** `status.replace('_', ' ')`. */
  function StatusLabel(s: LoanStatus): (r: string)
    ensures |r| == |LoanStatusName(s)|
  {
    ReplaceFirst(LoanStatusName(s), '_', ' ')
  }

  /** What `handleUpdateLoanStatus` asks `addDecision` for. */
  function StatusDecision(loan: Loan, loanId: string, status: LoanStatus): (r: DecisionInput)
    ensures r.loanId == loanId && r.madeBy == Officer && r.decisionType == DecisionTypeFor(status)
    ensures r.previousStatus == loan.status && r.newStatus == status
  {
    DecisionInput(loanId, loan.loanNumber, loan.borrowerName, DecisionTypeFor(status), Officer,
                  StatusReasonPrefix + StatusLabel(status), None, None, None, loan.status, status)
  }

  /** `handleUpdateLoanStatus`: nothing for an absent loan; otherwise the change and one decision. */
  function StatusChangeEffect(w: World, loanId: string, status: LoanStatus, idOf: nat -> RandomId, at: Clock): World
  {
    match FindLoan(w.loans, loanId)
    case None => w
    case Some(loan) => RecordStatusChange(w, loan, loanId, status, idOf, at)
  }

  /** The change of a loan that was found, then its decision. */
  function RecordStatusChange(w: World, loan: Loan, loanId: string, status: LoanStatus, idOf: nat -> RandomId,
                              at: Clock): World
  {
    w.(loans := UpdateLoanStatusIn(w.loans, loanId, status, None, at.iso),
       decisions := [NewDecision(StatusDecision(loan, loanId, status), idOf(w.drawn), at.iso)] + w.decisions,
       drawn := w.drawn + 1)
  }

  /**
   * A status change of a present loan records exactly one decision, in front, with the
   * status read before the change as `previousStatus`; an absent loan changes nothing.
   */
  lemma StatusChangeRecordsOne(w: World, loanId: string, status: LoanStatus, idOf: nat -> RandomId, at: Clock)
    ensures var r := StatusChangeEffect(w, loanId, status, idOf, at);
      && r.tasks == w.tasks && r.goals == w.goals
      && (FindLoan(w.loans, loanId).None? ==> r == w)
      && (FindLoan(w.loans, loanId).Some? ==>
            && |r.decisions| == |w.decisions| + 1 && r.decisions[1..] == w.decisions
            && r.decisions[0].previousStatus == FindLoan(w.loans, loanId).value.status
            && r.decisions[0].newStatus == status && r.decisions[0].madeBy == Officer
            && r.decisions[0].decisionType == DecisionTypeFor(status)
            && r.loans == UpdateLoanStatusIn(w.loans, loanId, status, None, at.iso))
  {
    var r := StatusChangeEffect(w, loanId, status, idOf, at);
    if FindLoan(w.loans, loanId).Some? {
      assert r.decisions[1..] == w.decisions;
    }
  }

  // ---------------------------------------------------------------- loan creation

  /** `forEach(applyAIGoalTemplate)` over the selected ids, in order. */
  function ApplyTemplates(l: Ledger, templates: seq<GoalTemplate>, idOf: nat -> RandomId, who: LoanRef,
                          ids: seq<string>, at: Clock): Ledger
    decreases |ids|
  {
    if ids == [] then l
    else ApplyTemplateEffect(ApplyTemplates(l, templates, idOf, who, ids[..|ids| - 1], at), templates, idOf,
                             who, ids[|ids| - 1], at)
  }

  function TemplateKnown(templates: seq<GoalTemplate>): string -> bool
  {
    (id: string) => FindTemplate(templates, id).Some?
  }

  /** Each known id adds one active goal for the loan in front; unknown ids add nothing. */
  lemma {:induction false} ApplyTemplatesShape(l: Ledger, templates: seq<GoalTemplate>, idOf: nat -> RandomId,
                                               who: LoanRef, ids: seq<string>, at: Clock)
    ensures var r := ApplyTemplates(l, templates, idOf, who, ids, at);
      && |r.goals| == |l.goals| + Count(ids, TemplateKnown(templates))
      && r.goals[|r.goals| - |l.goals|..] == l.goals
      && forall k :: 0 <= k < |r.goals| - |l.goals| ==> r.goals[k].loanId == who.loanId && r.goals[k].status == ActiveGoal
    decreases |ids|
  {
    if ids != [] {
      var init := ids[..|ids| - 1];
      var p := ApplyTemplates(l, templates, idOf, who, init, at);
      ApplyTemplatesShape(l, templates, idOf, who, init, at);
      var r := ApplyTemplates(l, templates, idOf, who, ids, at);
      var found := FindTemplate(templates, ids[|ids| - 1]);
      if found.None? {
        assert r == p;
      } else {
        var t := found.value;
        WriteGoalShape(p, idOf, who, t.name, t.description, SpecsOf(t.tasks), at);
        assert r.goals[1..] == p.goals;
        assert r.goals[|r.goals| - |l.goals|..] == p.goals[|p.goals| - |l.goals|..];
        forall k | 0 <= k < |r.goals| - |l.goals|
          ensures r.goals[k].loanId == who.loanId && r.goals[k].status == ActiveGoal
        {
          if k > 0 {
            assert r.goals[k] == p.goals[k - 1];
          }
        }
      }
    }
  }

  /** `handleCreateLoan`: the loan (an id draw and a loan-number draw), then each selected template. */
  function CreateLoanEffect(w: World, input: LoanInput, ids: seq<string>, templates: seq<GoalTemplate>,
                            idOf: nat -> RandomId, thousandthOf: nat -> Thousandth, at: Clock): World
  {
    var loan := NewLoan(input, idOf(w.drawn), GenerateLoanNumber(at.millis, thousandthOf(w.drawn + 1)), at.iso);
    WithNewLoan(w, loan, ApplyTemplates(Ledger(w.tasks, w.goals, w.drawn + 2), templates, idOf,
                                        LoanRef(loan.id, loan.loanNumber, loan.borrowerName), ids, at))
  }

  /** The new loan in front of the loans, and the task store as the template applications left it. */
  function WithNewLoan(w: World, loan: Loan, l: Ledger): World
  {
    World([loan] + w.loans, l.tasks, l.goals, w.decisions, l.drawn)
  }

  /** The new draft comes first, holding the input, and no decision is recorded. */
  lemma CreateLoanDraft(w: World, input: LoanInput, ids: seq<string>, templates: seq<GoalTemplate>,
                        idOf: nat -> RandomId, thousandthOf: nat -> Thousandth, at: Clock)
    ensures var r := CreateLoanEffect(w, input, ids, templates, idOf, thousandthOf, at);
      && |r.loans| == |w.loans| + 1 && r.loans[1..] == w.loans && r.loans[0].status == Draft
      && r.loans[0].createdAt == r.loans[0].updatedAt && LoanInputOf(r.loans[0]) == input
      && r.decisions == w.decisions
  {
    var r := CreateLoanEffect(w, input, ids, templates, idOf, thousandthOf, at);
    assert r.loans[1..] == w.loans;
  }

  /** One goal per selected id the catalog knows, in front, each belonging to the new loan. */
  lemma CreateLoanGoals(w: World, input: LoanInput, ids: seq<string>, templates: seq<GoalTemplate>,
                        idOf: nat -> RandomId, thousandthOf: nat -> Thousandth, at: Clock)
    ensures var r := CreateLoanEffect(w, input, ids, templates, idOf, thousandthOf, at);
      && |r.goals| == |w.goals| + Count(ids, TemplateKnown(templates))
      && r.goals[|r.goals| - |w.goals|..] == w.goals
      && forall k :: 0 <= k < |r.goals| - |w.goals| ==> r.goals[k].loanId == r.loans[0].id
  {
    var loan := NewLoan(input, idOf(w.drawn), GenerateLoanNumber(at.millis, thousandthOf(w.drawn + 1)), at.iso);
    var who := LoanRef(loan.id, loan.loanNumber, loan.borrowerName);
    var l := ApplyTemplates(Ledger(w.tasks, w.goals, w.drawn + 2), templates, idOf, who, ids, at);
    ApplyTemplatesShape(Ledger(w.tasks, w.goals, w.drawn + 2), templates, idOf, who, ids, at);
    assert CreateLoanEffect(w, input, ids, templates, idOf, thousandthOf, at) == WithNewLoan(w, loan, l);
    NewLoanGoals(w, loan, l, Count(ids, TemplateKnown(templates)));
  }

  lemma NewLoanGoals(w: World, loan: Loan, l: Ledger, n: nat)
    requires |l.goals| == |w.goals| + n && l.goals[n..] == w.goals
    requires forall k :: 0 <= k < n ==> l.goals[k].loanId == loan.id
    ensures var r := WithNewLoan(w, loan, l);
      && |r.goals| == |w.goals| + n && r.goals[|r.goals| - |w.goals|..] == w.goals
      && forall k :: 0 <= k < |r.goals| - |w.goals| ==> r.goals[k].loanId == r.loans[0].id
  {
  }

  // ---------------------------------------------------------------- AI goal submission

  predicate IsAuto(s: TaskSpec) { s.autoExecute }

  const AutoTest: TaskSpec -> bool := (s: TaskSpec) => IsAuto(s)

  /** `if (taskDef.condition)`: present and not empty. */
  predicate HasCondition(s: TaskSpec)
  {
    s.condition.Some? && s.condition.value != ""
  }

  /** The condition that moves the loan to `conditions`: it mentions the word `condition`. */
  predicate TriggersConditions(s: TaskSpec)
  {
    HasCondition(s) && Contains(s.condition.value, ConditionWord)
  }

  const DecidingTest: TaskSpec -> bool := (s: TaskSpec) => IsAuto(s) && HasCondition(s)
  const TriggeringTest: TaskSpec -> bool := (s: TaskSpec) => IsAuto(s) && TriggersConditions(s)

  /** The extra task the first timer adds for an auto-executing definition. */
  function AutoTaskInput(loan: Loan, loanId: string, s: TaskSpec): TaskInput
  {
    TaskInput(loanId, loan.loanNumber, loan.borrowerName, s.taskType, s.title, s.description, InProgress,
              None, Some(AIAgent), None, false, None, None, None, Some(true), None)
  }

  /** A task as the first timer creates it. */
  predicate IsAgentTask(t: Task, loanId: string)
  {
    t.loanId == loanId && t.status == InProgress && t.assignedTo == Some(AIAgent)
    && !t.requiresApproval && t.autoAction == Some(true)
  }

  /** `` `task-${Date.now()}-${index}` ``: a dash at index 4, which no random id has. */
  function SyntheticTaskId(millis: nat, index: nat): (r: string)
    ensures |r| > 4 && r[4] == '-'
  {
    "task-" + NatToString(millis) + "-" + NatToString(index)
  }

  /** `` `AI Agent completed ${title}. ${condition || ''}` ``. */
  function CompletionResult(s: TaskSpec): string
  {
    CompletedPrefix + s.title + ". " + s.condition.GetOr("")
  }

  /** The audit record of a definition that carries a condition. */
  function ConditionDecision(loan: Loan, loanId: string, s: TaskSpec): (r: DecisionInput)
    requires HasCondition(s)
    ensures r.decisionType == AutoAction && r.madeBy == AIAgent && r.autoExecuted == Some(true)
    ensures r.previousStatus == loan.status
    ensures r.newStatus == Conditions <==> TriggersConditions(s) || loan.status == Conditions
    ensures r.newStatus != Conditions ==> r.newStatus == loan.status
  {
    DecisionInput(loanId, loan.loanNumber, loan.borrowerName, AutoAction, AIAgent, s.title,
                  Some(s.condition.value), None, Some(true), loan.status,
                  if Contains(s.condition.value, ConditionWord) then Conditions else loan.status)
  }

  /** First timer of definition `i`: one agent task when it auto-executes. */
  function AutoStep(w: World, s: TaskSpec, loan: Loan, loanId: string, idOf: nat -> RandomId, c: Clock): World
  {
    if IsAuto(s) then w.(tasks := [NewTask(AutoTaskInput(loan, loanId, s), idOf(w.drawn), c.iso)] + w.tasks,
                         drawn := w.drawn + 1)
    else w
  }

  /** The first timers of definitions `0 .. n-1`, in index order; `first(i)` is the clock each reads. */
  function AutoPhase(w: World, specs: seq<TaskSpec>, n: nat, loan: Loan, loanId: string, idOf: nat -> RandomId,
                     first: nat -> Clock): World
    requires n <= |specs|
    decreases n
  {
    if n == 0 then w
    else AutoStep(AutoPhase(w, specs, n - 1, loan, loanId, idOf, first), specs[n - 1], loan, loanId, idOf, first(n - 1))
  }

  /**
   * Second timer of definition `i`: `completeTask` on the synthetic id, then for a definition with
   * a condition one decision, and the move to `conditions` when the condition asks for it.
   */
  function CompletionStep(w: World, s: TaskSpec, i: nat, loan: Loan, loanId: string, idOf: nat -> RandomId,
                          stamp: nat, c: Clock): World
  {
    if !IsAuto(s) then w
    else
      var tasks := CompleteTaskIn(w.tasks, SyntheticTaskId(stamp, i), CompletionResult(s), Some(true), c.iso);
      if !HasCondition(s) then w.(tasks := tasks)
      else
        w.(tasks := tasks,
           decisions := [NewDecision(ConditionDecision(loan, loanId, s), idOf(w.drawn), c.iso)] + w.decisions,
           loans := if TriggersConditions(s) then UpdateLoanStatusIn(w.loans, loanId, Conditions, None, c.iso)
                    else w.loans,
           drawn := w.drawn + 1)
  }

  /** The second timers, in index order (their delays grow with the index). */
  function CompletionPhase(w: World, specs: seq<TaskSpec>, n: nat, loan: Loan, loanId: string,
                           idOf: nat -> RandomId, first: nat -> Clock, second: nat -> Clock): World
    requires n <= |specs|
    decreases n
  {
    if n == 0 then w
    else CompletionStep(CompletionPhase(w, specs, n - 1, loan, loanId, idOf, first, second), specs[n - 1], n - 1,
                        loan, loanId, idOf, first(n - 1).millis, second(n - 1))
  }

  /**
   * `handleSubmitAIGoal`: nothing for an absent loan; otherwise the goal write (borrower name
   * `''`), all first timers, then all second timers.
   */
  function SubmitEffect(w: World, loanId: string, loanNumber: string, name: string, description: string,
                        specs: seq<TaskSpec>, idOf: nat -> RandomId, at: Clock, first: nat -> Clock,
                        second: nat -> Clock): World
  {
    match FindLoan(w.loans, loanId)
    case None => w
    case Some(loan) =>
      var g := WithLedger(w, WriteGoalEffect(LedgerOf(w), idOf, LoanRef(loanId, loanNumber, ""), name,
                                             description, specs, at));
      CompletionPhase(AutoPhase(g, specs, |specs|, loan, loanId, idOf, first), specs, |specs|, loan, loanId,
                      idOf, first, second)
  }

  lemma CountPrefixStep<T>(s: seq<T>, n: nat, p: T -> bool)
    requires 0 < n <= |s|
    ensures Count(s[..n], p) == Count(s[..n - 1], p) + (if p(s[n - 1]) then 1 else 0)
  {
    assert s[..n][..n - 1] == s[..n - 1];
  }

  /**
   * The first timers add, in front, one agent task per auto-executing definition and touch
   * nothing else but the draw counter.
   */
  lemma {:induction false} AutoPhaseShape(w: World, specs: seq<TaskSpec>, n: nat, loan: Loan, loanId: string,
                                          idOf: nat -> RandomId, first: nat -> Clock)
    requires n <= |specs|
    ensures var r := AutoPhase(w, specs, n, loan, loanId, idOf, first);
      && |r.tasks| == |w.tasks| + Count(specs[..n], AutoTest) && r.drawn == w.drawn + Count(specs[..n], AutoTest)
      && r.tasks[|r.tasks| - |w.tasks|..] == w.tasks
      && r.loans == w.loans && r.goals == w.goals && r.decisions == w.decisions
      && forall k :: 0 <= k < |r.tasks| - |w.tasks| ==> IsAgentTask(r.tasks[k], loanId)
    decreases n
  {
    if n > 0 {
      AutoPhaseShape(w, specs, n - 1, loan, loanId, idOf, first);
      CountPrefixStep(specs, n, AutoTest);
      var p := AutoPhase(w, specs, n - 1, loan, loanId, idOf, first);
      var r := AutoPhase(w, specs, n, loan, loanId, idOf, first);
      if IsAuto(specs[n - 1]) {
        assert r.tasks[1..] == p.tasks;
        assert r.tasks[|r.tasks| - |w.tasks|..] == p.tasks[|p.tasks| - |w.tasks|..];
      }
    }
  }

  /** No stored task id contains a dash: true of every id `addTask` draws. */
  predicate NoDashIds(ts: seq<Task>)
  {
    forall k :: 0 <= k < |ts| ==> forall j :: 0 <= j < |ts[k].id| ==> ts[k].id[j] != '-'
  }

  /** `completeTask` on a synthetic id finds no task whose id has no dash. */
  lemma SyntheticIdAbsent(ts: seq<Task>, millis: nat, i: nat, result: string, autoAction: Option<bool>, at: string)
    requires NoDashIds(ts)
    ensures CompleteTaskIn(ts, SyntheticTaskId(millis, i), result, autoAction, at) == ts
  {
    var id := SyntheticTaskId(millis, i);
    assert id[4] == '-';
    CompleteAbsentId(ts, id, result, autoAction, at);
  }

  /**
   * As written, the second timers never complete anything: when no stored id has a dash, the
   * tasks leave them exactly as they came in.
   */
  lemma {:induction false} CompletionKeepsTasks(w: World, specs: seq<TaskSpec>, n: nat, loan: Loan, loanId: string,
                                                idOf: nat -> RandomId, first: nat -> Clock, second: nat -> Clock)
    requires n <= |specs| && NoDashIds(w.tasks)
    ensures CompletionPhase(w, specs, n, loan, loanId, idOf, first, second).tasks == w.tasks
    decreases n
  {
    if n > 0 {
      CompletionKeepsTasks(w, specs, n - 1, loan, loanId, idOf, first, second);
      var p := CompletionPhase(w, specs, n - 1, loan, loanId, idOf, first, second);
      SyntheticIdAbsent(p.tasks, first(n - 1).millis, n - 1, CompletionResult(specs[n - 1]), Some(true),
                        second(n - 1).iso);
    }
  }

  /**
   * The second timers record, in front, one `auto_action` decision by the agent per
   * auto-executing definition with a condition, and leave the goals alone.
   */
  lemma {:induction false} CompletionDecisions(w: World, specs: seq<TaskSpec>, n: nat, loan: Loan, loanId: string,
                                               idOf: nat -> RandomId, first: nat -> Clock, second: nat -> Clock)
    requires n <= |specs|
    ensures var r := CompletionPhase(w, specs, n, loan, loanId, idOf, first, second);
      && |r.decisions| == |w.decisions| + Count(specs[..n], DecidingTest)
      && r.decisions[|r.decisions| - |w.decisions|..] == w.decisions
      && r.goals == w.goals && |r.tasks| == |w.tasks| && |r.loans| == |w.loans|
      && forall k :: 0 <= k < |r.decisions| - |w.decisions| ==>
           r.decisions[k].decisionType == AutoAction && r.decisions[k].madeBy == AIAgent
           && r.decisions[k].previousStatus == loan.status
    decreases n
  {
    if n > 0 {
      CompletionDecisions(w, specs, n - 1, loan, loanId, idOf, first, second);
      CountPrefixStep(specs, n, DecidingTest);
      var p := CompletionPhase(w, specs, n - 1, loan, loanId, idOf, first, second);
      var r := CompletionPhase(w, specs, n, loan, loanId, idOf, first, second);
      if IsAuto(specs[n - 1]) && HasCondition(specs[n - 1]) {
        assert r.decisions[1..] == p.decisions;
        assert r.decisions[|r.decisions| - |w.decisions|..] == p.decisions[|p.decisions| - |w.decisions|..];
      }
    }
  }

  /** One second timer, seen from one loan. */
  lemma CompletionStepLoan(w: World, s: TaskSpec, index: nat, loan: Loan, loanId: string, idOf: nat -> RandomId,
                           stamp: nat, c: Clock, i: nat)
    requires i < |w.loans|
    ensures var r := CompletionStep(w, s, index, loan, loanId, idOf, stamp, c);
      && |r.loans| == |w.loans| && r.loans[i].id == w.loans[i].id
      && (w.loans[i].id != loanId ==> r.loans[i] == w.loans[i])
      && (w.loans[i].id == loanId ==>
            r.loans[i].status == if TriggeringTest(s) then Conditions else w.loans[i].status)
  {
  }

  /**
   * After the second timers the loan is at `conditions` exactly when some auto-executing
   * definition's condition asked for it (or it was there already); other loans are untouched.
   */
  lemma {:induction false} CompletionLoanStatus(w: World, specs: seq<TaskSpec>, n: nat, loan: Loan, loanId: string,
                                                idOf: nat -> RandomId, first: nat -> Clock, second: nat -> Clock, i: nat)
    requires n <= |specs| && i < |w.loans|
    ensures var r := CompletionPhase(w, specs, n, loan, loanId, idOf, first, second);
      && |r.loans| == |w.loans| && r.loans[i].id == w.loans[i].id
      && (w.loans[i].id != loanId ==> r.loans[i] == w.loans[i])
      && (w.loans[i].id == loanId ==>
            r.loans[i].status == if Count(specs[..n], TriggeringTest) > 0 then Conditions else w.loans[i].status)
    decreases n
  {
    if n > 0 {
      CompletionLoanStatus(w, specs, n - 1, loan, loanId, idOf, first, second, i);
      var p := CompletionPhase(w, specs, n - 1, loan, loanId, idOf, first, second);
      CompletionStepLoan(p, specs[n - 1], n - 1, loan, loanId, idOf, first(n - 1).millis, second(n - 1), i);
      CountPrefixStep(specs, n, TriggeringTest);
    }
  }

  lemma NoDashCons(t: Task, ts: seq<Task>)
    requires forall j :: 0 <= j < |t.id| ==> t.id[j] != '-'
    requires NoDashIds(ts)
    ensures NoDashIds([t] + ts)
  {
    forall k | 0 <= k < |[t] + ts|
      ensures forall j :: 0 <= j < |([t] + ts)[k].id| ==> ([t] + ts)[k].id[j] != '-'
    {
      if k > 0 {
        assert ([t] + ts)[k] == ts[k - 1];
      }
    }
  }

  lemma NoDashConcat(a: seq<Task>, b: seq<Task>)
    requires NoDashIds(a) && NoDashIds(b)
    ensures NoDashIds(a + b)
  {
    forall k | 0 <= k < |a + b|
      ensures forall j :: 0 <= j < |(a + b)[k].id| ==> (a + b)[k].id[j] != '-'
    {
      if k >= |a| {
        assert (a + b)[k] == b[k - |a|];
      }
    }
  }

  lemma {:induction false} GoalTasksNoDash(specs: seq<TaskSpec>, n: nat, who: LoanRef, idOf: nat -> RandomId,
                                           first: nat, iso: string)
    requires n <= |specs|
    ensures NoDashIds(GoalTasksFront(specs, n, who, idOf, first, iso))
  {
    if n > 0 {
      GoalTasksNoDash(specs, n - 1, who, idOf, first, iso);
      var id: RandomId := idOf(first + n - 1);
      NoDashCons(NewTask(GoalTaskInput(specs[n - 1], who), id, iso), GoalTasksFront(specs, n - 1, who, idOf, first, iso));
    }
  }

  /** The goal write only adds tasks with drawn ids. */
  lemma WriteGoalNoDash(l: Ledger, idOf: nat -> RandomId, who: LoanRef, name: string, description: string,
                        specs: seq<TaskSpec>, at: Clock)
    requires NoDashIds(l.tasks)
    ensures NoDashIds(WriteGoalEffect(l, idOf, who, name, description, specs, at).tasks)
  {
    GoalTasksNoDash(specs, |specs|, who, idOf, l.drawn + 1, at.iso);
    NoDashConcat(GoalTasksFront(specs, |specs|, who, idOf, l.drawn + 1, at.iso), l.tasks);
  }

  /** The first timers only add tasks with drawn ids. */
  lemma {:induction false} AutoPhaseNoDash(w: World, specs: seq<TaskSpec>, n: nat, loan: Loan, loanId: string,
                                           idOf: nat -> RandomId, first: nat -> Clock)
    requires n <= |specs| && NoDashIds(w.tasks)
    ensures NoDashIds(AutoPhase(w, specs, n, loan, loanId, idOf, first).tasks)
    decreases n
  {
    if n > 0 {
      AutoPhaseNoDash(w, specs, n - 1, loan, loanId, idOf, first);
      var p := AutoPhase(w, specs, n - 1, loan, loanId, idOf, first);
      if IsAuto(specs[n - 1]) {
        var id: RandomId := idOf(p.drawn);
        NoDashCons(NewTask(AutoTaskInput(loan, loanId, specs[n - 1]), id, first(n - 1).iso), p.tasks);
      }
    }
  }

  /**
   * As written, the agent tasks of a submission stay `in_progress`: the submission adds
   * one task per definition plus one agent task per auto-executing definition, and the
   * agent tasks, in front, are never completed when no stored id has a dash.
   */
  lemma SubmitLeavesAgentTasksRunning(w: World, loanId: string, loanNumber: string, name: string,
                                      description: string, specs: seq<TaskSpec>, idOf: nat -> RandomId, at: Clock,
                                      first: nat -> Clock, second: nat -> Clock)
    requires FindLoan(w.loans, loanId).Some? && NoDashIds(w.tasks)
    ensures var r := SubmitEffect(w, loanId, loanNumber, name, description, specs, idOf, at, first, second);
      && |r.tasks| == |w.tasks| + |specs| + Count(specs, AutoTest)
      && forall k :: 0 <= k < Count(specs, AutoTest) ==> IsAgentTask(r.tasks[k], loanId)
  {
    var loan := FindLoan(w.loans, loanId).value;
    var l := WriteGoalEffect(LedgerOf(w), idOf, LoanRef(loanId, loanNumber, ""), name, description, specs, at);
    var g := WithLedger(w, l);
    WriteGoalShape(LedgerOf(w), idOf, LoanRef(loanId, loanNumber, ""), name, description, specs, at);
    WriteGoalNoDash(LedgerOf(w), idOf, LoanRef(loanId, loanNumber, ""), name, description, specs, at);
    var a := AutoPhase(g, specs, |specs|, loan, loanId, idOf, first);
    AutoPhaseShape(g, specs, |specs|, loan, loanId, idOf, first);
    AutoPhaseNoDash(g, specs, |specs|, loan, loanId, idOf, first);
    CompletionKeepsTasks(a, specs, |specs|, loan, loanId, idOf, first, second);
    assert specs[..|specs|] == specs;
  }

  /**
   * An absent loan changes nothing. Otherwise the submission adds one active goal for the
   * loan holding the definitions, and one agent decision per auto-executing definition with a
   * condition.
   */
  lemma SubmitRecordsGoalAndDecisions(w: World, loanId: string, loanNumber: string, name: string,
                                      description: string, specs: seq<TaskSpec>, idOf: nat -> RandomId, at: Clock,
                                      first: nat -> Clock, second: nat -> Clock)
    ensures var r := SubmitEffect(w, loanId, loanNumber, name, description, specs, idOf, at, first, second);
      && (FindLoan(w.loans, loanId).None? ==> r == w)
      && (FindLoan(w.loans, loanId).Some? ==>
            && |r.goals| == |w.goals| + 1 && r.goals[1..] == w.goals
            && r.goals[0].loanId == loanId && r.goals[0].status == ActiveGoal && SpecsOf(r.goals[0].tasks) == specs
            && |r.decisions| == |w.decisions| + Count(specs, DecidingTest)
            && r.decisions[Count(specs, DecidingTest)..] == w.decisions)
  {
    if FindLoan(w.loans, loanId).Some? {
      var loan := FindLoan(w.loans, loanId).value;
      var l := WriteGoalEffect(LedgerOf(w), idOf, LoanRef(loanId, loanNumber, ""), name, description, specs, at);
      var g := WithLedger(w, l);
      WriteGoalShape(LedgerOf(w), idOf, LoanRef(loanId, loanNumber, ""), name, description, specs, at);
      var a := AutoPhase(g, specs, |specs|, loan, loanId, idOf, first);
      AutoPhaseShape(g, specs, |specs|, loan, loanId, idOf, first);
      CompletionDecisions(a, specs, |specs|, loan, loanId, idOf, first, second);
      assert specs[..|specs|] == specs;
    }
  }

  /**
   * The submitted loan ends at `conditions` exactly when some auto-executing definition's
   * condition mentions `condition`, or it was there already; other loans keep their record.
   */
  lemma SubmitLoanStatus(w: World, loanId: string, loanNumber: string, name: string, description: string,
                         specs: seq<TaskSpec>, idOf: nat -> RandomId, at: Clock, first: nat -> Clock,
                         second: nat -> Clock, i: nat)
    requires FindLoan(w.loans, loanId).Some? && i < |w.loans|
    ensures var r := SubmitEffect(w, loanId, loanNumber, name, description, specs, idOf, at, first, second);
      && |r.loans| == |w.loans|
      && (w.loans[i].id != loanId ==> r.loans[i] == w.loans[i])
      && (w.loans[i].id == loanId ==>
            r.loans[i].status == if Count(specs, TriggeringTest) > 0 then Conditions else w.loans[i].status)
  {
    var loan := FindLoan(w.loans, loanId).value;
    var l := WriteGoalEffect(LedgerOf(w), idOf, LoanRef(loanId, loanNumber, ""), name, description, specs, at);
    var g := WithLedger(w, l);
    var a := AutoPhase(g, specs, |specs|, loan, loanId, idOf, first);
    AutoPhaseShape(g, specs, |specs|, loan, loanId, idOf, first);
    CompletionLoanStatus(a, specs, |specs|, loan, loanId, idOf, first, second, i);
    assert specs[..|specs|] == specs;
  }

  lemma ApplyTemplatesPrefix(l: Ledger, templates: seq<GoalTemplate>, idOf: nat -> RandomId, who: LoanRef,
                             ids: seq<string>, i: nat, at: Clock)
    requires i < |ids|
    ensures ApplyTemplates(l, templates, idOf, who, ids[..i + 1], at)
            == ApplyTemplateEffect(ApplyTemplates(l, templates, idOf, who, ids[..i], at), templates, idOf, who, ids[i], at)
  {
    assert ids[..i + 1][..i] == ids[..i];
  }

  // ---------------------------------------------------------------- the shell

  class Dashboard {
    const loanStore: LoanStore
    const taskStore: TaskStore
    const rng: Entropy

    constructor (loanStore: LoanStore, taskStore: TaskStore, rng: Entropy)
      ensures this.loanStore == loanStore && this.taskStore == taskStore && this.rng == rng
    {
      this.loanStore := loanStore;
      this.taskStore := taskStore;
      this.rng := rng;
    }

    function State(): World
      reads this, loanStore, taskStore, rng
    {
      World(loanStore.loans, taskStore.tasks, taskStore.goals, taskStore.decisions, rng.drawn)
    }

    /** `selectedAIGoalIds` absent is the empty list. */
    method HandleCreateLoan(input: LoanInput, ids: seq<string>, at: Clock)
      modifies loanStore, taskStore, rng
      ensures State() == CreateLoanEffect(old(State()), input, ids, taskStore.templates, rng.idOf,
                                          rng.thousandthOf, at)
    {
      ghost var w := State();
      var loan := loanStore.AddLoan(input, rng, at);
      ghost var start := Ledger(taskStore.tasks, taskStore.goals, rng.drawn);
      assert start == Ledger(w.tasks, w.goals, w.drawn + 2);
      ApplyEach(LoanRef(loan.id, loan.loanNumber, loan.borrowerName), ids, at);
      ghost var l := Ledger(taskStore.tasks, taskStore.goals, rng.drawn);
      assert l == ApplyTemplates(start, taskStore.templates, rng.idOf,
                                 LoanRef(loan.id, loan.loanNumber, loan.borrowerName), ids, at);
      assert State() == WithNewLoan(w, loan, l);
      assert CreateLoanEffect(w, input, ids, taskStore.templates, rng.idOf, rng.thousandthOf, at)
             == WithNewLoan(w, loan, l);
    }

    /** `applyAIGoalTemplate` for each id, in list order. */
    method ApplyEach(who: LoanRef, ids: seq<string>, at: Clock)
      modifies taskStore, rng
      ensures Ledger(taskStore.tasks, taskStore.goals, rng.drawn)
              == ApplyTemplates(Ledger(old(taskStore.tasks), old(taskStore.goals), old(rng.drawn)),
                                taskStore.templates, rng.idOf, who, ids, at)
      ensures taskStore.decisions == old(taskStore.decisions)
    {
      ghost var start := Ledger(taskStore.tasks, taskStore.goals, rng.drawn);
      for i := 0 to |ids|
        invariant taskStore.decisions == old(taskStore.decisions)
        invariant Ledger(taskStore.tasks, taskStore.goals, rng.drawn)
                  == ApplyTemplates(start, taskStore.templates, rng.idOf, who, ids[..i], at)
      {
        ApplyTemplatesPrefix(start, taskStore.templates, rng.idOf, who, ids, i, at);
        var _ := taskStore.ApplyAIGoalTemplate(who, ids[i], rng, at);
      }
      assert ids[..|ids|] == ids;
    }

    method HandleUpdateLoanStatus(loanId: string, status: LoanStatus, at: Clock)
      modifies loanStore, taskStore, rng
      ensures State() == StatusChangeEffect(old(State()), loanId, status, rng.idOf, at)
    {
      var found := loanStore.GetLoanById(loanId);
      if found.Some? {
        ChangeStatus(found.value, loanId, status, at);
      }
    }

    method ChangeStatus(loan: Loan, loanId: string, status: LoanStatus, at: Clock)
      modifies loanStore, taskStore, rng
      ensures State() == RecordStatusChange(old(State()), loan, loanId, status, rng.idOf, at)
    {
      loanStore.UpdateLoanStatus(loanId, status, None, at);
      var _ := taskStore.AddDecision(StatusDecision(loan, loanId, status), rng, at);
    }

    /** The four bulk actions; an unknown action does nothing, and none records a decision. */
    method HandleBulkAction(action: string, loanIds: seq<string>, at: Clock)
      modifies loanStore
      ensures action == "approve" ==> loanStore.loans == BulkUpdateStatusIn(old(loanStore.loans), loanIds, Approved, at.iso)
      ensures action == "deny" ==> loanStore.loans == BulkUpdateStatusIn(old(loanStore.loans), loanIds, Denied, at.iso)
      ensures action == "delete" ==> loanStore.loans == DeleteLoansIn(old(loanStore.loans), loanIds)
      ensures action == "assign" ==> loanStore.loans == BulkAssignIn(old(loanStore.loans), loanIds, BulkAssignee, at.iso)
      ensures action !in ["approve", "deny", "delete", "assign"] ==> loanStore.loans == old(loanStore.loans)
    {
      if action == "approve" {
        loanStore.BulkUpdateStatus(loanIds, Approved, at);
      } else if action == "deny" {
        loanStore.BulkUpdateStatus(loanIds, Denied, at);
      } else if action == "delete" {
        loanStore.BulkDelete(loanIds);
      } else if action == "assign" {
        loanStore.BulkAssign(loanIds, BulkAssignee, at);
      }
    }

    /**
     * `handleSubmitAIGoal` with its timers run to completion: `first(i)` and `second(i)` are the
     * clock readings of definition `i`'s two callbacks.
     */
    method HandleSubmitAIGoal(loanId: string, loanNumber: string, name: string, description: string,
                              specs: seq<TaskSpec>, at: Clock, first: nat -> Clock, second: nat -> Clock)
      modifies loanStore, taskStore, rng
      ensures State() == SubmitEffect(old(State()), loanId, loanNumber, name, description, specs, rng.idOf, at,
                                      first, second)
    {
      var found := loanStore.GetLoanById(loanId);
      if found.None? {
        return;
      }
      var loan := found.value;
      var _ := taskStore.CreateAIGoal(loanId, loanNumber, name, description, specs, rng, at);
      RunFirstTimers(loan, loanId, specs, first);
      RunSecondTimers(loan, loanId, specs, first, second);
    }

    method RunFirstTimers(loan: Loan, loanId: string, specs: seq<TaskSpec>, first: nat -> Clock)
      modifies taskStore, rng
      ensures State() == AutoPhase(old(State()), specs, |specs|, loan, loanId, rng.idOf, first)
    {
      for i := 0 to |specs|
        invariant State() == AutoPhase(old(State()), specs, i, loan, loanId, rng.idOf, first)
      {
        FirstTimer(loan, loanId, specs[i], first(i));
      }
    }

    /** The 500 ms callback of one definition. */
    method FirstTimer(loan: Loan, loanId: string, s: TaskSpec, c: Clock)
      modifies taskStore, rng
      ensures State() == AutoStep(old(State()), s, loan, loanId, rng.idOf, c)
    {
      if s.autoExecute {
        var _ := taskStore.AddTask(AutoTaskInput(loan, loanId, s), rng, c);
      }
    }

    method RunSecondTimers(loan: Loan, loanId: string, specs: seq<TaskSpec>, first: nat -> Clock, second: nat -> Clock)
      modifies loanStore, taskStore, rng
      ensures State() == CompletionPhase(old(State()), specs, |specs|, loan, loanId, rng.idOf, first, second)
    {
      for i := 0 to |specs|
        invariant State() == CompletionPhase(old(State()), specs, i, loan, loanId, rng.idOf, first, second)
      {
        SecondTimer(loan, loanId, specs[i], i, first(i).millis, second(i));
      }
    }

    /** The `2000 + index * 1000` ms callback of definition `index`. */
    method SecondTimer(loan: Loan, loanId: string, s: TaskSpec, index: nat, stamp: nat, c: Clock)
      modifies loanStore, taskStore, rng
      ensures State() == CompletionStep(old(State()), s, index, loan, loanId, rng.idOf, stamp, c)
    {
      if s.autoExecute {
        taskStore.CompleteTask(SyntheticTaskId(stamp, index), CompletionResult(s), Some(true), c);
        if HasCondition(s) {
          var _ := taskStore.AddDecision(ConditionDecision(loan, loanId, s), rng, c);
          if Contains(s.condition.value, ConditionWord) {
            loanStore.UpdateLoanStatus(loanId, Conditions, None, c);
          }
        }
      }
    }

    method HandleApproveTask(taskId: string, at: Clock)
      modifies taskStore
      ensures taskStore.tasks == ApproveTaskIn(old(taskStore.tasks), taskId, Officer, at.iso)
      ensures taskStore.goals == old(taskStore.goals) && taskStore.decisions == old(taskStore.decisions)
    {
      taskStore.ApproveTask(taskId, Officer, at);
    }

    method HandleRejectTask(taskId: string)
      modifies taskStore
      ensures taskStore.tasks == RejectTaskIn(old(taskStore.tasks), taskId, Some(RejectReason))
      ensures taskStore.goals == old(taskStore.goals) && taskStore.decisions == old(taskStore.decisions)
    {
      taskStore.RejectTask(taskId, Some(RejectReason));
    }

    method HandleUpdateTaskStatus(taskId: string, status: TaskStatus, at: Clock)
      modifies taskStore
      ensures taskStore.tasks == UpdateTaskStatusIn(old(taskStore.tasks), taskId, status, at.iso)
      ensures taskStore.goals == old(taskStore.goals) && taskStore.decisions == old(taskStore.decisions)
    {
      taskStore.UpdateTaskStatus(taskId, status, at);
    }
  }
}
