/**
 * The task/goal store (src/hooks/useTasks.ts): three collections (tasks, applied AI goals,
 * decisions), each replaced by a map, filter or prepend of its old value on every operation.
 * The pure functions below say what each operation leaves in a collection; the class
 * `TaskStore` holds the collections and its methods perform the operations.
 */
module TaskStore {
  import opened Wrappers
  import opened Text
  import opened Seqs
  import opened Types
  import opened Env
  import opened Catalog

  // ---------------------------------------------------------------- records in and out

  /** What `addTask` receives: a task without `id` and `createdAt`. */
  datatype TaskInput = TaskInput(
    loanId: string,
    loanNumber: string,
    borrowerName: string,
    taskType: TaskType,
    title: string,
    description: string,
    status: TaskStatus,
    completedAt: Option<string>,
    assignedTo: Option<string>,
    result: Option<string>,
    requiresApproval: bool,
    approved: Option<bool>,
    approvedBy: Option<string>,
    approvedAt: Option<string>,
    autoAction: Option<bool>,
    conditionText: Option<string>)

  function InputOf(t: Task): TaskInput
  {
    TaskInput(t.loanId, t.loanNumber, t.borrowerName, t.taskType, t.title, t.description, t.status,
              t.completedAt, t.assignedTo, t.result, t.requiresApproval, t.approved, t.approvedBy,
              t.approvedAt, t.autoAction, t.conditionText)
  }

  /** The record `addTask` stores: the input, a random id and the creation time, nothing else. */
  function NewTask(input: TaskInput, id: string, createdAt: string): (t: Task)
    ensures t.id == id && t.createdAt == createdAt
    ensures InputOf(t) == input
  {
    Task(id, input.loanId, input.loanNumber, input.borrowerName, input.taskType, input.title,
         input.description, input.status, createdAt, input.completedAt, input.assignedTo, input.result,
         input.requiresApproval, input.approved, input.approvedBy, input.approvedAt, input.autoAction,
         input.conditionText)
  }

  /**
   * `Partial<Task>`: `None` for a key the update does not name. An optional field is
   * `Option<Option<_>>`, so that naming the key with `undefined` (`Some(None)`) clears it.
   */
  datatype TaskUpdate = TaskUpdate(
    id: Option<string>,
    loanId: Option<string>,
    loanNumber: Option<string>,
    borrowerName: Option<string>,
    taskType: Option<TaskType>,
    title: Option<string>,
    description: Option<string>,
    status: Option<TaskStatus>,
    createdAt: Option<string>,
    completedAt: Option<Option<string>>,
    assignedTo: Option<Option<string>>,
    result: Option<Option<string>>,
    requiresApproval: Option<bool>,
    approved: Option<Option<bool>>,
    approvedBy: Option<Option<string>>,
    approvedAt: Option<Option<string>>,
    autoAction: Option<Option<bool>>,
    conditionText: Option<Option<string>>)

  const NoTaskUpdate := TaskUpdate(None, None, None, None, None, None, None, None, None,
                                   None, None, None, None, None, None, None, None, None)

  /** `{ ...task, ...updates }`. */
  function MergeTask(t: Task, u: TaskUpdate): (r: Task)
    ensures u == NoTaskUpdate ==> r == t
  {
    Task(u.id.GetOr(t.id), u.loanId.GetOr(t.loanId), u.loanNumber.GetOr(t.loanNumber),
         u.borrowerName.GetOr(t.borrowerName), u.taskType.GetOr(t.taskType), u.title.GetOr(t.title),
         u.description.GetOr(t.description), u.status.GetOr(t.status), u.createdAt.GetOr(t.createdAt),
         u.completedAt.GetOr(t.completedAt), u.assignedTo.GetOr(t.assignedTo), u.result.GetOr(t.result),
         u.requiresApproval.GetOr(t.requiresApproval), u.approved.GetOr(t.approved),
         u.approvedBy.GetOr(t.approvedBy), u.approvedAt.GetOr(t.approvedAt),
         u.autoAction.GetOr(t.autoAction), u.conditionText.GetOr(t.conditionText))
  }

  /** Applying the same update twice is applying it once. */
  lemma MergeTaskIdempotent(t: Task, u: TaskUpdate)
    ensures MergeTask(MergeTask(t, u), u) == MergeTask(t, u)
  {
  }

  // ---------------------------------------------------------------- single-task rewrites

  /** `updateTaskStatus` on one task: any status is accepted; only `completed` stamps `completedAt`. */
  function WithStatus(t: Task, status: TaskStatus, at: string): (r: Task)
    ensures r.status == status
    ensures r.completedAt == if status == Completed then Some(at) else t.completedAt
    ensures r.(status := t.status, completedAt := t.completedAt) == t
  {
    t.(status := status, completedAt := if status == Completed then Some(at) else t.completedAt)
  }

  /** `completeTask` on one task; `autoAction` is overwritten even when not given. */
  function Completion(t: Task, result: string, autoAction: Option<bool>, at: string): (r: Task)
    ensures r.status == Completed && r.completedAt == Some(at) && r.result == Some(result)
    ensures r.autoAction == autoAction
    ensures r.(status := t.status, completedAt := t.completedAt, result := t.result, autoAction := t.autoAction) == t
  {
    t.(status := Completed, completedAt := Some(at), result := Some(result), autoAction := autoAction)
  }

  /** `bulkCompleteTasks` on one task: like `completeTask` but `autoAction` is kept. */
  function BulkCompletion(t: Task, result: string, at: string): (r: Task)
    ensures r.status == Completed && r.completedAt == Some(at) && r.result == Some(result)
    ensures r.(status := t.status, completedAt := t.completedAt, result := t.result) == t
  {
    t.(status := Completed, completedAt := Some(at), result := Some(result))
  }

  /** Approval sets the three approval fields and leaves the status alone. */
  function Approval(t: Task, approvedBy: string, at: string): (r: Task)
    ensures IsApproved(r) && r.approvedBy == Some(approvedBy) && r.approvedAt == Some(at)
    ensures r.status == t.status
    ensures r.(approved := t.approved, approvedBy := t.approvedBy, approvedAt := t.approvedAt) == t
  {
    t.(approved := Some(true), approvedBy := Some(approvedBy), approvedAt := Some(at))
  }

  /** `reason || 'Task rejected'`: an absent or empty reason falls back to the default text. */
  function RejectionText(reason: Option<string>): (r: string)
    ensures r != ""
    ensures reason.Some? && reason.value != "" ==> r == reason.value
    ensures reason.None? || reason.value == "" ==> r == "Task rejected"
  {
    if reason.Some? && reason.value != "" then reason.value else "Task rejected"
  }

  /** Rejection always ends at `failed`, whatever the status was. */
  function Rejection(t: Task, reason: Option<string>): (r: Task)
    ensures r.status == Failed && r.result == Some(RejectionText(reason))
    ensures r.(status := t.status, result := t.result) == t
  {
    t.(status := Failed, result := Some(RejectionText(reason)))
  }

  // ---------------------------------------------------------------- selectors

  function TaskIdIs(id: string): Task -> bool { (t: Task) => t.id == id }
  function TaskIdIn(ids: seq<string>): Task -> bool { (t: Task) => t.id in ids }
  function TaskIdIsNot(id: string): Task -> bool { (t: Task) => t.id != id }
  function TaskIdNotIn(ids: seq<string>): Task -> bool { (t: Task) => t.id !in ids }
  function TaskOfLoan(loanId: string): Task -> bool { (t: Task) => t.loanId == loanId }
  function GoalOfLoan(loanId: string): AIGoal -> bool { (g: AIGoal) => g.loanId == loanId }
  function DecisionOfLoan(loanId: string): Decision -> bool { (d: Decision) => d.loanId == loanId }

  /** `getTasksByLoan`'s filter. */
  function TasksOfLoan(ts: seq<Task>, loanId: string): (r: seq<Task>)
    ensures forall i :: 0 <= i < |r| ==> r[i] in ts && r[i].loanId == loanId
    ensures forall i :: 0 <= i < |ts| && ts[i].loanId == loanId ==> ts[i] in r
  {
    Filter(ts, TaskOfLoan(loanId))
  }

  /**
   * The tasks of a loan are exactly its tasks in collection order: each occurs as often as in
   * the collection, the selection distributes over concatenation and keeps a single task
   * exactly when it belongs to the loan.
   */
  lemma TasksOfLoanExactly(a: seq<Task>, b: seq<Task>, loanId: string, t: Task)
    ensures multiset(TasksOfLoan(a, loanId))[t] == if t.loanId == loanId then multiset(a)[t] else 0
    ensures TasksOfLoan(a + b, loanId) == TasksOfLoan(a, loanId) + TasksOfLoan(b, loanId)
    ensures TasksOfLoan([t], loanId) == if t.loanId == loanId then [t] else []
  {
    FilterMultiset(a, TaskOfLoan(loanId), t);
    FilterConcat(a, b, TaskOfLoan(loanId));
    FilterSingleton(t, TaskOfLoan(loanId));
  }

  /** `getDecisionsByLoan`'s filter. */
  function DecisionsOfLoan(ds: seq<Decision>, loanId: string): (r: seq<Decision>)
    ensures forall i :: 0 <= i < |r| ==> r[i] in ds && r[i].loanId == loanId
    ensures forall i :: 0 <= i < |ds| && ds[i].loanId == loanId ==> ds[i] in r
  {
    Filter(ds, DecisionOfLoan(loanId))
  }

  /** The decisions of a loan are exactly its decisions, in collection order. */
  lemma DecisionsOfLoanExactly(a: seq<Decision>, b: seq<Decision>, loanId: string, d: Decision)
    ensures multiset(DecisionsOfLoan(a, loanId))[d] == if d.loanId == loanId then multiset(a)[d] else 0
    ensures DecisionsOfLoan(a + b, loanId) == DecisionsOfLoan(a, loanId) + DecisionsOfLoan(b, loanId)
    ensures DecisionsOfLoan([d], loanId) == if d.loanId == loanId then [d] else []
  {
    FilterMultiset(a, DecisionOfLoan(loanId), d);
    FilterConcat(a, b, DecisionOfLoan(loanId));
    FilterSingleton(d, DecisionOfLoan(loanId));
  }

  /** `getGoalsByLoan`'s filter. */
  function GoalsOfLoan(gs: seq<AIGoal>, loanId: string): (r: seq<AIGoal>)
    ensures forall i :: 0 <= i < |r| ==> r[i] in gs && r[i].loanId == loanId
    ensures forall i :: 0 <= i < |gs| && gs[i].loanId == loanId ==> gs[i] in r
  {
    Filter(gs, GoalOfLoan(loanId))
  }

  /** The goals of a loan are exactly its goals, in collection order. */
  lemma GoalsOfLoanExactly(a: seq<AIGoal>, b: seq<AIGoal>, loanId: string, g: AIGoal)
    ensures multiset(GoalsOfLoan(a, loanId))[g] == if g.loanId == loanId then multiset(a)[g] else 0
    ensures GoalsOfLoan(a + b, loanId) == GoalsOfLoan(a, loanId) + GoalsOfLoan(b, loanId)
    ensures GoalsOfLoan([g], loanId) == if g.loanId == loanId then [g] else []
  {
    FilterMultiset(a, GoalOfLoan(loanId), g);
    FilterConcat(a, b, GoalOfLoan(loanId));
    FilterSingleton(g, GoalOfLoan(loanId));
  }

  // ---------------------------------------------------------------- collection rewrites

  /** `updateTask`: only the task with that id changes, by the merge. */
  function UpdateTaskIn(ts: seq<Task>, id: string, u: TaskUpdate): (r: seq<Task>)
    ensures |r| == |ts|
    ensures forall i :: 0 <= i < |ts| ==> r[i] == if ts[i].id == id then MergeTask(ts[i], u) else ts[i]
  {
    MapWhere(ts, TaskIdIs(id), t => MergeTask(t, u))
  }

  /** `updateTaskStatus`: no transition check; only the task with that id changes. */
  function UpdateTaskStatusIn(ts: seq<Task>, id: string, status: TaskStatus, at: string): (r: seq<Task>)
    ensures |r| == |ts|
    ensures forall i :: 0 <= i < |ts| && ts[i].id != id ==> r[i] == ts[i]
    ensures forall i :: 0 <= i < |ts| && ts[i].id == id ==> r[i] == WithStatus(ts[i], status, at)
  {
    MapWhere(ts, TaskIdIs(id), t => WithStatus(t, status, at))
  }

  function CompleteTaskIn(ts: seq<Task>, id: string, result: string, autoAction: Option<bool>, at: string): (r: seq<Task>)
    ensures |r| == |ts|
    ensures forall i :: 0 <= i < |ts| && ts[i].id != id ==> r[i] == ts[i]
    ensures forall i :: 0 <= i < |ts| && ts[i].id == id ==> r[i] == Completion(ts[i], result, autoAction, at)
  {
    MapWhere(ts, TaskIdIs(id), t => Completion(t, result, autoAction, at))
  }

  /** Completing an id no task carries changes nothing. */
  lemma CompleteAbsentId(ts: seq<Task>, id: string, result: string, autoAction: Option<bool>, at: string)
    requires forall i :: 0 <= i < |ts| ==> ts[i].id != id
    ensures CompleteTaskIn(ts, id, result, autoAction, at) == ts
  {
  }

  function ApproveTaskIn(ts: seq<Task>, id: string, approvedBy: string, at: string): (r: seq<Task>)
    ensures |r| == |ts|
    ensures forall i :: 0 <= i < |ts| ==> r[i].status == ts[i].status
    ensures forall i :: 0 <= i < |ts| && ts[i].id != id ==> r[i] == ts[i]
    ensures forall i :: 0 <= i < |ts| && ts[i].id == id ==> r[i] == Approval(ts[i], approvedBy, at)
  {
    MapWhere(ts, TaskIdIs(id), t => Approval(t, approvedBy, at))
  }

  function RejectTaskIn(ts: seq<Task>, id: string, reason: Option<string>): (r: seq<Task>)
    ensures |r| == |ts|
    ensures forall i :: 0 <= i < |ts| && ts[i].id != id ==> r[i] == ts[i]
    ensures forall i :: 0 <= i < |ts| && ts[i].id == id ==> r[i] == Rejection(ts[i], reason)
  {
    MapWhere(ts, TaskIdIs(id), t => Rejection(t, reason))
  }

  /** `bulkApproveTasks`: every task whose id is listed is approved, status untouched. */
  function ApproveTasksIn(ts: seq<Task>, ids: seq<string>, approvedBy: string, at: string): (r: seq<Task>)
    ensures |r| == |ts|
    ensures forall i :: 0 <= i < |ts| ==> r[i].status == ts[i].status
    ensures forall i :: 0 <= i < |ts| && ts[i].id !in ids ==> r[i] == ts[i]
    ensures forall i :: 0 <= i < |ts| && ts[i].id in ids ==> r[i] == Approval(ts[i], approvedBy, at)
  {
    MapWhere(ts, TaskIdIn(ids), t => Approval(t, approvedBy, at))
  }

  function CompleteTasksIn(ts: seq<Task>, ids: seq<string>, result: string, at: string): (r: seq<Task>)
    ensures |r| == |ts|
    ensures forall i :: 0 <= i < |ts| && ts[i].id !in ids ==> r[i] == ts[i]
    ensures forall i :: 0 <= i < |ts| && ts[i].id in ids ==> r[i] == BulkCompletion(ts[i], result, at)
  {
    MapWhere(ts, TaskIdIn(ids), t => BulkCompletion(t, result, at))
  }

  /** Approving one id is bulk-approving the one-element list. */
  lemma ApproveOneIsBulk(ts: seq<Task>, id: string, approvedBy: string, at: string)
    ensures ApproveTaskIn(ts, id, approvedBy, at) == ApproveTasksIn(ts, [id], approvedBy, at)
  {
  }

  /** `deleteTask`. */
  function DeleteTaskIn(ts: seq<Task>, id: string): (r: seq<Task>)
    ensures forall i :: 0 <= i < |r| ==> r[i] in ts && r[i].id != id
    ensures forall i :: 0 <= i < |ts| && ts[i].id != id ==> ts[i] in r
  {
    Filter(ts, TaskIdIsNot(id))
  }

  /** `bulkDeleteTasks`. */
  function DeleteTasksIn(ts: seq<Task>, ids: seq<string>): (r: seq<Task>)
    ensures forall i :: 0 <= i < |r| ==> r[i] in ts && r[i].id !in ids
    ensures forall i :: 0 <= i < |ts| && ts[i].id !in ids ==> ts[i] in r
  {
    Filter(ts, TaskIdNotIn(ids))
  }

  /**
   * Bulk deletion removes exactly the listed ids: a survivor occurs as often as before, a
   * deleted task not at all, the survivors keep their order, and unknown ids have no effect.
   */
  lemma DeleteTasksExactly(a: seq<Task>, b: seq<Task>, ids: seq<string>, t: Task)
    ensures multiset(DeleteTasksIn(a, ids))[t] == if t.id in ids then 0 else multiset(a)[t]
    ensures DeleteTasksIn(a + b, ids) == DeleteTasksIn(a, ids) + DeleteTasksIn(b, ids)
    ensures (forall i :: 0 <= i < |a| ==> a[i].id !in ids) ==> DeleteTasksIn(a, ids) == a
  {
    FilterMultiset(a, TaskIdNotIn(ids), t);
    FilterConcat(a, b, TaskIdNotIn(ids));
    if forall i :: 0 <= i < |a| ==> a[i].id !in ids {
      FilterKeepsAll(a, TaskIdNotIn(ids));
    }
  }

  /** Deleting one id is bulk-deleting the one-element list. */
  lemma DeleteOneIsBulk(ts: seq<Task>, id: string)
    ensures DeleteTaskIn(ts, id) == DeleteTasksIn(ts, [id])
  {
    FilterAgree(ts, TaskIdIsNot(id), TaskIdNotIn([id]));
  }

  // ---------------------------------------------------------------- statistics

  function StatusIs(s: TaskStatus): Task -> bool { (t: Task) => t.status == s }

  /** `requiresApproval && !approved`, whatever the status. */
  predicate AwaitsApproval(t: Task)
  {
    t.requiresApproval && !IsApproved(t)
  }

  const AwaitingTest: Task -> bool := (t: Task) => AwaitsApproval(t)

  function NotListedAwaiting(ids: seq<string>): Task -> bool { (t: Task) => t.id !in ids && AwaitsApproval(t) }

  function CountStatus(ts: seq<Task>, s: TaskStatus): nat
  {
    Count(ts, StatusIs(s))
  }

  function CountAwaitingApproval(ts: seq<Task>): nat
  {
    Count(ts, AwaitingTest)
  }

  /** The four status counters add up to the number of tasks. */
  lemma {:induction false} StatusCountsPartition(ts: seq<Task>)
    ensures CountStatus(ts, Pending) + CountStatus(ts, InProgress) + CountStatus(ts, Completed)
            + CountStatus(ts, Failed) == |ts|
  {
    if ts != [] {
      StatusCountsPartition(ts[..|ts| - 1]);
    }
  }

  /** Approving changes no status counter. */
  lemma ApprovalKeepsStatusCounts(ts: seq<Task>, ids: seq<string>, approver: string, at: string, s: TaskStatus)
    ensures CountStatus(ApproveTasksIn(ts, ids, approver, at), s) == CountStatus(ts, s)
  {
    CountPointwise(ApproveTasksIn(ts, ids, approver, at), ts, StatusIs(s), StatusIs(s));
  }

  /** After a bulk approval, the tasks still awaiting approval are those among the unlisted ones. */
  lemma ApprovalClearsAwaiting(ts: seq<Task>, ids: seq<string>, approver: string, at: string)
    ensures CountAwaitingApproval(ApproveTasksIn(ts, ids, approver, at))
            == CountAwaitingApproval(DeleteTasksIn(ts, ids))
  {
    CountPointwise(ApproveTasksIn(ts, ids, approver, at), ts, AwaitingTest, NotListedAwaiting(ids));
    CountFiltered(ts, TaskIdNotIn(ids), AwaitingTest, NotListedAwaiting(ids));
  }

  // ---------------------------------------------------------------- goals

  /** A task definition without its id: what `createAIGoal` receives per task. */
  datatype TaskSpec = TaskSpec(
    taskType: TaskType,
    title: string,
    description: string,
    autoExecute: bool,
    condition: Option<string>)

  function SpecOf(d: TaskDefinition): TaskSpec
  {
    TaskSpec(d.taskType, d.title, d.description, d.autoExecute, d.condition)
  }

  function SpecsOf(ds: seq<TaskDefinition>): (r: seq<TaskSpec>)
    ensures |r| == |ds|
  {
    seq(|ds|, i requires 0 <= i < |ds| => SpecOf(ds[i]))
  }

  /** `` `gt${Date.now()}${i}` ``. */
  function DefinitionId(millis: nat, i: nat): string
  {
    "gt" + NatToString(millis) + NatToString(i)
  }

  /** The goal's copy of the definitions: same content, fresh ids by position. */
  function Definitions(specs: seq<TaskSpec>, millis: nat): (r: seq<TaskDefinition>)
    ensures |r| == |specs| && SpecsOf(r) == specs
    ensures forall i :: 0 <= i < |r| ==> r[i].id == DefinitionId(millis, i)
  {
    seq(|specs|, i requires 0 <= i < |specs| =>
      TaskDefinition(DefinitionId(millis, i), specs[i].taskType, specs[i].title, specs[i].description,
                     specs[i].autoExecute, specs[i].condition))
  }

  function NewGoal(id: string, loanId: string, name: string, description: string,
                   specs: seq<TaskSpec>, at: Clock): (g: AIGoal)
    ensures g.id == id && g.loanId == loanId && g.name == name && g.description == description
    ensures g.status == ActiveGoal && |g.tasks| == |specs| && SpecsOf(g.tasks) == specs
  {
    AIGoal(id, loanId, name, description, Definitions(specs, at.millis), ActiveGoal, at.iso)
  }

  /** The loan a goal's tasks are filed under. */
  datatype LoanRef = LoanRef(loanId: string, loanNumber: string, borrowerName: string)

  /** The task `createAIGoal` / `applyAIGoalTemplate` asks `addTask` for, per definition. */
  function GoalTaskInput(s: TaskSpec, who: LoanRef): TaskInput
  {
    TaskInput(who.loanId, who.loanNumber, who.borrowerName, s.taskType, s.title, s.description,
              if s.autoExecute then InProgress else Pending, None,
              if s.autoExecute then Some(AIAgent) else None, None,
              !s.autoExecute, None, None, None, Some(s.autoExecute), None)
  }

  /**
   * The tasks `n` calls of `addTask`, one per definition, leave in front of the collection:
   * each call prepends, so the n-th definition's task comes first; ids are drawn from `first` on.
   */
  function GoalTasksFront(specs: seq<TaskSpec>, n: nat, who: LoanRef, idOf: nat -> RandomId,
                          first: nat, iso: string): (r: seq<Task>)
    requires n <= |specs|
    ensures |r| == n
  {
    if n == 0 then []
    else [NewTask(GoalTaskInput(specs[n - 1], who), idOf(first + n - 1), iso)]
         + GoalTasksFront(specs, n - 1, who, idOf, first, iso)
  }

  /** The two collections a goal write touches, and the number of random draws made so far. */
  datatype Ledger = Ledger(tasks: seq<Task>, goals: seq<AIGoal>, drawn: nat)

  /**
   * The dual write shared by `createAIGoal` and `applyAIGoalTemplate`: one goal drawn first,
   * then one `addTask` per definition; the repeated prepend leaves the tasks reversed.
   */
  function WriteGoalEffect(l: Ledger, idOf: nat -> RandomId, who: LoanRef, name: string, description: string,
                           specs: seq<TaskSpec>, at: Clock): Ledger
  {
    Ledger(GoalTasksFront(specs, |specs|, who, idOf, l.drawn + 1, at.iso) + l.tasks,
           [NewGoal(idOf(l.drawn), who.loanId, name, description, specs, at)] + l.goals,
           l.drawn + 1 + |specs|)
  }

  /**
   * The task created for a definition is in progress, assigned to the AI agent and free of
   * approval exactly when the definition auto-executes.
   */
  predicate CreatedFrom(t: Task, s: TaskSpec, who: LoanRef)
  {
    && t.taskType == s.taskType && t.title == s.title && t.description == s.description
    && t.loanId == who.loanId && t.loanNumber == who.loanNumber && t.borrowerName == who.borrowerName
    && t.status == (if s.autoExecute then InProgress else Pending)
    && t.assignedTo == (if s.autoExecute then Some(AIAgent) else None)
    && t.requiresApproval == !s.autoExecute
    && t.autoAction == Some(s.autoExecute)
    && t.completedAt.None? && t.result.None? && t.approved.None?
  }

  /**
   * N definitions give exactly one new active goal holding those N definitions, and N new
   * tasks in front of the old ones (which `GoalTaskAt` describes one by one).
   */
  lemma WriteGoalShape(l: Ledger, idOf: nat -> RandomId, who: LoanRef, name: string, description: string,
                       specs: seq<TaskSpec>, at: Clock)
    ensures var r := WriteGoalEffect(l, idOf, who, name, description, specs, at);
      && |r.goals| == |l.goals| + 1 && r.goals[1..] == l.goals
      && r.goals[0].status == ActiveGoal && r.goals[0].loanId == who.loanId && SpecsOf(r.goals[0].tasks) == specs
      && |r.tasks| == |l.tasks| + |specs| && r.tasks[|specs|..] == l.tasks
      && r.tasks[..|specs|] == GoalTasksFront(specs, |specs|, who, idOf, l.drawn + 1, at.iso)
      && r.drawn == l.drawn + 1 + |specs|
  {
    var r := WriteGoalEffect(l, idOf, who, name, description, specs, at);
    assert r.tasks[|specs|..] == l.tasks;
    assert r.tasks[..|specs|] == GoalTasksFront(specs, |specs|, who, idOf, l.drawn + 1, at.iso);
  }

  lemma GoalTaskShape(s: TaskSpec, who: LoanRef, id: string, iso: string)
    ensures CreatedFrom(NewTask(GoalTaskInput(s, who), id, iso), s, who)
  {
  }

  /** The task for definition i sits at index n-1-i, carries the i-th id drawn and mirrors the definition. */
  lemma {:induction false} GoalTaskAt(specs: seq<TaskSpec>, n: nat, who: LoanRef, idOf: nat -> RandomId,
                                      first: nat, iso: string, i: nat)
    requires i < n <= |specs|
    ensures var t := GoalTasksFront(specs, n, who, idOf, first, iso)[n - 1 - i];
      t.id == idOf(first + i) && CreatedFrom(t, specs[i], who)
  {
    if i < n - 1 {
      GoalTaskAt(specs, n - 1, who, idOf, first, iso, i);
    } else {
      GoalTaskShape(specs[i], who, idOf(first + i), iso);
    }
  }

  // ---------------------------------------------------------------- templates

  /** `applyAIGoalTemplate` as a value: an unknown id changes nothing, a known one writes its goal. */
  function ApplyTemplateEffect(l: Ledger, templates: seq<GoalTemplate>, idOf: nat -> RandomId,
                               who: LoanRef, templateId: string, at: Clock): Ledger
  {
    match FindTemplate(templates, templateId)
    case None => l
    case Some(t) => WriteGoalEffect(l, idOf, who, t.name, t.description, SpecsOf(t.tasks), at)
  }

  // ---------------------------------------------------------------- decisions

  /** What `addDecision` receives: a decision without `id` and `madeAt`. */
  datatype DecisionInput = DecisionInput(
    loanId: string,
    loanNumber: string,
    borrowerName: string,
    decisionType: DecisionType,
    madeBy: string,
    reason: string,
    details: Option<string>,
    conditions: Option<seq<string>>,
    autoExecuted: Option<bool>,
    previousStatus: LoanStatus,
    newStatus: LoanStatus)

  function DecisionInputOf(d: Decision): DecisionInput
  {
    DecisionInput(d.loanId, d.loanNumber, d.borrowerName, d.decisionType, d.madeBy, d.reason,
                  d.details, d.conditions, d.autoExecuted, d.previousStatus, d.newStatus)
  }

  function NewDecision(input: DecisionInput, id: string, madeAt: string): (d: Decision)
    ensures d.id == id && d.madeAt == madeAt && DecisionInputOf(d) == input
  {
    Decision(id, input.loanId, input.loanNumber, input.borrowerName, input.decisionType, input.madeBy,
             madeAt, input.reason, input.details, input.conditions, input.autoExecuted,
             input.previousStatus, input.newStatus)
  }

  // ---------------------------------------------------------------- the store

  class TaskStore {
    /** The store's template list, `aiGoalTemplates`. */
    const templates: seq<GoalTemplate>
    var tasks: seq<Task>
    var goals: seq<AIGoal>
    var decisions: seq<Decision>

    constructor (tasks: seq<Task>, goals: seq<AIGoal>, decisions: seq<Decision>)
      ensures this.tasks == tasks && this.goals == goals && this.decisions == decisions
      ensures templates == AIGoalTemplates
    {
      templates := AIGoalTemplates;
      this.tasks := tasks;
      this.goals := goals;
      this.decisions := decisions;
    }

    /** Prepends one task: the new record at index 0, the old collection unchanged behind it. */
    method AddTask(input: TaskInput, rng: Entropy, at: Clock) returns (t: Task)
      modifies this, rng
      ensures t == NewTask(input, rng.idOf(old(rng.drawn)), at.iso)
      ensures tasks == [t] + old(tasks)
      ensures goals == old(goals) && decisions == old(decisions)
      ensures rng.drawn == old(rng.drawn) + 1
    {
      var id := rng.NextId();
      t := NewTask(input, id, at.iso);
      tasks := [t] + tasks;
    }

    method UpdateTask(id: string, u: TaskUpdate)
      modifies this
      ensures tasks == UpdateTaskIn(old(tasks), id, u)
      ensures goals == old(goals) && decisions == old(decisions)
    {
      tasks := UpdateTaskIn(tasks, id, u);
    }

    method UpdateTaskStatus(id: string, status: TaskStatus, at: Clock)
      modifies this
      ensures tasks == UpdateTaskStatusIn(old(tasks), id, status, at.iso)
      ensures goals == old(goals) && decisions == old(decisions)
    {
      tasks := UpdateTaskStatusIn(tasks, id, status, at.iso);
    }

    method CompleteTask(id: string, result: string, autoAction: Option<bool>, at: Clock)
      modifies this
      ensures tasks == CompleteTaskIn(old(tasks), id, result, autoAction, at.iso)
      ensures goals == old(goals) && decisions == old(decisions)
    {
      tasks := CompleteTaskIn(tasks, id, result, autoAction, at.iso);
    }

    method ApproveTask(id: string, approvedBy: string, at: Clock)
      modifies this
      ensures tasks == ApproveTaskIn(old(tasks), id, approvedBy, at.iso)
      ensures goals == old(goals) && decisions == old(decisions)
    {
      tasks := ApproveTaskIn(tasks, id, approvedBy, at.iso);
    }

    method RejectTask(id: string, reason: Option<string>)
      modifies this
      ensures tasks == RejectTaskIn(old(tasks), id, reason)
      ensures goals == old(goals) && decisions == old(decisions)
    {
      tasks := RejectTaskIn(tasks, id, reason);
    }

    method DeleteTask(id: string)
      modifies this
      ensures tasks == DeleteTaskIn(old(tasks), id)
      ensures goals == old(goals) && decisions == old(decisions)
    {
      tasks := DeleteTaskIn(tasks, id);
    }

    /** The goal write; `createAIGoal` passes `''` as borrower name, templates pass the loan's. */
    method WriteGoal(who: LoanRef, name: string, description: string, specs: seq<TaskSpec>,
                     rng: Entropy, at: Clock) returns (goal: AIGoal)
      modifies this, rng
      ensures goal == NewGoal(rng.idOf(old(rng.drawn)), who.loanId, name, description, specs, at)
      ensures Ledger(tasks, goals, rng.drawn)
              == WriteGoalEffect(Ledger(old(tasks), old(goals), old(rng.drawn)), rng.idOf, who, name,
                                 description, specs, at)
      ensures decisions == old(decisions)
    {
      var id := rng.NextId();
      goal := NewGoal(id, who.loanId, name, description, specs, at);
      goals := [goal] + goals;
      AddGoalTasks(who, specs, rng, at);
    }

    /** One `addTask` per definition, in definition order. */
    method AddGoalTasks(who: LoanRef, specs: seq<TaskSpec>, rng: Entropy, at: Clock)
      modifies this, rng
      ensures tasks == GoalTasksFront(specs, |specs|, who, rng.idOf, old(rng.drawn), at.iso) + old(tasks)
      ensures rng.drawn == old(rng.drawn) + |specs|
      ensures goals == old(goals) && decisions == old(decisions)
    {
      ghost var first := rng.drawn;
      for i := 0 to |specs|
        invariant rng.drawn == first + i
        invariant goals == old(goals) && decisions == old(decisions)
        invariant tasks == GoalTasksFront(specs, i, who, rng.idOf, first, at.iso) + old(tasks)
      {
        var t := AddTask(GoalTaskInput(specs[i], who), rng, at);
        PrependAssoc(t, GoalTasksFront(specs, i, who, rng.idOf, first, at.iso), old(tasks));
      }
    }

    method CreateAIGoal(loanId: string, loanNumber: string, name: string, description: string,
                        specs: seq<TaskSpec>, rng: Entropy, at: Clock) returns (goal: AIGoal)
      modifies this, rng
      ensures goal == NewGoal(rng.idOf(old(rng.drawn)), loanId, name, description, specs, at)
      ensures Ledger(tasks, goals, rng.drawn)
              == WriteGoalEffect(Ledger(old(tasks), old(goals), old(rng.drawn)), rng.idOf,
                                 LoanRef(loanId, loanNumber, ""), name, description, specs, at)
      ensures decisions == old(decisions)
    {
      goal := WriteGoal(LoanRef(loanId, loanNumber, ""), name, description, specs, rng, at);
    }

    /** `null` (and no write, no draw) for an id the template list does not hold. */
    method ApplyAIGoalTemplate(who: LoanRef, templateId: string, rng: Entropy, at: Clock)
      returns (goal: Option<AIGoal>)
      modifies this, rng
      ensures goal.None? <==> FindTemplate(templates, templateId).None?
      ensures Ledger(tasks, goals, rng.drawn)
              == ApplyTemplateEffect(Ledger(old(tasks), old(goals), old(rng.drawn)), templates, rng.idOf,
                                     who, templateId, at)
      ensures decisions == old(decisions)
    {
      var template := FindTemplate(templates, templateId);
      if template.None? {
        return None;
      }
      var t := template.value;
      var g := WriteGoal(who, t.name, t.description, SpecsOf(t.tasks), rng, at);
      goal := Some(g);
    }

    /** Prepends one decision; decisions are never rewritten or removed. */
    method AddDecision(input: DecisionInput, rng: Entropy, at: Clock) returns (d: Decision)
      modifies this, rng
      ensures d == NewDecision(input, rng.idOf(old(rng.drawn)), at.iso)
      ensures decisions == [d] + old(decisions)
      ensures tasks == old(tasks) && goals == old(goals)
      ensures rng.drawn == old(rng.drawn) + 1
    {
      var id := rng.NextId();
      d := NewDecision(input, id, at.iso);
      decisions := [d] + decisions;
    }

    method BulkApproveTasks(ids: seq<string>, approvedBy: string, at: Clock)
      modifies this
      ensures tasks == ApproveTasksIn(old(tasks), ids, approvedBy, at.iso)
      ensures goals == old(goals) && decisions == old(decisions)
    {
      tasks := ApproveTasksIn(tasks, ids, approvedBy, at.iso);
    }

    method BulkCompleteTasks(ids: seq<string>, result: string, at: Clock)
      modifies this
      ensures tasks == CompleteTasksIn(old(tasks), ids, result, at.iso)
      ensures goals == old(goals) && decisions == old(decisions)
    {
      tasks := CompleteTasksIn(tasks, ids, result, at.iso);
    }

    method BulkDeleteTasks(ids: seq<string>)
      modifies this
      ensures tasks == DeleteTasksIn(old(tasks), ids)
      ensures goals == old(goals) && decisions == old(decisions)
    {
      tasks := DeleteTasksIn(tasks, ids);
    }

    /** The counting reduce over the tasks. */
    method Stats() returns (st: TaskStats)
      ensures st.total == |tasks|
      ensures st.pending == CountStatus(tasks, Pending) && st.inProgress == CountStatus(tasks, InProgress)
      ensures st.completed == CountStatus(tasks, Completed) && st.failed == CountStatus(tasks, Failed)
      ensures st.requiresApproval == CountAwaitingApproval(tasks)
      ensures st.total == st.pending + st.inProgress + st.completed + st.failed
    {
      var total, pending, inProgress, completed, failed, awaiting := 0, 0, 0, 0, 0, 0;
      for i := 0 to |tasks|
        invariant total == i
        invariant pending == CountStatus(tasks[..i], Pending)
        invariant inProgress == CountStatus(tasks[..i], InProgress)
        invariant completed == CountStatus(tasks[..i], Completed)
        invariant failed == CountStatus(tasks[..i], Failed)
        invariant awaiting == CountAwaitingApproval(tasks[..i])
      {
        var t := tasks[i];
        assert tasks[..i + 1][..i] == tasks[..i];
        total := total + 1;
        match t.status {
          case Pending => pending := pending + 1;
          case InProgress => inProgress := inProgress + 1;
          case Completed => completed := completed + 1;
          case Failed => failed := failed + 1;
        }
        if AwaitsApproval(t) {
          awaiting := awaiting + 1;
        }
      }
      assert tasks[..|tasks|] == tasks;
      StatusCountsPartition(tasks);
      st := TaskStats(total, pending, inProgress, completed, failed, awaiting);
    }

    /** `getTasksByLoan`: the tasks of that loan, in collection order. */
    function TasksByLoan(loanId: string): (r: seq<Task>)
      reads this
      ensures forall i :: 0 <= i < |r| ==> r[i] in tasks && r[i].loanId == loanId
      ensures forall i :: 0 <= i < |tasks| && tasks[i].loanId == loanId ==> tasks[i] in r
      ensures r == TasksOfLoan(tasks, loanId)
    {
      TasksOfLoan(tasks, loanId)
    }

    /** `getDecisionsByLoan`: the decisions of that loan, in collection order. */
    function DecisionsByLoan(loanId: string): (r: seq<Decision>)
      reads this
      ensures forall i :: 0 <= i < |r| ==> r[i] in decisions && r[i].loanId == loanId
      ensures forall i :: 0 <= i < |decisions| && decisions[i].loanId == loanId ==> decisions[i] in r
      ensures r == DecisionsOfLoan(decisions, loanId)
    {
      DecisionsOfLoan(decisions, loanId)
    }

    /** `getGoalsByLoan`: the goals of that loan, in collection order. */
    function GoalsByLoan(loanId: string): (r: seq<AIGoal>)
      reads this
      ensures forall i :: 0 <= i < |r| ==> r[i] in goals && r[i].loanId == loanId
      ensures forall i :: 0 <= i < |goals| && goals[i].loanId == loanId ==> goals[i] in r
      ensures r == GoalsOfLoan(goals, loanId)
    {
      GoalsOfLoan(goals, loanId)
    }
  }
}
