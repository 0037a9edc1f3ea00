# fintegral_demo: loan and task bookkeeping in Dafny

This project models the in-memory bookkeeping behind the fintegral loan dashboard, a React
application. It also proves properties of that model. The model has four layers.

- **Task store** (`src/hooks/useTasks.ts`, module `TaskStore`).
  - It holds three collections: tasks, applied AI goals and decisions. Class `TaskStore` keeps them as `seq` fields.
  - Every operation replaces a collection with a map, filter or prepend of the old one. Each one is stated as a function on sequences, and the method is proved equal to that function.
  - `createAIGoal` and `applyAIGoalTemplate` write one goal and then one task per definition, through a loop of `addTask` calls.
  - `stats` is a counting loop.
  - Module `Catalog` holds the built-in template list.
- **Loan store** (`src/hooks/useLoans.ts`, module `LoanStore`).
  - It covers loan CRUD and the bulk operations over id lists.
  - `stats` has one counter per status.
  - It also includes the loan-number builder, `generateLoanNumber`.
- **Application shell** (`src/App.tsx`, module `App`).
  - Class `Dashboard` holds both stores and the shared random source.
  - Each handler is a method proved equal to an effect function on a `World` value. `World` holds all four collections and the number of random draws made.
  - The two timer phases of `handleSubmitAIGoal` run as loops, in index order.
- **Component rules**:
  - the template matcher, the filename-based metadata extractor, the custom-task list edits and the payload assembly of `CreateLoanDialog.tsx` (module `CreateLoan`, class `LoanForm`);
  - the keyword task generator, the saved-template handlers and the counters of `AIGoalsView.tsx` (module `GoalsView`, class `TemplateScreen`);
  - the goal-progress join, the relative-time buckets and the approval tests of `LoanDetailDialog.tsx` (module `LoanDetail`).

Shared modules:

- **`Wrappers`**: `Option`.
- **`Text`**: the string built-ins the source uses:
  - `includes`, `toLowerCase`, `slice(-n)`, `padStart`, the first-occurrence `replace`;
  - decimal rendering of numbers, and the parser that reads it back.
- **`Seqs`**: `map` restricted to matching elements, `filter`, `find`, and counting.
- **`Types`**: the records and enumerations of `src/types/index.ts`.
- **`Env`**: the clock and `Math.random()`.
  - A clock reading is a value `Clock(millis, iso)`, passed in by the caller.
  - `Math.random()` is the class `Entropy`. It counts the draws, and the k-th draw is read either as a base-36 id or as a number below 1000.
  - Nothing makes two draws differ, so id uniqueness is never assumed.

Three quirks of the source are modelled as written and proved as consequences:

- The timer callbacks of `handleSubmitAIGoal` complete a synthesised id `task-<ms>-<i>`. No stored task has that id, so nothing is ever completed.
- Two goal definitions may match the same task in the progress view.
- The custom tasks edited in the creation dialog never reach the submitted payload.

## Model

| member | source | states |
|---|---|---|
| Types.EnumerationSizes | src/types/index.ts:1-4 | `LoanStatus` has exactly seven values, `TaskStatus` four and `DecisionType` four, each listed once |
| Types.LoanStatusNameInjective | src/types/index.ts:146-155 | distinct loan statuses have distinct literals, so the pipeline counters keyed by literal have one slot per status |
| Types.InvestmentIsOnlyAnOccupancy | src/types/index.ts:5-7 | `'investment'` is an occupancy literal and the literal of no property type |
| Text.ContainsSpec | src/components/AIGoalsView.tsx:293 | `includes` holds exactly when the needle occurs at some position of the text |
| Text.ToLower | src/components/CreateLoanDialog.tsx:170 | same length, each letter lowered position by position |
| Text.TakeLast | src/hooks/useLoans.ts:6 | `slice(-n)`: the last n characters, or the whole text when it is shorter |
| Text.PadStart | src/hooks/useLoans.ts:7 | length at least n, the text at the end, and the fill character before it |
| Text.ReplaceFirst | src/App.tsx:88 | same length; only the first occurrence of the character is replaced |
| Env.Entropy.constructor | src/hooks/useTasks.ts:276 | a random source with the given draws, none drawn yet |
| Env.Entropy.NextId | src/hooks/useTasks.ts:276 | a random id is the next draw of the stream; the draw counter advances by one |
| Env.Entropy.NextThousandth | src/hooks/useLoans.ts:7 | `Math.floor(Math.random() * 1000)` is the next draw, below 1000; the counter advances by one |
| Catalog.FindTemplate | src/hooks/useTasks.ts:382 | a found template is in the list and has the id; nothing is found exactly when no template has the id |
| Catalog.CatalogFindsEach | src/hooks/useTasks.ts:5-53 | each of the three catalog ids finds its own template, which has three, two and four definitions |
| Catalog.CatalogFindsNothingElse | src/hooks/useTasks.ts:5-53 | an id other than the three finds no template |
| TaskStore.NewTask | src/hooks/useTasks.ts:273-278 | the stored task is the given input plus the drawn id and the creation time, and nothing else |
| TaskStore.MergeTask | src/hooks/useTasks.ts:283-289 | a partial update naming no key leaves the task as it was |
| TaskStore.MergeTaskIdempotent | src/hooks/useTasks.ts:283-289 | applying the same partial update twice is applying it once |
| TaskStore.WithStatus | src/hooks/useTasks.ts:291-301 | any target status is accepted; `completedAt` is stamped only for `completed` and otherwise kept; no other field changes |
| TaskStore.Completion | src/hooks/useTasks.ts:303-315 | status `completed`, `completedAt` and `result` are set, `autoAction` is overwritten even when not given, nothing else changes |
| TaskStore.BulkCompletion | src/hooks/useTasks.ts:445-456 | as a completion, but `autoAction` keeps its value |
| TaskStore.Approval | src/hooks/useTasks.ts:317-328 | `approved`, `approvedBy` and `approvedAt` are set, the status is never changed, nothing else changes |
| TaskStore.RejectionText | src/hooks/useTasks.ts:336 | never empty; a given non-empty reason is used, otherwise `'Task rejected'` |
| TaskStore.Rejection | src/hooks/useTasks.ts:330-340 | the task ends at `failed` whatever its prior status, with the rejection text as result, nothing else changed |
| TaskStore.UpdateTaskIn | src/hooks/useTasks.ts:283-289 | same length; exactly the tasks with that id are merged, all others stay |
| TaskStore.UpdateTaskStatusIn | src/hooks/useTasks.ts:291-301 | same length; only tasks with that id change, with no transition check |
| TaskStore.CompleteTaskIn | src/hooks/useTasks.ts:303-315 | same length; only tasks with that id are completed |
| TaskStore.CompleteAbsentId | src/hooks/useTasks.ts:303-315 | completing an id no task carries leaves the collection equal |
| TaskStore.ApproveTaskIn | src/hooks/useTasks.ts:317-328 | same length, every status unchanged; only tasks with that id are approved |
| TaskStore.RejectTaskIn | src/hooks/useTasks.ts:330-340 | same length; only tasks with that id are rejected |
| TaskStore.ApproveTasksIn | src/hooks/useTasks.ts:432-443 | same length, every status unchanged; exactly the listed ids are approved |
| TaskStore.CompleteTasksIn | src/hooks/useTasks.ts:445-456 | same length; exactly the listed ids are completed |
| TaskStore.ApproveOneIsBulk | src/hooks/useTasks.ts:432-443 | approving one id equals bulk-approving the one-element list |
| TaskStore.DeleteTaskIn | src/hooks/useTasks.ts:342-344 | the survivors come from the old collection with another id, and every task with another id survives |
| TaskStore.DeleteTasksIn | src/hooks/useTasks.ts:458-460 | the survivors come from the old collection with unlisted ids, and every unlisted task survives |
| TaskStore.DeleteTasksExactly | src/hooks/useTasks.ts:458-460 | a survivor keeps its multiplicity and a deleted task has none; deletion distributes over concatenation, so order is kept; unknown ids change nothing |
| TaskStore.DeleteOneIsBulk | src/hooks/useTasks.ts:342-344 | deleting one id equals bulk-deleting the one-element list |
| TaskStore.StatusCountsPartition | src/hooks/useTasks.ts:462-478 | the four status counters add up to the number of tasks |
| TaskStore.ApprovalKeepsStatusCounts | src/hooks/useTasks.ts:432-443 | a bulk approval changes no status counter |
| TaskStore.ApprovalClearsAwaiting | src/hooks/useTasks.ts:432-443 | after a bulk approval, the tasks awaiting approval are exactly those awaiting among the unlisted ones |
| TaskStore.Definitions | src/hooks/useTasks.ts:352-355 | the goal's definitions carry the given content in order, with id `gt<ms><i>` by position |
| TaskStore.NewGoal | src/hooks/useTasks.ts:347-358 | an active goal of the loan, with the given name and description, whose definitions hold exactly the given content |
| TaskStore.WriteGoalShape | src/hooks/useTasks.ts:346-378 | one new active goal in front, holding the N definitions; N new tasks in front; the old collections are the suffixes; N+1 draws |
| TaskStore.GoalTaskShape | src/hooks/useTasks.ts:362-374 | the created task mirrors its definition: `in_progress`, assigned to `ai_agent` and free of approval exactly when it auto-executes; `autoAction` equals `autoExecute` |
| TaskStore.GoalTaskAt | src/hooks/useTasks.ts:361-375 | the task for definition i sits at index N-1-i (the tasks are reversed) and carries the i-th id drawn |
| TaskStore.NewDecision | src/hooks/useTasks.ts:422-427 | the stored decision is the given input plus the drawn id and the time |
| TaskStore.TaskStore.constructor | src/hooks/useTasks.ts:268-271 | the store starts with the given collections and the built-in template list |
| TaskStore.TaskStore.AddTask | src/hooks/useTasks.ts:273-281 | the collection grows by one, with the returned record at index 0 and the old collection unchanged behind it |
| TaskStore.TaskStore.UpdateTask | src/hooks/useTasks.ts:283-289 | tasks become `UpdateTaskIn`; goals and decisions unchanged |
| TaskStore.TaskStore.UpdateTaskStatus | src/hooks/useTasks.ts:291-301 | tasks become `UpdateTaskStatusIn`; goals and decisions unchanged |
| TaskStore.TaskStore.CompleteTask | src/hooks/useTasks.ts:303-315 | tasks become `CompleteTaskIn`; goals and decisions unchanged |
| TaskStore.TaskStore.ApproveTask | src/hooks/useTasks.ts:317-328 | tasks become `ApproveTaskIn`; goals and decisions unchanged |
| TaskStore.TaskStore.RejectTask | src/hooks/useTasks.ts:330-340 | tasks become `RejectTaskIn`; goals and decisions unchanged |
| TaskStore.TaskStore.DeleteTask | src/hooks/useTasks.ts:342-344 | tasks become `DeleteTaskIn`; goals and decisions unchanged |
| TaskStore.TaskStore.WriteGoal | src/hooks/useTasks.ts:346-378 | the goal write: the returned goal, and tasks, goals and draws as `WriteGoalEffect`; decisions unchanged |
| TaskStore.TaskStore.AddGoalTasks | src/hooks/useTasks.ts:361-375 | the `forEach(addTask)` loop leaves one task per definition in front, in reverse order, and draws one id each |
| TaskStore.TaskStore.CreateAIGoal | src/hooks/useTasks.ts:346-378 | the goal write for the loan, with an empty borrower name |
| TaskStore.TaskStore.ApplyAIGoalTemplate | src/hooks/useTasks.ts:381-420 | nothing is returned exactly when the id is unknown, and then nothing changes; otherwise the goal write with the template's content and the loan's borrower name |
| TaskStore.TaskStore.AddDecision | src/hooks/useTasks.ts:422-430 | decisions grow by one, with the new record at index 0 and the old ones behind it; tasks and goals unchanged |
| TaskStore.TaskStore.BulkApproveTasks | src/hooks/useTasks.ts:432-443 | tasks become `ApproveTasksIn` |
| TaskStore.TaskStore.BulkCompleteTasks | src/hooks/useTasks.ts:445-456 | tasks become `CompleteTasksIn` |
| TaskStore.TaskStore.BulkDeleteTasks | src/hooks/useTasks.ts:458-460 | tasks become `DeleteTasksIn` |
| TaskStore.TaskStore.Stats | src/hooks/useTasks.ts:462-478 | each counter is the number of tasks in its status; `requiresApproval` counts unapproved tasks that require approval, in any status; total = pending + in_progress + completed + failed |
| TaskStore.TasksOfLoan | src/hooks/useTasks.ts:481 | the selected tasks come from the collection and belong to the loan, and every task of the loan is selected |
| TaskStore.TasksOfLoanExactly | src/hooks/useTasks.ts:481 | each task of the loan occurs as often as in the collection, others not at all; the selection distributes over concatenation and keeps a single task iff it belongs to the loan, so collection order is kept |
| TaskStore.DecisionsOfLoan | src/hooks/useTasks.ts:485 | the selected decisions come from the collection and belong to the loan, and every decision of the loan is selected |
| TaskStore.DecisionsOfLoanExactly | src/hooks/useTasks.ts:485 | multiplicity as in the collection for the loan's decisions, none for others; distributes over concatenation; a single decision kept iff it belongs to the loan |
| TaskStore.GoalsOfLoan | src/hooks/useTasks.ts:489 | the selected goals come from the collection and belong to the loan, and every goal of the loan is selected |
| TaskStore.GoalsOfLoanExactly | src/hooks/useTasks.ts:489 | multiplicity as in the collection for the loan's goals, none for others; distributes over concatenation; a single goal kept iff it belongs to the loan |
| TaskStore.TaskStore.TasksByLoan | src/hooks/useTasks.ts:480-482 | exactly the tasks of that loan: it is `TasksOfLoan` of the stored tasks, in collection order with multiplicities kept |
| TaskStore.TaskStore.DecisionsByLoan | src/hooks/useTasks.ts:484-486 | exactly the decisions of that loan: it is `DecisionsOfLoan` of the stored decisions, in collection order |
| TaskStore.TaskStore.GoalsByLoan | src/hooks/useTasks.ts:488-490 | exactly the goals of that loan: it is `GoalsOfLoan` of the stored goals, in collection order |
| LoanStore.GenerateLoanNumber | src/hooks/useLoans.ts:4-9 | the number starts with `FINTEGRAL-` |
| LoanStore.StampDigits | src/hooks/useLoans.ts:6 | for a timestamp of six digits or more, the stamp is six digits reading back as the timestamp modulo 10^6 |
| LoanStore.SuffixDigits | src/hooks/useLoans.ts:7 | the padded random part is three digits reading back as the number drawn |
| LoanStore.LoanNumberDecodes | src/hooks/useLoans.ts:4-9 | for a timestamp of six digits or more the number has 20 characters, a dash at 16, and its two digit groups decode to the stamp and the random number |
| LoanStore.NewLoan | src/hooks/useLoans.ts:371-380 | a draft with the drawn id and number, created and updated at the same instant, carrying exactly the input |
| LoanStore.MergeLoan | src/hooks/useLoans.ts:384-390 | `updatedAt` is always refreshed; an update naming no key changes nothing else |
| LoanStore.MergeLoanIdempotent | src/hooks/useLoans.ts:384-390 | the same update twice at the same instant is the update once |
| LoanStore.NotesAfter | src/hooks/useLoans.ts:395 | a non-empty note replaces the notes; an absent or empty one keeps the old notes |
| LoanStore.StatusChange | src/hooks/useLoans.ts:392-398 | any status is set, `updatedAt` refreshed, notes as `NotesAfter`, nothing else changes |
| LoanStore.BulkStatus | src/hooks/useLoans.ts:408-414 | status set and `updatedAt` refreshed, notes and everything else kept |
| LoanStore.Assignment | src/hooks/useLoans.ts:420-426 | `assignedTo` set and `updatedAt` refreshed, nothing else changes |
| LoanStore.UpdateLoanIn | src/hooks/useLoans.ts:384-390 | same length; only loans with that id are merged |
| LoanStore.UpdateLoanStatusIn | src/hooks/useLoans.ts:392-398 | same length; only loans with that id change |
| LoanStore.UpdateLoanStatusAbsent | src/hooks/useLoans.ts:392-398 | a status change for an id no loan carries changes nothing |
| LoanStore.BulkUpdateStatusIn | src/hooks/useLoans.ts:408-414 | same length; exactly the listed loans change status, all others stay |
| LoanStore.BulkAssignIn | src/hooks/useLoans.ts:420-426 | same length; exactly the listed loans are assigned, all others stay |
| LoanStore.BulkIgnoresUnknownIds | src/hooks/useLoans.ts:408-426 | adding ids that name no loan changes neither bulk rewrite |
| LoanStore.DeleteLoanIn | src/hooks/useLoans.ts:400-402 | the survivors come from the old list with another id, and every loan with another id survives |
| LoanStore.DeleteLoansIn | src/hooks/useLoans.ts:416-418 | the survivors come from the old list with unlisted ids, and every unlisted loan survives |
| LoanStore.DeleteLoansExactly | src/hooks/useLoans.ts:416-418 | survivors keep their multiplicity and deleted loans have none; order is kept; unknown ids change nothing |
| LoanStore.DeleteOneLoanIsBulk | src/hooks/useLoans.ts:400-402 | deleting one id equals bulk-deleting the one-element list |
| LoanStore.FindLoan | src/hooks/useLoans.ts:404-406 | the first loan with that id, or nothing exactly when no loan has it |
| LoanStore.LoansWithStatus | src/hooks/useLoans.ts:445-447 | the selected loans come from the list and have the status, and every loan with the status is selected |
| LoanStore.LoansWithStatusExactly | src/hooks/useLoans.ts:445-447 | each loan with the status occurs as often as in the list, others not at all; the selection distributes over concatenation and keeps a single loan iff it has the status, so list order is kept |
| LoanStore.LoanStatusCountsPartition | src/hooks/useLoans.ts:428-443 | the seven status counters add up to the number of loans |
| LoanStore.CounterIsListSize | src/hooks/useLoans.ts:428-447 | each status counter is the length of the `getLoansByStatus` list for that status |
| LoanStore.BulkStatusCounter | src/hooks/useLoans.ts:408-414 | after a bulk change to s, the s counter counts the loans listed or already at s |
| LoanStore.LoanStore.constructor | src/hooks/useLoans.ts:368-369 | the store starts with the given loans |
| LoanStore.LoanStore.AddLoan | src/hooks/useLoans.ts:371-382 | the returned loan is exactly the one prepended; the rest of the list is unchanged; two draws |
| LoanStore.LoanStore.UpdateLoan | src/hooks/useLoans.ts:384-390 | loans become `UpdateLoanIn` |
| LoanStore.LoanStore.UpdateLoanStatus | src/hooks/useLoans.ts:392-398 | loans become `UpdateLoanStatusIn` |
| LoanStore.LoanStore.DeleteLoan | src/hooks/useLoans.ts:400-402 | loans become `DeleteLoanIn` |
| LoanStore.LoanStore.BulkUpdateStatus | src/hooks/useLoans.ts:408-414 | loans become `BulkUpdateStatusIn` |
| LoanStore.LoanStore.BulkDelete | src/hooks/useLoans.ts:416-418 | loans become `DeleteLoansIn` |
| LoanStore.LoanStore.BulkAssign | src/hooks/useLoans.ts:420-426 | loans become `BulkAssignIn` |
| LoanStore.LoanStore.GetLoanById | src/hooks/useLoans.ts:404-406 | a found loan is in the store with that id; nothing is found exactly when no loan has it |
| LoanStore.LoanStore.GetLoansByStatus | src/hooks/useLoans.ts:445-447 | exactly the stored loans with that status: it is `LoansWithStatus` of the store, in list order with multiplicities kept |
| LoanStore.LoanStore.Stats | src/hooks/useLoans.ts:428-443 | the total is the number of loans, and also the sum of the seven counters; each counter counts the loans in its status |
| App.DecisionTypeFor | src/App.tsx:78-80 | `approved`, `denied` and `conditions` map to approval, denial and conditional; exactly the other statuses map to `auto_action` |
| App.StatusLabel | src/App.tsx:88 | the label has the length of the status literal (one underscore becomes a space) |
| App.StatusDecision | src/App.tsx:82-91 | the decision is for the loan, by `'John Smith'`, its type derived from the new status, its previous status the one read before the update |
| App.StatusChangeRecordsOne | src/App.tsx:72-91 | an absent loan changes nothing; otherwise exactly one decision in front with the previous and new status, and the loans updated; tasks and goals untouched |
| App.ApplyTemplatesShape | src/App.tsx:58-61 | each known selected id adds one active goal for the loan, in front; unknown ids add nothing; the old goals are the suffix |
| App.CreateLoanDraft | src/App.tsx:54-61 | the new draft comes first, created and updated at once, holding the input; the other loans and all decisions unchanged |
| App.CreateLoanGoals | src/App.tsx:54-61 | one goal per known selected id, in front, each belonging to the new loan |
| App.NewLoanGoals | src/App.tsx:55-61 | goals written for the new loan's id belong to the loan placed first |
| App.SyntheticTaskId | src/App.tsx:141 | the synthesised id has a dash at index 4 |
| App.ConditionDecision | src/App.tsx:159-171 | an `auto_action` decision by the agent, auto-executed, with the status captured at submit as previous; new status `conditions` exactly when the condition mentions `condition` (or the loan was already there), otherwise the captured status |
| App.CountPrefixStep | src/App.tsx:137-178 | the running count over the definitions steps by the indicator of the next one |
| App.AutoPhaseShape | src/App.tsx:137-155 | the first timers add one agent task per auto-executing definition, in front, each `in_progress`, `ai_agent`, with no approval needed; nothing else changes but the draws |
| App.SyntheticIdAbsent | src/App.tsx:157 | completing a synthesised id changes no task when no stored id has a dash |
| App.CompletionKeepsTasks | src/App.tsx:156-176 | as written, the second timers leave the tasks exactly as they were |
| App.CompletionDecisions | src/App.tsx:156-176 | the second timers record one agent `auto_action` decision per auto-executing definition with a condition, in front, and leave the goals alone |
| App.CompletionStepLoan | src/App.tsx:172-174 | one second timer moves the submitted loan to `conditions` exactly when its condition asks for it, and leaves every other loan alone |
| App.CompletionLoanStatus | src/App.tsx:156-176 | after the second timers the loan is at `conditions` exactly when some auto-executing condition asked for it (or it was there already); other loans unchanged |
| App.NoDashCons | src/hooks/useTasks.ts:276 | prepending a task with a dash-free id keeps every stored id dash-free |
| App.NoDashConcat | src/hooks/useTasks.ts:276 | concatenating two dash-free collections gives a dash-free one |
| App.GoalTasksNoDash | src/hooks/useTasks.ts:362-375 | the tasks of a goal write carry drawn ids, which have no dash |
| App.WriteGoalNoDash | src/hooks/useTasks.ts:346-378 | the goal write keeps every stored id dash-free |
| App.AutoPhaseNoDash | src/App.tsx:139-153 | the first timers keep every stored id dash-free |
| App.SubmitLeavesAgentTasksRunning | src/App.tsx:132-186 | the submission adds one task per definition plus one agent task per auto-executing definition, and the agent tasks stay `in_progress` |
| App.SubmitRecordsGoalAndDecisions | src/App.tsx:132-186 | an absent loan changes nothing; otherwise one active goal for the loan holding the definitions, and one decision per auto-executing definition with a condition |
| App.SubmitLoanStatus | src/App.tsx:132-186 | the submitted loan ends at `conditions` exactly when some auto-executing definition's condition mentions `condition` (or it was there); other loans are unchanged |
| App.ApplyTemplatesPrefix | src/App.tsx:58-60 | applying the first i+1 ids is applying the first i, then id i |
| App.Dashboard.constructor | src/App.tsx:25-52 | the shell holds the given stores and random source |
| App.Dashboard.HandleCreateLoan | src/App.tsx:54-70 | the new state is `CreateLoanEffect`: the loan added first, then each selected template applied, in order, to its id, number and borrower |
| App.Dashboard.ApplyEach | src/App.tsx:58-60 | the `forEach` loop over the ids equals the fold `ApplyTemplates`; decisions unchanged |
| App.Dashboard.HandleUpdateLoanStatus | src/App.tsx:72-97 | the new state is `StatusChangeEffect` |
| App.Dashboard.ChangeStatus | src/App.tsx:75-91 | the status update, then the one decision |
| App.Dashboard.HandleBulkAction | src/App.tsx:99-120 | `approve`, `deny`, `delete` and `assign` run their bulk operation (assignee `'Jane Doe'`); any other action changes nothing; no decision is touched |
| App.Dashboard.HandleSubmitAIGoal | src/App.tsx:132-186 | the new state is `SubmitEffect`: nothing for an absent loan, else the goal write, the first timers, then the second timers |
| App.Dashboard.RunFirstTimers | src/App.tsx:137-155 | the 500 ms callbacks, in index order, equal `AutoPhase` |
| App.Dashboard.FirstTimer | src/App.tsx:138-153 | one agent task for an auto-executing definition, nothing otherwise |
| App.Dashboard.RunSecondTimers | src/App.tsx:156-177 | the completion callbacks, in index order, equal `CompletionPhase` |
| App.Dashboard.SecondTimer | src/App.tsx:156-177 | `completeTask` on the synthesised id, then for a condition its decision, and `conditions` when the condition says so |
| App.Dashboard.HandleApproveTask | src/App.tsx:188-191 | only the task store's tasks change, approved by `'John Smith'` |
| App.Dashboard.HandleRejectTask | src/App.tsx:193-196 | only the task store's tasks change, rejected with `'Task rejected by loan officer'` |
| App.Dashboard.HandleUpdateTaskStatus | src/App.tsx:203-206 | only the task store's tasks change, by `updateTaskStatus` |
| CreateLoan.MatchedTemplateId | src/components/CreateLoanDialog.tsx:151-164 | the chosen id is one of the three template ids |
| CreateLoan.TemplateIdsDistinct | src/components/CreateLoanDialog.tsx:154-163 | the three template ids differ |
| CreateLoan.MatcherRules | src/components/CreateLoanDialog.tsx:151-164 | full underwriting iff the purpose escalates or the loan is large; remote work iff neither and the type is `investment`; initial review iff none of these |
| CreateLoan.PurposeDecidesAlone | src/components/CreateLoanDialog.tsx:153-155 | with a construction or home-equity purpose, amount, value and type do not change the choice |
| CreateLoan.LimitsAreStrict | src/components/CreateLoanDialog.tsx:156-158 | exactly 1,000,000 and 1,500,000 do not escalate; one more does |
| CreateLoan.FindBestMatchingGoal | src/components/CreateLoanDialog.tsx:151-164 | a result is in the list and has the chosen id; nothing is returned exactly when no template has that id, with no fallback |
| CreateLoan.MatcherOnCatalog | src/components/CreateLoanDialog.tsx:151-164 | against the built-in catalog the matcher returns the template its rules name |
| CreateLoan.ExtractDocumentMetadata | src/components/CreateLoanDialog.tsx:167-180 | the figures are fixed at 350000, `single_family` and 500000 |
| CreateLoan.ExtractedPurpose | src/components/CreateLoanDialog.tsx:170-176 | `purchase` iff the lowercased name contains `purchase`, or none of the three words; refinance iff no `purchase` but `refi`; construction iff `construction` and neither other word |
| CreateLoan.UploadTemplate | src/components/CreateLoanDialog.tsx:580-594 | an upload never chooses remote work; it chooses full underwriting iff the lowercased name contains `construction` and neither `purchase` nor `refi`; otherwise initial review |
| CreateLoan.NewCustomTask | src/components/CreateLoanDialog.tsx:214-223 | a manual `custom` task titled `'New Custom Task'`, with an empty description and an id starting `custom-` |
| CreateLoan.RemoveCustomTask | src/components/CreateLoanDialog.tsx:225-227 | no task with the id remains and every other task does |
| CreateLoan.RemoveCustomTaskCounts | src/components/CreateLoanDialog.tsx:225-227 | every other task keeps its multiplicity; tasks with the id have none |
| CreateLoan.RemoveAbsentCustomTask | src/components/CreateLoanDialog.tsx:225-227 | removing an id no task has leaves the list equal |
| CreateLoan.EditCustomTask | src/components/CreateLoanDialog.tsx:229-234 | same length; only the title of tasks with the id changes |
| CreateLoan.ToggleCustomTask | src/components/CreateLoanDialog.tsx:236-240 | same length; only `autoExecute` of tasks with the id flips |
| CreateLoan.EditTwice | src/components/CreateLoanDialog.tsx:229-234 | of two edits of the same id the later title wins |
| CreateLoan.ToggleTwice | src/components/CreateLoanDialog.tsx:236-240 | toggling twice restores the list |
| CreateLoan.TasksForTemplate | src/components/CreateLoanDialog.tsx:524-529 | a found template's tasks replace the list; an unknown id keeps it |
| CreateLoan.OfferedGoals | src/components/CreateLoanDialog.tsx:493 | never empty, and the supplied goals whenever there are any |
| CreateLoan.ResetForm | src/components/CreateLoanDialog.tsx:647-664 | the opening form, except that purpose and property type are not reset and survive |
| CreateLoan.UploadOnCatalog | src/components/CreateLoanDialog.tsx:580-594 | on the built-in catalog an upload remembers the file, selects the template the name calls for (never remote work) and loads its tasks; nothing else changes |
| CreateLoan.UploadWithoutMatch | src/components/CreateLoanDialog.tsx:580-594 | when the offered list lacks the chosen id, only the file is remembered |
| CreateLoan.PositionIdInjective | src/components/CreateLoanDialog.tsx:611-613 | distinct positions give distinct `prop-i` / `liab-i` ids |
| CreateLoan.ReIdProperties | src/components/CreateLoanDialog.tsx:611 | same length; each property is kept with id `prop-i` by position |
| CreateLoan.ReIdLiabilities | src/components/CreateLoanDialog.tsx:613 | same length; each liability is kept with id `liab-i` by position |
| CreateLoan.ReIdDistinct | src/components/CreateLoanDialog.tsx:611-613 | whatever ids the form held, the submitted properties and liabilities have pairwise distinct ids |
| CreateLoan.SubjectProperty | src/components/CreateLoanDialog.tsx:598 | the first property flagged as subject, or the first property when none is flagged |
| CreateLoan.Assemble | src/components/CreateLoanDialog.tsx:596-641 | nothing (the throw) exactly when there is no property; otherwise the selected id as a one-element list, the subject address, and re-identified properties and liabilities |
| CreateLoan.SubmitPayload | src/components/CreateLoanDialog.tsx:622-645 | nothing exactly when there is no property |
| CreateLoan.UploadedDocuments | src/components/CreateLoanDialog.tsx:614 | no file gives no document; a file gives one `other`, `uploaded` document with its name and the upload time |
| CreateLoan.ContinuePayload | src/components/CreateLoanDialog.tsx:596-620 | nothing exactly when there is no property |
| CreateLoan.SubmitPayloadShape | src/components/CreateLoanDialog.tsx:622-641 | the form's values; no interest rate exactly when it is empty or zero; term defaults to 30; no documents; assigned to `'John Smith'`; no notes |
| CreateLoan.ContinueOnCompleteForm | src/components/CreateLoanDialog.tsx:596-620 | on a complete form with no file, continue submits the same loan as submit |
| CreateLoan.PayloadIgnoresCustomTasks | src/components/CreateLoanDialog.tsx:596-641 | the edited custom tasks do not affect either payload |
| CreateLoan.ResetFormSubmits | src/components/CreateLoanDialog.tsx:647-664 | a reset form holds one subject property, so submitting it does not throw |
| CreateLoan.LoanForm.SetState | src/components/CreateLoanDialog.tsx:495-521 | the state fields become the given form |
| CreateLoan.LoanForm.constructor | src/components/CreateLoanDialog.tsx:492-521 | the offered goals, and the opening form |
| CreateLoan.LoanForm.AddTask | src/components/CreateLoanDialog.tsx:214-223 | the new custom task is appended; nothing else changes |
| CreateLoan.LoanForm.RemoveTask | src/components/CreateLoanDialog.tsx:225-227 | the custom tasks become `RemoveCustomTask`; nothing else changes |
| CreateLoan.LoanForm.EditTask | src/components/CreateLoanDialog.tsx:229-234 | the custom tasks become `EditCustomTask`; nothing else changes |
| CreateLoan.LoanForm.ToggleAuto | src/components/CreateLoanDialog.tsx:236-240 | the custom tasks become `ToggleCustomTask`; nothing else changes |
| CreateLoan.LoanForm.SelectTemplate | src/components/CreateLoanDialog.tsx:524-529 | the id is selected; when it differs from the current one the effect runs and loads the template's tasks if it is found; choosing the current id again keeps the edited tasks |
| CreateLoan.LoanForm.HandleFileUpload | src/components/CreateLoanDialog.tsx:580-594 | the new state is `UploadEffect` |
| CreateLoan.LoanForm.HandleSubmit | src/components/CreateLoanDialog.tsx:622-645 | the payload is `SubmitPayload`; the form is reset after a payload and untouched when it throws |
| CreateLoan.LoanForm.HandleContinue | src/components/CreateLoanDialog.tsx:596-620 | the payload is `ContinuePayload`; the form is reset after a payload and untouched when it throws |
| GoalsView.RuleTasks | src/components/AIGoalsView.tsx:290-366 | at most nine tasks, none of type `custom`, and empty exactly when no rule fires |
| GoalsView.GeneratedTasks | src/components/AIGoalsView.tsx:287-376 | between one and nine tasks |
| GoalsView.KeywordTasks | src/components/AIGoalsView.tsx:289-376 | the successive pushes give exactly `GeneratedTasks` of the description |
| GoalsView.FallbackExactly | src/components/AIGoalsView.tsx:369-376 | no rule fires iff the list is exactly the manual `'Review Loan Application'` task, iff it holds a `custom` task |
| GoalsView.CountWhenSingle | src/components/AIGoalsView.tsx:290-366 | a guarded one-task push counts 1 exactly when it fires and the task qualifies |
| GoalsView.UnderwritingCredit | src/components/AIGoalsView.tsx:339-366 | the underwriting block holds one `credit_check` |
| GoalsView.CountRuleTasks | src/components/AIGoalsView.tsx:290-366 | a count over the generated list is the sum of the counts of the rule blocks that fire |
| GoalsView.CreditCheckCount | src/components/AIGoalsView.tsx:290-366 | when some rule fires, the `credit_check` count is one per firing of the credit rule plus one per firing of the underwriting rule |
| GoalsView.ReviewAndFullDuplicateCredit | src/components/AIGoalsView.tsx:290-366 | a description with `review` and `full` yields two `credit_check` tasks |
| GoalsView.UnderwritingBlock | src/components/AIGoalsView.tsx:339-366 | the underwriting rule fires iff the list ends with its four tasks, all auto-executed |
| GoalsView.SavedDefinitions | src/components/AIGoalsView.tsx:223-226 | the form's tasks, in order, with id `tt-<ms>-<i>` |
| GoalsView.SavedTemplate | src/components/AIGoalsView.tsx:216-235 | an active template with no loan, the form's name and description, one definition per task |
| GoalsView.EditedDefinitions | src/components/AIGoalsView.tsx:245-252 | the form's tasks, in order, with id `type + i` |
| GoalsView.UpdateTemplateIn | src/components/AIGoalsView.tsx:237-261 | same length, ids and statuses kept; templates with the edited id take the form's name, description and `EditedDefinitions`; all others stay |
| GoalsView.UpdatedTemplate | src/components/AIGoalsView.tsx:240-253 | the edited template takes the form's name, description and tasks, stored as `EditedDefinitions` with ids `type + i`, and keeps the rest |
| GoalsView.UpdateTemplateIdempotent | src/components/AIGoalsView.tsx:237-261 | saving the same edit twice changes nothing more |
| GoalsView.DeleteTemplateIn | src/components/AIGoalsView.tsx:263-267 | no template with the id remains and every other one does |
| GoalsView.DeleteTemplateCounts | src/components/AIGoalsView.tsx:263-267 | every other template keeps its multiplicity |
| GoalsView.Duplicate | src/components/AIGoalsView.tsx:269-278 | a copy named `<name> (Copy)` with the same tasks, status, loan and description, created now |
| GoalsView.Stats | src/components/AIGoalsView.tsx:157-162 | total is the template count, applied the goal count, active at most total |
| GoalsView.TotalTasksPrepend | src/components/AIGoalsView.tsx:161 | the task total of a prepended list adds the new template's task count |
| GoalsView.StatsPrepend | src/components/AIGoalsView.tsx:157-162 | prepending a template adds one to total, its tasks to the task total, and one to active if it is active |
| GoalsView.StatsAfterUpdate | src/components/AIGoalsView.tsx:237-261 | an update changes neither the total nor the active count |
| GoalsView.TotalTasksFilter | src/components/AIGoalsView.tsx:161 | filtering never raises the task total |
| GoalsView.StatsAfterDelete | src/components/AIGoalsView.tsx:263-267 | deleting never raises a counter, and deleting an absent id changes none |
| GoalsView.TemplateScreen.constructor | src/components/AIGoalsView.tsx:135-146 | the screen's copy starts as the saved list, with an empty form |
| GoalsView.TemplateScreen.GenerateTasksWithAI | src/components/AIGoalsView.tsx:281-380 | nothing for an empty description; otherwise the form's tasks become `GeneratedTasks`; the templates are untouched |
| GoalsView.TemplateScreen.LoadGoalForEdit | src/components/AIGoalsView.tsx:182-194 | the form takes the template's name, description and definitions without ids, and records the template being edited |
| GoalsView.TemplateScreen.SaveTemplate | src/components/AIGoalsView.tsx:216-235 | only with a name and tasks: one saved template prepended and the form cleared; otherwise nothing changes; both copies stay equal |
| GoalsView.TemplateScreen.UpdateTemplate | src/components/AIGoalsView.tsx:237-261 | only while editing with a name and tasks: the list becomes `UpdateTemplateIn` and the form is cleared; both copies stay equal |
| GoalsView.TemplateScreen.DeleteTemplate | src/components/AIGoalsView.tsx:263-267 | the list becomes `DeleteTemplateIn`; both copies stay equal |
| GoalsView.TemplateScreen.DuplicateTemplate | src/components/AIGoalsView.tsx:269-278 | the copy is prepended; both copies stay equal |
| LoanDetail.MatchTask | src/components/LoanDetailDialog.tsx:563-572 | the first task with an equal title, or the same type on the loan; none exactly when no task matches, and then `pending` |
| LoanDetail.MatchGoalTasks | src/components/LoanDetailDialog.tsx:563-572 | one entry per definition, in the goal's order |
| LoanDetail.CompletedCountBound | src/components/LoanDetailDialog.tsx:563-574 | the completed count is at most the number of definitions, and zero with no tasks |
| LoanDetail.SharedMatch | src/components/LoanDetailDialog.tsx:563-574 | two definitions can match the same completed task, which then counts twice |
| LoanDetail.RelativeBuckets | src/components/LoanDetailDialog.tsx:140-153 | the buckets are the millisecond ranges below one minute, hour, day and week; the number shown lies in 1..59, 1..23 or 1..6 |
| LoanDetail.FormatRelativeTime | src/components/LoanDetailDialog.tsx:140-153 | `'Just now'` below a minute; differences of a week or more show the absolute date |
| LoanDetail.RelativeTextReadsBack | src/components/LoanDetailDialog.tsx:149-151 | the `m ago` / `h ago` / `d ago` texts end with their unit and their number reads back |
| LoanDetail.PendingApprovals | src/components/LoanDetailDialog.tsx:155 | exactly the unapproved tasks that require approval: every result is such a task from the list, and every such task of the list is in the result |
| LoanDetail.NeedsApprovalIsPending | src/components/LoanDetailDialog.tsx:433 | every task flagged `needsApproval` is among the pending approvals; their number is the store's `requiresApproval` counter |
| LoanDetail.PendingNeedNotBeFlagged | src/components/LoanDetailDialog.tsx:155 | the converse fails: an unapproved task in progress is pending without being flagged |

## Left out

- Rendering: JSX, styling, toasts, dialogs, tabs and search filters are not modelled. `handleTaskBulkAction` (`src/App.tsx:198-201`) only shows a toast and changes no state, so it has no member.
- Timers: each `setTimeout` callback runs to completion in order. All first timers run, then all second timers, in index order, as their delays dictate. The clock each callback reads is a parameter.
- Clock readings: two `new Date()` calls in one handler are one reading (`addLoan`'s `createdAt`/`updatedAt` and its loan-number timestamp; `Date.now()` twice in `handleSaveTemplate`).
- `Math.random()`: it is a stream of draws whose values are parameters. Id uniqueness is not guaranteed by the source and is not asserted.
- Locale formatting: `toLocaleDateString` and `Intl.NumberFormat` are foreign calls. The absolute date in `formatRelativeTime` is a parameter. The difference to now is a parameter too, because it comes from date parsing.
- LoanDetail.FormatRelativeTime: its own contract states the `'Just now'` and absolute-date cases. The minute, hour and day texts are stated by `RelativeTextReadsBack`, and the ranges by `RelativeBuckets`.
- Floating point:
  - LTV, the progress percentage and the analytics KPIs are not modelled.
  - The form holds the numbers that `parseFloat`/`parseInt` make of its text fields, with 0 standing for `NaN`.
  - Amounts and values are integers, and the interest rate is a `real`.
- `toLowerCase` is modelled on ASCII letters only.
- `GoalTemplate.rules` is carried as data. The source never evaluates it, so no evaluator is modelled.
- Seed data: the initial loans, tasks, goals and decisions, and the preset templates of `AIGoalsView.tsx`, are not modelled (`loadTemplate`, `src/components/AIGoalsView.tsx:172-180`).
- Form edits left out:
  - the property, employment and liability list edits of the creation dialog (`src/components/CreateLoanDialog.tsx:538-578`);
  - the per-task form edits of the goals screen (`src/components/AIGoalsView.tsx:196-206`);
  - the `isValid` button gate (`src/components/CreateLoanDialog.tsx:666`), which is a UI condition;
  - `selectedTemplate`'s display fallback in the goal selection view.
- UI-only state is not modelled: `creationMethod`, `activeTab`, `showAIGoalSelection`, `isGeneratingTasks` and the dialog open flags. The one-and-a-half-second wait in `generateTasksWithAI` is left out as well.
- The view-level counters and filters of the dashboard, pipeline, tasks and history views, the chatbot, and `AIGoalDialog.tsx` are not part of this model.
- Behaviour modelled as written, not corrected:
  - the dialog's reset keeps the loan purpose and property type;
  - custom tasks never reach the payload;
  - the synthesised-id `completeTask` completes nothing;
  - a definition's condition is tested with `includes('condition')`, case-sensitively.
