/**
 * The loan detail dialog (src/components/LoanDetailDialog.tsx): the join of a goal's task
 * definitions with the loan's actual tasks and the number of them completed, the relative
 * time shown next to decisions, and the two approval tests the task list uses.
 */
module LoanDetail {
  import opened Wrappers
  import opened Text
  import opened Seqs
  import opened Types
  import opened TaskStore

  // ---------------------------------------------------------------- goal progress

  /** A definition together with the task it was matched to and the status shown for it. */
  datatype MatchedTask = MatchedTask(definition: TaskDefinition, actualTask: Option<Task>, status: TaskStatus)

  /** The `find` test: an equal title, or the same type on the loan being shown. */
  predicate Matches(t: Task, d: TaskDefinition, loanId: string)
  {
    t.title == d.title || (t.taskType == d.taskType && t.loanId == loanId)
  }

  function MatchesFor(d: TaskDefinition, loanId: string): Task -> bool
  {
    (t: Task) => Matches(t, d, loanId)
  }

  /** One definition of the goal, joined with the first task that matches it. */
  function MatchTask(d: TaskDefinition, tasks: seq<Task>, loanId: string): (m: MatchedTask)
    ensures m.definition == d
    ensures m.actualTask.None? <==> forall i :: 0 <= i < |tasks| ==> !Matches(tasks[i], d, loanId)
    ensures m.actualTask.None? ==> m.status == Pending
    ensures m.actualTask.Some? ==>
              exists i :: 0 <= i < |tasks| && tasks[i] == m.actualTask.value && Matches(tasks[i], d, loanId)
                          && m.status == tasks[i].status
                          && forall j :: 0 <= j < i ==> !Matches(tasks[j], d, loanId)
  {
    var found := Find(tasks, MatchesFor(d, loanId));
    MatchedTask(d, found, if found.Some? then found.value.status else Pending)
  }

  /** `goal.tasks.map(...)`: one entry per definition, in the goal's order. */
  function MatchGoalTasks(goal: AIGoal, tasks: seq<Task>, loanId: string): (r: seq<MatchedTask>)
    ensures |r| == |goal.tasks|
    ensures forall i :: 0 <= i < |r| ==> r[i] == MatchTask(goal.tasks[i], tasks, loanId)
  {
    seq(|goal.tasks|, i requires 0 <= i < |goal.tasks| => MatchTask(goal.tasks[i], tasks, loanId))
  }

  const ShownCompleted: MatchedTask -> bool := (m: MatchedTask) => m.status == Completed

  /** `matchedTasks.filter(t => t.status === 'completed').length`. */
  function CompletedCount(goal: AIGoal, tasks: seq<Task>, loanId: string): (n: nat)
  {
    |Filter(MatchGoalTasks(goal, tasks, loanId), ShownCompleted)|
  }

  /** The completed count never exceeds the number of definitions, and it is zero with no tasks at all. */
  lemma CompletedCountBound(goal: AIGoal, tasks: seq<Task>, loanId: string)
    ensures CompletedCount(goal, tasks, loanId) <= |goal.tasks|
    ensures tasks == [] ==> CompletedCount(goal, tasks, loanId) == 0
  {
    var r := MatchGoalTasks(goal, tasks, loanId);
    CountIsFilterLength(r, ShownCompleted);
    if tasks == [] {
      CountNone(r, ShownCompleted);
    }
  }

  /**
   * Two definitions may be matched to the same task: a goal with two credit checks and one
   * completed credit-check task on the loan counts two completed definitions.
   */
  lemma SharedMatch(t: Task, loanId: string, a: TaskDefinition, b: TaskDefinition)
    requires t.loanId == loanId && t.status == Completed
    requires a.taskType == t.taskType && b.taskType == t.taskType
    ensures var r := MatchGoalTasks(AIGoal("g", loanId, "", "", [a, b], ActiveGoal, ""), [t], loanId);
      r[0].actualTask == Some(t) && r[1].actualTask == Some(t)
    ensures CompletedCount(AIGoal("g", loanId, "", "", [a, b], ActiveGoal, ""), [t], loanId) == 2
  {
    var g := AIGoal("g", loanId, "", "", [a, b], ActiveGoal, "");
    var r := MatchGoalTasks(g, [t], loanId);
    FindFirst([t], MatchesFor(a, loanId), 0);
    FindFirst([t], MatchesFor(b, loanId), 0);
    assert r == [MatchedTask(a, Some(t), Completed), MatchedTask(b, Some(t), Completed)];
    assert r[1..] == [r[1]];
    assert r[1..][1..] == [];
  }

  // ---------------------------------------------------------------- relative time

  /** The bucket `formatRelativeTime` picks; `Absolute` is the locale-formatted date. */
  datatype Relative = JustNow | MinutesAgo(minutes: nat) | HoursAgo(hours: nat) | DaysAgo(days: nat) | Absolute

  const MillisPerMinute := 60000
  const MillisPerHour := 3600000
  const MillisPerDay := 86400000

  /**
   * The if-chain on `Math.floor(diffMs / ...)`. Dafny's `/` with a positive divisor rounds
   * down, as `Math.floor` does, also for a date in the future (a negative difference).
   */
  function RelativeBucket(diffMs: int): Relative
  {
    var minutes := diffMs / MillisPerMinute;
    var hours := diffMs / MillisPerHour;
    var days := diffMs / MillisPerDay;
    if minutes < 1 then JustNow
    else if minutes < 60 then MinutesAgo(minutes)
    else if hours < 24 then HoursAgo(hours)
    else if days < 7 then DaysAgo(days)
    else Absolute
  }

  /**
   * In milliseconds the buckets are consecutive ranges, and the number shown always lies in
   * 1..59 minutes, 1..23 hours or 1..6 days.
   */
  lemma RelativeBuckets(diffMs: int)
    ensures RelativeBucket(diffMs) == JustNow <==> diffMs < MillisPerMinute
    ensures RelativeBucket(diffMs).MinutesAgo? <==> MillisPerMinute <= diffMs < MillisPerHour
    ensures RelativeBucket(diffMs).HoursAgo? <==> MillisPerHour <= diffMs < MillisPerDay
    ensures RelativeBucket(diffMs).DaysAgo? <==> MillisPerDay <= diffMs < 7 * MillisPerDay
    ensures RelativeBucket(diffMs) == Absolute <==> 7 * MillisPerDay <= diffMs
    ensures RelativeBucket(diffMs).MinutesAgo? ==> 1 <= RelativeBucket(diffMs).minutes <= 59
    ensures RelativeBucket(diffMs).HoursAgo? ==> 1 <= RelativeBucket(diffMs).hours <= 23
    ensures RelativeBucket(diffMs).DaysAgo? ==> 1 <= RelativeBucket(diffMs).days <= 6
  {
    var minutes := diffMs / MillisPerMinute;
    var hours := diffMs / MillisPerHour;
    var days := diffMs / MillisPerDay;
    assert minutes < 1 <==> diffMs < MillisPerMinute;
    assert minutes < 60 <==> diffMs < MillisPerHour;
    assert hours < 24 <==> diffMs < MillisPerDay;
    assert days < 7 <==> diffMs < 7 * MillisPerDay;
    assert minutes >= 60 ==> hours >= 1;
    assert hours >= 24 ==> days >= 1;
  }

  const JustNowText := "Just now"

  /** `formatRelativeTime`, given the difference to now and the formatted absolute date. */
  function FormatRelativeTime(diffMs: int, absoluteDate: string): (r: string)
    ensures RelativeBucket(diffMs) == JustNow ==> r == "Just now"
    ensures RelativeBucket(diffMs) == Absolute ==> r == absoluteDate
  {
    match RelativeBucket(diffMs)
    case JustNow => JustNowText
    case MinutesAgo(m) => NatToString(m) + "m ago"
    case HoursAgo(h) => NatToString(h) + "h ago"
    case DaysAgo(d) => NatToString(d) + "d ago"
    case Absolute => absoluteDate
  }

  /** The text for a number of whole minutes, hours or days parses back to that number. */
  lemma RelativeTextReadsBack(diffMs: int, absoluteDate: string)
    requires RelativeBucket(diffMs) != JustNow && RelativeBucket(diffMs) != Absolute
    ensures var r := FormatRelativeTime(diffMs, absoluteDate);
      var b := RelativeBucket(diffMs);
      var n := if b.MinutesAgo? then b.minutes else if b.HoursAgo? then b.hours else b.days;
      && |r| >= 6 && r[|r| - 5..] == [if b.MinutesAgo? then 'm' else if b.HoursAgo? then 'h' else 'd'] + " ago"
      && ParseNat(r[..|r| - 5]) == n
  {
    var b := RelativeBucket(diffMs);
    var n := if b.MinutesAgo? then b.minutes else if b.HoursAgo? then b.hours else b.days;
    var unit := if b.MinutesAgo? then 'm' else if b.HoursAgo? then 'h' else 'd';
    NatToStringFacts(n);
    var r := FormatRelativeTime(diffMs, absoluteDate);
    assert r == NatToString(n) + [unit] + " ago";
    assert r[..|r| - 5] == NatToString(n);
  }

  // ---------------------------------------------------------------- approvals

  /** `pendingApprovals`: awaiting approval in any status. */
  function PendingApprovals(tasks: seq<Task>): (r: seq<Task>)
    ensures forall i :: 0 <= i < |r| ==> r[i] in tasks && r[i].requiresApproval && !IsApproved(r[i])
    ensures forall i :: 0 <= i < |tasks| && tasks[i].requiresApproval && !IsApproved(tasks[i]) ==> tasks[i] in r
  {
    Filter(tasks, AwaitingTest)
  }

  /** `needsApproval`: awaiting approval and already completed. */
  predicate NeedsApproval(t: Task)
  {
    t.requiresApproval && !IsApproved(t) && t.status == Completed
  }

  /** Every task flagged for approval is among the pending approvals, and the badge equals the store's counter. */
  lemma NeedsApprovalIsPending(tasks: seq<Task>)
    ensures forall i :: 0 <= i < |tasks| && NeedsApproval(tasks[i]) ==> tasks[i] in PendingApprovals(tasks)
    ensures |PendingApprovals(tasks)| == CountAwaitingApproval(tasks)
  {
    CountIsFilterLength(tasks, AwaitingTest);
  }

  /** The converse fails: a task still in progress can await approval without being flagged. */
  lemma PendingNeedNotBeFlagged(t: Task)
    requires t.requiresApproval && !IsApproved(t) && t.status == InProgress
    ensures t in PendingApprovals([t]) && !NeedsApproval(t)
  {
    FilterSingleton(t, AwaitingTest);
  }
}
