/**
 * The two Bitrix24 operations of the bot: listing the tasks whose deadline falls
 * in a window starting now, and adding a task. The HTTP exchange itself is not
 * modelled: each operation returns the request it would send (if any) and takes
 * the remote's answer as an input.
 */
module TaskBackend {

  import opened Wrappers

  /** A credential under JavaScript truthiness: neither `undefined` nor the empty string. */
  function Present(credential: Option<string>): (truthy: bool)
    ensures credential.None? ==> !truthy
    ensures credential == Some("") ==> !truthy
    ensures credential.Some? && |credential.value| > 0 ==> truthy
  {
    credential.Some? && credential.value != ""
  }

  datatype Period = Day | Week | Month

  /** The length of each listing window in days (`periodMap`). */
  function PeriodDays(period: Period): (days: nat)
    ensures 1 <= days <= 30
    ensures days == 1 <==> period == Day
    ensures days == 30 <==> period == Month
  {
    match period
    case Day => 1
    case Week => 7
    case Month => 30
  }

  const MillisPerDay: int := 24 * 60 * 60 * 1000

  /** The exclusive upper bound of the deadline window, in milliseconds since the epoch. */
  function WindowEnd(now: int, period: Period): (end: int)
    ensures now < end
  {
    now + PeriodDays(period) * MillisPerDay
  }

  /** All windows start at `now`; the day window ends first, then the week, then the month. */
  lemma WindowsNested(now: int)
    ensures WindowEnd(now, Day) == now + 86400000
    ensures WindowEnd(now, Week) == now + 7 * 86400000
    ensures WindowEnd(now, Month) == now + 30 * 86400000
    ensures now < WindowEnd(now, Day) < WindowEnd(now, Week) < WindowEnd(now, Month)
  {
  }

  // ---------------------------------------------------------------------------
  // Listing tasks
  // ---------------------------------------------------------------------------

  datatype Task = Task(title: string, deadline: string)

  /** The remote's answer to `tasks.task.list`: the task list, or any thrown error. */
  datatype ListReply = Listed(tasks: seq<Task>) | ListFailed

  /** A `tasks.task.list` request: the URL and the open deadline bounds (`>DEADLINE`, `<DEADLINE`). */
  datatype ListQuery = ListQuery(url: string, deadlineAfter: int, deadlineBefore: int)

  datatype Plans = Plans(query: Option<ListQuery>, text: string)

  const NoWebhookForPlans := "Webhook URL не установлен. Пожалуйста, установите Webhook URL для Битрикс24."
  const NoTasks := "Нет задач на выбранный период."
  const PlansFailed := "Извините, произошла ошибка при получении задач из Битрикс24."

  /** A task's line: the bullet, the title verbatim, then the deadline verbatim in parentheses. */
  function TaskLine(task: Task): (line: string)
    ensures "- " <= line
    ensures |line| == |task.title| + |task.deadline| + 14
    ensures line[2..2 + |task.title|] == task.title
    ensures line[|line| - 1 - |task.deadline|..|line| - 1] == task.deadline
    ensures line[2 + |task.title|..|line| - 1 - |task.deadline|] == " (дедлайн: "
    ensures line[|line| - 1] == ')'
  {
    "- " + task.title + " (дедлайн: " + task.deadline + ")"
  }

  /** One rendered line per task, in the order the remote listed them. */
  function TaskLines(tasks: seq<Task>): (lines: seq<string>)
    ensures |lines| == |tasks|
    ensures forall i :: 0 <= i < |tasks| ==> lines[i] == TaskLine(tasks[i])
  {
    seq(|tasks|, i requires 0 <= i < |tasks| => TaskLine(tasks[i]))
  }

  /** The lines joined with a newline between each two (`join('\n')`). */
  function JoinLines(lines: seq<string>): (text: string)
    // the text starts with the first line and ends with the last
    ensures |lines| > 0 ==> lines[0] <= text
    ensures |lines| > 0 ==> var last := lines[|lines| - 1];
      |last| <= |text| && text[|text| - |last|..] == last
  {
    if |lines| == 0 then ""
    else if |lines| == 1 then lines[0]
    else lines[0] + "\n" + JoinLines(lines[1..])
  }

  /** The pieces of a text between its newlines; the reference against which `JoinLines` is checked. */
  function SplitLines(text: string): (pieces: seq<string>)
    ensures |pieces| >= 1
  {
    if text == [] then [""]
    else
      var rest := SplitLines(text[1..]);
      if text[0] == '\n' then [""] + rest
      else [[text[0]] + rest[0]] + rest[1..]
  }

  lemma {:induction false} SplitWithoutNewline(text: string)
    requires '\n' !in text
    ensures SplitLines(text) == [text]
  {
    if text != [] {
      SplitWithoutNewline(text[1..]);
      assert [text[0]] + text[1..] == text;
    }
  }

  lemma {:induction false} SplitAfterLine(line: string, rest: string)
    requires '\n' !in line
    ensures SplitLines(line + "\n" + rest) == [line] + SplitLines(rest)
  {
    if line == [] {
      assert line + "\n" + rest == "\n" + rest;
      assert ("\n" + rest)[1..] == rest;
    } else {
      SplitAfterLine(line[1..], rest);
      assert (line + "\n" + rest)[1..] == line[1..] + "\n" + rest;
      assert [line[0]] + line[1..] == line;
    }
  }

  /** Joining lines that hold no newline can be undone: the text splits back into exactly those lines. */
  lemma {:induction false} SplitJoin(lines: seq<string>)
    requires |lines| >= 1
    requires forall i :: 0 <= i < |lines| ==> '\n' !in lines[i]
    ensures SplitLines(JoinLines(lines)) == lines
  {
    if |lines| == 1 {
      SplitWithoutNewline(lines[0]);
    } else {
      SplitAfterLine(lines[0], JoinLines(lines[1..]));
      SplitJoin(lines[1..]);
      assert [lines[0]] + lines[1..] == lines;
    }
  }

  /** `getPlans` for one chat's webhook, with `now` the clock reading and `reply` the remote's answer. */
  function GetPlans(webhook: Option<string>, period: Period, now: int, reply: ListReply): (r: Plans)
    ensures r.query.None? <==> !Present(webhook)
    ensures !Present(webhook) ==> r.text == NoWebhookForPlans
    ensures Present(webhook) ==>
      r.query == Some(ListQuery(webhook.value + "/tasks.task.list", now, WindowEnd(now, period)))
    ensures Present(webhook) && reply.ListFailed? ==> r.text == PlansFailed
    ensures Present(webhook) && reply == Listed([]) ==> r.text == NoTasks
    ensures Present(webhook) && reply.Listed? && reply.tasks != [] ==>
      r.text == JoinLines(TaskLines(reply.tasks))
  {
    if !Present(webhook) then
      Plans(None, NoWebhookForPlans)
    else
      var query := ListQuery(webhook.value + "/tasks.task.list", now, WindowEnd(now, period));
      match reply
      case ListFailed => Plans(Some(query), PlansFailed)
      case Listed(tasks) =>
        if |tasks| == 0 then Plans(Some(query), NoTasks)
        else Plans(Some(query), JoinLines(TaskLines(tasks)))
  }

  lemma TaskLineSingle(task: Task)
    requires '\n' !in task.title && '\n' !in task.deadline
    ensures '\n' !in TaskLine(task)
  {
  }

  /**
   * A non-empty listing shows every task on its own line, in the remote's order,
   * as long as no title or deadline holds a newline; and it starts with the
   * first task's "- " bullet.
   */
  lemma PlansListTasksInOrder(webhook: Option<string>, period: Period, now: int, tasks: seq<Task>)
    requires Present(webhook) && tasks != []
    requires forall i :: 0 <= i < |tasks| ==> '\n' !in tasks[i].title && '\n' !in tasks[i].deadline
    ensures SplitLines(GetPlans(webhook, period, now, Listed(tasks)).text) == TaskLines(tasks)
    ensures "- " <= GetPlans(webhook, period, now, Listed(tasks)).text
  {
    var lines := TaskLines(tasks);
    forall i | 0 <= i < |lines| ensures '\n' !in lines[i] {
      TaskLineSingle(tasks[i]);
    }
    SplitJoin(lines);
    TaskLineSingle(tasks[0]);
  }

  // ---------------------------------------------------------------------------
  // Creating a task
  // ---------------------------------------------------------------------------

  /** The remote's answer to `tasks.task.add`: the truthiness of its `result`, or any thrown error. */
  datatype AddReply = Added(result: bool) | AddFailed

  /** A `tasks.task.add` request with its four fields. */
  datatype AddRequest = AddRequest(url: string, title: string, description: string, responsibleId: string, deadline: string)

  datatype Creation = Creation(request: Option<AddRequest>, text: string)

  const NoWebhookForTask := "Не удалось создать задачу в Битрикс24: Webhook URL не найден."
  const NoUserIdForTask := "Не удалось создать задачу в Битрикс24: идентификатор пользователя не найден."
  const TaskCreated := "Задача успешно создана в Битрикс24."
  const TaskRejected := "Не удалось создать задачу в Битрикс24."
  const TaskFailed := "Извините, произошла ошибка при создании задачи в Битрикс24."

  /** `createTask` for one chat's credentials, with `reply` the remote's answer. */
  function CreateTask(webhook: Option<string>, userId: Option<string>, title: string, description: string,
                      deadline: string, reply: AddReply): (r: Creation)
    ensures r.request.Some? <==> Present(webhook) && Present(userId)
    ensures !Present(webhook) ==> r.text == NoWebhookForTask
    ensures Present(webhook) && !Present(userId) ==> r.text == NoUserIdForTask
    ensures r.request.Some? ==>
      r.request.value == AddRequest(webhook.value + "/tasks.task.add", title, description, userId.value, deadline)
    ensures r.request.Some? && reply == Added(true) ==> r.text == TaskCreated
    ensures r.request.Some? && reply == Added(false) ==> r.text == TaskRejected
    ensures r.request.Some? && reply == AddFailed ==> r.text == TaskFailed
  {
    if !Present(webhook) then
      Creation(None, NoWebhookForTask)
    else if !Present(userId) then
      Creation(None, NoUserIdForTask)
    else
      var request := AddRequest(webhook.value + "/tasks.task.add", title, description, userId.value, deadline);
      match reply
      case Added(result) => Creation(Some(request), if result then TaskCreated else TaskRejected)
      case AddFailed => Creation(Some(request), TaskFailed)
  }

  /** The five outcome texts are pairwise distinct, so the text tells which outcome happened. */
  lemma CreateTaskOutcomeReadable(webhook: Option<string>, userId: Option<string>, title: string,
                                  description: string, deadline: string, reply: AddReply)
    ensures var r := CreateTask(webhook, userId, title, description, deadline, reply);
      && (r.text == NoWebhookForTask <==> !Present(webhook))
      && (r.text == NoUserIdForTask <==> Present(webhook) && !Present(userId))
      && (r.text == TaskCreated <==> r.request.Some? && reply == Added(true))
      && (r.text == TaskRejected <==> r.request.Some? && reply == Added(false))
      && (r.text == TaskFailed <==> r.request.Some? && reply == AddFailed)
  {
  }
}
