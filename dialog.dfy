/**
 * The per-chat dialog of the bot as an explicit state machine. The source keeps
 * this state implicitly, in the nested one-shot `message` listeners registered by
 * the command and button handlers; here the pending prompt is the `Stage`, and a
 * step maps the current session, the chat's credentials and one inbound event to
 * the next session, the messages sent and the call made on the Bitrix24 service.
 */
module Dialog {

  import opened Wrappers
  import TaskBackend

  // ---------------------------------------------------------------------------
  // Menu labels, button tokens and the bot's texts
  // ---------------------------------------------------------------------------

  const CreateTaskCommand := "Создать задачу"
  const EditCommand := "Изменить текст"
  const PlansForDayCommand := "Планы на день"
  const PlansForWeekCommand := "Планы на неделю"
  const PlansForMonthCommand := "Планы на месяц"
  const SetWebhookCommand := "Установить Webhook URL"
  const SetUserIdCommand := "Установить User ID"

  const EditToken := "edit_text"
  const ConfirmToken := "confirm_and_create_task"

  const UserIdFirst := "Пожалуйста, сначала установите ваш User ID для Битрикс24 с помощью команды \"Установить User ID\"."
  const WebhookFirst := "Пожалуйста, сначала установите ваш Webhook URL для Битрикс24 с помощью команды \"Установить Webhook URL\"."
  const AskForVoice := "Пожалуйста, отправьте голосовое сообщение для расшифровки."
  const NothingToEdit := "Нет текста для изменения. Пожалуйста, сначала отправьте голосовое сообщение."
  const NothingToConfirm := "Нет текста для подтверждения. Пожалуйста, сначала отправьте голосовое сообщение."
  const AskForWebhook := "Пожалуйста, отправьте новый Webhook URL для Битрикс24."
  const AskForUserId := "Пожалуйста, отправьте ваш User ID для Битрикс24."
  const AskForTitle := "Введите заголовок для задачи:"
  const AskForDeadline := "Введите дедлайн для задачи (в формате YYYY-MM-DD HH:MM:SS):"

  function ShowCurrentText(text: string): string { "Текущий текст: " + text + "\nВведите новый текст:" }
  function TextUpdated(text: string): string { "Текст обновлен: " + text }
  function WebhookSet(url: string): string { "Webhook URL установлен: " + url }
  function UserIdSet(id: string): string { "User ID установлен: " + id }
  function TaskCreatedWith(text: string): string { "Задача создана с текстом: " + text }
  function ShowTranscript(text: string): string { "Транскрипция: " + text }

  function PlansHeading(period: TaskBackend.Period): string {
    match period
    case Day => "Планы на день:\n"
    case Week => "Планы на неделю:\n"
    case Month => "Планы на месяц:\n"
  }

  // ---------------------------------------------------------------------------
  // Sessions, events and reactions
  // ---------------------------------------------------------------------------

  /** Which entry led to the title prompt: the edit path or the confirm button. */
  datatype Origin = Edited | Confirmed

  /** The prompt a chat is waiting to have answered by its next text message. */
  datatype Stage =
    | Idle
    | AwaitingWebhook
    | AwaitingUserId
    | AwaitingNewText
    | AwaitingTitle(origin: Origin, description: string)
    | AwaitingDeadline(origin: Origin, description: string, title: string)

  /** A chat's stage and its entry in the transcript map. */
  datatype Session = Session(stage: Stage, transcript: Option<string>)

  /** An inbound event: a text message, a voice message with its transcription, or a button press. */
  datatype Event = Text(text: string) | Voice(transcription: string) | Button(data: string)

  /** The chat's credentials as the Bitrix24 service holds them at the moment of the event. */
  datatype Creds = Creds(webhook: Option<string>, userId: Option<string>)

  /** The clock and the answers the Bitrix24 remote gives to whatever request this step makes. */
  datatype Env = Env(now: int, listReply: TaskBackend.ListReply, addReply: TaskBackend.AddReply)

  /** A call made on the Bitrix24 service. */
  datatype Call =
    | SetUserWebhook(url: string)
    | SetUserId(id: string)
    | GetPlans(period: TaskBackend.Period)
    | CreateTask(title: string, description: string, deadline: string)

  datatype Reaction = Reaction(session: Session, sent: seq<string>, call: Option<Call>)

  /** The credential gate of "Создать задачу" and of the confirm button: user id first, then webhook. */
  function MissingCredential(creds: Creds): (prompt: Option<string>)
    ensures prompt == Some(UserIdFirst) <==> !TaskBackend.Present(creds.userId)
    ensures prompt == Some(WebhookFirst) <==>
      TaskBackend.Present(creds.userId) && !TaskBackend.Present(creds.webhook)
    ensures prompt.None? <==> TaskBackend.Present(creds.userId) && TaskBackend.Present(creds.webhook)
  {
    if !TaskBackend.Present(creds.userId) then Some(UserIdFirst)
    else if !TaskBackend.Present(creds.webhook) then Some(WebhookFirst)
    else None
  }

  /** The edit entry, shared by the typed command and the `edit_text` button. */
  function BeginEdit(s: Session): (r: Reaction)
    ensures r.call.None? && r.session.transcript == s.transcript && |r.sent| == 1
    // with a transcript the new-text prompt opens, showing it; without one nothing changes
    ensures s.transcript.Some? ==>
      r.session.stage == AwaitingNewText && r.sent == [ShowCurrentText(s.transcript.value)]
    ensures s.transcript.None? ==> r.session == s && r.sent == [NothingToEdit]
  {
    match s.transcript
    case None => Reaction(s, [NothingToEdit], None)
    case Some(text) => Reaction(Session(AwaitingNewText, s.transcript), [ShowCurrentText(text)], None)
  }

  /** The `confirm_and_create_task` button: the transcript is captured now, the gate checked now. */
  function BeginConfirm(s: Session, creds: Creds): (r: Reaction)
    ensures r.call.None? && r.session.transcript == s.transcript && |r.sent| == 1
    // the title prompt opens only with a transcript and both credentials set; otherwise nothing changes
    ensures s.transcript.Some? && MissingCredential(creds).None? ==>
      r.session.stage == AwaitingTitle(Confirmed, s.transcript.value) && r.sent == [AskForTitle]
    ensures s.transcript.Some? && MissingCredential(creds).Some? ==>
      r.session == s && r.sent == [MissingCredential(creds).value]
    ensures s.transcript.None? ==> r.session == s && r.sent == [NothingToConfirm]
  {
    match s.transcript
    case None => Reaction(s, [NothingToConfirm], None)
    case Some(text) =>
      match MissingCredential(creds)
      case Some(prompt) => Reaction(s, [prompt], None)
      case None => Reaction(Session(AwaitingTitle(Confirmed, text), s.transcript), [AskForTitle], None)
  }

  /** A plans command: one message, the heading followed by whatever `getPlans` returned. */
  function ShowPlans(s: Session, creds: Creds, period: TaskBackend.Period, env: Env): (r: Reaction)
    ensures r.session == s && r.call == Some(GetPlans(period)) && |r.sent| == 1
    ensures PlansHeading(period) <= r.sent[0]
    // the message is the heading followed by exactly what `getPlans` returned
    ensures r.sent == [PlansHeading(period) + TaskBackend.GetPlans(creds.webhook, period, env.now, env.listReply).text]
    ensures !TaskBackend.Present(creds.webhook) ==>
      r.sent[0] == PlansHeading(period) + TaskBackend.NoWebhookForPlans
  {
    var plans := TaskBackend.GetPlans(creds.webhook, period, env.now, env.listReply);
    Reaction(s, [PlansHeading(period) + plans.text], Some(GetPlans(period)))
  }

  /** A text message with no prompt pending: the menu commands, matched exactly; any other text is ignored. */
  function Command(s: Session, creds: Creds, text: string, env: Env): (r: Reaction)
    // a command keeps the transcript and never changes credentials or creates a task
    ensures r.session.transcript == s.transcript
    ensures r.call.Some? ==> r.call.value.GetPlans?
    ensures r.call == Some(GetPlans(TaskBackend.Day)) <==> text == PlansForDayCommand
    ensures r.call == Some(GetPlans(TaskBackend.Week)) <==> text == PlansForWeekCommand
    ensures r.call == Some(GetPlans(TaskBackend.Month)) <==> text == PlansForMonthCommand
    // from idle, exactly these prompts open
    ensures s.stage == Idle ==> (r.session.stage == AwaitingWebhook <==> text == SetWebhookCommand)
    ensures s.stage == Idle ==> (r.session.stage == AwaitingUserId <==> text == SetUserIdCommand)
    ensures s.stage == Idle ==>
      (r.session.stage == AwaitingNewText <==> text == EditCommand && s.transcript.Some?)
    // any other text is ignored
    ensures text !in {CreateTaskCommand, EditCommand, PlansForDayCommand, PlansForWeekCommand,
                      PlansForMonthCommand, SetWebhookCommand, SetUserIdCommand} ==>
      r == Reaction(s, [], None)
  {
    if text == CreateTaskCommand then
      Reaction(s, [MissingCredential(creds).GetOr(AskForVoice)], None)
    else if text == EditCommand then
      BeginEdit(s)
    else if text == PlansForDayCommand then
      ShowPlans(s, creds, TaskBackend.Day, env)
    else if text == PlansForWeekCommand then
      ShowPlans(s, creds, TaskBackend.Week, env)
    else if text == PlansForMonthCommand then
      ShowPlans(s, creds, TaskBackend.Month, env)
    else if text == SetWebhookCommand then
      Reaction(Session(AwaitingWebhook, s.transcript), [AskForWebhook], None)
    else if text == SetUserIdCommand then
      Reaction(Session(AwaitingUserId, s.transcript), [AskForUserId], None)
    else
      Reaction(s, [], None)
  }

  /** A text message answering the pending prompt, whatever its content. */
  function Answer(s: Session, creds: Creds, text: string, env: Env): (r: Reaction)
    requires s.stage != Idle
    // the answer always moves the dialog on; only the new-text answer replaces the transcript
    ensures r.session.stage != s.stage
    ensures r.session.transcript == if s.stage == AwaitingNewText then Some(text) else s.transcript
    ensures s.stage.AwaitingTitle? ==>
      r.session.stage == AwaitingDeadline(s.stage.origin, s.stage.description, text) && r.call.None?
    ensures s.stage == AwaitingNewText ==> r.session.stage == AwaitingTitle(Edited, text) && r.call.None?
    // the deadline answer ends the dialog: the task is requested and the backend's text is sent last
    ensures s.stage.AwaitingDeadline? ==>
      && r.session.stage == Idle
      && r.call == Some(CreateTask(s.stage.title, s.stage.description, text))
      && |r.sent| > 0
      && r.sent[|r.sent| - 1] ==
         TaskBackend.CreateTask(creds.webhook, creds.userId, s.stage.title, s.stage.description, text, env.addReply).text
    ensures s.stage == AwaitingWebhook ==> r.session.stage == Idle && r.call == Some(SetUserWebhook(text))
    ensures s.stage == AwaitingUserId ==> r.session.stage == Idle && r.call == Some(SetUserId(text))
  {
    match s.stage
    case AwaitingWebhook =>
      Reaction(Session(Idle, s.transcript), [WebhookSet(text)], Some(SetUserWebhook(text)))
    case AwaitingUserId =>
      Reaction(Session(Idle, s.transcript), [UserIdSet(text)], Some(SetUserId(text)))
    case AwaitingNewText =>
      Reaction(Session(AwaitingTitle(Edited, text), Some(text)), [TextUpdated(text), AskForTitle], None)
    case AwaitingTitle(origin, description) =>
      Reaction(Session(AwaitingDeadline(origin, description, text), s.transcript), [AskForDeadline], None)
    case AwaitingDeadline(origin, description, title) =>
      var result := TaskBackend.CreateTask(creds.webhook, creds.userId, title, description, text, env.addReply).text;
      var sent := if origin == Confirmed then [TaskCreatedWith(description), result] else [result];
      Reaction(Session(Idle, s.transcript), sent, Some(CreateTask(title, description, text)))
  }

  /** One event of one chat. */
  function Step(s: Session, creds: Creds, ev: Event, env: Env): (r: Reaction)
    // a transcript, once held, is never dropped
    ensures s.transcript.Some? ==> r.session.transcript.Some?
    // a voice message always replaces the transcript and leaves any pending prompt in place
    ensures ev.Voice? ==>
      r.session == Session(s.stage, Some(ev.transcription)) && r.call.None?
    // a task is created exactly when a text answers the deadline prompt, with the fields collected
    ensures (r.call.Some? && r.call.value.CreateTask?) <==> (s.stage.AwaitingDeadline? && ev.Text?)
    ensures s.stage.AwaitingDeadline? && ev.Text? ==>
      r.call == Some(CreateTask(s.stage.title, s.stage.description, ev.text)) && r.session.stage == Idle
    // credentials change only when a text answers the webhook or user-id prompt
    ensures r.call.Some? && r.call.value.SetUserWebhook? <==> s.stage == AwaitingWebhook && ev.Text?
    ensures r.call.Some? && r.call.value.SetUserId? <==> s.stage == AwaitingUserId && ev.Text?
  {
    match ev
    case Voice(transcription) =>
      Reaction(Session(s.stage, Some(transcription)), [ShowTranscript(transcription)], None)
    case Button(data) =>
      if data == EditToken then BeginEdit(s)
      else if data == ConfirmToken then BeginConfirm(s, creds)
      else Reaction(s, [], None)
    case Text(text) =>
      if s.stage == Idle then Command(s, creds, text, env) else Answer(s, creds, text, env)
  }

  // ---------------------------------------------------------------------------
  // Runs of several events
  // ---------------------------------------------------------------------------

  /** What a call does to the chat's credentials. */
  function Apply(creds: Creds, call: Option<Call>): Creds {
    match call
    case Some(SetUserWebhook(url)) => creds.(webhook := Some(url))
    case Some(SetUserId(id)) => creds.(userId := Some(id))
    case _ => creds
  }

  /** A chat's state together with everything sent and called so far. */
  datatype Trace = Trace(session: Session, creds: Creds, sent: seq<string>, calls: seq<Call>)

  function Advance(t: Trace, ev: Event, env: Env): Trace {
    var r := Step(t.session, t.creds, ev, env);
    Trace(r.session, Apply(t.creds, r.call), t.sent + r.sent, t.calls + (if r.call.Some? then [r.call.value] else []))
  }

  /** The events of one chat handled in order, the remote answering with `env` throughout. */
  function Run(t: Trace, events: seq<Event>, env: Env): (r: Trace)
    ensures t.sent <= r.sent && t.calls <= r.calls
    ensures |r.calls| <= |t.calls| + |events|
    decreases |events|
  {
    if events == [] then t else Run(Advance(t, events[0], env), events[1..], env)
  }

  lemma {:induction false} RunConcat(t: Trace, first: seq<Event>, second: seq<Event>, env: Env)
    ensures Run(t, first + second, env) == Run(Run(t, first, env), second, env)
    decreases |first|
  {
    if first == [] {
      assert first + second == second;
    } else {
      assert (first + second)[0] == first[0];
      assert (first + second)[1..] == first[1..] + second;
      RunConcat(Advance(t, first[0], env), first[1..], second, env);
    }
  }

  function Start(s: Session, creds: Creds): Trace {
    Trace(s, creds, [], [])
  }

  // ---------------------------------------------------------------------------
  // Properties of the dialog
  // ---------------------------------------------------------------------------

  /** "Создать задачу" checks the user id before the webhook and otherwise asks for a voice message. */
  lemma CreateTaskCommandGate(transcript: Option<string>, creds: Creds, env: Env)
    ensures var r := Step(Session(Idle, transcript), creds, Text(CreateTaskCommand), env);
      && r.session == Session(Idle, transcript) && r.call.None?
      && (!TaskBackend.Present(creds.userId) ==> r.sent == [UserIdFirst])
      && (TaskBackend.Present(creds.userId) && !TaskBackend.Present(creds.webhook) ==> r.sent == [WebhookFirst])
      && (TaskBackend.Present(creds.userId) && TaskBackend.Present(creds.webhook) ==> r.sent == [AskForVoice])
  {
  }

  /** Either edit entry without a transcript only says there is nothing to edit. */
  lemma EditWithoutTranscript(stage: Stage, creds: Creds, env: Env)
    ensures Step(Session(stage, None), creds, Button(EditToken), env) ==
      Reaction(Session(stage, None), [NothingToEdit], None)
    ensures Step(Session(Idle, None), creds, Text(EditCommand), env) ==
      Reaction(Session(Idle, None), [NothingToEdit], None)
  {
  }

  /** The confirm button without a transcript only says there is nothing to confirm. */
  lemma ConfirmWithoutTranscript(stage: Stage, creds: Creds, env: Env)
    ensures Step(Session(stage, None), creds, Button(ConfirmToken), env) ==
      Reaction(Session(stage, None), [NothingToConfirm], None)
  {
  }

  /** The confirm button checks the credentials held when it is pressed: user id, then webhook. */
  lemma ConfirmGate(stage: Stage, text: string, creds: Creds, env: Env)
    ensures var r := Step(Session(stage, Some(text)), creds, Button(ConfirmToken), env);
      && r.call.None?
      && (!TaskBackend.Present(creds.userId) ==>
            r.session == Session(stage, Some(text)) && r.sent == [UserIdFirst])
      && (TaskBackend.Present(creds.userId) && !TaskBackend.Present(creds.webhook) ==>
            r.session == Session(stage, Some(text)) && r.sent == [WebhookFirst])
      && (TaskBackend.Present(creds.userId) && TaskBackend.Present(creds.webhook) ==>
            r.session == Session(AwaitingTitle(Confirmed, text), Some(text)) && r.sent == [AskForTitle])
  {
  }

  /**
   * The edit flow: the next text replaces the transcript, the one after is the
   * title, the one after that the deadline, and exactly one task is created from
   * them, with no credential check in the dialog itself.
   */
  lemma EditFlow(current: string, entry: Event, newText: string, title: string, deadline: string,
                 creds: Creds, env: Env)
    requires entry == Text(EditCommand) || entry == Button(EditToken)
    ensures var t := Run(Start(Session(Idle, Some(current)), creds),
                         [entry, Text(newText), Text(title), Text(deadline)], env);
      && t.calls == [CreateTask(title, newText, deadline)]
      && t.session == Session(Idle, Some(newText))
      && t.creds == creds
      && t.sent == [ShowCurrentText(current), TextUpdated(newText), AskForTitle, AskForDeadline,
                    TaskBackend.CreateTask(creds.webhook, creds.userId, title, newText, deadline, env.addReply).text]
  {
    var t0 := Start(Session(Idle, Some(current)), creds);
    var t1 := Advance(t0, entry, env);
    assert t1 == Trace(Session(AwaitingNewText, Some(current)), creds, [ShowCurrentText(current)], []);
    var t2 := Advance(t1, Text(newText), env);
    var t3 := Advance(t2, Text(title), env);
    var t4 := Advance(t3, Text(deadline), env);
    // each line below unfolds Run by one event
    calc {
      Run(t0, [entry, Text(newText), Text(title), Text(deadline)], env);
      Run(t1, [Text(newText), Text(title), Text(deadline)], env);
      Run(t2, [Text(title), Text(deadline)], env);
      Run(t3, [Text(deadline)], env);
      t4;
    }
  }

  /**
   * The confirm flow with both credentials set: the next two texts are the title
   * and the deadline, and the task is created with the transcript captured when
   * the button was pressed; the bot then echoes that text and the outcome.
   */
  lemma ConfirmFlow(t: Trace, text: string, title: string, deadline: string, env: Env)
    requires t.session.transcript == Some(text)
    requires TaskBackend.Present(t.creds.userId) && TaskBackend.Present(t.creds.webhook)
    ensures var u := Run(t, [Button(ConfirmToken), Text(title), Text(deadline)], env);
      && u.calls == t.calls + [CreateTask(title, text, deadline)]
      && u.session == Session(Idle, Some(text))
      && u.creds == t.creds
      && u.sent == t.sent + [AskForTitle, AskForDeadline, TaskCreatedWith(text),
                    TaskBackend.CreateTask(t.creds.webhook, t.creds.userId, title, text, deadline, env.addReply).text]
  {
    var t1 := Advance(t, Button(ConfirmToken), env);
    assert t1 == Trace(Session(AwaitingTitle(Confirmed, text), Some(text)), t.creds, t.sent + [AskForTitle], t.calls);
    var t2 := Advance(t1, Text(title), env);
    var t3 := Advance(t2, Text(deadline), env);
    // each line below unfolds Run by one event
    calc {
      Run(t, [Button(ConfirmToken), Text(title), Text(deadline)], env);
      Run(t1, [Text(title), Text(deadline)], env);
      Run(t2, [Text(deadline)], env);
      t3;
    }
  }

  /**
   * Voice message, confirm, title, deadline, with both credentials set and the
   * remote accepting: exactly one task, with the transcription as description,
   * and the success text shown last.
   */
  lemma VoiceToTask(s: Session, transcription: string, title: string, deadline: string, creds: Creds, env: Env)
    requires TaskBackend.Present(creds.userId) && TaskBackend.Present(creds.webhook)
    requires env.addReply == TaskBackend.Added(true)
    ensures var t := Run(Start(s, creds), [Voice(transcription), Button(ConfirmToken), Text(title), Text(deadline)], env);
      && t.calls == [CreateTask(title, transcription, deadline)]
      && t.sent == [ShowTranscript(transcription), AskForTitle, AskForDeadline,
                    TaskCreatedWith(transcription), TaskBackend.TaskCreated]
      && t.session == Session(Idle, Some(transcription))
  {
    var t0 := Start(s, creds);
    var t1 := Advance(t0, Voice(transcription), env);
    assert t1 == Trace(Session(s.stage, Some(transcription)), creds, [ShowTranscript(transcription)], []);
    var t2 := Advance(t1, Button(ConfirmToken), env);
    assert t2.session == Session(AwaitingTitle(Confirmed, transcription), Some(transcription));
    var t3 := Advance(t2, Text(title), env);
    var t4 := Advance(t3, Text(deadline), env);
    // each line below unfolds Run by one event
    calc {
      Run(t0, [Voice(transcription), Button(ConfirmToken), Text(title), Text(deadline)], env);
      Run(t1, [Button(ConfirmToken), Text(title), Text(deadline)], env);
      Run(t2, [Text(title), Text(deadline)], env);
      Run(t3, [Text(deadline)], env);
      t4;
    }
  }

  /** After any voice message, even one carrying the failure text, both buttons work again. */
  lemma VoiceUnblocks(s: Session, transcription: string, creds: Creds, env: Env)
    ensures Run(Start(s, creds), [Voice(transcription), Button(EditToken)], env).session ==
      Session(AwaitingNewText, Some(transcription))
    ensures TaskBackend.Present(creds.userId) && TaskBackend.Present(creds.webhook) ==>
      Run(Start(s, creds), [Voice(transcription), Button(ConfirmToken)], env).session ==
        Session(AwaitingTitle(Confirmed, transcription), Some(transcription))
  {
    var t1 := Advance(Start(s, creds), Voice(transcription), env);
    assert t1.session == Session(s.stage, Some(transcription)) && t1.creds == creds;
    calc {
      Run(Start(s, creds), [Voice(transcription), Button(EditToken)], env);
      Run(t1, [Button(EditToken)], env);
      Advance(t1, Button(EditToken), env);
    }
    calc {
      Run(Start(s, creds), [Voice(transcription), Button(ConfirmToken)], env);
      Run(t1, [Button(ConfirmToken)], env);
      Advance(t1, Button(ConfirmToken), env);
    }
  }

  /** Setting the webhook: the prompt, then the next text is stored and echoed. */
  lemma SetWebhookFlow(transcript: Option<string>, url: string, creds: Creds, env: Env)
    ensures var t := Run(Start(Session(Idle, transcript), creds), [Text(SetWebhookCommand), Text(url)], env);
      && t.creds == creds.(webhook := Some(url))
      && t.calls == [SetUserWebhook(url)]
      && t.sent == [AskForWebhook, WebhookSet(url)]
      && t.session == Session(Idle, transcript)
  {
    var t1 := Advance(Start(Session(Idle, transcript), creds), Text(SetWebhookCommand), env);
    assert t1 == Trace(Session(AwaitingWebhook, transcript), creds, [AskForWebhook], []);
    calc {
      Run(Start(Session(Idle, transcript), creds), [Text(SetWebhookCommand), Text(url)], env);
      Run(t1, [Text(url)], env);
      Advance(t1, Text(url), env);
    }
  }

  /** Setting the user id: the prompt, then the next text is stored and echoed. */
  lemma SetUserIdFlow(transcript: Option<string>, id: string, creds: Creds, env: Env)
    ensures var t := Run(Start(Session(Idle, transcript), creds), [Text(SetUserIdCommand), Text(id)], env);
      && t.creds == creds.(userId := Some(id))
      && t.calls == [SetUserId(id)]
      && t.sent == [AskForUserId, UserIdSet(id)]
      && t.session == Session(Idle, transcript)
  {
    var t1 := Advance(Start(Session(Idle, transcript), creds), Text(SetUserIdCommand), env);
    assert t1 == Trace(Session(AwaitingUserId, transcript), creds, [AskForUserId], []);
    calc {
      Run(Start(Session(Idle, transcript), creds), [Text(SetUserIdCommand), Text(id)], env);
      Run(t1, [Text(id)], env);
      Advance(t1, Text(id), env);
    }
  }

  /**
   * Two task flows in a row: the second task carries only its own title,
   * transcript and deadline; nothing collected for the first one leaks into it.
   */
  lemma TwoTasksInARow(text: string, title: string, deadline: string,
                       next: string, nextTitle: string, nextDeadline: string, creds: Creds, env: Env)
    requires TaskBackend.Present(creds.userId) && TaskBackend.Present(creds.webhook)
    ensures var t := Run(Start(Session(Idle, Some(text)), creds),
                         [Button(ConfirmToken), Text(title), Text(deadline),
                          Voice(next), Button(ConfirmToken), Text(nextTitle), Text(nextDeadline)], env);
      && t.calls == [CreateTask(title, text, deadline), CreateTask(nextTitle, next, nextDeadline)]
      && t.session == Session(Idle, Some(next))
  {
    var t0 := Start(Session(Idle, Some(text)), creds);
    var first := [Button(ConfirmToken), Text(title), Text(deadline)];
    var second := [Button(ConfirmToken), Text(nextTitle), Text(nextDeadline)];
    assert [Button(ConfirmToken), Text(title), Text(deadline),
            Voice(next), Button(ConfirmToken), Text(nextTitle), Text(nextDeadline)]
      == first + ([Voice(next)] + second);
    RunConcat(t0, first, [Voice(next)] + second, env);
    ConfirmFlow(t0, text, title, deadline, env);
    var t3 := Run(t0, first, env);
    RunConcat(t3, [Voice(next)], second, env);
    var t4 := Run(t3, [Voice(next)], env);
    assert t4 == Advance(t3, Voice(next), env);
    ConfirmFlow(t4, next, nextTitle, nextDeadline, env);
  }
}
