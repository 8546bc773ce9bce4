# Telegram → Bitrix24 voice-task bot: a verified model of its core

The bot lets a Telegram user dictate a task by voice. It transcribes the audio
with AssemblyAI, lets the user edit or confirm the transcript, and then collects
a title and a deadline. Finally it files the task in Bitrix24 through the
user's own webhook URL and user id. Users can also list their tasks due within
the next day, 7 days or 30 days, counted from the moment of the request.

This project models the sequential core under the I/O:

- `credentials.dfy` (module `Credentials`): the per-chat credential store of
  `Bitrix24Service`. It is a class with two maps, webhook URLs and user ids.
  Each map is rebuilt from its snapshot file at start-up and written back in
  full after every change. The file system is a `Disk` object holding the two
  snapshots. `CredentialStore.Valid()` says that the maps in memory are exactly
  what a restart would load.
- `task_backend.dfy` (module `TaskBackend`): `getPlans` and `createTask` as pure
  functions. Each takes the chat's credentials and the remote's answer as
  inputs. Each returns the request it would send, if any, and the text it
  returns. This module also holds the period table, the deadline window, and
  the task-list rendering with its split/join round trip.
- `transcription.dfy` (module `Transcription`): `transcribeAudio` as a `while`
  loop over a finite sequence of poll answers.
- `dialog.dfy` (module `Dialog`): the dialog the source spreads over nested
  one-shot `message` listeners, written as an explicit state machine. A
  `Stage` is the prompt waiting for an answer. `Step` maps one event to the
  next session, the messages sent and the call made on the Bitrix24 service.
  `Run` folds `Step` over a chat's events. The scenario lemmas are stated
  over `Run`.
- `app.dfy` (module `App`): the `AppService` class. It holds the transcript
  map, the per-chat stages and the credential store. Its `Handle` method
  performs one dialog step: it writes the chat's session back and applies
  credential changes through the store's setters. Its `OnVoice` method runs the
  transcription loop and then stores the result.
- `wrappers.dfy`: `Option`, standing for a value that may be `undefined`.

Behaviour of the program that the model keeps:

- A credential counts as set under JavaScript truthiness: present and not the
  empty string (`TaskBackend.Present`).
- The edit path checks no credential in the dialog itself. Only `createTask`
  checks, when the deadline arrives (`Dialog.EditFlow`). The confirm button
  checks both credentials when it is pressed (`Dialog.ConfirmGate`).
- The task-list line uses the label `дедлайн`.
- A transcription job whose status is already `completed` or `failed` when it
  is submitted is never polled and yields the empty text.

Departures from the source, each also listed under "## Left out":

- One chat's events are handled in order. While a prompt is pending, the next
  text message answers it, whatever its content. It is not also dispatched as
  a menu command.
- A button that opens a new prompt replaces the pending one. In the source,
  `edit_text` and the confirm button add a second one-shot listener and keep
  the first (src/app.service.ts:155, src/app.service.ts:185).
- A voice message replaces the transcript and leaves the pending prompt in
  place. In the source a voice message is also a `message` event, so it fires
  the pending listener with `msg.text` undefined.

## Model

| member | source | states |
|---|---|---|
| Credentials.Restore | src/bitrix24.service.ts:20-28 | Loading a snapshot entry by entry gives the old map overridden by the file: keys are the union, file entries win, other entries stay. An absent file changes nothing. |
| Credentials.CredentialStore.constructor | src/bitrix24.service.ts:13-18 | A new store starts from empty maps, loads both files, and is then exactly what the disk holds (`Valid`). |
| Credentials.CredentialStore.LoadWebhooks | src/bitrix24.service.ts:20-28 | The webhook map becomes the old map overridden by the entries of the webhook file, if that file exists. |
| Credentials.CredentialStore.LoadUserIds | src/bitrix24.service.ts:35-43 | The same for the user-id map and its file. |
| Credentials.CredentialStore.SaveWebhooks | src/bitrix24.service.ts:30-33 | The webhook file is overwritten with the whole current map, not a delta. |
| Credentials.CredentialStore.SaveUserIds | src/bitrix24.service.ts:45-48 | The user-id file is overwritten with the whole current map. |
| Credentials.CredentialStore.SetUserWebhook | src/bitrix24.service.ts:50-53 | The chat's webhook becomes the given URL and every other chat's stays. The webhook file then holds the whole new map. The user-id map and file are unchanged, and `Valid` is kept. |
| Credentials.CredentialStore.SetUserId | src/bitrix24.service.ts:55-58 | The chat's user id becomes the given id and every other chat's stays. The user-id file then holds the whole new map. The webhook map and file are unchanged, and `Valid` is kept. |
| Credentials.CredentialStore.GetUserWebhook | src/bitrix24.service.ts:60-62 | Returns the chat's webhook if it has one, otherwise `undefined` (`None`). |
| Credentials.CredentialStore.GetUserId | src/bitrix24.service.ts:64-66 | Returns the chat's user id if it has one, otherwise `undefined` (`None`). |
| Credentials.Restart | src/bitrix24.service.ts:13-48 | Restart round trip: a newly allocated store over the same disk holds the same two maps, so every lookup gives what it gave before the restart. |
| Credentials.SetUserWebhookTwice | src/bitrix24.service.ts:30-53 | Setting the same webhook twice leaves the map and the saved file as one call leaves them (idempotence). |
| Credentials.SetUserIdTwice | src/bitrix24.service.ts:45-58 | Setting the same user id twice leaves the map and the saved file as one call leaves them. |
| TaskBackend.Present | src/bitrix24.service.ts:108-114 | JavaScript truthiness of a credential: `undefined` and the empty string are unset, any non-empty string is set. The same test guards src/bitrix24.service.ts:76 and src/app.service.ts:62, 66, 176 and 180. |
| TaskBackend.PeriodDays | src/bitrix24.service.ts:70-74 | `periodMap`: one day for the day window, 30 for the month, and every window between one and 30 days. |
| TaskBackend.WindowEnd | src/bitrix24.service.ts:70-87 | The window end lies strictly after `now`. |
| TaskBackend.WindowsNested | src/bitrix24.service.ts:70-87 | The windows end at `now` plus 1, 7 and 30 days of 86 400 000 ms. All three start at `now`, so day < week < month. |
| TaskBackend.TaskLine | src/bitrix24.service.ts:97 | A task's line starts with the bullet `"- "`, then holds the title verbatim, the label `" (дедлайн: "`, and ends with the deadline verbatim and a closing `)`; it is 14 characters longer than title and deadline together. |
| TaskBackend.JoinLines | src/bitrix24.service.ts:97 | `join('\n')`: a joined listing starts with the first line and ends with the last. |
| TaskBackend.TaskLines | src/bitrix24.service.ts:97 | Gives one line per task, in input order, each `"- " + title + " (дедлайн: " + deadline + ")"`. |
| TaskBackend.SplitLines | src/bitrix24.service.ts:97 | Reference splitting at newlines, used to check the `'\n'` join; it always yields at least one piece. |
| TaskBackend.SplitJoin | src/bitrix24.service.ts:97 | Lines without newlines, joined with `'\n'`, split back into exactly those lines. |
| TaskBackend.GetPlans | src/bitrix24.service.ts:68-102 | With no (falsy) webhook, returns the "Webhook URL не установлен…" text and makes no request. Otherwise queries `<webhook>/tasks.task.list` for deadlines in (now, WindowEnd). Then returns the fetch-error text on a transport error, "Нет задач на выбранный период." for an empty list, and otherwise the rendered lines joined by `'\n'`. |
| TaskBackend.PlansListTasksInOrder | src/bitrix24.service.ts:92-97 | A non-empty listing splits back into exactly one rendered line per task, in the remote's order (titles and deadlines without newlines). It starts with "- ". |
| TaskBackend.CreateTask | src/bitrix24.service.ts:104-135 | A request is made iff both credentials are set. The webhook is checked before the user id, and each missing one gives its own text. The request carries title, description, user id and deadline verbatim. A truthy `result` gives the success text, a falsy one the failure text, and a transport error the error text. |
| TaskBackend.CreateTaskOutcomeReadable | src/bitrix24.service.ts:108-134 | Each of the five outcome texts occurs exactly in its own case, so the text tells which outcome happened. |
| Transcription.TranscribeAudio | src/app.service.ts:202-247 | The result equals `Transcribed`, a definition of the outcome without the loop. A failed upload or submission returns the failure text without polling. A job already `completed`/`failed` at submission is never polled and gives `''`. Otherwise polling goes on exactly while answers are neither `completed` nor `failed`. A `completed` poll returns its text. A `failed` poll or a transport error returns "Извините, произошла ошибка при транскрипции аудио.". When no answer was terminal, every answer was consumed and the call has not returned (`None`). |
| Dialog.MissingCredential | src/app.service.ts:61-69 | The shared gate of the create-task command and the confirm button. It asks for the user id iff that is unset. It asks for the webhook iff the user id is set and the webhook is not. It lets the dialog through iff both are set. |
| Transcription.StopsAtFirstTerminal | src/app.service.ts:225-245 | However many non-terminal answers come first, the call ends at the first `completed`, `failed` or erroring answer with its outcome, whatever answers follow. |
| Transcription.FirstStop | src/app.service.ts:225-245 | The loop's outcome stated without a loop: the first answer that stops the polling decides it, and there is none exactly when every answer keeps the polling going. |
| Transcription.QueuedJob | src/app.service.ts:225-245 | A job submitted as `queued`, polled once while `processing`, gives the completed text, or the failure text when it reports `failed`. |
| Dialog.BeginEdit | src/app.service.ts:71-91 | The edit entry (also the `edit_text` button, lines 152-172): with a transcript it shows it and opens the new-text prompt; without one it only sends "Нет текста для изменения…". No call, and the transcript is kept. |
| Dialog.BeginConfirm | src/app.service.ts:173-197 | The confirm button: with a transcript and both credentials it opens the title prompt holding that transcript. A missing credential sends only its prompt, no transcript sends only "Нет текста для подтверждения…"; both leave the session as it was. No call. |
| Dialog.ShowPlans | src/app.service.ts:92-100 | A plans command calls `getPlans` for its period and sends one message: the period's heading followed by exactly the text `TaskBackend.GetPlans` returns, the missing-webhook text when no webhook is set. The session is kept. |
| Dialog.Command | src/app.service.ts:57-116 | The menu dispatcher never changes credentials or creates a task, and keeps the transcript. It calls `getPlans(day/week/month)` exactly for the three plans labels. From idle it opens the webhook and user-id prompts exactly for their labels, and the new-text prompt exactly for "Изменить текст" with a transcript. Any other text is ignored. |
| Dialog.Answer | src/app.service.ts:74-114 | The nested one-shot listeners (also lines 155-168 and 185-193): every answer moves the dialog on. A new text replaces the transcript and asks for the title, a title asks for the deadline, and a deadline ends the dialog with `createTask(title, description, deadline)` whose text is sent last. A webhook or user-id answer sets that credential and returns to idle. |
| Dialog.Step | src/app.service.ts:57-199 | A step never drops a transcript. A voice message always replaces the transcript and keeps the stage. A `createTask` call happens exactly when a text answers the deadline prompt, and then it carries the collected title and description and that text as deadline, and the stage returns to idle. Credentials change exactly when a text answers the webhook or user-id prompt. |
| Dialog.Run | src/app.service.ts:57-199 | Handling a chat's events in order only appends to the messages sent and calls made, at most one call per event. |
| Dialog.RunConcat | src/app.service.ts:57-199 | Handling two event sequences one after the other is handling their concatenation. |
| Dialog.CreateTaskCommandGate | src/app.service.ts:61-70 | "Создать задачу" sends only the user-id prompt when there is no user id. It sends only the webhook prompt when there is a user id but no webhook. Otherwise it sends the request for a voice message. It never changes the session or calls the backend. |
| Dialog.EditWithoutTranscript | src/app.service.ts:71-91 | With no transcript, the typed "Изменить текст" and the `edit_text` button (lines 152-172) only send "Нет текста для изменения…" and change nothing. |
| Dialog.ConfirmWithoutTranscript | src/app.service.ts:173-197 | With no transcript, `confirm_and_create_task` only sends "Нет текста для подтверждения…". It makes no call and changes nothing. |
| Dialog.ConfirmGate | src/app.service.ts:173-184 | Confirm checks the credentials held when it fires: user id first, then webhook, each failure sending only its prompt. With both set, it moves to the title prompt with the current transcript captured. |
| Dialog.EditFlow | src/app.service.ts:71-88 | After either edit entry, the next text replaces the transcript, the next is the title and the next the deadline. Exactly one `createTask(title, newText, deadline)` follows, with no credential check in the dialog, and its result is sent. |
| Dialog.ConfirmFlow | src/app.service.ts:175-194 | With both credentials set, confirm then two texts give exactly one `createTask(title, transcript-at-confirm, deadline)`. The bot then sends "Задача создана с текстом: …" and the backend's result. |
| Dialog.VoiceToTask | src/app.service.ts:118-194 | Voice, confirm, title and deadline with full credentials and an accepting remote give exactly one task with the transcription as description. The success text is sent last. |
| Dialog.VoiceUnblocks | src/app.service.ts:128-130 | After any voice message, including one carrying the failure text, from any stage, edit opens the new-text prompt. With both credentials set, confirm opens the title prompt with that transcription. |
| Dialog.SetWebhookFlow | src/app.service.ts:101-107 | "Установить Webhook URL" then a text stores that text as the chat's webhook and echoes it. |
| Dialog.SetUserIdFlow | src/app.service.ts:108-114 | "Установить User ID" then a text stores that text as the chat's user id and echoes it. |
| Dialog.TwoTasksInARow | src/app.service.ts:173-194 | Two consecutive confirm flows create exactly two tasks. The second carries only its own title, transcript and deadline. |
| App.AppService.constructor | src/app.service.ts:13-17 | The service starts with an empty transcript map, no pending prompts, and a newly allocated credential store loaded from the disk. |
| App.AppService.Handle | src/app.service.ts:57-199 | One event: the chat's session becomes the one `Dialog.Step` gives, and the requested credential change goes through the store's setters. The messages sent are the step's. The stage and transcript maps change only at this chat, and other chats' sessions and credentials are unchanged. |
| App.AppService.OnVoice | src/app.service.ts:118-148 | The stored text is `Transcription.Transcribed` of the upload, submission and poll answers: a completed poll's text, the failure text after a failed poll or any error, `''` for a job already terminal at submission. That result, failure text included, overwrites the chat's transcript entry. The stage is kept and "Транскрипция: …" is sent. A failed upload or submission stores the failure text and an already-terminal job stores `''`. No credential changes. |
| App.WebhookSurvivesRestart | src/app.service.ts:101-107 | On a newly built service, "Установить Webhook URL" and then a URL, followed by a restart of the credential store from the same disk, leave that URL as the chat's webhook. |

## Left out

- The Telegram Bot API is left out: polling, `sendMessage`, `getFile`, the
  audio download (src/app.service.ts:120-126), and the reply and inline
  keyboards. Outgoing messages are a returned sequence of strings. Inbound
  messages are `Text`, `Voice` (carrying the transcription) or `Button` events.
- The failure of the audio download is left out. `getFile` and the download
  (src/app.service.ts:122-126) run outside `transcribeAudio`'s `try`, so when
  either throws, the voice handler stops: no transcript is stored and
  "Транскрипция: …" is not sent. `Dialog.Step`'s voice clause,
  `Dialog.VoiceUnblocks` and `App.AppService.OnVoice` describe a voice message
  whose download succeeded.
- The `/start` greeting (src/app.service.ts:21-55) is left out. It only sends
  the menu keyboard and touches no state.
- Non-text messages whose `msg.text` is `undefined` are left out. Such a
  message (a voice message included) also reaches the `message` handler and
  any pending one-shot listener.
- The axios calls to AssemblyAI and Bitrix24 are left out. So are the API key
  headers, the upload URL and the `ru` language hint. Each response is an
  abstract input: a poll status and text, a task list, a `result` truthiness,
  or a transport error.
- `fs`, `JSON.stringify`/`JSON.parse`, the file paths and the `Number(chatId)`
  key parsing are left out. A file is modelled as a snapshot of the map it was
  written from.
- `Date.now()` and `toISOString()` are left out. `now` is an integer
  millisecond input. The two clock reads at src/bitrix24.service.ts:84 and
  src/bitrix24.service.ts:86 are taken as one instant. The window bounds stay
  integers.
- The five-second `setTimeout` between polls is left out: it only delays.
- The global scope of `bot.once('message')` is left out: cross-chat answers,
  and several pending listeners answered by the same message. In the source,
  the text that answers a prompt also passes through the menu dispatcher.
  The model gives it to the pending prompt only.
- Stacked prompts are left out. A button that opens a prompt while another is
  pending replaces it in the model; the source keeps both listeners, and the
  next message answers both (src/app.service.ts:155, src/app.service.ts:185).
- Message delivery order is left out. `sendMessage` promises are not awaited,
  so the model records messages in the order they are issued. It takes each
  awaited backend call as finishing before the next event.
- Dialog.Run: one `Env` (clock and remote answers) serves every event of a run.
  A run therefore cannot describe a remote that answers differently from one
  event to the next. `Step` itself takes a fresh `Env` per event.
- Transcription.TranscribeAudio: the source can poll forever. The model stops
  when the given answers run out, and returns `None` (still waiting).
- `console.log`/`console.error` logging is left out.
