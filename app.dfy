/**
 * The bot's service object: the transcript map and the per-chat dialog stages it
 * keeps in memory, and the Bitrix24 service whose credential maps it updates.
 * Each event handler reads the chat's session and credentials, takes one dialog
 * step, performs the credential call the step asks for, and writes the chat's
 * session back.
 */
module App {

  import opened Wrappers
  import Credentials
  import Transcription
  import Dialog

  class AppService {
    var transcriptionMap: map<int, string>
    var stages: map<int, Dialog.Stage>
    const store: Credentials.CredentialStore

    ghost predicate Valid()
      reads this, store, store.disk
    {
      store.Valid()
    }

    constructor (disk: Credentials.Disk)
      ensures Valid() && fresh(store) && store.disk == disk
      ensures transcriptionMap == map[] && stages == map[]
    {
      transcriptionMap := map[];
      stages := map[];
      store := new Credentials.CredentialStore(disk);
    }

    /** A chat's session; a chat never seen before is idle and holds no transcript. */
    function SessionOf(chatId: int): Dialog.Session
      reads this
    {
      Dialog.Session(
        if chatId in stages then stages[chatId] else Dialog.Idle,
        if chatId in transcriptionMap then Some(transcriptionMap[chatId]) else None)
    }

    function CredsOf(chatId: int): Dialog.Creds
      reads this, store
    {
      Dialog.Creds(store.GetUserWebhook(chatId), store.GetUserId(chatId))
    }

    /** One event of chat `chatId`; returns the messages sent to that chat. */
    method Handle(chatId: int, ev: Dialog.Event, env: Dialog.Env) returns (sent: seq<string>)
      requires Valid()
      modifies this, store, store.disk
      ensures Valid()
      ensures var r := Dialog.Step(old(SessionOf(chatId)), old(CredsOf(chatId)), ev, env);
        && SessionOf(chatId) == r.session
        && CredsOf(chatId) == Dialog.Apply(old(CredsOf(chatId)), r.call)
        && sent == r.sent
        && stages == old(stages)[chatId := r.session.stage]
        && transcriptionMap == match r.session.transcript
             case Some(text) => old(transcriptionMap)[chatId := text]
             case None => old(transcriptionMap)
      ensures forall c :: c != chatId ==> SessionOf(c) == old(SessionOf(c)) && CredsOf(c) == old(CredsOf(c))
    {
      var session := SessionOf(chatId);
      var creds := CredsOf(chatId);
      var r := Dialog.Step(session, creds, ev, env);
      match r.call {
        case Some(SetUserWebhook(url)) => store.SetUserWebhook(chatId, url);
        case Some(SetUserId(id)) => store.SetUserId(chatId, id);
        case _ =>
      }
      // a step never drops a transcript, so the map only ever gains or overwrites the entry
      if r.session.transcript.Some? {
        transcriptionMap := transcriptionMap[chatId := r.session.transcript.value];
      }
      stages := stages[chatId := r.session.stage];
      sent := r.sent;
    }

    /**
     * A voice message: transcribe it, then store whatever came back, the failure
     * text included, as the chat's transcript. `text` is `None` while the job is
     * still unresolved within the given poll answers; then nothing has changed.
     */
    method OnVoice(chatId: int, uploaded: bool, submitted: Transcription.Response,
                   polls: seq<Transcription.Response>, env: Dialog.Env)
      returns (text: Option<string>, sent: seq<string>)
      requires Valid()
      modifies this, store, store.disk
      ensures Valid()
      ensures text == Transcription.Transcribed(uploaded, submitted, polls)
      ensures !uploaded || submitted.TransportError? ==> text == Some(Transcription.Failure)
      ensures uploaded && submitted.Response? && Transcription.Terminal(submitted.status) ==> text == Some("")
      ensures text.Some? ==>
        && transcriptionMap == old(transcriptionMap)[chatId := text.value]
        && SessionOf(chatId).stage == old(SessionOf(chatId)).stage
        && sent == [Dialog.ShowTranscript(text.value)]
      ensures text.None? ==> transcriptionMap == old(transcriptionMap) && stages == old(stages) && sent == []
      ensures forall c :: CredsOf(c) == old(CredsOf(c))
      ensures forall c :: c != chatId ==> SessionOf(c) == old(SessionOf(c))
    {
      var polled;
      text, polled := Transcription.TranscribeAudio(uploaded, submitted, polls);
      if text.None? {
        return text, [];
      }
      sent := Handle(chatId, Dialog.Voice(text.value), env);
    }
  }

  /**
   * A fresh service: the webhook command and a URL, then a restart of the
   * credential store from the same disk, which still knows the URL.
   */
  method WebhookSurvivesRestart(disk: Credentials.Disk, chatId: int, url: string, env: Dialog.Env)
    returns (restored: Credentials.CredentialStore)
    modifies disk
    ensures restored.GetUserWebhook(chatId) == Some(url)
  {
    var app := new AppService(disk);
    var sent := app.Handle(chatId, Dialog.Text(Dialog.SetWebhookCommand), env);
    sent := app.Handle(chatId, Dialog.Text(url), env);
    restored := Credentials.Restart(app.store);
  }
}
