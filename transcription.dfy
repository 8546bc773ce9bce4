/**
 * The AssemblyAI transcription protocol: upload the audio, submit a job, then
 * poll the job until its status is "completed" or "failed". The remote's answers
 * are inputs; the five-second pause between polls is not modelled.
 */
module Transcription {

  import opened Wrappers

  const Failure := "Извините, произошла ошибка при транскрипции аудио."

  /** An answer from the speech service: a job's status and text, or a transport error. */
  datatype Response = Response(status: string, text: string) | TransportError

  predicate Terminal(status: string) {
    status == "completed" || status == "failed"
  }

  /** A poll answer after which the loop sleeps and polls again. */
  predicate KeepsPolling(poll: Response) {
    poll.Response? && !Terminal(poll.status)
  }

  /** What the call returns once it stops on `poll`: the text of a completed job, else the failure text. */
  function Outcome(poll: Response): string
    requires !KeepsPolling(poll)
  {
    if poll.Response? && poll.status == "completed" then poll.text else Failure
  }

  /** The outcome of the first answer that stops the polling; `None` when every answer keeps it going. */
  function FirstStop(polls: seq<Response>): (r: Option<string>)
    ensures r.None? <==> forall j :: 0 <= j < |polls| ==> KeepsPolling(polls[j])
  {
    if |polls| == 0 then None
    else if KeepsPolling(polls[0]) then FirstStop(polls[1..])
    else Some(Outcome(polls[0]))
  }

  /**
   * What `transcribeAudio` returns for these answers, stated without its loop:
   * the failure text when the upload or the submission fails, `''` for a job
   * already terminal at submission, and otherwise the first poll that stops.
   */
  function Transcribed(uploaded: bool, submitted: Response, polls: seq<Response>): Option<string> {
    if !uploaded || submitted.TransportError? then Some(Failure)
    else if Terminal(submitted.status) then Some("")
    else FirstStop(polls)
  }

  /**
   * However many non-terminal answers come first, the call ends with the first
   * answer that stops the polling, whatever follows it: a completed job's text
   * or the failure text.
   */
  lemma {:induction false} StopsAtFirstTerminal(waiting: seq<Response>, stop: Response, rest: seq<Response>)
    requires forall j :: 0 <= j < |waiting| ==> KeepsPolling(waiting[j])
    requires !KeepsPolling(stop)
    ensures FirstStop(waiting + [stop] + rest) == Some(Outcome(stop))
  {
    if |waiting| > 0 {
      StopsAtFirstTerminal(waiting[1..], stop, rest);
      assert (waiting + [stop] + rest)[1..] == waiting[1..] + [stop] + rest;
    } else {
      assert (waiting + [stop] + rest)[0] == stop;
    }
  }

  /** The usual path: a queued job polled while processing, then completed or failed. */
  lemma QueuedJob(text: string)
    ensures Transcribed(true, Response("queued", ""), [Response("processing", ""), Response("completed", text)])
      == Some(text)
    ensures Transcribed(true, Response("queued", ""), [Response("processing", ""), Response("failed", "")])
      == Some(Failure)
  {
    var processing := Response("processing", "");
    StopsAtFirstTerminal([processing], Response("completed", text), []);
    assert [processing] + [Response("completed", text)] + [] == [processing, Response("completed", text)];
    StopsAtFirstTerminal([processing], Response("failed", ""), []);
    assert [processing] + [Response("failed", "")] + [] == [processing, Response("failed", "")];
  }

  /**
   * `transcribeAudio`. `uploaded` says whether the upload succeeded, `submitted`
   * is the answer to the job submission and `polls` the answers to successive
   * status requests. `polled` is how many status requests were made; `r` is
   * `None` when the job had not reached a terminal status within `polls`, that is,
   * when the call has not returned yet.
   */
  method TranscribeAudio(uploaded: bool, submitted: Response, polls: seq<Response>)
    returns (r: Option<string>, polled: nat)
    ensures polled <= |polls|
    ensures r == Transcribed(uploaded, submitted, polls)
    // a failed upload or submission returns the failure text without polling
    ensures !uploaded || submitted.TransportError? ==> r == Some(Failure) && polled == 0
    // a job already terminal when submitted is never polled, and yields the empty text
    ensures uploaded && submitted.Response? && Terminal(submitted.status) ==> r == Some("") && polled == 0
    // otherwise polling goes on exactly while the answers are non-terminal
    ensures uploaded && KeepsPolling(submitted) ==>
      forall j :: 0 <= j < polled - 1 ==> KeepsPolling(polls[j])
    ensures uploaded && KeepsPolling(submitted) && r.Some? ==>
      0 < polled && !KeepsPolling(polls[polled - 1]) && r.value == Outcome(polls[polled - 1])
    ensures uploaded && KeepsPolling(submitted) && r.None? ==>
      polled == |polls| && forall j :: 0 <= j < |polls| ==> KeepsPolling(polls[j])
  {
    if !uploaded || submitted.TransportError? {
      return Some(Failure), 0;
    }
    var status := submitted.status;
    var text := "";
    polled := 0;
    while status != "completed" && status != "failed"
      invariant polled <= |polls|
      invariant forall j :: 0 <= j < polled - 1 ==> KeepsPolling(polls[j])
      invariant polled == 0 ==> status == submitted.status && text == ""
      invariant polled > 0 ==> !Terminal(submitted.status) && status != "failed"
      invariant polled > 0 ==> polls[polled - 1].Response? && status == polls[polled - 1].status
      invariant polled > 0 && status == "completed" ==> text == polls[polled - 1].text
      invariant status != "completed" ==> text == ""
      // the answers consumed so far have not stopped the polling
      invariant !Terminal(status) ==> Transcribed(uploaded, submitted, polls) == FirstStop(polls[polled..])
      invariant status == "completed" ==> Transcribed(uploaded, submitted, polls) == Some(text)
      decreases |polls| - polled
    {
      if polled == |polls| {
        // the remote has not resolved the job within the given answers
        return None, polled;
      }
      var poll := polls[polled];
      assert polls[polled..][1..] == polls[polled + 1..];
      polled := polled + 1;
      if poll.TransportError? {
        return Some(Failure), polled;
      }
      status := poll.status;
      if status == "completed" {
        text := poll.text;
      } else if status == "failed" {
        // `throw new Error('Transcription failed')`, caught below the loop
        return Some(Failure), polled;
      }
    }
    return Some(text), polled;
  }
}
