/** The chat entry point (backend/chat.py): build the input dictionary of one turn, run the
    compiled graph on the caller's thread, and answer with the content of the last message. */
module Chat {
  import opened Wrappers
  import opened Messages
  import opened GraphState
  import opened Workflow

  /** The checkpointer shared by every call: one saved state per thread id. */
  class Memory {
    var threads: map<string, State>

    constructor ()
      ensures threads == map[]
    {
      threads := map[];
    }
  }

  /** The input dictionary: a single human message holding the user's text; the file URL under
      `file_url` for an ID card, under `live_image_url` for a live image, under neither
      otherwise; and the `type` key always, even when it is `None`. */
  method BuildPayload(userInput: string, fileUrl: string, fileType: Option<string>) returns (p: Payload)
    ensures p.messages == [Human(Str(userInput))]
    ensures p.fileUrl == (if fileUrl != "" && fileType == Some("id_card") then Put(Some(fileUrl)) else Keep)
    ensures p.liveImageUrl == (if fileUrl != "" && fileType == Some("live_image") then Put(Some(fileUrl)) else Keep)
    ensures p.fileType == Put(fileType)
  {
    p := Payload([Human(Str(userInput))], Keep, Keep, Keep);
    if fileUrl != "" && fileType == Some("id_card") {
      p := p.(fileUrl := Put(Some(fileUrl)));
    } else if fileUrl != "" && fileType == Some("live_image") {
      p := p.(liveImageUrl := Put(Some(fileUrl)));
    }
    p := p.(fileType := Put(fileType));
  }

  /** At most one of the two file keys is set. */
  lemma PayloadFileKeys(userInput: string, fileUrl: string, fileType: Option<string>, p: Payload)
    requires p.fileUrl == (if fileUrl != "" && fileType == Some("id_card") then Put(Some(fileUrl)) else Keep)
    requires p.liveImageUrl == (if fileUrl != "" && fileType == Some("live_image") then Put(Some(fileUrl)) else Keep)
    ensures p.fileUrl == Keep || p.liveImageUrl == Keep
    ensures fileUrl == "" ==> p.fileUrl == Keep && p.liveImageUrl == Keep
  {
  }

  /** What `chat` gives back: the response text and the final state, or the exception it re-raises;
      `ScriptOut` when a completion-service script ran out (a modelling device). */
  datatype ChatResult = Replied(text: Content, state: State) | Reraised(error: string) | ScriptOut

  /** The answer of a turn: the content of the last message of the final state. */
  function Response(t: TurnResult): (r: ChatResult)
    ensures r.Replied? <==> t.Completed? && |t.state.messages| > 0
    ensures r.Replied? ==> r.state == t.state && r.text == t.state.messages[|t.state.messages| - 1].content
    ensures t.Crashed? ==> r == Reraised(t.error)
    ensures r.ScriptOut? <==> t.Unfinished?
  {
    match t
    case Completed(s) =>
      if |s.messages| > 0 then Replied(s.messages[|s.messages| - 1].content, s)
      else Reraised("list index out of range")
    case Crashed(e) => Reraised(e)
    case Unfinished => ScriptOut
  }

  /** One call of `chat` on the thread `threadId`: the thread's checkpoint is replaced by the one
      the turn saves, the other threads are untouched, and the answer is the last message's
      content; graph exceptions are passed on. */
  method ChatTurn(memory: Memory, userInput: string, threadId: string, fileUrl: string,
                  fileType: Option<string>, agents: Agents)
    returns (result: ChatResult)
    modifies memory
    ensures var p := Payload([Human(Str(userInput))],
                             (if fileUrl != "" && fileType == Some("id_card") then Put(Some(fileUrl)) else Keep),
                             (if fileUrl != "" && fileType == Some("live_image") then Put(Some(fileUrl)) else Keep),
                             Put(fileType));
      var t := RunTurn(old(memory.threads), threadId, p, agents);
      && memory.threads == t.checkpoints
      && result == Response(t.result)
  {
    var payload := BuildPayload(userInput, fileUrl, fileType);
    var turn := RunTurn(memory.threads, threadId, payload, agents);
    memory.threads := turn.checkpoints;
    result := Response(turn.result);
  }

  /** A completed turn always has a last message to answer with. */
  lemma CompletedTurnReplies(checkpoints: map<string, State>, thread: string, p: Payload, agents: Agents)
    requires |p.messages| > 0
    ensures var t := RunTurn(checkpoints, thread, p, agents);
      t.result.Completed? ==> Response(t.result).Replied?
  {
    var s2 := Routed(checkpoints, thread, p, agents);
    assert |s2.messages| > 0;
  }

  /** An exception of the graph reaches the caller unchanged. */
  lemma ChatReraises(checkpoints: map<string, State>, thread: string, p: Payload, agents: Agents)
    ensures var t := RunTurn(checkpoints, thread, p, agents);
      t.result.Crashed? ==> Response(t.result) == Reraised(t.result.error)
  {
  }

  /** On a turn the router ends at once, the answer is the content of the message the user just
      sent: no agent has added a message after it. */
  lemma EndTurnEchoesInput(checkpoints: map<string, State>, thread: string, userInput: string,
                           p: Payload, agents: Agents)
    requires p.messages == [Human(Str(userInput))]
    requires PaymentDone(Routed(checkpoints, thread, p, agents))
    ensures Response(RunTurn(checkpoints, thread, p, agents).result).Replied?
    ensures Response(RunTurn(checkpoints, thread, p, agents).result).text == Str(userInput)
  {
    EndRunsNoAgent(checkpoints, thread, p, agents);
    var s2 := Routed(checkpoints, thread, p, agents);
    assert s2.messages[|s2.messages| - 1] == Human(Str(userInput));
  }
}
