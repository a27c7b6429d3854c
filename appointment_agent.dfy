/** The appointment agent (backend/agents/appointment_agent.py): a two-node graph of its own,
    an agent node that asks the completion service and a tool node that runs the requested tools
    with crash containment, looping until a reply requests no tool. */
module AppointmentAgent {
  import opened Wrappers
  import opened Strings
  import opened Messages
  import opened GraphState

  /** The tools the tool node can run by name (`tools_map`). `book_meeting` is imported by the
      file but is not among them. */
  const ToolsMap: set<string> := {"check_finance_availability", "book_appointment_ticket", "lookup_student"}

  lemma ToolsMapHasThree()
    ensures |ToolsMap| == 3 && "book_meeting" !in ToolsMap
  {
  }

  /** The agent node's working context: the system message is put first unless the history
      already starts with one. `messages[0]` on an empty history raises. */
  function WithSystem(messages: seq<Message>, sys: Message): (r: Outcome<seq<Message>>)
    ensures |messages| == 0 ==> r == Crash("list index out of range")
    ensures |messages| > 0 && messages[0].System? ==> r == Ok(messages)
    ensures |messages| > 0 && !messages[0].System? ==> r == Ok([sys] + messages)
  {
    if |messages| == 0 then Crash("list index out of range")
    else if !messages[0].System? then Ok([sys] + messages)
    else Ok(messages)
  }

  /** The agent node's update: only the reply; the system message is never returned. */
  function AgentNodeUpdate(reply: Reply): (ms: seq<Message>)
    ensures ms == [AsMessage(reply)] && NoSystem(ms)
  {
    [AsMessage(reply)]
  }

  /** The content of the tool message for one call. A name outside `tools_map` and every
      exception of a tool both become a "System Error executing ..." text. */
  function ToolResultText(call: ToolCall, invoke: (string, map<string, string>) -> Outcome<string>): (r: string)
    ensures call.name in ToolsMap && invoke(call.name, call.args).Ok? ==> r == invoke(call.name, call.args).value
    ensures !(call.name in ToolsMap && invoke(call.name, call.args).Ok?) ==>
      StartsWith(r, "System Error executing " + call.name + ": ")
    ensures call.name !in ToolsMap ==>
      r == "System Error executing " + call.name + ": Tool '" + call.name + "' is not in tools_map."
    ensures call.name in ToolsMap && invoke(call.name, call.args).Crash? ==>
      r == "System Error executing " + call.name + ": " + invoke(call.name, call.args).error
  {
    if call.name !in ToolsMap then
      "System Error executing " + call.name + ": Tool '" + call.name + "' is not in tools_map."
    else
      match invoke(call.name, call.args)
      case Ok(result) => result
      case Crash(e) => "System Error executing " + call.name + ": " + e
  }

  /** The tool node's output for a list of calls: one tool message per call, in call order. */
  function ToolOutputs(calls: seq<ToolCall>, invoke: (string, map<string, string>) -> Outcome<string>): (ms: seq<Message>)
    ensures Answers(calls, ms)
    ensures forall i :: 0 <= i < |calls| ==> ms[i].content == Str(ToolResultText(calls[i], invoke))
    decreases |calls|
  {
    if |calls| == 0 then []
    else [ToolMessage(ToolResultText(calls[0], invoke), calls[0])] + ToolOutputs(calls[1..], invoke)
  }

  /** The tool node's output for the last message: nothing when it requests no tool. */
  function ToolNodeOutputs(last: Message, invoke: (string, map<string, string>) -> Outcome<string>): seq<Message> {
    if HasToolCalls(last) then ToolOutputs(last.toolCalls, invoke) else []
  }

  /** The tool node, as the source runs it: a loop over the calls of the last message that
      appends one tool message per call and lets no exception out. */
  method ToolNode(messages: seq<Message>, invoke: (string, map<string, string>) -> Outcome<string>)
    returns (outputs: seq<Message>)
    requires |messages| > 0
    ensures outputs == ToolNodeOutputs(messages[|messages| - 1], invoke)
    ensures !HasToolCalls(messages[|messages| - 1]) ==> outputs == []
    ensures HasToolCalls(messages[|messages| - 1]) ==> Answers(messages[|messages| - 1].toolCalls, outputs)
  {
    var last := messages[|messages| - 1];
    if !HasToolCalls(last) {
      return [];
    }
    var calls := last.toolCalls;
    outputs := [];
    var i := 0;
    while i < |calls|
      invariant 0 <= i <= |calls|
      invariant outputs + ToolOutputs(calls[i..], invoke) == ToolOutputs(calls, invoke)
    {
      var call := calls[i];
      var result := ToolResultText(call, invoke);
      ToolOutputsAt(calls, i, invoke);
      AppendStep(outputs, ToolMessage(result, call), ToolOutputs(calls[i + 1..], invoke));
      outputs := outputs + [ToolMessage(result, call)];
      i := i + 1;
    }
    assert calls[i..] == [];
  }

  /** The outputs from call `i` on: the answer to call `i`, then the outputs after it. */
  lemma ToolOutputsAt(calls: seq<ToolCall>, i: nat, invoke: (string, map<string, string>) -> Outcome<string>)
    requires i < |calls|
    ensures ToolOutputs(calls[i..], invoke) ==
      [ToolMessage(ToolResultText(calls[i], invoke), calls[i])] + ToolOutputs(calls[i + 1..], invoke)
  {
    assert calls[i..][1..] == calls[i + 1..];
  }

  lemma AppendStep(xs: seq<Message>, m: Message, ys: seq<Message>)
    ensures xs + ([m] + ys) == (xs + [m]) + ys
  {
  }

  /** Which node follows the agent node: "tools" exactly when the reply requests tools. The
      agent node always leaves an AI message last. */
  function ShouldContinue(messages: seq<Message>): (r: string)
    requires |messages| > 0 && messages[|messages| - 1].AI?
    ensures r == "tools" <==> HasToolCalls(messages[|messages| - 1])
    ensures r == "tools" || r == "__end__"
  {
    if |messages[|messages| - 1].toolCalls| > 0 then "tools" else "__end__"
  }

  /** How a run of the appointment graph ends. */
  datatype GraphResult =
    | Done(messages: seq<Message>)
    | Failed(error: string)
    | ScriptExhausted(messages: seq<Message>)

  /** The compiled appointment graph: START -> agent; agent -> tools or END; tools -> agent.
      `script` holds the completion service's replies in order; its length bounds the run. */
  function RunGraph(messages: seq<Message>, sys: Message, script: seq<Reply>,
                    invoke: (string, map<string, string>) -> Outcome<string>): (r: GraphResult)
    ensures r.Failed? <==> |messages| == 0
    ensures r.Done? || r.ScriptExhausted? ==> messages <= r.messages
    decreases |script|
  {
    match WithSystem(messages, sys)
    case Crash(e) => Failed(e)
    case Ok(_) =>
      if |script| == 0 then ScriptExhausted(messages)
      else
        var afterAgent := messages + AgentNodeUpdate(script[0]);
        if ShouldContinue(afterAgent) == "tools" then
          var next := afterAgent + ToolNodeOutputs(AsMessage(script[0]), invoke);
          RunGraph(next, sys, script[1..], invoke)
        else Done(afterAgent)
  }

  /** What a run that started from the history `h`, having consumed `consumed` before `script`,
      promises: no tool exception escapes it, it finishes exactly when `script` holds a reply without tool
      calls, and then it has kept `h` and appended a transcript of the loop. */
  ghost predicate RunsAfter(h: seq<Message>, r: GraphResult, consumed: seq<Reply>, script: seq<Reply>) {
    && !r.Failed?
    && (r.Done? <==> HasFinal(script))
    && (r.Done? ==>
          && |r.messages| >= |h| && r.messages[..|h|] == h
          && exists k: nat :: TranscriptAfter(r.messages[|h|..], consumed, script, k))
  }

  /** One step of the graph on a non-empty history whose next reply requests no tool. */
  lemma RunGraphFinalStep(ms: seq<Message>, sys: Message, script: seq<Reply>,
                          invoke: (string, map<string, string>) -> Outcome<string>)
    requires |ms| > 0 && |script| > 0 && |script[0].toolCalls| == 0
    ensures RunGraph(ms, sys, script, invoke) == Done(ms + [AsMessage(script[0])])
  {
  }

  /** One step of the graph on a non-empty history whose next reply requests tools. */
  lemma RunGraphToolStep(ms: seq<Message>, sys: Message, script: seq<Reply>,
                         invoke: (string, map<string, string>) -> Outcome<string>)
    requires |ms| > 0 && |script| > 0 && |script[0].toolCalls| > 0
    ensures RunGraph(ms, sys, script, invoke) ==
      RunGraph(ms + [AsMessage(script[0])] + ToolOutputs(script[0].toolCalls, invoke), sys, script[1..], invoke)
  {
    var afterAgent := ms + AgentNodeUpdate(script[0]);
    assert ShouldContinue(afterAgent) == "tools";
  }

  /** The induction behind `AppointmentTranscript`: a run that has already produced `done`
      after the history `h` finishes exactly when the rest of the script holds a reply without
      tool calls, and then adds the tool rounds and that reply. */
  lemma {:induction false} RunGraphFrom(h: seq<Message>, done: seq<Message>, consumed: seq<Reply>,
                                        sys: Message, script: seq<Reply>,
                                        invoke: (string, map<string, string>) -> Outcome<string>)
    requires |h| > 0
    requires Rounds(done) && Replies(done) == AsMessages(consumed)
    ensures RunsAfter(h, RunGraph(h + done, sys, script, invoke), consumed, script)
    decreases |script|
  {
    var r := RunGraph(h + done, sys, script, invoke);
    if |script| == 0 {
      NoFinalInEmpty(script);
      assert r == ScriptExhausted(h + done);
    } else if |script[0].toolCalls| == 0 {
      RunGraphFinalFrom(h, done, consumed, sys, script, invoke);
    } else {
      var m := AsMessage(script[0]);
      var answers := ToolOutputs(script[0].toolCalls, invoke);
      RunGraphToolStep(h + done, sys, script, invoke);
      RoundStep(done, consumed, script, answers);
      var done' := done + [m] + answers;
      Associate(h, done, [m], answers);
      RunGraphFrom(h, done', consumed + [script[0]], sys, script[1..], invoke);
      RunsAfterShift(h, r, consumed, script);
    }
  }

  /** The last step of `RunGraphFrom`: a reply without tool calls ends the run. */
  lemma RunGraphFinalFrom(h: seq<Message>, done: seq<Message>, consumed: seq<Reply>,
                          sys: Message, script: seq<Reply>,
                          invoke: (string, map<string, string>) -> Outcome<string>)
    requires |h| > 0 && |script| > 0 && |script[0].toolCalls| == 0
    requires Rounds(done) && Replies(done) == AsMessages(consumed)
    ensures RunsAfter(h, RunGraph(h + done, sys, script, invoke), consumed, script)
  {
    var r := RunGraph(h + done, sys, script, invoke);
    var m := AsMessage(script[0]);
    RunGraphFinalStep(h + done, sys, script, invoke);
    FinalStep(done, consumed, script);
    FinalAtHead(script);
    assert r.messages == h + (done + [m]);
    assert r.messages[|h|..] == done + [m];
    assert r.messages[..|h|] == h;
    assert TranscriptAfter(r.messages[|h|..], consumed, script, 0);
  }

  /** A tool round at the head of the script moves from `script` into `consumed`. */
  lemma RunsAfterShift(h: seq<Message>, r: GraphResult, consumed: seq<Reply>, script: seq<Reply>)
    requires |script| > 0 && |script[0].toolCalls| > 0
    requires RunsAfter(h, r, consumed + [script[0]], script[1..])
    ensures RunsAfter(h, r, consumed, script)
  {
    FinalShift(script);
    if r.Done? {
      var k: nat :| TranscriptAfter(r.messages[|h|..], consumed + [script[0]], script[1..], k);
      TranscriptShift(r.messages[|h|..], consumed, script, k);
    }
  }

  /** A run of the appointment graph on a non-empty history lets no tool exception escape;
      it finishes exactly when the script holds a reply without tool calls, and then it has kept
      the history and appended the tool rounds (each tool-requesting reply followed by one tool
      message per call, with the call's id and name, in order) and that reply. */
  lemma AppointmentTranscript(h: seq<Message>, sys: Message, script: seq<Reply>,
                              invoke: (string, map<string, string>) -> Outcome<string>)
    requires |h| > 0
    ensures RunsAfter(h, RunGraph(h, sys, script, invoke), [], script)
  {
    assert h + [] == h;
    RunGraphFrom(h, [], [], sys, script, invoke);
  }

  /** A list that starts with `h` is `h` followed by the rest. */
  lemma PrefixRest(h: seq<Message>, ms: seq<Message>)
    requires h <= ms
    ensures h + ms[|h|..] == ms
  {
  }

  /** The appointment node of the turn graph. The subgraph's state keeps only `messages`; its
      final message list, merged by id into the outer state, adds exactly the new messages, so
      the outer state ends with the subgraph's whole list. */
  function AppointmentNode(s: State, sys: Message, script: seq<Reply>,
                           invoke: (string, map<string, string>) -> Outcome<string>): (r: NodeOutcome)
    ensures r.Raised? <==> |s.messages| == 0
    ensures r.Finished? <==> RunGraph(s.messages, sys, script, invoke).Done?
    ensures r.Finished? ==> r.update == MessagesOnly(r.update.messages)
    ensures r.Finished? ==> Apply(s, r.update) == s.(messages := RunGraph(s.messages, sys, script, invoke).messages)
  {
    match RunGraph(s.messages, sys, script, invoke)
    case Done(ms) =>
      PrefixRest(s.messages, ms);
      ApplyMessagesOnly(s, ms[|s.messages|..]);
      Finished(MessagesOnly(ms[|s.messages|..]))
    case Failed(e) => Raised(e)
    case ScriptExhausted(_) => OutOfScript
  }

  /** The appointment node adds the transcript of its inner loop and sets no other key. */
  lemma AppointmentNodeUpdate(s: State, sys: Message, script: seq<Reply>,
                              invoke: (string, map<string, string>) -> Outcome<string>)
    requires |s.messages| > 0
    ensures var r := AppointmentNode(s, sys, script, invoke);
      && !r.Raised?
      && (r.Finished? <==> HasFinal(script))
      && (r.Finished? ==>
            && r.update == MessagesOnly(r.update.messages)
            && NoSystem(r.update.messages)
            && exists k: nat :: LoopTranscript(r.update.messages, script, k))
  {
    AppointmentTranscript(s.messages, sys, script, invoke);
    var g := RunGraph(s.messages, sys, script, invoke);
    if g.Done? {
      var ms := g.messages[|s.messages|..];
      var k: nat :| TranscriptAfter(ms, [], script, k);
      assert LoopTranscript(ms, script, k);
      TranscriptNoSystem(ms, [], script, k);
    }
  }
}
