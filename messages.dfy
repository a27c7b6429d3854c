/** The chat messages exchanged with the completion service (LangChain's message classes). */
module Messages {
  import opened Wrappers

  /** One element of a list-valued message content: a dictionary part (`{"type": ..., "text": ...}`
      or `{"type": "image_url", "image_url": {"url": ...}}`) or some other object, which may have
      a `text` attribute. */
  datatype Block =
    | DictBlock(blockType: Option<string>, text: Option<string>, imageUrl: Option<string>)
    | ObjectBlock(text: Option<string>)

  /** A message's `content`: a string or a list of parts. */
  datatype Content = Str(text: string) | Parts(blocks: seq<Block>)

  /** A tool invocation requested by the model: `{"name", "args", "id"}`. */
  datatype ToolCall = ToolCall(name: string, args: map<string, string>, id: string)

  /** SystemMessage, HumanMessage, AIMessage (with its tool calls) and ToolMessage. */
  datatype Message =
    | System(content: Content)
    | Human(content: Content)
    | AI(content: Content, toolCalls: seq<ToolCall>)
    | Tool(content: Content, toolCallId: string, name: string)

  /** One response of the completion service. */
  datatype Reply = Reply(content: Content, toolCalls: seq<ToolCall>)

  function AsMessage(r: Reply): (m: Message)
    ensures m.AI? && m.toolCalls == r.toolCalls
  {
    AI(r.content, r.toolCalls)
  }

  function AsMessages(rs: seq<Reply>): (ms: seq<Message>)
    ensures |ms| == |rs|
    decreases |rs|
  {
    if |rs| == 0 then [] else [AsMessage(rs[0])] + AsMessages(rs[1..])
  }

  lemma {:induction false} AsMessagesSnoc(rs: seq<Reply>, r: Reply)
    ensures AsMessages(rs + [r]) == AsMessages(rs) + [AsMessage(r)]
    decreases |rs|
  {
    if |rs| == 0 {
      assert rs + [r] == [r];
    } else {
      assert (rs + [r])[1..] == rs[1..] + [r];
      AsMessagesSnoc(rs[1..], r);
    }
  }

  /** `m.tool_calls` is a non-empty list. */
  predicate HasToolCalls(m: Message) {
    m.AI? && |m.toolCalls| > 0
  }

  /** `ToolMessage(content=str(result), tool_call_id=call["id"], name=call["name"])`. */
  function ToolMessage(result: string, call: ToolCall): (m: Message)
    ensures m.Tool? && m.toolCallId == call.id && m.name == call.name
  {
    Tool(Str(result), call.id, call.name)
  }

  /** `ms` answers `calls`: exactly one tool message per call, in call order, carrying the call's
      id and name. */
  predicate Answers(calls: seq<ToolCall>, ms: seq<Message>) {
    |ms| == |calls| &&
    forall i :: 0 <= i < |calls| ==>
      ms[i].Tool? && ms[i].toolCallId == calls[i].id && ms[i].name == calls[i].name
  }

  /** A sequence of tool rounds: each AI message that requests tools is immediately followed by
      the tool messages that answer its calls. */
  predicate Rounds(ms: seq<Message>)
    decreases |ms|
  {
    ms == [] ||
    (HasToolCalls(ms[0]) && 1 + |ms[0].toolCalls| <= |ms| &&
     Answers(ms[0].toolCalls, ms[1..1 + |ms[0].toolCalls|]) &&
     Rounds(ms[1 + |ms[0].toolCalls|..]))
  }

  /** Appending one more round (a tool-requesting reply and its answers) keeps the shape. */
  lemma RoundsSnoc(ms: seq<Message>, r: Reply, answers: seq<Message>)
    requires Rounds(ms)
    requires |r.toolCalls| > 0 && Answers(r.toolCalls, answers)
    ensures Rounds(ms + [AsMessage(r)] + answers)
  {
    var tail := [AsMessage(r)] + answers;
    assert tail[1..1 + |r.toolCalls|] == answers;
    assert tail[1 + |r.toolCalls|..] == [];
    assert Rounds(tail);
    RoundsAppend(ms, tail);
    assert ms + [AsMessage(r)] + answers == ms + tail;
  }

  /** Two histories made of rounds make one. */
  lemma {:induction false} RoundsAppend(ms: seq<Message>, tail: seq<Message>)
    requires Rounds(ms) && Rounds(tail)
    ensures Rounds(ms + tail)
    decreases |ms|
  {
    if ms == [] {
      assert ms + tail == tail;
    } else {
      var n := 1 + |ms[0].toolCalls|;
      var all := ms + tail;
      assert all[1..n] == ms[1..n];
      assert all[n..] == ms[n..] + tail;
      RoundsAppend(ms[n..], tail);
    }
  }

  /** Regrouping a history with one more round appended. */
  lemma Associate<T>(a: seq<T>, b: seq<T>, c: seq<T>, d: seq<T>)
    ensures a + b + c + d == a + (b + c + d)
  {
  }

  /** The AI messages of `ms`, in order. */
  function Replies(ms: seq<Message>): seq<Message>
    decreases |ms|
  {
    if |ms| == 0 then []
    else (if ms[0].AI? then [ms[0]] else []) + Replies(ms[1..])
  }

  lemma {:induction false} RepliesAppend(a: seq<Message>, b: seq<Message>)
    ensures Replies(a + b) == Replies(a) + Replies(b)
    decreases |a|
  {
    if |a| == 0 {
      assert a + b == b;
    } else {
      assert (a + b)[0] == a[0];
      assert (a + b)[1..] == a[1..] + b;
      RepliesAppend(a[1..], b);
    }
  }

  lemma {:induction false} RepliesOfAnswers(calls: seq<ToolCall>, ms: seq<Message>)
    requires Answers(calls, ms)
    ensures Replies(ms) == []
    decreases |ms|
  {
    if |ms| > 0 {
      assert Answers(calls[1..], ms[1..]);
      RepliesOfAnswers(calls[1..], ms[1..]);
    }
  }

  /** `k` is the first reply of the script that requests no tool: the point where a
      tool-calling loop stops. */
  predicate FirstFinal(script: seq<Reply>, k: nat) {
    k < |script| && |script[k].toolCalls| == 0 &&
    forall j :: 0 <= j < k ==> |script[j].toolCalls| > 0
  }

  /** A script has at most one first reply without tool calls. */
  lemma FirstFinalUnique(script: seq<Reply>, j: nat, k: nat)
    requires FirstFinal(script, j) && FirstFinal(script, k)
    ensures j == k
  {
  }

  /** No message of `ms` is a system message. */
  predicate NoSystem(ms: seq<Message>) {
    forall i :: 0 <= i < |ms| ==> !ms[i].System?
  }

  /** Tool rounds followed by replies contain no system message. */
  lemma {:induction false} RoundsNoSystem(ms: seq<Message>)
    requires Rounds(ms)
    ensures NoSystem(ms)
    decreases |ms|
  {
    if ms != [] {
      var n := 1 + |ms[0].toolCalls|;
      RoundsNoSystem(ms[n..]);
      forall i | 0 <= i < |ms| ensures !ms[i].System? {
        if 1 <= i < n {
          assert ms[1..n][i - 1] == ms[i];
        } else if n <= i {
          assert ms[n..][i - n] == ms[i];
        }
      }
    }
  }

  /** The script holds a reply that requests no tool. */
  ghost predicate HasFinal(script: seq<Reply>) {
    exists k: nat :: FirstFinal(script, k)
  }

  /** `ms` is what a tool-calling loop adds after having consumed the replies `consumed` in earlier
      rounds, when it stops at reply `k` of the rest of its script: tool rounds, each reply that
      requests tools followed by the tool messages answering it, then reply `k`, which requests
      no tool; the AI messages of `ms` are exactly the replies consumed, in order. */
  predicate TranscriptAfter(ms: seq<Message>, consumed: seq<Reply>, script: seq<Reply>, k: nat) {
    FirstFinal(script, k) && |ms| > 0 &&
    Rounds(ms[..|ms| - 1]) &&
    ms[|ms| - 1] == AsMessage(script[k]) &&
    Replies(ms) == AsMessages(consumed + script[..k + 1])
  }

  /** A transcript holds no system message: its rounds hold none, and it ends with a reply. */
  lemma TranscriptNoSystem(ms: seq<Message>, consumed: seq<Reply>, script: seq<Reply>, k: nat)
    requires TranscriptAfter(ms, consumed, script, k)
    ensures NoSystem(ms)
  {
    RoundsNoSystem(ms[..|ms| - 1]);
    forall i | 0 <= i < |ms| ensures !ms[i].System? {
      if i < |ms| - 1 {
        assert ms[..|ms| - 1][i] == ms[i];
      }
    }
  }

  /** What a tool-calling loop adds in one turn when it stops at reply `k` of its script. */
  predicate LoopTranscript(ms: seq<Message>, script: seq<Reply>, k: nat) {
    TranscriptAfter(ms, [], script, k)
  }

  /** A loop that stops at its first reply. */
  lemma FinalStep(done: seq<Message>, consumed: seq<Reply>, script: seq<Reply>)
    requires |script| > 0 && |script[0].toolCalls| == 0
    requires Rounds(done) && Replies(done) == AsMessages(consumed)
    ensures TranscriptAfter(done + [AsMessage(script[0])], consumed, script, 0)
  {
    var m := AsMessage(script[0]);
    assert (done + [m])[..|done|] == done;
    RepliesAppend(done, [m]);
    assert Replies([m]) == [m] by {
      assert [m][1..] == [];
    }
    assert script[..1] == [script[0]];
    AsMessagesSnoc(consumed, script[0]);
  }

  /** A loop that runs one tool round and goes on. */
  lemma RoundStep(done: seq<Message>, consumed: seq<Reply>, script: seq<Reply>, answers: seq<Message>)
    requires |script| > 0 && |script[0].toolCalls| > 0
    requires Answers(script[0].toolCalls, answers)
    requires Rounds(done) && Replies(done) == AsMessages(consumed)
    ensures Rounds(done + [AsMessage(script[0])] + answers)
    ensures Replies(done + [AsMessage(script[0])] + answers) == AsMessages(consumed + [script[0]])
  {
    var m := AsMessage(script[0]);
    RoundsSnoc(done, script[0], answers);
    RepliesAppend(done + [m], answers);
    RepliesAppend(done, [m]);
    RepliesOfAnswers(script[0].toolCalls, answers);
    assert Replies([m]) == [m] by {
      assert [m][1..] == [];
    }
    AsMessagesSnoc(consumed, script[0]);
  }

  /** A script whose head requests tools has a final reply exactly when its tail has, one
      position later. */
  lemma FinalShift(script: seq<Reply>)
    requires |script| > 0 && |script[0].toolCalls| > 0
    ensures HasFinal(script) <==> HasFinal(script[1..])
  {
    if HasFinal(script[1..]) {
      var k: nat :| FirstFinal(script[1..], k);
      forall j | 0 <= j < k + 1 ensures |script[j].toolCalls| > 0 {
        if j > 0 {
          assert script[1..][j - 1] == script[j];
        }
      }
      assert FirstFinal(script, k + 1);
    }
    if HasFinal(script) {
      var k: nat :| FirstFinal(script, k);
      assert k > 0;
      forall j | 0 <= j < k - 1 ensures |script[1..][j].toolCalls| > 0 {
        assert script[1..][j] == script[j + 1];
      }
      assert FirstFinal(script[1..], k - 1);
    }
  }

  /** A transcript of the tail of the script, after its head's tool round, is one of the whole. */
  lemma TranscriptShift(ms: seq<Message>, consumed: seq<Reply>, script: seq<Reply>, k: nat)
    requires |script| > 0 && |script[0].toolCalls| > 0
    requires TranscriptAfter(ms, consumed + [script[0]], script[1..], k)
    ensures TranscriptAfter(ms, consumed, script, k + 1)
  {
    forall j | 0 <= j < k + 1 ensures |script[j].toolCalls| > 0 {
      if j > 0 {
        assert script[1..][j - 1] == script[j];
      }
    }
    assert FirstFinal(script, k + 1);
    assert consumed + [script[0]] + script[1..][..k + 1] == consumed + script[..k + 2];
  }

  /** A script with no reply at all has no final reply. */
  lemma NoFinalInEmpty(script: seq<Reply>)
    requires |script| == 0
    ensures !HasFinal(script)
  {
  }

  /** A script whose head requests no tool stops there. */
  lemma FinalAtHead(script: seq<Reply>)
    requires |script| > 0 && |script[0].toolCalls| == 0
    ensures HasFinal(script) && FirstFinal(script, 0)
  {
    assert FirstFinal(script, 0);
  }
}
