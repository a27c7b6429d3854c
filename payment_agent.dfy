/** The payment agent (backend/agents/payment_agent.py): one node of the turn graph that runs its
    own tool-calling loop, dispatching each requested tool by name, collecting the `student_id`
    and `student_name` updates derived from tool outputs, and returning every message it added. */
module PaymentAgent {
  import opened Wrappers
  import opened Strings
  import opened Messages
  import opened GraphState

  const ExtractTool := "extract_student_info_from_image"
  const VerifyTool := "verify_student_identity"
  const LinkTool := "create_payment_link"

  const NoImageUrl := "Error: No image URL available for extraction."

  /** What the extraction tool returns: a dictionary (whose `student_id` and `full_name` entries
      are read), or a plain error string. */
  datatype ExtractValue =
    | ExtractDict(entries: map<string, Option<string>>)
    | ExtractText(text: string)

  /** `ocr_data.get(key)` on a dictionary result. */
  function Entry(entries: map<string, Option<string>>, key: string): Option<string> {
    if key in entries then entries[key] else None
  }

  /** The three tools and the JSON serialiser, as the agent calls them. */
  datatype Tools = Tools(
    extract: string -> Outcome<ExtractValue>,
    dumps: ExtractValue -> string,
    verify: Option<string> -> Outcome<string>,
    createLink: map<string, string> -> Outcome<string>)

  /** The slots the loop carries between tool calls: the accumulated `state_updates` keys, and
      the `payment_link` entry of the node's own copy of the incoming state. */
  datatype Slots = Slots(studentId: Write<string>, studentName: Write<string>, link: Option<string>)

  /** The result of one tool call: the tool message text and the slots afterwards. */
  datatype Step = Step(result: string, slots: Slots)

  /** The system prompt: the fixed instructions, plus a note naming the uploaded file when the
      state holds one. */
  function SystemPrompt(instructions: string, fileUrl: Option<string>): (r: string)
    ensures TruthyStr(fileUrl) ==> Contains(r, fileUrl.value)
    ensures !TruthyStr(fileUrl) ==> r == instructions
  {
    if TruthyStr(fileUrl) then
      var note := "\n\n[SYSTEM INFO]: A file has been uploaded at: " + fileUrl.value
        + ". Use the extraction tool on this URL immediately.";
      ContainsInMiddle(instructions + "\n\n[SYSTEM INFO]: A file has been uploaded at: ", fileUrl.value,
                       ". Use the extraction tool on this URL immediately.", fileUrl.value);
      assert Contains(fileUrl.value, fileUrl.value) by {
        assert OccursAt(fileUrl.value, fileUrl.value, 0);
        OccursContains(fileUrl.value, fileUrl.value, 0);
      }
      assert instructions + note == instructions + "\n\n[SYSTEM INFO]: A file has been uploaded at: "
        + fileUrl.value + ". Use the extraction tool on this URL immediately.";
      instructions + note
    else instructions
  }

  /** The image the extraction runs on: the call's `image_url` argument when it has one,
      otherwise the state's `file_url`. */
  function ImageUrl(call: ToolCall, fileUrl: Option<string>): (r: Option<string>)
    ensures "image_url" in call.args ==> r == Some(call.args["image_url"])
    ensures "image_url" !in call.args ==> r == fileUrl
  {
    if "image_url" in call.args then Some(call.args["image_url"]) else fileUrl
  }

  /** The id sent for verification: the call's `student_id` argument when it is a non-empty
      string, otherwise whatever the updates collected so far hold. */
  function VerifyId(call: ToolCall, slots: Slots): (r: Option<string>)
    ensures TruthyStr(Get(call.args, "student_id")) ==> r == Get(call.args, "student_id")
    ensures !TruthyStr(Get(call.args, "student_id")) ==> r == Value(slots.studentId)
  {
    var argument := Get(call.args, "student_id");
    if TruthyStr(argument) then argument else Value(slots.studentId)
  }

  /** The link kept from a link-tool result: the piece after the last ": ", stripped. */
  function LinkOf(result: string): (r: string)
    ensures Trimmed(r) && |r| <= |result|
    ensures !Contains(result, ": ") ==> r == Strip(result)
  {
    StripTrimmed(LastPiece(result, ": "));
    assert !Contains(result, ": ") ==> LastPiece(result, ": ") == result by {
      if !Contains(result, ": ") {
        LastPieceNoSep(result, ": ");
      }
    }
    Strip(LastPiece(result, ": "))
  }

  /** One tool call of the loop: the branch on the tool's name inside the `try`, with every
      exception turned into "Error: ..." and the slots left as they were. */
  function Dispatch(call: ToolCall, fileUrl: Option<string>, slots: Slots, tools: Tools): (r: Step)
    ensures call.name != ExtractTool ==> r.slots.studentName == slots.studentName
    ensures call.name != ExtractTool && call.name != VerifyTool ==> r.slots.studentId == slots.studentId
    ensures call.name != LinkTool ==> r.slots.link == slots.link
  {
    if call.name == ExtractTool then
      var url := ImageUrl(call, fileUrl);
      if TruthyStr(url) then
        match tools.extract(url.value)
        case Crash(e) => Step("Error: " + e, slots)
        case Ok(data) =>
          var text := tools.dumps(data);
          if data.ExtractDict? then
            Step(text, slots.(studentId := Put(Entry(data.entries, "student_id")),
                              studentName := Put(Entry(data.entries, "full_name"))))
          else Step(text, slots)
      else Step(NoImageUrl, slots)
    else if call.name == VerifyTool then
      var id := VerifyId(call, slots);
      match tools.verify(id)
      case Crash(e) => Step("Error: " + e, slots)
      case Ok(result) =>
        if Contains(result, "Verified") then Step(result, slots.(studentId := Put(id)))
        else Step(result, slots)
    else if call.name == LinkTool then
      match tools.createLink(call.args)
      case Crash(e) => Step("Error: " + e, slots)
      case Ok(result) =>
        if Contains(result, "http") then Step(result, slots.(link := Some(LinkOf(result))))
        else Step(result, slots)
    else Step("Unknown tool: " + call.name, slots)
  }

  /** All calls of one reply, in order, each seeing the slots the previous ones left: the tool
      messages answer the calls one for one. */
  function DispatchAll(calls: seq<ToolCall>, fileUrl: Option<string>, slots: Slots, tools: Tools)
    : (r: (seq<Message>, Slots))
    ensures Answers(calls, r.0)
    decreases |calls|
  {
    if |calls| == 0 then ([], slots)
    else
      var step := Dispatch(calls[0], fileUrl, slots, tools);
      var rest := DispatchAll(calls[1..], fileUrl, step.slots, tools);
      ([ToolMessage(step.result, calls[0])] + rest.0, rest.1)
  }

  /** How the loop ends: at a reply without tool calls, with the context built so far (not
      holding that reply) and the slots; or when the script runs out. */
  datatype LoopEnd =
    | Returned(context: seq<Message>, reply: Reply, slots: Slots)
    | Exhausted(slots: Slots)

  /** The `while True` loop: ask for a reply; stop at one without tool calls; otherwise append it
      and one tool message per call, and go on. The context only grows. */
  function Loop(context: seq<Message>, fileUrl: Option<string>, slots: Slots,
                script: seq<Reply>, tools: Tools): (r: LoopEnd)
    ensures r.Returned? ==> |r.context| >= |context| && r.context[..|context|] == context
    ensures r.Returned? ==> r.reply in script && |r.reply.toolCalls| == 0
    decreases |script|
  {
    if |script| == 0 then Exhausted(slots)
    else if |script[0].toolCalls| == 0 then Returned(context, script[0], slots)
    else
      var round := DispatchAll(script[0].toolCalls, fileUrl, slots, tools);
      var r := Loop(context + [AsMessage(script[0])] + round.0, fileUrl, round.1, script[1..], tools);
      assert r.Returned? ==> r.context[..|context|] == (context + [AsMessage(script[0])] + round.0)[..|context|];
      r
  }

  /** What the node yields, together with the `payment_link` its local copy of the state ends with. */
  datatype PaymentResult = PaymentResult(outcome: NodeOutcome, localLink: Option<string>)

  /** The payment node: context `[system] + history`; on return, every message the loop added and
      the final reply, with the collected `student_id`/`student_name` updates. */
  function Payment(s: State, instructions: string, script: seq<Reply>, tools: Tools): (r: PaymentResult)
    ensures !r.outcome.Raised?
    ensures r.outcome.Finished? ==>
      && r.outcome.update.agent.Keep? && r.outcome.update.paymentLink.Keep?
      && r.outcome.update.paymentMatched.Keep? && r.outcome.update.fileUrl.Keep?
  {
    var context := [System(Str(SystemPrompt(instructions, s.fileUrl)))] + s.messages;
    match Loop(context, s.fileUrl, Slots(Keep, Keep, s.paymentLink), script, tools)
    case Exhausted(sl) => PaymentResult(OutOfScript, sl.link)
    case Returned(c, reply, sl) =>
      PaymentResult(
        Finished(Update(c[|s.messages| + 1..] + [AsMessage(reply)], Keep, sl.studentId, sl.studentName, Keep, Keep, Keep)),
        sl.link)
  }

  /** The payment node as the source runs it: an unbounded loop over the replies, an inner loop
      over the tool calls of each, appending to the context and updating the slots in place. */
  method PaymentNode(s: State, instructions: string, script: seq<Reply>, tools: Tools)
    returns (outcome: NodeOutcome, localLink: Option<string>)
    ensures PaymentResult(outcome, localLink) == Payment(s, instructions, script, tools)
  {
    var messages := s.messages;
    var fileUrl := s.fileUrl;
    var studentId: Write<string> := Keep;
    var studentName: Write<string> := Keep;
    localLink := s.paymentLink;
    var context := [System(Str(SystemPrompt(instructions, fileUrl)))] + messages;
    ghost var goal := Loop(context, fileUrl, Slots(studentId, studentName, localLink), script, tools);
    var rest := script;
    while true
      invariant |context| >= |messages| + 1
      invariant Loop(context, fileUrl, Slots(studentId, studentName, localLink), rest, tools) == goal
      decreases |rest|
    {
      if |rest| == 0 {
        return OutOfScript, localLink;
      }
      var response := rest[0];
      if |response.toolCalls| == 0 {
        var newMessages := context[|messages| + 1..] + [AsMessage(response)];
        return Finished(Update(newMessages, Keep, studentId, studentName, Keep, Keep, Keep)), localLink;
      }
      context := context + [AsMessage(response)];
      context, studentId, studentName, localLink :=
        RunToolCalls(context, response.toolCalls, fileUrl, Slots(studentId, studentName, localLink), tools);
      rest := rest[1..];
    }
  }

  /** The `for` loop over the calls of one reply: append one tool message per call, updating the
      slots as each call goes. */
  method RunToolCalls(context: seq<Message>, calls: seq<ToolCall>, fileUrl: Option<string>,
                      slots: Slots, tools: Tools)
    returns (context': seq<Message>, studentId: Write<string>, studentName: Write<string>, link: Option<string>)
    ensures context' == context + DispatchAll(calls, fileUrl, slots, tools).0
    ensures Slots(studentId, studentName, link) == DispatchAll(calls, fileUrl, slots, tools).1
  {
    context' := context;
    studentId, studentName, link := slots.studentId, slots.studentName, slots.link;
    var i := 0;
    while i < |calls|
      invariant 0 <= i <= |calls|
      invariant context' + DispatchAll(calls[i..], fileUrl, Slots(studentId, studentName, link), tools).0
        == context + DispatchAll(calls, fileUrl, slots, tools).0
      invariant DispatchAll(calls[i..], fileUrl, Slots(studentId, studentName, link), tools).1
        == DispatchAll(calls, fileUrl, slots, tools).1
    {
      var step := Dispatch(calls[i], fileUrl, Slots(studentId, studentName, link), tools);
      DispatchAllAt(calls, i, fileUrl, Slots(studentId, studentName, link), tools);
      ConcatStep(context', ToolMessage(step.result, calls[i]), DispatchAll(calls[i + 1..], fileUrl, step.slots, tools).0);
      context' := context' + [ToolMessage(step.result, calls[i])];
      studentId, studentName, link := step.slots.studentId, step.slots.studentName, step.slots.link;
      i := i + 1;
    }
    assert calls[i..] == [];
  }

  /** Dispatching from call `i` on: the answer to call `i`, then the rest from the slots it left. */
  lemma DispatchAllAt(calls: seq<ToolCall>, i: nat, fileUrl: Option<string>, slots: Slots, tools: Tools)
    requires i < |calls|
    ensures var step := Dispatch(calls[i], fileUrl, slots, tools);
      var rest := DispatchAll(calls[i + 1..], fileUrl, step.slots, tools);
      DispatchAll(calls[i..], fileUrl, slots, tools) == ([ToolMessage(step.result, calls[i])] + rest.0, rest.1)
  {
    assert calls[i..][1..] == calls[i + 1..];
  }

  lemma ConcatStep(xs: seq<Message>, m: Message, ys: seq<Message>)
    ensures xs + ([m] + ys) == (xs + [m]) + ys
  {
  }

  /** What a loop started with the context `prefix` promises, having already consumed the replies
      `consumed` in the messages it added before `script`: it returns exactly when `script` holds
      a reply without tool calls, and then it has kept `prefix` and added a transcript of the loop. */
  ghost predicate LoopsAfter(prefix: seq<Message>, r: LoopEnd, consumed: seq<Reply>, script: seq<Reply>) {
    && (r.Returned? <==> HasFinal(script))
    && (r.Returned? ==>
          && |r.context| >= |prefix| && r.context[..|prefix|] == prefix
          && exists k: nat :: TranscriptAfter(r.context[|prefix|..] + [AsMessage(r.reply)], consumed, script, k))
  }

  lemma {:induction false} LoopFrom(prefix: seq<Message>, done: seq<Message>, consumed: seq<Reply>,
                                    fileUrl: Option<string>, slots: Slots, script: seq<Reply>, tools: Tools)
    requires Rounds(done) && Replies(done) == AsMessages(consumed)
    ensures LoopsAfter(prefix, Loop(prefix + done, fileUrl, slots, script, tools), consumed, script)
    decreases |script|
  {
    var r := Loop(prefix + done, fileUrl, slots, script, tools);
    if |script| == 0 {
      NoFinalInEmpty(script);
    } else if |script[0].toolCalls| == 0 {
      var m := AsMessage(script[0]);
      FinalStep(done, consumed, script);
      FinalAtHead(script);
      assert r.context == prefix + done;
      assert r.context[|prefix|..] + [m] == done + [m];
      assert TranscriptAfter(r.context[|prefix|..] + [AsMessage(r.reply)], consumed, script, 0);
    } else {
      var m := AsMessage(script[0]);
      var round := DispatchAll(script[0].toolCalls, fileUrl, slots, tools);
      RoundStep(done, consumed, script, round.0);
      var done' := done + [m] + round.0;
      Associate(prefix, done, [m], round.0);
      LoopFrom(prefix, done', consumed + [script[0]], fileUrl, round.1, script[1..], tools);
      LoopsAfterShift(prefix, r, consumed, script);
    }
  }

  /** A tool round at the head of the script moves from `script` into `consumed`. */
  lemma LoopsAfterShift(prefix: seq<Message>, r: LoopEnd, consumed: seq<Reply>, script: seq<Reply>)
    requires |script| > 0 && |script[0].toolCalls| > 0
    requires LoopsAfter(prefix, r, consumed + [script[0]], script[1..])
    ensures LoopsAfter(prefix, r, consumed, script)
  {
    FinalShift(script);
    if r.Returned? {
      var ms := r.context[|prefix|..] + [AsMessage(r.reply)];
      var k: nat :| TranscriptAfter(ms, consumed + [script[0]], script[1..], k);
      TranscriptShift(ms, consumed, script, k);
    }
  }

  /** No tool exception escapes the payment node: it returns exactly when the script holds a
      reply without tool calls, and then its messages are the tool rounds of the loop (each
      tool-requesting reply followed by one tool message per call, with the call's id and name,
      in order) and the final reply, with neither the system message nor any earlier history;
      the only other keys it sets are `student_id` and `student_name`. */
  lemma PaymentTranscript(s: State, instructions: string, script: seq<Reply>, tools: Tools)
    ensures var r := Payment(s, instructions, script, tools).outcome;
      && !r.Raised?
      && (r.Finished? <==> HasFinal(script))
      && (r.Finished? ==>
            && r.update.agent == Keep && r.update.paymentLink == Keep
            && r.update.paymentMatched == Keep && r.update.fileUrl == Keep
            && NoSystem(r.update.messages)
            && exists k: nat :: LoopTranscript(r.update.messages, script, k))
  {
    var prefix := [System(Str(SystemPrompt(instructions, s.fileUrl)))] + s.messages;
    var slots := Slots(Keep, Keep, s.paymentLink);
    assert prefix + [] == prefix;
    LoopFrom(prefix, [], [], s.fileUrl, slots, script, tools);
    var l := Loop(prefix, s.fileUrl, slots, script, tools);
    if l.Returned? {
      var ms := l.context[|prefix|..] + [AsMessage(l.reply)];
      assert l.context[|s.messages| + 1..] == l.context[|prefix|..];
      var k: nat :| TranscriptAfter(ms, [], script, k);
      assert LoopTranscript(ms, script, k);
      TranscriptNoSystem(ms, [], script, k);
    }
  }

  /** With no `image_url` argument and no uploaded file, extraction is not attempted. */
  lemma ExtractWithoutUrl(call: ToolCall, fileUrl: Option<string>, slots: Slots, tools: Tools)
    requires call.name == ExtractTool
    requires "image_url" !in call.args && !TruthyStr(fileUrl)
    ensures Dispatch(call, fileUrl, slots, tools) == Step("Error: No image URL available for extraction.", slots)
  {
  }

  /** A dictionary returned by the extraction sets both identity slots from its entries, and the
      tool message is its JSON text; the argument's `image_url` wins over the uploaded file. */
  lemma ExtractSetsIdentity(call: ToolCall, fileUrl: Option<string>, slots: Slots, tools: Tools,
                            entries: map<string, Option<string>>)
    requires call.name == ExtractTool
    requires TruthyStr(ImageUrl(call, fileUrl))
    requires tools.extract(ImageUrl(call, fileUrl).value) == Ok(ExtractDict(entries))
    ensures var step := Dispatch(call, fileUrl, slots, tools);
      && step.result == tools.dumps(ExtractDict(entries))
      && step.slots.studentId == Put(Entry(entries, "student_id"))
      && step.slots.studentName == Put(Entry(entries, "full_name"))
      && step.slots.link == slots.link
  {
  }

  /** A tool that raises produces "Error: ..." and changes no slot. */
  lemma DispatchCrash(call: ToolCall, fileUrl: Option<string>, slots: Slots, tools: Tools, e: string)
    requires
      || (call.name == ExtractTool && TruthyStr(ImageUrl(call, fileUrl))
          && tools.extract(ImageUrl(call, fileUrl).value) == Crash(e))
      || (call.name == VerifyTool && tools.verify(VerifyId(call, slots)) == Crash(e))
      || (call.name == LinkTool && tools.createLink(call.args) == Crash(e))
    ensures Dispatch(call, fileUrl, slots, tools) == Step("Error: " + e, slots)
  {
  }

  /** A name outside the three tools produces "Unknown tool: ..." and changes no slot. */
  lemma DispatchUnknown(call: ToolCall, fileUrl: Option<string>, slots: Slots, tools: Tools)
    requires call.name != ExtractTool && call.name != VerifyTool && call.name != LinkTool
    ensures Dispatch(call, fileUrl, slots, tools) == Step("Unknown tool: " + call.name, slots)
  {
  }

  /** The identity tool's two answers. The first is written in two pieces: the verifier reasons
      about short literals more cheaply. */
  const Mismatch := "Identity Mismatch: " + "Student ID not found in database."

  function VerifiedText(dbName: string): string {
    "Identity Verified: Matches " + dbName + "."
  }

  /** A mismatch answer leaves the `student_id` slot as it was; a positive answer stores the id
      that was checked. */
  lemma VerifyOutcomes(call: ToolCall, fileUrl: Option<string>, slots: Slots, tools: Tools, dbName: string)
    requires call.name == VerifyTool
    ensures tools.verify(VerifyId(call, slots)) == Ok(Mismatch) ==>
      Dispatch(call, fileUrl, slots, tools) == Step(Mismatch, slots)
    ensures tools.verify(VerifyId(call, slots)) == Ok(VerifiedText(dbName)) ==>
      Dispatch(call, fileUrl, slots, tools) ==
        Step(VerifiedText(dbName), slots.(studentId := Put(VerifyId(call, slots))))
  {
    MismatchNotVerified();
    VerifiedTextVerified(dbName);
  }

  lemma MismatchNotVerified()
    ensures !Contains(Mismatch, "Verified")
  {
    assert Free("Identity Mismatch: ", 'V');
    assert Free("Student ID not found in database.", 'V');
    FreeConcat("Identity Mismatch: ", "Student ID not found in database.", 'V');
    assert "Verified"[0] == 'V';
    NotContainsWithoutHead(Mismatch, "Verified");
  }

  lemma VerifiedTextVerified(dbName: string)
    ensures Contains(VerifiedText(dbName), "Verified")
  {
    var t := VerifiedText(dbName);
    assert OccursAt(t, "Verified", 9) by {
      assert t[9..17] == "Identity Verified: Matches "[9..17];
    }
    OccursContains(t, "Verified", 9);
  }

  /** A link-tool answer "Payment Link Created: u", for a URL `u` with no ": " and no
      surrounding whitespace, stores exactly `u` as the link. */
  lemma LinkFromCreated(call: ToolCall, fileUrl: Option<string>, slots: Slots, tools: Tools, u: string)
    requires call.name == LinkTool
    requires Contains(u, "http") && !Contains(u, ": ") && Trimmed(u)
    requires tools.createLink(call.args) == Ok("Payment Link Created: " + u)
    ensures Dispatch(call, fileUrl, slots, tools) ==
      Step("Payment Link Created: " + u, slots.(link := Some(u)))
  {
    CreatedLink(u);
  }

  /** The link kept from "Payment Link Created: u" is `u`, and the answer counts as a link. */
  lemma CreatedLink(u: string)
    requires Contains(u, "http") && !Contains(u, ": ") && Trimmed(u)
    ensures Contains("Payment Link Created: " + u, "http")
    ensures LinkOf("Payment Link Created: " + u) == u
  {
    var a := "Payment Link Created";
    var message := "Payment Link Created: " + u;
    assert message == a + ": " + u;
    assert forall k :: 0 <= k < |a| ==> a[k] != ':';
    LastPieceAfterPrefix(a, ": ", u);
    assert LastPiece(message, ": ") == u;
    StripTrimmed(u);
    assert message == a + ": " + u + "";
    ContainsInMiddle(a + ": ", u, "", "http");
  }
}
