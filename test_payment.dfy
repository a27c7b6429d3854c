/** The payment test harness (backend/test_payment.py): a graph holding only the payment agent
    with a conditional edge back to it, and a `chat` helper that builds the user's content,
    appends it to a copy of the state, runs the graph and flattens the reply to text. */
module TestPayment {
  import opened Wrappers
  import opened Strings
  import opened Messages
  import opened GraphState
  import PaymentAgent

  const PaymentAgentKey := "payment_agent"
  const EndKey := "__end__"

  /** The harness's edge out of the payment agent: END after an assistant message, END once a
      payment link exists, the payment agent again otherwise. `state["messages"][-1]` raises on
      an empty history. */
  function ShouldContinue(s: State): (r: Outcome<string>)
    ensures |s.messages| == 0 <==> r.Crash?
    ensures r.Ok? ==> (r.value == PaymentAgentKey <==> s.messages[|s.messages| - 1].Human? && !TruthyStr(s.paymentLink))
    ensures r.Ok? ==> r.value in {PaymentAgentKey, EndKey}
  {
    if |s.messages| == 0 then Crash("list index out of range")
    else if !s.messages[|s.messages| - 1].Human? then Ok(EndKey)
    else if TruthyStr(s.paymentLink) then Ok(EndKey)
    else Ok(PaymentAgentKey)
  }

  /** The harness's first state: an empty history and no other key. */
  function CreateInitialState(): (s: State)
    ensures s.messages == [] && s == Empty
  {
    State([], None, None, None, None, None, None)
  }

  /** How a run of the harness graph ends. */
  datatype HarnessResult = HarnessDone(state: State) | HarnessFailed(error: string) | HarnessOutOfScript

  /** The compiled harness graph: the payment agent, then `should_continue`. `scripts` holds the
      completion service's replies for each successive run of the agent. */
  function Harness(s: State, instructions: string, scripts: seq<seq<Reply>>, tools: PaymentAgent.Tools)
    : (r: HarnessResult)
    ensures r.HarnessDone? ==> ShouldContinue(r.state) == Ok(EndKey)
    ensures r.HarnessDone? ==> s.messages <= r.state.messages
    ensures !r.HarnessFailed?
    decreases |scripts|
  {
    if |scripts| == 0 then HarnessOutOfScript
    else
      match PaymentAgent.Payment(s, instructions, scripts[0], tools).outcome
      case Finished(u) =>
        var next := Apply(s, u);
        (match ShouldContinue(next)
         case Crash(e) => HarnessFailed(e)
         case Ok(key) =>
           if key == PaymentAgentKey then Harness(next, instructions, scripts[1..], tools)
           else HarnessDone(next))
      case Raised(e) => HarnessFailed(e)
      case OutOfScript => HarnessOutOfScript
  }

  /** The agent always leaves its own final reply last, so the edge back to it is never taken:
      the harness runs the payment agent exactly once. */
  lemma HarnessRunsAgentOnce(s: State, instructions: string, scripts: seq<seq<Reply>>, tools: PaymentAgent.Tools)
    requires |scripts| > 0
    ensures var first := PaymentAgent.Payment(s, instructions, scripts[0], tools).outcome;
      && (first.Finished? ==> Harness(s, instructions, scripts, tools) == HarnessDone(Apply(s, first.update)))
      && (!first.Finished? ==> Harness(s, instructions, scripts, tools) == HarnessOutOfScript)
  {
    PaymentAgent.PaymentTranscript(s, instructions, scripts[0], tools);
    var first := PaymentAgent.Payment(s, instructions, scripts[0], tools).outcome;
    if first.Finished? {
      var k: nat :| LoopTranscript(first.update.messages, scripts[0], k);
      var next := Apply(s, first.update);
      var ms := first.update.messages;
      assert next.messages[|next.messages| - 1] == ms[|ms| - 1];
      assert ShouldContinue(next) == Ok(EndKey);
    }
  }

  /** `os.path.splitext(path)[1]`: from the last dot of the last path component, unless that
      dot only leads the component's name. */
  function Extension(path: string): (ext: string)
    ensures ext == "" || (ext[0] == '.' && EndsWith(path, ext))
    ensures ext != "" <==> exists d: nat :: ExtensionDot(path, d, |path|)
    ensures forall d: nat :: ExtensionDot(path, d, |path|) ==> ext == path[d..]
    decreases |path|
  {
    ExtensionFromDot(path, |path|);
    ExtensionFrom(path, |path|)
  }

  /** Position `d` before `i` is the dot that starts the extension of `path[..i]`: the last dot of
      the last path component, with a character other than a dot before it in the component. */
  predicate ExtensionDot(path: string, d: nat, i: nat)
    requires i <= |path|
  {
    && d < i && path[d] == '.'
    && (forall k :: d < k < i ==> path[k] != '.' && path[k] != '/')
    && !LeadingDots(path, d)
  }

  /** The backward scan finds exactly the dot that starts the extension, and none when there is
      no such dot. */
  lemma {:induction false} ExtensionFromDot(path: string, i: nat)
    requires i <= |path|
    ensures ExtensionFrom(path, i) != "" <==> exists d: nat :: ExtensionDot(path, d, i)
    ensures forall d: nat :: ExtensionDot(path, d, i) ==> ExtensionFrom(path, i) == path[d..]
    decreases i
  {
    if i > 0 && path[i - 1] != '/' && path[i - 1] != '.' {
      ExtensionFromDot(path, i - 1);
      assert ExtensionFrom(path, i) == ExtensionFrom(path, i - 1);
      forall d: nat | ExtensionDot(path, d, i) ensures ExtensionDot(path, d, i - 1) { }
      if ExtensionFrom(path, i - 1) != "" {
        var d: nat :| ExtensionDot(path, d, i - 1);
        assert ExtensionDot(path, d, i);
      }
    } else if i > 0 && path[i - 1] == '.' && !LeadingDots(path, i - 1) {
      assert ExtensionDot(path, i - 1, i);
      forall d: nat | ExtensionDot(path, d, i) ensures d == i - 1 { }
    }
  }

  /** Scanning back from position `i` of `path` for the dot that starts the extension. */
  function ExtensionFrom(path: string, i: nat): (ext: string)
    requires i <= |path|
    ensures ext == "" || (ext[0] == '.' && EndsWith(path, ext))
    decreases i
  {
    if i == 0 then ""
    else if path[i - 1] == '/' then ""
    else if path[i - 1] == '.' then
      if LeadingDots(path, i - 1) then "" else path[i - 1..]
    else ExtensionFrom(path, i - 1)
  }

  /** Every character of the component before position `j` is a dot (or there is none). */
  predicate LeadingDots(path: string, j: nat)
    requires j <= |path|
    decreases j
  {
    j == 0 || path[j - 1] == '/' || (path[j - 1] == '.' && LeadingDots(path, j - 1))
  }

  function LowerString(s: string): (r: string)
    ensures |r| == |s| && forall k :: 0 <= k < |s| ==> r[k] == ToLower(s[k])
  {
    seq(|s|, k requires 0 <= k < |s| => ToLower(s[k]))
  }

  /** `str.strip('.')` */
  function StripDots(s: string): (r: string)
    decreases |s|
  {
    if |s| > 0 && s[0] == '.' then StripDots(s[1..])
    else if |s| > 0 && s[|s| - 1] == '.' then StripDots(s[..|s| - 1])
    else s
  }

  /** The media type of the image block: JPEG for "jpg" and "jpeg", PNG for "png", JPEG for
      anything else. */
  function MediaType(path: string): (r: string)
    ensures r == "image/jpeg" || r == "image/png"
    ensures r == "image/png" <==> StripDots(LowerString(Extension(path))) == "png"
  {
    var key := StripDots(LowerString(Extension(path)));
    if key == "jpg" || key == "jpeg" then "image/jpeg"
    else if key == "png" then "image/png"
    else "image/jpeg"
  }

  /** An upper-case extension still names PNG. */
  lemma MediaTypeUpperCase()
    ensures MediaType("id.PNG") == "image/png"
  {
    assert Extension("id.PNG") == ".PNG" by {
      assert !LeadingDots("id.PNG", 2);
      assert "id.PNG"[2..] == ".PNG";
      assert ExtensionFrom("id.PNG", 3) == ".PNG";
      assert ExtensionFrom("id.PNG", 4) == ".PNG";
      assert ExtensionFrom("id.PNG", 5) == ".PNG";
    }
    assert LowerString(".PNG") == ".png";
    assert StripDots(".png") == "png" by {
      assert ".png"[1..] == "png";
    }
  }

  /** A dot that only starts the file name is not an extension: JPEG is assumed. */
  lemma MediaTypeHiddenFile()
    ensures MediaType(".png") == "image/jpeg"
  {
    assert Extension(".png") == "" by {
      assert LeadingDots(".png", 0);
      assert ExtensionFrom(".png", 1) == "";
      assert ExtensionFrom(".png", 2) == "";
      assert ExtensionFrom(".png", 3) == "";
    }
    assert LowerString("") == "";
  }

  /** The user's content: an image block for an existing image file, then the text block. */
  method BuildContent(userInput: string, imagePath: string, imageExists: bool, imageBase64: string)
    returns (content: seq<Block>)
    ensures imagePath != "" && imageExists ==>
      content == [ImageBlock(MediaType(imagePath), imageBase64), TextBlock(userInput)]
    ensures !(imagePath != "" && imageExists) ==> content == [TextBlock(userInput)]
  {
    content := [];
    if imagePath != "" && imageExists {
      var mediaType := MediaType(imagePath);
      content := content + [ImageBlock(mediaType, imageBase64)];
    }
    content := content + [TextBlock(userInput)];
  }

  /** The content `BuildContent` builds. */
  function UserContent(userInput: string, imagePath: string, imageExists: bool, imageBase64: string): seq<Block> {
    if imagePath != "" && imageExists then [ImageBlock(MediaType(imagePath), imageBase64), TextBlock(userInput)]
    else [TextBlock(userInput)]
  }

  function ImageBlock(mediaType: string, imageBase64: string): Block {
    DictBlock(Some("image_url"), None, Some("data:" + mediaType + ";base64," + imageBase64))
  }

  function TextBlock(text: string): Block {
    DictBlock(Some("text"), Some(text), None)
  }

  /** The state handed to the graph: the initial state, or a copy of the caller's, with the new
      human message appended to its history; the caller's own value is not changed. */
  function WithHuman(state: Option<State>, human: Message): (r: State)
    ensures state.None? ==> r == CreateInitialState().(messages := [human])
    ensures state.Some? ==> r == state.value.(messages := state.value.messages + [human])
  {
    match state
    case None => CreateInitialState().(messages := [human])
    case Some(s) => s.(messages := s.messages + [human])
  }

  /** The text a block contributes: a dictionary block of type "text" gives its text, another
      object gives its `text` attribute when it has one, anything else nothing. */
  function BlockText(b: Block): string {
    match b
    case DictBlock(t, text, _) => if t == Some("text") then text.GetOr("") else ""
    case ObjectBlock(text) => text.GetOr("")
  }

  /** The blocks' texts, concatenated in order. */
  function BlocksText(blocks: seq<Block>): string
    decreases |blocks|
  {
    if |blocks| == 0 then "" else BlockText(blocks[0]) + BlocksText(blocks[1..])
  }

  lemma {:induction false} BlocksTextAppend(a: seq<Block>, b: seq<Block>)
    ensures BlocksText(a + b) == BlocksText(a) + BlocksText(b)
    decreases |a|
  {
    if |a| == 0 {
      assert a + b == b;
    } else {
      assert (a + b)[1..] == a[1..] + b;
      BlocksTextAppend(a[1..], b);
    }
  }

  /** The reply text of the last message: a string content as it is, a list flattened. */
  function ContentText(c: Content): string {
    match c
    case Str(text) => text
    case Parts(blocks) => BlocksText(blocks)
  }

  /** The `for` loop that flattens a list content. */
  method FlattenBlocks(blocks: seq<Block>) returns (text: string)
    ensures text == BlocksText(blocks)
  {
    text := "";
    var i := 0;
    while i < |blocks|
      invariant 0 <= i <= |blocks|
      invariant text == BlocksText(blocks[..i])
    {
      BlocksTextAppend(blocks[..i], [blocks[i]]);
      assert blocks[..i + 1] == blocks[..i] + [blocks[i]];
      assert BlocksText([blocks[i]]) == BlockText(blocks[i]) by {
        assert [blocks[i]][1..] == [];
      }
      text := text + BlockText(blocks[i]);
      i := i + 1;
    }
    assert blocks[..i] == blocks;
  }

  /** Flattening the content the harness builds gives back exactly what the user typed: the
      image block adds no text. */
  lemma ContentRoundTrip(userInput: string, mediaType: string, imageBase64: string)
    ensures ContentText(Parts([TextBlock(userInput)])) == userInput
    ensures ContentText(Parts([ImageBlock(mediaType, imageBase64), TextBlock(userInput)])) == userInput
  {
    var t := [TextBlock(userInput)];
    assert BlocksText(t) == userInput by {
      assert t[1..] == [];
    }
    var both := [ImageBlock(mediaType, imageBase64), TextBlock(userInput)];
    assert both[1..] == t;
  }

  /** What the corrected `chat` yields: the reply text and the final state. */
  datatype ChatResult = Answer(text: string, state: State) | ChatFailed(error: string) | ChatOutOfScript

  /** `chat` as written calls `app.invoke`, but the file defines no `app` (its graph is named
      `graph`), so every call ends in a `NameError` once the state is built. */
  function ChatAsWritten(userInput: string, state: Option<State>): (r: ChatResult)
    ensures !r.Answer?
  {
    ChatFailed("name 'app' is not defined")
  }

  /** Whatever the input and the state, `chat` as written never answers. */
  lemma ChatAsWrittenNeverAnswers(userInput: string, state: Option<State>)
    ensures ChatAsWritten(userInput, state) == ChatFailed("name 'app' is not defined")
    ensures !ChatAsWritten(userInput, state).Answer?
    ensures forall u, st :: ChatAsWritten(u, st).ChatFailed?
  {
  }

  /** `chat` with the harness graph it evidently means: build the content, append it to a copy of
      the state, run the graph, and flatten the last message's content. */
  method Chat(userInput: string, imagePath: string, imageExists: bool, imageBase64: string,
              state: Option<State>, instructions: string, scripts: seq<seq<Reply>>, tools: PaymentAgent.Tools)
    returns (result: ChatResult)
    ensures var h := Harness(WithHuman(state, Human(Parts(UserContent(userInput, imagePath, imageExists, imageBase64)))),
                             instructions, scripts, tools);
      && (h.HarnessDone? && |h.state.messages| > 0 ==>
            result == Answer(ContentText(h.state.messages[|h.state.messages| - 1].content), h.state))
      && (h.HarnessFailed? ==> result == ChatFailed(h.error))
      && (h.HarnessOutOfScript? ==> result == ChatOutOfScript)
  {
    var content := BuildContent(userInput, imagePath, imageExists, imageBase64);
    assert content == UserContent(userInput, imagePath, imageExists, imageBase64);
    var current := WithHuman(state, Human(Parts(content)));
    var h := Harness(current, instructions, scripts, tools);
    result := Finish(h);
  }

  /** What `chat` returns for each way the run of the graph can end. */
  method Finish(h: HarnessResult) returns (result: ChatResult)
    ensures h.HarnessDone? && |h.state.messages| > 0 ==>
      result == Answer(ContentText(h.state.messages[|h.state.messages| - 1].content), h.state)
    ensures h.HarnessFailed? ==> result == ChatFailed(h.error)
    ensures h.HarnessOutOfScript? ==> result == ChatOutOfScript
  {
    match h {
      case HarnessDone(s) => result := FinalAnswer(s);
      case HarnessFailed(e) => return ChatFailed(e);
      case HarnessOutOfScript => return ChatOutOfScript;
    }
  }

  /** The answer of a finished run: the flattened text of the last message, and the state.
      `messages[-1]` on an empty history raises. */
  method FinalAnswer(s: State) returns (result: ChatResult)
    ensures |s.messages| == 0 ==> result == ChatFailed("list index out of range")
    ensures |s.messages| > 0 ==> result == Answer(ContentText(s.messages[|s.messages| - 1].content), s)
  {
    if |s.messages| == 0 {
      return ChatFailed("list index out of range");
    }
    var last := s.messages[|s.messages| - 1];
    var text: string;
    match last.content {
      case Str(t) => text := t;
      case Parts(blocks) => text := FlattenBlocks(blocks);
    }
    return Answer(text, s);
  }

  /** When the agent's run finishes, the corrected `chat` answers with the text of the agent's
      final reply and returns the state holding the old history, the new human message and the
      agent's messages. */
  lemma ChatAnswersWithFinalReply(state: Option<State>, human: Message, instructions: string,
                                  scripts: seq<seq<Reply>>, tools: PaymentAgent.Tools)
    requires |scripts| > 0
    requires PaymentAgent.Payment(WithHuman(state, human), instructions, scripts[0], tools).outcome.Finished?
    ensures var s := WithHuman(state, human);
      var u := PaymentAgent.Payment(s, instructions, scripts[0], tools).outcome.update;
      var h := Harness(s, instructions, scripts, tools);
      && h == HarnessDone(Apply(s, u))
      && |h.state.messages| > 0
      && h.state.messages == (if state.Some? then state.value.messages else []) + [human] + u.messages
      && forall k: nat :: FirstFinal(scripts[0], k) ==>
           && h.state.messages[|h.state.messages| - 1] == AsMessage(scripts[0][k])
           && ContentText(h.state.messages[|h.state.messages| - 1].content) == ContentText(scripts[0][k].content)
  {
    var s := WithHuman(state, human);
    HarnessRunsAgentOnce(s, instructions, scripts, tools);
    PaymentAgent.PaymentTranscript(s, instructions, scripts[0], tools);
    var u := PaymentAgent.Payment(s, instructions, scripts[0], tools).outcome.update;
    assert s.messages == (if state.Some? then state.value.messages else []) + [human];
    LastIsFinalReply(s, u, scripts[0]);
  }

  /** An update holding a loop transcript leaves the loop's first final reply last. */
  lemma LastIsFinalReply(s: State, u: Update, script: seq<Reply>)
    requires exists j: nat :: LoopTranscript(u.messages, script, j)
    ensures |Apply(s, u).messages| > 0
    ensures forall k: nat :: FirstFinal(script, k) ==>
      Apply(s, u).messages[|Apply(s, u).messages| - 1] == AsMessage(script[k])
  {
    var j: nat :| LoopTranscript(u.messages, script, j);
    var ms := Apply(s, u).messages;
    assert ms[|ms| - 1] == u.messages[|u.messages| - 1];
    forall k: nat | FirstFinal(script, k) ensures ms[|ms| - 1] == AsMessage(script[k]) {
      FirstFinalUnique(script, j, k);
    }
  }
}
