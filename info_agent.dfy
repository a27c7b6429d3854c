/** The information agent (backend/agents/info_agent.py): a tool-calling loop that sends every
    requested call to the university search tool, without catching its exceptions, and returns
    only the final reply. */
module InfoAgent {
  import opened Wrappers
  import opened Messages
  import opened GraphState

  /** The tool messages for the calls of one reply. Every call goes to `search` with its
      arguments, whatever its name; the first exception ends the round. */
  function SearchAll(calls: seq<ToolCall>, search: map<string, string> -> Outcome<string>)
    : (r: Outcome<seq<Message>>)
    ensures r.Ok? <==> forall i :: 0 <= i < |calls| ==> search(calls[i].args).Ok?
    ensures r.Ok? ==> Answers(calls, r.value)
    ensures r.Ok? ==> forall i :: 0 <= i < |calls| ==> r.value[i].content == Str(search(calls[i].args).value)
    decreases |calls|
  {
    if |calls| == 0 then Ok([])
    else
      match search(calls[0].args)
      case Crash(e) => Crash(e)
      case Ok(result) =>
        match SearchAll(calls[1..], search)
        case Crash(e) => Crash(e)
        case Ok(rest) =>
          assert forall i :: 1 <= i < |calls| ==> calls[1..][i - 1] == calls[i];
          Ok([ToolMessage(result, calls[0])] + rest)
  }

  /** One call of a round: the round fails with the call's exception, or goes on with the rest. */
  lemma SearchAllStep(calls: seq<ToolCall>, search: map<string, string> -> Outcome<string>)
    requires |calls| > 0
    ensures search(calls[0].args).Crash? ==> SearchAll(calls, search) == Crash(search(calls[0].args).error)
    ensures search(calls[0].args).Ok? && SearchAll(calls[1..], search).Crash? ==>
      SearchAll(calls, search) == SearchAll(calls[1..], search)
    ensures search(calls[0].args).Ok? && SearchAll(calls[1..], search).Ok? ==>
      SearchAll(calls, search) == Ok([ToolMessage(search(calls[0].args).value, calls[0])] + SearchAll(calls[1..], search).value)
  {
  }

  /** A failed round reports the exception of its first failing call. */
  lemma {:induction false} SearchAllFirstCrash(calls: seq<ToolCall>, search: map<string, string> -> Outcome<string>)
    requires SearchAll(calls, search).Crash?
    ensures exists i :: (0 <= i < |calls| && search(calls[i].args) == Crash(SearchAll(calls, search).error)
                         && forall j :: 0 <= j < i ==> search(calls[j].args).Ok?)
    decreases |calls|
  {
    if search(calls[0].args).Crash? {
      assert search(calls[0].args) == Crash(SearchAll(calls, search).error);
    } else {
      SearchAllFirstCrash(calls[1..], search);
      var i :| 0 <= i < |calls[1..]| && search(calls[1..][i].args) == Crash(SearchAll(calls[1..], search).error)
        && forall j :: 0 <= j < i ==> search(calls[1..][j].args).Ok?;
      assert calls[1..][i] == calls[i + 1];
      forall j | 0 <= j < i + 1 ensures search(calls[j].args).Ok? {
        if j > 0 {
          assert calls[1..][j - 1] == calls[j];
        }
      }
    }
  }

  /** How the loop ends: the final reply with the context built before it, an exception out of a
      search, or the script running out. */
  datatype InfoEnd =
    | Answered(context: seq<Message>, reply: Reply)
    | Failed(error: string)
    | Exhausted

  /** The `while True` loop over the script. */
  function Loop(context: seq<Message>, script: seq<Reply>, search: map<string, string> -> Outcome<string>)
    : (r: InfoEnd)
    ensures r.Answered? ==> r.reply in script && |r.reply.toolCalls| == 0
    ensures r.Answered? ==> |r.context| >= |context| && r.context[..|context|] == context
    decreases |script|
  {
    if |script| == 0 then Exhausted
    else if |script[0].toolCalls| == 0 then Answered(context, script[0])
    else
      match SearchAll(script[0].toolCalls, search)
      case Crash(e) => Failed(e)
      case Ok(answers) =>
        var r := Loop(context + [AsMessage(script[0])] + answers, script[1..], search);
        assert r.Answered? ==> r.context[..|context|] == (context + [AsMessage(script[0])] + answers)[..|context|];
        r
  }

  /** The info node: context `[system] + history`, and only the final reply is returned. */
  function Info(s: State, sys: Message, script: seq<Reply>, search: map<string, string> -> Outcome<string>)
    : (r: NodeOutcome)
    ensures r.Finished? ==> exists x :: x in script && |x.toolCalls| == 0 && r.update == MessagesOnly([AsMessage(x)])
  {
    match Loop([sys] + s.messages, script, search)
    case Answered(_, reply) => Finished(MessagesOnly([AsMessage(reply)]))
    case Failed(e) => Raised(e)
    case Exhausted => OutOfScript
  }

  /** The inner `for` loop of one round: one tool entry per call, appended to the context; an
      exception of the search leaves the method. */
  method RunSearches(context: seq<Message>, calls: seq<ToolCall>, search: map<string, string> -> Outcome<string>)
    returns (r: Outcome<seq<Message>>)
    ensures SearchAll(calls, search).Crash? ==> r == Crash(SearchAll(calls, search).error)
    ensures SearchAll(calls, search).Ok? ==> r == Ok(context + SearchAll(calls, search).value)
  {
    var extended := context;
    var i := 0;
    while i < |calls|
      invariant 0 <= i <= |calls|
      invariant SearchAll(calls[i..], search).Ok? ==>
        SearchAll(calls, search).Ok? && extended + SearchAll(calls[i..], search).value == context + SearchAll(calls, search).value
      invariant SearchAll(calls[i..], search).Crash? ==> SearchAll(calls, search) == SearchAll(calls[i..], search)
    {
      assert calls[i..][1..] == calls[i + 1..];
      SearchAllStep(calls[i..], search);
      var result := search(calls[i].args);
      if result.Crash? {
        return Crash(result.error);
      }
      extended := extended + [ToolMessage(result.value, calls[i])];
      i := i + 1;
    }
    assert calls[i..] == [];
    assert SearchAll(calls[i..], search) == Ok([]);
    assert extended + [] == extended;
    return Ok(extended);
  }

  /** The info node as the source runs it: an unbounded loop over the replies that appends each
      tool-requesting reply and its tool entries to the context. */
  method InfoNode(s: State, sys: Message, script: seq<Reply>, search: map<string, string> -> Outcome<string>)
    returns (outcome: NodeOutcome)
    ensures outcome == Info(s, sys, script, search)
  {
    var context := [sys] + s.messages;
    ghost var goal := Loop(context, script, search);
    var rest := script;
    while true
      invariant Loop(context, rest, search) == goal
      decreases |rest|
    {
      if |rest| == 0 {
        return OutOfScript;
      }
      var response := rest[0];
      if |response.toolCalls| == 0 {
        return Finished(MessagesOnly([AsMessage(response)]));
      }
      var round := RunSearches(context + [AsMessage(response)], response.toolCalls, search);
      if round.Crash? {
        return Raised(round.error);
      }
      context := round.value;
      rest := rest[1..];
    }
  }

  /** Every reply of the script has only searches that succeed. */
  predicate SearchesSucceed(script: seq<Reply>, search: map<string, string> -> Outcome<string>) {
    forall k, i :: 0 <= k < |script| && 0 <= i < |script[k].toolCalls| ==> search(script[k].toolCalls[i].args).Ok?
  }

  /** The loop ends where the script first holds a reply without tool calls, unless a search
      fails first; the final context is the starting one followed by tool rounds. */
  ghost predicate LoopsAfter(prefix: seq<Message>, r: InfoEnd, script: seq<Reply>,
                             search: map<string, string> -> Outcome<string>) {
    && (r.Answered? ==> exists k: nat :: FirstFinal(script, k) && r.reply == script[k])
    && (r.Answered? ==> |r.context| >= |prefix| && r.context[..|prefix|] == prefix && Rounds(r.context[|prefix|..]))
    && (r.Failed? ==> exists k, i :: 0 <= k < |script| && 0 <= i < |script[k].toolCalls|
                        && search(script[k].toolCalls[i].args) == Crash(r.error))
    && (SearchesSucceed(script, search) ==> !r.Failed? && (r.Answered? <==> HasFinal(script)))
  }

  lemma {:induction false} LoopFrom(prefix: seq<Message>, done: seq<Message>, script: seq<Reply>,
                                    search: map<string, string> -> Outcome<string>)
    requires Rounds(done)
    ensures LoopsAfter(prefix, Loop(prefix + done, script, search), script, search)
    decreases |script|
  {
    var r := Loop(prefix + done, script, search);
    if |script| == 0 {
      NoFinalInEmpty(script);
    } else if |script[0].toolCalls| == 0 {
      FinalAtHead(script);
      assert r.context[|prefix|..] == done;
    } else {
      var calls := script[0].toolCalls;
      var round := SearchAll(calls, search);
      if round.Crash? {
        SearchAllFirstCrash(calls, search);
        var i :| 0 <= i < |calls| && search(calls[i].args) == Crash(round.error)
          && forall j :: 0 <= j < i ==> search(calls[j].args).Ok?;
        assert search(script[0].toolCalls[i].args) == Crash(r.error);
      } else {
        var m := AsMessage(script[0]);
        RoundsSnoc(done, script[0], round.value);
        Associate(prefix, done, [m], round.value);
        LoopFrom(prefix, done + [m] + round.value, script[1..], search);
        LoopsAfterShift(prefix, r, script, search);
      }
    }
  }

  /** A tool round at the head of the script that succeeded moves out of the script. */
  lemma LoopsAfterShift(prefix: seq<Message>, r: InfoEnd, script: seq<Reply>,
                        search: map<string, string> -> Outcome<string>)
    requires |script| > 0 && |script[0].toolCalls| > 0
    requires LoopsAfter(prefix, r, script[1..], search)
    ensures LoopsAfter(prefix, r, script, search)
  {
    FinalShift(script);
    if r.Answered? {
      var k: nat :| FirstFinal(script[1..], k) && r.reply == script[1..][k];
      forall j | 0 <= j < k + 1 ensures |script[j].toolCalls| > 0 {
        if j > 0 {
          assert script[1..][j - 1] == script[j];
        }
      }
      assert FirstFinal(script, k + 1);
    }
    if r.Failed? {
      var k, i :| 0 <= k < |script[1..]| && 0 <= i < |script[1..][k].toolCalls|
        && search(script[1..][k].toolCalls[i].args) == Crash(r.error);
      assert script[1..][k] == script[k + 1];
    }
    if SearchesSucceed(script, search) {
      assert SearchesSucceed(script[1..], search) by {
        forall k, i | 0 <= k < |script[1..]| && 0 <= i < |script[1..][k].toolCalls|
          ensures search(script[1..][k].toolCalls[i].args).Ok?
        {
          assert script[1..][k] == script[k + 1];
        }
      }
    }
  }

  /** The info node returns only the final reply, the first of the script without tool calls,
      and sets no other key; a raised exception is one a search raised; when every search
      succeeds it does not raise and returns exactly when the script holds a final reply. */
  lemma InfoReturnsFinalOnly(s: State, sys: Message, script: seq<Reply>,
                             search: map<string, string> -> Outcome<string>)
    ensures var r := Info(s, sys, script, search);
      && (r.Finished? ==> exists k: nat :: FirstFinal(script, k) && r.update == MessagesOnly([AsMessage(script[k])]))
      && (r.Raised? ==> exists k, i :: 0 <= k < |script| && 0 <= i < |script[k].toolCalls|
                          && search(script[k].toolCalls[i].args) == Crash(r.error))
      && (SearchesSucceed(script, search) ==> !r.Raised? && (r.Finished? <==> HasFinal(script)))
  {
    var prefix := [sys] + s.messages;
    assert prefix + [] == prefix;
    LoopFrom(prefix, [], script, search);
  }

  /** The working context the loop ends with is `[system] + history` followed by tool rounds. */
  lemma InfoContext(s: State, sys: Message, script: seq<Reply>,
                    search: map<string, string> -> Outcome<string>)
    ensures var l := Loop([sys] + s.messages, script, search);
      l.Answered? ==>
        && |l.context| >= 1 + |s.messages| && l.context[0] == sys && l.context[1..1 + |s.messages|] == s.messages
        && Rounds(l.context[1 + |s.messages|..])
  {
    var prefix := [sys] + s.messages;
    assert prefix + [] == prefix;
    LoopFrom(prefix, [], script, search);
    var l := Loop(prefix, script, search);
    if l.Answered? {
      assert l.context[..|prefix|][0] == l.context[0];
      assert l.context[1..1 + |s.messages|] == l.context[..|prefix|][1..];
    }
  }

  /** A search that raises in the first round ends the node with that exception. */
  lemma FirstRoundCrash(s: State, sys: Message, script: seq<Reply>,
                        search: map<string, string> -> Outcome<string>, e: string)
    requires |script| > 0 && |script[0].toolCalls| > 0
    requires search(script[0].toolCalls[0].args) == Crash(e)
    ensures Info(s, sys, script, search) == Raised(e)
  {
  }

  /** The loop reaches reply `k`: every earlier reply requests tools and all its searches succeed. */
  predicate Reached(script: seq<Reply>, search: map<string, string> -> Outcome<string>, k: nat) {
    k <= |script| &&
    forall j :: 0 <= j < k ==> |script[j].toolCalls| > 0 && SearchAll(script[j].toolCalls, search).Ok?
  }

  /** Reaching reply `k` of a script whose first round succeeds is reaching reply `k - 1` of the rest. */
  lemma ReachedShift(script: seq<Reply>, search: map<string, string> -> Outcome<string>, k: nat)
    requires 0 < k && Reached(script, search, k)
    ensures Reached(script[1..], search, k - 1)
  {
    forall j | 0 <= j < k - 1
      ensures |script[1..][j].toolCalls| > 0 && SearchAll(script[1..][j].toolCalls, search).Ok?
    {
      assert script[1..][j] == script[j + 1];
    }
  }

  /** A round that fails once the loop has reached it ends the loop with its exception, whatever
      the replies after it. */
  lemma {:induction false} LoopCrashAt(context: seq<Message>, script: seq<Reply>,
                                       search: map<string, string> -> Outcome<string>, k: nat)
    requires k < |script| && Reached(script, search, k)
    requires |script[k].toolCalls| > 0 && SearchAll(script[k].toolCalls, search).Crash?
    ensures Loop(context, script, search) == Failed(SearchAll(script[k].toolCalls, search).error)
    decreases k
  {
    if k > 0 {
      ReachedShift(script, search, k);
      assert script[1..][k - 1] == script[k];
      LoopCrashAt(context + [AsMessage(script[0])] + SearchAll(script[0].toolCalls, search).value,
                  script[1..], search, k - 1);
    }
  }

  /** A reply without tool calls that the loop reaches ends it with that reply, whatever the
      replies after it. */
  lemma {:induction false} LoopAnswersAt(context: seq<Message>, script: seq<Reply>,
                                         search: map<string, string> -> Outcome<string>, k: nat)
    requires k < |script| && Reached(script, search, k) && |script[k].toolCalls| == 0
    ensures Loop(context, script, search).Answered? && Loop(context, script, search).reply == script[k]
    decreases k
  {
    if k > 0 {
      ReachedShift(script, search, k);
      assert script[1..][k - 1] == script[k];
      LoopAnswersAt(context + [AsMessage(script[0])] + SearchAll(script[0].toolCalls, search).value,
                    script[1..], search, k - 1);
    }
  }

  /** A loop that reaches the end of its script has run out of replies. */
  lemma {:induction false} LoopExhaustedAt(context: seq<Message>, script: seq<Reply>,
                                           search: map<string, string> -> Outcome<string>)
    requires Reached(script, search, |script|)
    ensures Loop(context, script, search) == Exhausted
    decreases |script|
  {
    if |script| > 0 {
      ReachedShift(script, search, |script|);
      LoopExhaustedAt(context + [AsMessage(script[0])] + SearchAll(script[0].toolCalls, search).value,
                      script[1..], search);
    }
  }

  /** The info node raises the exception of the first failing search of the first round that
      fails, once every earlier reply requested tools: later replies, final or not, are never read. */
  lemma InfoRaisesAt(s: State, sys: Message, script: seq<Reply>,
                     search: map<string, string> -> Outcome<string>, k: nat)
    requires k < |script| && Reached(script, search, k)
    requires |script[k].toolCalls| > 0 && SearchAll(script[k].toolCalls, search).Crash?
    ensures Info(s, sys, script, search) == Raised(SearchAll(script[k].toolCalls, search).error)
    ensures exists i :: (0 <= i < |script[k].toolCalls|
      && search(script[k].toolCalls[i].args) == Crash(SearchAll(script[k].toolCalls, search).error)
      && forall j :: 0 <= j < i ==> search(script[k].toolCalls[j].args).Ok?)
  {
    LoopCrashAt([sys] + s.messages, script, search, k);
    SearchAllFirstCrash(script[k].toolCalls, search);
  }

  /** The info node finishes with the first reply without tool calls when every search before it
      succeeds, whatever the replies after it. */
  lemma InfoFinishesAt(s: State, sys: Message, script: seq<Reply>,
                       search: map<string, string> -> Outcome<string>, k: nat)
    requires FirstFinal(script, k)
    requires forall j :: 0 <= j < k ==> SearchAll(script[j].toolCalls, search).Ok?
    ensures Info(s, sys, script, search) == Finished(MessagesOnly([AsMessage(script[k])]))
  {
    LoopAnswersAt([sys] + s.messages, script, search, k);
  }

  /** Every run of the info node is one of three: a reached final reply, a reached failing round,
      or a script that runs out while every round succeeds. */
  lemma {:induction false} InfoCases(s: State, sys: Message, script: seq<Reply>,
                                     search: map<string, string> -> Outcome<string>)
    ensures var r := Info(s, sys, script, search);
      && (r.Finished? <==> exists k: nat :: k < |script| && Reached(script, search, k) && |script[k].toolCalls| == 0)
      && (r.Raised? <==> exists k: nat :: k < |script| && Reached(script, search, k) && |script[k].toolCalls| > 0
                                          && SearchAll(script[k].toolCalls, search).Crash?)
      && (r.OutOfScript? <==> Reached(script, search, |script|))
  {
    var prefix := [sys] + s.messages;
    var k := ReachedEnd(script, search);
    if k == |script| {
      LoopExhaustedAt(prefix, script, search);
    } else if |script[k].toolCalls| == 0 {
      LoopAnswersAt(prefix, script, search, k);
    } else {
      LoopCrashAt(prefix, script, search, k);
    }
    forall j: nat | j <= |script| && Reached(script, search, j)
      ensures j == k || (j < k && |script[j].toolCalls| > 0 && SearchAll(script[j].toolCalls, search).Ok?)
    {
      if j < k {
        ReachedStops(script, search, k, j);
      }
    }
  }

  /** The furthest reply the loop reaches: the end of the script, a final reply or a failing round. */
  lemma {:induction false} ReachedEnd(script: seq<Reply>, search: map<string, string> -> Outcome<string>)
    returns (k: nat)
    ensures Reached(script, search, k)
    ensures k == |script| || |script[k].toolCalls| == 0 || SearchAll(script[k].toolCalls, search).Crash?
  {
    k := 0;
    while k < |script| && |script[k].toolCalls| > 0 && SearchAll(script[k].toolCalls, search).Ok?
      invariant Reached(script, search, k)
      decreases |script| - k
    {
      k := k + 1;
    }
  }

  /** A loop that reaches reply `j` passes every reply before it, so it cannot stop at one. */
  lemma ReachedStops(script: seq<Reply>, search: map<string, string> -> Outcome<string>, j: nat, k: nat)
    requires Reached(script, search, j) && k < j
    ensures |script[k].toolCalls| > 0 && SearchAll(script[k].toolCalls, search).Ok?
  {
  }
}
