/** The compiled turn graph (backend/graph/workflow.py) as a function of one turn: load the
    thread's checkpoint, merge the input, run the orchestrator, follow the router to at most one
    agent, then END; the checkpointer keeps one state per thread id. */
module Workflow {
  import opened Wrappers
  import opened Messages
  import opened GraphState
  import Orchestrator
  import PaymentAgent
  import InfoAgent
  import AppointmentAgent

  /** The nodes of the graph, and END. */
  datatype Node =
    | OrchestratorNode
    | PaymentAgentNode
    | ReconciliationAgentNode
    | InfoAgentNode
    | AppointmentAgentNode
    | EndNode

  /** Every turn starts here. */
  const Entry := OrchestratorNode

  predicate IsAgent(n: Node) {
    n.PaymentAgentNode? || n.ReconciliationAgentNode? || n.InfoAgentNode? || n.AppointmentAgentNode?
  }

  /** The path map of the conditional edge out of the orchestrator. */
  function Target(key: string): (n: Node)
    requires key in Orchestrator.RouteKeys
    ensures n == EndNode <==> key == Orchestrator.EndKey
    ensures n != OrchestratorNode
  {
    if key == Orchestrator.PaymentAgentKey then PaymentAgentNode
    else if key == Orchestrator.ReconciliationAgentKey then ReconciliationAgentNode
    else if key == Orchestrator.InfoAgentKey then InfoAgentNode
    else if key == Orchestrator.AppointmentAgentKey then AppointmentAgentNode
    else EndNode
  }

  /** The edges: the orchestrator's conditional edge through the router, and a fixed edge from
      each agent to END. */
  function Successor(n: Node, s: State): Node {
    match n
    case OrchestratorNode => Target(Orchestrator.Router(s))
    case _ => EndNode
  }

  /** No edge leads back to the orchestrator, and every agent leads straight to END. */
  lemma EdgesEndTurn(n: Node, s: State)
    ensures Successor(n, s) != OrchestratorNode
    ensures IsAgent(n) ==> Successor(n, s) == EndNode
    ensures n == OrchestratorNode ==> (Successor(n, s) == EndNode <==> PaymentDone(s))
  {
  }

  /** What each agent node needs for this turn: the classifier, the completion-service scripts
      of the tool-calling agents, their tools, and the reconciliation agent, whose code is not
      part of this model. */
  datatype Agents = Agents(
    classify: Content -> Orchestrator.Label,
    paymentInstructions: string,
    paymentScript: seq<Reply>,
    paymentTools: PaymentAgent.Tools,
    reconciliation: State -> NodeOutcome,
    infoSystem: Message,
    infoScript: seq<Reply>,
    search: map<string, string> -> Outcome<string>,
    appointmentSystem: Message,
    appointmentScript: seq<Reply>,
    appointmentTools: (string, map<string, string>) -> Outcome<string>)

  /** Running one agent node on the state. */
  function RunAgent(n: Node, s: State, agents: Agents): (r: NodeOutcome)
    requires IsAgent(n)
    ensures n.PaymentAgentNode? ==> !r.Raised?
    ensures n.AppointmentAgentNode? ==> (r.Raised? <==> |s.messages| == 0)
    ensures (n.InfoAgentNode? || n.AppointmentAgentNode?) && r.Finished? ==> r.update == MessagesOnly(r.update.messages)
  {
    match n
    case PaymentAgentNode =>
      PaymentAgent.Payment(s, agents.paymentInstructions, agents.paymentScript, agents.paymentTools).outcome
    case ReconciliationAgentNode => agents.reconciliation(s)
    case InfoAgentNode => InfoAgent.Info(s, agents.infoSystem, agents.infoScript, agents.search)
    case AppointmentAgentNode =>
      AppointmentAgent.AppointmentNode(s, agents.appointmentSystem, agents.appointmentScript, agents.appointmentTools)
  }

  /** The input dictionary of one call: its messages and the optional keys it sets. */
  datatype Payload = Payload(
    messages: seq<Message>,
    fileUrl: Write<string>,
    liveImageUrl: Write<string>,
    fileType: Write<string>)

  /** Only keys that are channels of the state reach it: `messages` and `file_url`.
      `live_image_url` and `type` are not keys of the state. */
  function Input(p: Payload): (u: Update)
    ensures u.messages == p.messages && u.fileUrl == p.fileUrl
    ensures u.agent == Keep && u.studentId == Keep && u.studentName == Keep
    ensures u.paymentLink == Keep && u.paymentMatched == Keep
  {
    Update(p.messages, Keep, Keep, Keep, Keep, Keep, p.fileUrl)
  }

  /** How a turn ends: with the final state, with an exception out of a node, or (a modelling
      device) with a completion-service script that ran out. */
  datatype TurnResult = Completed(state: State) | Crashed(error: string) | Unfinished

  /** One turn: the checkpoints afterwards, the result, and the nodes that ran, in order. */
  datatype Turn = Turn(checkpoints: map<string, State>, result: TurnResult, trace: seq<Node>)

  /** The checkpoint of a thread, or the empty state for a new one. */
  function Load(checkpoints: map<string, State>, thread: string): State {
    if thread in checkpoints then checkpoints[thread] else Empty
  }

  /** What one invocation does from the thread's loaded state: the state it saves, its result,
      and the nodes that ran. The checkpointer saves the state after every completed step, so a
      node that raises leaves the state of the step before it. */
  datatype Run = Run(saved: State, result: TurnResult, trace: seq<Node>)

  function RunFrom(s0: State, p: Payload, agents: Agents): (r: Run)
    ensures 1 <= |r.trace| <= 2 && r.trace[0] == Entry
    ensures |r.trace| == 2 ==> IsAgent(r.trace[1])
    ensures r.result.Completed? ==> r.saved == r.result.state
    ensures |r.saved.messages| >= |s0.messages| + |p.messages|
    ensures r.saved.messages[..|s0.messages| + |p.messages|] == s0.messages + p.messages
  {
    var s1 := Apply(s0, Input(p));
    match Orchestrator.Orchestrate(s1, agents.classify)
    case Crash(e) => Run(s1, Crashed(e), [Entry])
    case Ok(u) =>
      var s2 := Apply(s1, u);
      var next := Successor(Entry, s2);
      if next == EndNode then Run(s2, Completed(s2), [Entry])
      else
        match RunAgent(next, s2, agents)
        case Finished(u2) =>
          var s3 := Apply(s2, u2);
          Run(s3, Completed(s3), [Entry, next])
        case Raised(e) => Run(s2, Crashed(e), [Entry, next])
        case OutOfScript => Run(s2, Unfinished, [Entry, next])
  }

  /** One invocation of the compiled graph on a thread. */
  function RunTurn(checkpoints: map<string, State>, thread: string, p: Payload, agents: Agents): (t: Turn)
    ensures t.checkpoints.Keys == checkpoints.Keys + {thread}
    ensures forall other :: other in checkpoints && other != thread ==> t.checkpoints[other] == checkpoints[other]
    ensures t.result.Completed? ==> t.checkpoints[thread] == t.result.state
  {
    var r := RunFrom(Load(checkpoints, thread), p, agents);
    Turn(checkpoints[thread := r.saved], r.result, r.trace)
  }

  /** The state after the input and the orchestrator step of a turn. */
  function Routed(checkpoints: map<string, State>, thread: string, p: Payload, agents: Agents): (s: State)
    requires |p.messages| > 0
    ensures s.messages == Load(checkpoints, thread).messages + p.messages
  {
    var s1 := Apply(Load(checkpoints, thread), Input(p));
    Apply(s1, Orchestrator.Orchestrate(s1, agents.classify).value)
  }

  /** Every turn with an input message starts at the orchestrator, which raises no tool
      exception; after it at most one agent runs, the one the router names, and the turn is
      over. */
  lemma TurnShape(checkpoints: map<string, State>, thread: string, p: Payload, agents: Agents)
    requires |p.messages| > 0
    ensures var t := RunTurn(checkpoints, thread, p, agents);
      var s2 := Routed(checkpoints, thread, p, agents);
      && 1 <= |t.trace| <= 2 && t.trace[0] == OrchestratorNode
      && (t.result.Crashed? ==> |t.trace| == 2)
      && (|t.trace| == 1 <==> Orchestrator.Router(s2) == Orchestrator.EndKey)
      && (|t.trace| == 2 ==> IsAgent(t.trace[1]) && t.trace[1] == Target(Orchestrator.Router(s2))
                             && Successor(t.trace[1], s2) == EndNode)
  {
  }

  /** A turn routed to END runs no agent and returns the state after the orchestrator. */
  lemma EndRunsNoAgent(checkpoints: map<string, State>, thread: string, p: Payload, agents: Agents)
    requires |p.messages| > 0
    requires PaymentDone(Routed(checkpoints, thread, p, agents))
    ensures RunTurn(checkpoints, thread, p, agents).trace == [OrchestratorNode]
    ensures RunTurn(checkpoints, thread, p, agents).result == Completed(Routed(checkpoints, thread, p, agents))
  {
  }

  /** A turn touches only its own thread's checkpoint, and depends on no other thread's. */
  lemma ThreadsIndependent(checkpoints: map<string, State>, other: map<string, State>, thread: string,
                           p: Payload, agents: Agents)
    requires Load(checkpoints, thread) == Load(other, thread)
    ensures var t := RunTurn(checkpoints, thread, p, agents);
      && t.checkpoints.Keys == checkpoints.Keys + {thread}
      && (forall k :: k in checkpoints && k != thread ==> t.checkpoints[k] == checkpoints[k])
      && t.result == RunTurn(other, thread, p, agents).result
      && t.trace == RunTurn(other, thread, p, agents).trace
      && t.checkpoints[thread] == RunTurn(other, thread, p, agents).checkpoints[thread]
  {
  }

  /** The saved state of the thread is the turn's final state when the turn completes. */
  lemma TurnSaves(checkpoints: map<string, State>, thread: string, p: Payload, agents: Agents)
    ensures var t := RunTurn(checkpoints, thread, p, agents);
      t.result.Completed? ==> t.checkpoints[thread] == t.result.state
  {
  }

  /** A turn routed to the appointment agent runs the whole agent/tools loop of its subgraph
      inside that one node: on completion the thread's history has grown by the input, then the
      tool rounds and the final reply of the inner loop. */
  lemma AppointmentWithinTurn(checkpoints: map<string, State>, thread: string, p: Payload, agents: Agents)
    requires |p.messages| > 0
    requires Orchestrator.Router(Routed(checkpoints, thread, p, agents)) == Orchestrator.AppointmentAgentKey
    ensures var t := RunTurn(checkpoints, thread, p, agents);
      var h := Load(checkpoints, thread).messages + p.messages;
      && t.trace == [OrchestratorNode, AppointmentAgentNode]
      && !t.result.Crashed?
      && (t.result.Completed? <==> HasFinal(agents.appointmentScript))
      && (t.result.Completed? ==>
            && |t.result.state.messages| >= |h| && t.result.state.messages[..|h|] == h
            && exists k: nat :: LoopTranscript(t.result.state.messages[|h|..], agents.appointmentScript, k))
  {
    var s2 := Routed(checkpoints, thread, p, agents);
    AppointmentAgent.AppointmentNodeUpdate(s2, agents.appointmentSystem, agents.appointmentScript, agents.appointmentTools);
    var r := AppointmentAgent.AppointmentNode(s2, agents.appointmentSystem, agents.appointmentScript, agents.appointmentTools);
    if r.Finished? {
      var s3 := Apply(s2, r.update);
      assert s3.messages[..|s2.messages|] == s2.messages;
      assert s3.messages[|s2.messages|..] == r.update.messages;
    }
  }

  /** A turn keeps the uploaded file of earlier turns unless its input carries a new one (the
      reconciliation agent, not part of this model, may write any key). */
  lemma FileUrlPersists(checkpoints: map<string, State>, thread: string, p: Payload, agents: Agents)
    requires p.fileUrl == Keep
    requires RunTurn(checkpoints, thread, p, agents).trace != [OrchestratorNode, ReconciliationAgentNode]
    ensures var t := RunTurn(checkpoints, thread, p, agents);
      t.checkpoints[thread].fileUrl == Load(checkpoints, thread).fileUrl
  {
  }
}
