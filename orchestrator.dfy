/** The classification node and the routing function of the turn graph
    (backend/agents/orchestrator.py). */
module Orchestrator {
  import opened Wrappers
  import opened Messages
  import opened GraphState

  /** The labels the classifier's structured output may take (`AgentRoute.agent`). */
  datatype Label = Payment | Reconciliation | Support | Appointment | Info

  function LabelName(l: Label): (r: string)
    ensures AgentMap(r).Some? <==> !l.Support?
    ensures AgentMap(r).Some? ==> AgentMap(r).value in RouteKeys && AgentMap(r).value != EndKey
  {
    match l
    case Payment => "payment"
    case Reconciliation => "reconciliation"
    case Support => "support"
    case Appointment => "appointment"
    case Info => "info"
  }

  const PaymentAgentKey := "payment_agent"
  const ReconciliationAgentKey := "reconciliation_agent"
  const InfoAgentKey := "info_agent"
  const AppointmentAgentKey := "appointment_agent"
  const EndKey := "__end__"

  /** The keys the graph's conditional edge out of the orchestrator accepts. */
  const RouteKeys: set<string> :=
    {PaymentAgentKey, ReconciliationAgentKey, InfoAgentKey, AppointmentAgentKey, EndKey}

  /** `agent_map.get(label)` */
  function AgentMap(key: string): (r: Option<string>)
    ensures r.Some? <==> key in {"payment", "reconciliation", "info", "appointment"}
    ensures r.Some? ==> r.value in RouteKeys && r.value != EndKey
  {
    if key == "payment" then Some(PaymentAgentKey)
    else if key == "reconciliation" then Some(ReconciliationAgentKey)
    else if key == "info" then Some(InfoAgentKey)
    else if key == "appointment" then Some(AppointmentAgentKey)
    else None
  }

  /** The orchestrator node. The classifier is an oracle that sees only the content of the last
      message; the node's update holds only the `agent` key. An empty history raises, as
      `state["messages"][-1]` does. */
  function Orchestrate(s: State, classify: Content -> Label): (r: Outcome<Update>)
    ensures |s.messages| == 0 ==> r == Crash("list index out of range")
    ensures |s.messages| > 0 ==>
      r.Ok? && r.value.messages == [] &&
      r.value.agent == Put(Some(LabelName(classify(s.messages[|s.messages| - 1].content)))) &&
      r.value == Update([], r.value.agent, Keep, Keep, Keep, Keep, Keep)
  {
    if |s.messages| == 0 then Crash("list index out of range")
    else
      var l := classify(s.messages[|s.messages| - 1].content);
      Ok(Update([], Put(Some(LabelName(l))), Keep, Keep, Keep, Keep, Keep))
  }

  /** The routing function: the terminal check first, then the label lookup with its defaults. */
  function Router(s: State): (r: string)
    ensures r in RouteKeys
    ensures r == EndKey <==> PaymentDone(s)
  {
    var agentRoute := s.agent.GetOr("payment");
    if PaymentDone(s) then EndKey
    else AgentMap(agentRoute).GetOr(PaymentAgentKey)
  }

  /** With both a payment link and a payment match, the turn ends whatever the label says. */
  lemma RouterTerminal(s: State, agent: Option<string>)
    requires PaymentDone(s)
    ensures Router(s.(agent := agent)) == EndKey
  {
  }

  /** One of the two terminal flags alone never ends the turn. */
  lemma RouterNeedsBothFlags(s: State)
    requires TruthyStr(s.paymentLink) != TruthyBool(s.paymentMatched)
    ensures Router(s) != EndKey
  {
  }

  /** A missing label is read as "payment". */
  lemma RouterDefaultLabel(s: State)
    requires s.agent == None && !PaymentDone(s)
    ensures Router(s) == PaymentAgentKey
  {
  }

  /** The four mapped labels go to their agents. */
  lemma RouterMappedLabels(s: State)
    requires !PaymentDone(s)
    ensures s.agent == Some("payment") ==> Router(s) == PaymentAgentKey
    ensures s.agent == Some("reconciliation") ==> Router(s) == ReconciliationAgentKey
    ensures s.agent == Some("info") ==> Router(s) == InfoAgentKey
    ensures s.agent == Some("appointment") ==> Router(s) == AppointmentAgentKey
  {
  }

  /** Every other label, the classifier's legal "support" among them, goes to the payment agent. */
  lemma RouterOtherLabels(s: State, key: string)
    requires !PaymentDone(s) && s.agent == Some(key)
    requires key !in {"payment", "reconciliation", "info", "appointment"}
    ensures Router(s) == PaymentAgentKey
  {
  }

  lemma RouterSupport(s: State)
    requires !PaymentDone(s) && s.agent == Some(LabelName(Support))
    ensures Router(s) == PaymentAgentKey
  {
    RouterOtherLabels(s, "support");
  }

  /** Two states whose last messages have the same content are classified alike. */
  lemma OrchestrateReadsLastMessage(s: State, t: State, classify: Content -> Label)
    requires |s.messages| > 0 && |t.messages| > 0
    requires s.messages[|s.messages| - 1].content == t.messages[|t.messages| - 1].content
    ensures Orchestrate(s, classify) == Orchestrate(t, classify)
  {
  }

  /** Merging the orchestrator's update changes the `agent` key and nothing else. */
  lemma OrchestrateOnlySetsAgent(s: State, classify: Content -> Label)
    requires |s.messages| > 0
    ensures Apply(s, Orchestrate(s, classify).value) ==
      s.(agent := Some(LabelName(classify(s.messages[|s.messages| - 1].content))))
  {
  }
}
