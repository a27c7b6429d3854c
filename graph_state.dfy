/** The shared state of the turn graph (`UniversityState`) and the partial updates nodes return.

    Every key of the state is optional; a key that is absent and a key that holds `None` read the
    same through `state.get(...)`, so both are `None` here. Only the keys the modelled code reads
    or writes are kept. */
module GraphState {
  import opened Wrappers
  import opened Messages

  datatype State = State(
    messages: seq<Message>,
    studentId: Option<string>,
    studentName: Option<string>,
    paymentLink: Option<string>,
    paymentMatched: Option<bool>,
    fileUrl: Option<string>,
    agent: Option<string>)

  /** A state before any turn: no messages, no slot set. */
  const Empty := State([], None, None, None, None, None, None)

  /** One key of an update dictionary: absent, or present with a (possibly `None`) value. */
  datatype Write<+T> = Keep | Put(value: Option<T>)

  /** `updates.get(key)` */
  function Value<T>(w: Write<T>): Option<T> {
    match w
    case Keep => None
    case Put(v) => v
  }

  /** The value of a key after an update: overwritten if the update holds the key. */
  function Written<T>(w: Write<T>, previous: Option<T>): Option<T> {
    match w
    case Keep => previous
    case Put(v) => v
  }

  /** What a node returns: new messages for the `add_messages` channel and the other keys it sets. */
  datatype Update = Update(
    messages: seq<Message>,
    agent: Write<string>,
    studentId: Write<string>,
    studentName: Write<string>,
    paymentLink: Write<string>,
    paymentMatched: Write<bool>,
    fileUrl: Write<string>)

  /** An update that only adds messages. */
  function MessagesOnly(ms: seq<Message>): Update {
    Update(ms, Keep, Keep, Keep, Keep, Keep, Keep)
  }

  /** Merging a node's update into the state. Messages go through `add_messages`, which appends
      (new messages carry fresh ids); every other key is overwritten when present. */
  function Apply(s: State, u: Update): (r: State)
    ensures r.messages == s.messages + u.messages
    ensures u.agent == Keep ==> r.agent == s.agent
    ensures u.studentId == Keep ==> r.studentId == s.studentId
    ensures u.studentName == Keep ==> r.studentName == s.studentName
    ensures u.paymentLink == Keep ==> r.paymentLink == s.paymentLink
    ensures u.paymentMatched == Keep ==> r.paymentMatched == s.paymentMatched
    ensures u.fileUrl == Keep ==> r.fileUrl == s.fileUrl
    ensures u.agent.Put? ==> r.agent == u.agent.value
    ensures u.studentId.Put? ==> r.studentId == u.studentId.value
    ensures u.studentName.Put? ==> r.studentName == u.studentName.value
    ensures u.paymentLink.Put? ==> r.paymentLink == u.paymentLink.value
    ensures u.paymentMatched.Put? ==> r.paymentMatched == u.paymentMatched.value
    ensures u.fileUrl.Put? ==> r.fileUrl == u.fileUrl.value
  {
    State(
      s.messages + u.messages,
      Written(u.studentId, s.studentId),
      Written(u.studentName, s.studentName),
      Written(u.paymentLink, s.paymentLink),
      Written(u.paymentMatched, s.paymentMatched),
      Written(u.fileUrl, s.fileUrl),
      Written(u.agent, s.agent))
  }

  /** An update that only adds messages changes nothing else, and adding no message changes
      nothing at all. */
  lemma ApplyMessagesOnly(s: State, ms: seq<Message>)
    ensures Apply(s, MessagesOnly(ms)) == s.(messages := s.messages + ms)
    ensures Apply(s, MessagesOnly([])) == s
  {
    assert s.messages + [] == s.messages;
  }

  /** `state.get('payment_link') and state.get('payment_matched')` */
  predicate PaymentDone(s: State) {
    TruthyStr(s.paymentLink) && TruthyBool(s.paymentMatched)
  }

  /** What running one agent node yields: its update, an exception that leaves the node, or
      (a modelling device, not source behaviour) the end of the completion service's script
      before the node finished. */
  datatype NodeOutcome = Finished(update: Update) | Raised(error: string) | OutOfScript
}
