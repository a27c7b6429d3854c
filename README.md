# Student payment assistant: control logic

This project models the deterministic control logic of a multi-agent chat assistant for university
students. An orchestrator node classifies each message. A router then sends the turn to exactly one
agent node: payment, reconciliation, information or appointment. The turn then ends, and the state
is checkpointed per thread id.

The model covers:

- the three tool-calling loops of the payment, information and appointment agents, with how each
  one contains (or does not contain) tool failures;
- the deterministic parts of the tools: the booking gate (calendar first, ticket after), the UTC
  `Z` suffix, the availability window and busy-slot message, the trusted-site search query and its
  result text, the OCR text parser, and the 15-day calendar reference;
- the in-memory payment table with its create, filter, update-first and delete-first operations;
- the payment test harness;
- the front end's splitting of chat text into plain text and links.

The completion service (the LLM) is a script: a sequence of replies consumed one per call. Every
tool and external service is a function parameter that yields `Ok(value)` or `Crash(error)`, an
exception being a `Crash`.

Pure code is modelled with functions and lemmas. Loops are modelled as methods with `while`/`for`
loops, proved against the recursive functions that specify them. The two tables are classes that
update their rows in place:

- `PaymentDb.PaymentTable`
- `BookAppointmentTicket.AppointmentTable`

The files are:

| Path | What it holds |
|---|---|
| `wrappers.dfy`, `strings.dfy` | shared option and outcome types and string helpers |
| `messages.dfy` | the message datatype and the shape of tool-calling transcripts |
| `graph_state.dfy` | the shared state and the merge of node updates |
| `orchestrator.dfy`, `workflow.dfy`, `chat.dfy` | the turn engine |
| `appointment_agent.dfy`, `payment_agent.dfy`, `info_agent.dfy` | the three agents |
| `book_meeting.dfy`, `book_appointment_ticket.dfy`, `check_finance_availability.dfy`, `info_search.dfy`, `extract_name.dfy`, `date_cheat_sheet.dfy` | one module per tool or utility |
| `payment_db.dfy` | the payment table |
| `test_payment.dfy` | the payment test harness |
| `chat_message.dfy` | the chat-text formatter |

## Model

| member | source | states |
|---|---|---|
| `GraphState.Apply` | backend/graph/state.py:4-40 | merging an update appends its messages (`add_messages`) and overwrites exactly the keys the update holds; every other key keeps its value |
| `GraphState.ApplyMessagesOnly` | backend/graph/state.py:4-40 | an update holding only messages leaves every other key as it was, and an empty one leaves the state unchanged |
| `Orchestrator.Orchestrate` | backend/agents/orchestrator.py:18-54 | an empty history raises an index error; otherwise the update holds only the new `agent` label, the classifier's answer for the last message's content |
| `Orchestrator.LabelName` | backend/agents/orchestrator.py:15 | every label the classifier may answer is a key of the router's agent map, except `support`; the mapped node is a conditional-edge key other than `__end__` |
| `Orchestrator.AgentMap` | backend/agents/orchestrator.py:64-69 | exactly the four keys payment, reconciliation, info and appointment are mapped, each to a conditional-edge key other than `__end__` |
| `Orchestrator.Router` | backend/agents/orchestrator.py:56-75 | the result is always one of the five keys of the conditional edge, and it is `__end__` exactly when `payment_link` and `payment_matched` are both truthy |
| `Orchestrator.RouterTerminal` | backend/agents/orchestrator.py:72-73 | with both payment flags truthy the router ends the turn whatever the `agent` label is |
| `Orchestrator.RouterNeedsBothFlags` | backend/agents/orchestrator.py:72-75 | with only one of the two flags truthy the router never ends the turn |
| `Orchestrator.RouterDefaultLabel` | backend/agents/orchestrator.py:59-75 | a missing `agent` label routes to `payment_agent` |
| `Orchestrator.RouterMappedLabels` | backend/agents/orchestrator.py:64-69 | the labels payment, reconciliation, info and appointment route to their own agent nodes |
| `Orchestrator.RouterOtherLabels` | backend/agents/orchestrator.py:64-75 | every label outside the four mapped ones routes to `payment_agent` |
| `Orchestrator.RouterSupport` | backend/agents/orchestrator.py:15-75 | the classifier's legal label `support` has no node of its own and routes to `payment_agent` |
| `Orchestrator.OrchestrateReadsLastMessage` | backend/agents/orchestrator.py:21-50 | two states whose last messages have the same content are classified alike |
| `Orchestrator.OrchestrateOnlySetsAgent` | backend/agents/orchestrator.py:54 | merging the orchestrator's update changes the `agent` key and nothing else |
| `Workflow.Target` | backend/graph/workflow.py:27-37 | the path map sends `__end__` and only it to END, and never leads back to the orchestrator |
| `Workflow.EdgesEndTurn` | backend/graph/workflow.py:27-43 | no edge returns to the orchestrator; every agent leads straight to END; the orchestrator leads to END exactly when both payment flags are truthy |
| `Workflow.Input` | backend/graph/state.py:4-40 | of the input dictionary only `messages` and `file_url` reach the state; no other key is written |
| `Workflow.RunAgent` | backend/graph/workflow.py:17-21 | the payment node never raises; the appointment node raises exactly on an empty history; the information and appointment nodes return only messages |
| `Workflow.RunFrom` | backend/graph/workflow.py:14-43 | one run is the orchestrator, then at most one agent; a completed run saves its final state; the saved history starts with the loaded history followed by the input messages |
| `Workflow.RunTurn` | backend/graph/workflow.py:45-47 | the checkpointer afterwards holds the old threads unchanged plus this thread, whose checkpoint is the final state when the turn completes |
| `Workflow.Routed` | backend/graph/workflow.py:24-37 | after the input and the orchestrator step, the thread's history is the saved history followed by the input messages |
| `Workflow.TurnShape` | backend/graph/workflow.py:14-43 | every turn starts at the orchestrator, which raises no tool exception; at most one agent runs, the one the router names, and then the turn ends; exactly one node runs when the router says `__end__` |
| `Workflow.EndRunsNoAgent` | backend/graph/workflow.py:35 | a turn routed to `__end__` runs no agent and completes with the state after the orchestrator |
| `Workflow.ThreadsIndependent` | backend/graph/workflow.py:45-47 | a turn writes only its own thread's checkpoint, and its result depends on no other thread's state |
| `Workflow.TurnSaves` | backend/graph/workflow.py:45-47 | a completed turn saves its final state as the thread's checkpoint |
| `Workflow.AppointmentWithinTurn` | backend/graph/workflow.py:21 | a turn routed to the appointment node runs the subgraph's whole agent/tools loop inside that node; on completion the history has grown by the input followed by a tool-calling transcript |
| `Workflow.FileUrlPersists` | backend/graph/state.py:37 | an uploaded file URL survives later turns whose input carries none |
| `AppointmentAgent.ToolsMapHasThree` | backend/agents/appointment_agent.py:17-21 | the tool map holds exactly three tools, and `book_meeting` cannot be called by name |
| `AppointmentAgent.ToolResultText` | backend/agents/appointment_agent.py:144-166 | a mapped tool that succeeds gives its result; an unmapped name gives "System Error executing ", the name, ": Tool '", the name and "' is not in tools_map."; a raising tool gives "System Error executing ", the name, ": " and the exception's message |
| `AppointmentAgent.WithSystem` | backend/agents/appointment_agent.py:104-105 | the system message is put first only when the history does not start with one; an empty history raises |
| `AppointmentAgent.AgentNodeUpdate` | backend/agents/appointment_agent.py:107-114 | the agent node returns only the reply, never the system message |
| `AppointmentAgent.ToolOutputs` | backend/agents/appointment_agent.py:136-173 | one tool message per call, in call order, with the call's id and name; the content is the tool's result, or a "System Error executing" text for an unknown name or a crash |
| `AppointmentAgent.ToolNode` | backend/agents/appointment_agent.py:119-176 | the loop over the calls computes `ToolOutputs`; it yields no message when the last message requests no tool, and no tool exception escapes it |
| `AppointmentAgent.ShouldContinue` | backend/agents/appointment_agent.py:179-183 | goes to `tools` exactly when the last message has tool calls, otherwise to END |
| `AppointmentAgent.RunGraphFinalStep` | backend/agents/appointment_agent.py:186-192 | a reply without tool calls ends the subgraph with that reply appended |
| `AppointmentAgent.RunGraphToolStep` | backend/agents/appointment_agent.py:186-192 | a reply with tool calls is appended with its tool messages, and the agent runs again |
| `AppointmentAgent.RunGraph` | backend/agents/appointment_agent.py:186-194 | the subgraph fails exactly on an empty history, and otherwise leaves the history it started with as a prefix of its messages |
| `AppointmentAgent.AppointmentNode` | backend/agents/appointment_agent.py:186-194 | the node raises exactly on an empty history and finishes exactly when the subgraph does; it then returns only messages, and merging them gives the state whose history is the subgraph's whole list |
| `AppointmentAgent.AppointmentTranscript` | backend/agents/appointment_agent.py:186-194 | on a non-empty history no tool exception escapes the subgraph; it finishes exactly when the script has a reply without tool calls, keeping the history and appending the tool rounds and that reply |
| `AppointmentAgent.AppointmentNodeUpdate` | backend/agents/appointment_agent.py:186-194 | no tool exception escapes the appointment node; it adds exactly the transcript of its inner loop and sets no other key |
| `PaymentAgent.SystemPrompt` | backend/agents/payment_agent.py:40-79 | the prompt is the fixed instructions, and names the uploaded file when there is one |
| `PaymentAgent.ImageUrl` | backend/agents/payment_agent.py:118 | the call's `image_url` argument when present, else the state's `file_url` |
| `PaymentAgent.VerifyId` | backend/agents/payment_agent.py:132 | the call's `student_id` argument when truthy, else the `student_id` collected so far |
| `PaymentAgent.LinkOf` | backend/agents/payment_agent.py:142 | the stored link is stripped and no longer than the tool's answer, and is the whole answer stripped when it holds no ": " |
| `Strings.StripSeparators` | backend/agents/payment_agent.py:142 | `strip()` removes the separators 0x1C and 0x1F around a text, as Python's whitespace |
| `PaymentAgent.Dispatch` | backend/agents/payment_agent.py:106-147 | only extraction may change `student_name`; only extraction and verification may change `student_id`; only the link tool may change the local `payment_link` |
| `PaymentAgent.DispatchAll` | backend/agents/payment_agent.py:106-154 | one tool message per call, in call order, with the call's id and name |
| `PaymentAgent.Loop` | backend/agents/payment_agent.py:85-154 | the loop only appends to its context |
| `PaymentAgent.Payment` | backend/agents/payment_agent.py:32-157 | the node never raises; its returned update leaves `agent`, `payment_link`, `payment_matched` and `file_url` untouched |
| `PaymentAgent.PaymentNode` | backend/agents/payment_agent.py:32-157 | the `while` loop with its inner `for` loop computes `Payment`: the node's outcome and the `payment_link` of its local state |
| `PaymentAgent.RunToolCalls` | backend/agents/payment_agent.py:104-154 | the inner loop appends the tool messages and leaves the slot values `DispatchAll` computes |
| `PaymentAgent.PaymentTranscript` | backend/agents/payment_agent.py:83-97 | no tool exception escapes the node; it returns exactly when the script has a reply without tool calls; the returned messages are the tool rounds and the final reply, without the history or the system message; only `student_id`/`student_name` are set besides them, never `payment_link` |
| `PaymentAgent.ExtractWithoutUrl` | backend/agents/payment_agent.py:116-130 | with no URL argument and no uploaded file, extraction answers "Error: No image URL available for extraction." and changes no slot |
| `PaymentAgent.ExtractSetsIdentity` | backend/agents/payment_agent.py:118-128 | a dictionary result sets `student_id` and `student_name` from its entries and is answered in its JSON form |
| `PaymentAgent.DispatchCrash` | backend/agents/payment_agent.py:146-147 | a tool that raises yields "Error: " and the message, and changes no slot |
| `PaymentAgent.DispatchUnknown` | backend/agents/payment_agent.py:143-144 | an unknown tool name yields "Unknown tool: " and the name, and changes no slot |
| `PaymentAgent.VerifyOutcomes` | backend/agents/payment_agent.py:131-137 | the identity tool's mismatch answer leaves `student_id` as it was; its "Identity Verified" answer stores the id sent |
| `PaymentAgent.LinkFromCreated` | backend/agents/payment_agent.py:138-142 | a link-tool answer "Payment Link Created: u" sets the local `payment_link` to `u` |
| `PaymentAgent.CreatedLink` | backend/tools/payment/create_payment_link.py:57 | the last ": " piece of the created-link answer, stripped, is the URL itself, when the URL has no ": " and no edge whitespace |
| `InfoAgent.SearchAll` | backend/agents/info_agent.py:54-64 | a round succeeds exactly when every search succeeds; it then yields one tool entry per call, in order, with the call's id and name and the search's text |
| `InfoAgent.SearchAllStep` | backend/agents/info_agent.py:54-57 | a round stops at the first failing call, or goes on with the rest |
| `InfoAgent.SearchAllFirstCrash` | backend/agents/info_agent.py:54-57 | a failed round reports the exception of a failing call, and every call before it succeeded |
| `InfoAgent.RunSearches` | backend/agents/info_agent.py:54-64 | the inner loop appends exactly the round's entries, or ends with the round's exception |
| `InfoAgent.Loop` | backend/agents/info_agent.py:43-64 | an answer is a scripted reply without tool calls, and the loop only appends to the context it starts with |
| `InfoAgent.Info` | backend/agents/info_agent.py:14-64 | a finished node returns one message only: a scripted reply without tool calls |
| `InfoAgent.LoopCrashAt` | backend/agents/info_agent.py:43-57 | when every round before round `k` calls tools whose searches all succeed, and a search of round `k` raises, the loop ends with that exception |
| `InfoAgent.LoopAnswersAt` | backend/agents/info_agent.py:43-49 | when every round before round `k` calls tools whose searches all succeed, and reply `k` calls none, the loop answers with reply `k` |
| `InfoAgent.LoopExhaustedAt` | backend/agents/info_agent.py:43-64 | when every reply calls tools whose searches all succeed, the loop runs out of script |
| `InfoAgent.InfoRaisesAt` | backend/agents/info_agent.py:54-57 | the node raises the exception of the first failing call of the first round that fails, when every earlier round succeeded |
| `InfoAgent.InfoFinishesAt` | backend/agents/info_agent.py:43-49 | when `k` is the first reply without tool calls and every search before it succeeds, the node returns exactly that reply |
| `InfoAgent.InfoCases` | backend/agents/info_agent.py:43-64 | the node finishes, raises, or runs out of script exactly when the rounds it reaches end with a final reply, a failing search, or the end of the script |
| `InfoAgent.InfoNode` | backend/agents/info_agent.py:14-64 | the `while` loop computes `Info`: the node's outcome over the script |
| `InfoAgent.InfoReturnsFinalOnly` | backend/agents/info_agent.py:43-49 | the node returns only the first reply without tool calls, unless a search before it raised; no intermediate message is returned |
| `InfoAgent.InfoContext` | backend/agents/info_agent.py:40-52 | the working context is the system message and the history, followed by tool rounds |
| `InfoAgent.FirstRoundCrash` | backend/agents/info_agent.py:57 | a search that raises in the first round ends the node with that exception: nothing contains it |
| `Chat.BuildPayload` | backend/chat.py:36-48 | one human message holding the user's text; `file_url` only for an id card, `live_image_url` only for a live image, and both only with a non-empty URL; `type` always present |
| `Chat.PayloadFileKeys` | backend/chat.py:43-46 | at most one of the two file keys is set, and neither is set without a URL |
| `Chat.ChatTurn` | backend/chat.py:27-69 | one call replaces the thread's checkpoint by the one the turn saves and answers with the last message's content, or re-raises the turn's exception |
| `Chat.Response` | backend/chat.py:58-69 | a completed turn with a history answers with its last message's content and the state; a graph exception is re-raised unchanged; a cut-off turn stays cut off |
| `Chat.CompletedTurnReplies` | backend/chat.py:58-64 | a completed turn always has a last message to answer with |
| `Chat.ChatReraises` | backend/chat.py:66-69 | an exception of the graph reaches the caller unchanged |
| `Chat.EndTurnEchoesInput` | backend/chat.py:61-62 | on a turn routed straight to `__end__` the answer is the user's own new message |
| `TestPayment.ShouldContinue` | backend/test_payment.py:27-38 | END after an assistant message or once `payment_link` is truthy, otherwise back to the payment agent; an empty history raises |
| `TestPayment.Harness` | backend/test_payment.py:22-46 | the harness graph stops only where its edge goes to END; the history it started with is a prefix of the result; a run never fails, because the payment node raises nothing and leaves a non-empty history for the edge |
| `TestPayment.CreateInitialState` | backend/test_payment.py:58-72 | the initial state has an empty history and no other key |
| `TestPayment.HarnessRunsAgentOnce` | backend/test_payment.py:22-46 | the agent leaves its own reply last, so the harness graph runs the agent once and stops |
| `TestPayment.Extension` | backend/test_payment.py:81 | the extension is non-empty exactly when the last path component has a dot that is not in its run of leading dots; it is then the suffix from the last such dot |
| `TestPayment.MediaType` | backend/test_payment.py:81-82 | the media type is `image/png` exactly for a (case-insensitive) png extension, `image/jpeg` otherwise |
| `TestPayment.MediaTypeUpperCase` | backend/test_payment.py:81-82 | an upper-case `.PNG` still names PNG |
| `TestPayment.MediaTypeHiddenFile` | backend/test_payment.py:81-82 | a file named `.png` has no extension and is taken as JPEG |
| `TestPayment.BuildContent` | backend/test_payment.py:77-90 | an image block precedes the text block when the image path exists; otherwise there is only the text block |
| `TestPayment.WithHuman` | backend/test_payment.py:92-97 | the graph gets a copy of the caller's state, or the initial state, with the new message appended |
| `TestPayment.FlattenBlocks` | backend/test_payment.py:105-111 | the loop concatenates, in order, the text of the text blocks |
| `TestPayment.ContentRoundTrip` | backend/test_payment.py:77-111 | flattening the content the harness builds gives back what the user typed, with or without an image |
| `TestPayment.ChatAsWritten` | backend/test_payment.py:99 | as written, `chat` never answers |
| `TestPayment.ChatAsWrittenNeverAnswers` | backend/test_payment.py:99 | as written, `chat` fails on every input and every state, with the `NameError` for `app`, because it calls a graph the file never defines |
| `TestPayment.Chat` | backend/test_payment.py:74-117 | the corrected `chat` runs the harness graph on the extended state and answers with the text of the last message |
| `TestPayment.FinalAnswer` | backend/test_payment.py:100-117 | the answer is the flattened text of the last message together with the state, and an empty history fails with the index error |
| `TestPayment.Finish` | backend/test_payment.py:99-117 | a finished run answers with its last message's text; a failed or cut-off run is passed on as such |
| `TestPayment.ChatAnswersWithFinalReply` | backend/test_payment.py:99-117 | when the agent finishes, the corrected `chat` answers with the text of its last message, which is the agent's first reply without tool calls |
| `BookMeeting.NormalizeZ` | backend/tools/appointment/book_meeting.py:14-15 | the result ends with `Z`; a time already ending with `Z` is unchanged, and any other time gets one `Z` |
| `BookMeeting.NormalizeIdempotent` | backend/tools/appointment/book_meeting.py:14-15 | normalising twice is normalising once |
| `BookMeeting.MeetingEvent` | backend/tools/appointment/book_meeting.py:17-32 | the student is the only attendee; both ends are in UTC and end with `Z` |
| `BookMeeting.Book` | backend/tools/appointment/book_meeting.py:10-38 | a failure to obtain the calendar service escapes as an exception |
| `BookMeeting.BookOutcomes` | backend/tools/appointment/book_meeting.py:34-38 | a failed insert answers "Failed to book meeting: ..."; a successful one answers "Meeting created! Link: " and the link |
| `BookMeeting.FailureContainsFailed` | backend/tools/appointment/book_meeting.py:38 | every failure answer contains "Failed" |
| `BookAppointmentTicket.AppointmentTable.Insert` | backend/tools/appointment/book_appointment_ticket.py:45-51 | appends one row with the given fields and a ticket id no earlier row has |
| `BookAppointmentTicket.Gate` | backend/tools/appointment/book_appointment_ticket.py:20-41 | a calendar exception stops with "Booking Failed (Tool Error): "; a result containing "Failed" or "Error" stops with "Booking Failed: "; any other result goes on |
| `BookAppointmentTicket.SuccessMessage` | backend/tools/appointment/book_appointment_ticket.py:54 | the success answer is the fixed head, the ticket number in decimal, and a final `.` |
| `BookAppointmentTicket.SuccessMessageInjective` | backend/tools/appointment/book_appointment_ticket.py:54 | different tickets give different success answers |
| `BookAppointmentTicket.Book` | backend/tools/appointment/book_appointment_ticket.py:6-54 | calls the calendar with the email and both times unchanged; a stop leaves the table unchanged; otherwise one confirmed row for the email at the start time is inserted and its ticket is named |
| `BookAppointmentTicket.CalendarFailureBlocks` | backend/tools/appointment/book_appointment_ticket.py:40-41 | with the real calendar tool, a missing service or a failed insert always blocks the ticket |
| `BookAppointmentTicket.SuccessNamesTicket` | backend/tools/appointment/book_appointment_ticket.py:54 | the success answer contains the ticket number and does not contain "Failed" |
| `CheckFinanceAvailability.Window` | backend/tools/appointment/check_finance_availability.py:15-16 | the window is the date followed by `T13:00:00Z`, and the date followed by `T16:00:00Z` |
| `CheckFinanceAvailability.StartOf` | backend/tools/appointment/check_finance_availability.py:35 | an event's start is its `dateTime` when present, else its `date` |
| `CheckFinanceAvailability.BusySlots` | backend/tools/appointment/check_finance_availability.py:33-36 | one "Busy from" entry per event, in order |
| `CheckFinanceAvailability.Answer` | backend/tools/appointment/check_finance_availability.py:29-38 | no events gives the "fully open" text ending with the date and `.`; otherwise the bookings text with its fixed head and tail |
| `CheckFinanceAvailability.CheckAvailability` | backend/tools/appointment/check_finance_availability.py:5-38 | service and listing exceptions escape; otherwise the answer is built from the listed events in the window |
| `CheckFinanceAvailability.AnswerShape` | backend/tools/appointment/check_finance_availability.py:29-38 | no events gives the "fully open" answer ending with the date; otherwise the bookings answer holds the joined slots between its fixed head and tail |
| `CheckFinanceAvailability.BusySlotsInOrder` | backend/tools/appointment/check_finance_availability.py:33-38 | each event's "Busy from" entry occurs in the answer, in event order, separated by ", " |
| `InfoSearch.SiteTerms` | backend/tools/info/info_search.py:20-30 | one "site:" term per trusted site, in list order |
| `InfoSearch.SiteQueryParts` | backend/tools/info/info_search.py:32 | the query sent is "(", the domain filter, ") " and the user's query |
| `InfoSearch.DomainFilterInOrder` | backend/tools/info/info_search.py:20-30 | each site's term occurs in the filter in list order, followed by " OR " before the next |
| `InfoSearch.ItemEntry` | backend/tools/info/info_search.py:51 | a result with both keys gives its Source/Content entry; a missing key raises a `KeyError` naming it |
| `InfoSearch.Context` | backend/tools/info/info_search.py:49-53 | the result text exists exactly when every result has both keys |
| `InfoSearch.ContextFirstMissing` | backend/tools/info/info_search.py:50-51 | the error of the results' text is the `KeyError` of the first result lacking a key: `'url'` when its `url` is missing, else `'content'` |
| `InfoSearch.MissingKeyAnswer` | backend/tools/info/info_search.py:49-55 | a result lacking a key, after results that have both, makes the tool answer "Search failed: " and the quoted name of the missing key |
| `InfoSearch.SearchAnswer` | backend/tools/info/info_search.py:34-55 | a service exception answers "Search failed: " and its message; no results answers the no-information text; complete results answer the concatenation of their entries; a result lacking a key answers "Search failed: " and that `KeyError`'s message |
| `InfoSearch.SearchUniversityInfo` | backend/tools/info/info_search.py:14-55 | the loop accumulating the context computes `SearchAnswer` |
| `InfoSearch.ContextEntries` | backend/tools/info/info_search.py:49-53 | with complete results the text is the in-order concatenation of their entries |
| `InfoSearch.SearchOutcomes` | backend/tools/info/info_search.py:34-55 | both kinds of exception answer "Search failed: " and the message: the service's own, or the `KeyError` of a result lacking a key; no results answers the no-information text; otherwise the entries |
| `ExtractName.MoreWords` | backend/tools/payment/extract_name.py:16 | the optional further words are taken greedily, at most two |
| `ExtractName.MoreWordsLongest` | backend/tools/payment/extract_name.py:16 | no longer run of optional words matches |
| `ExtractName.NameAt` | backend/tools/payment/extract_name.py:15-19 | a match at a position has the name pattern's shape: STUDENT, whitespace, then one to three words of two or more letters |
| `ExtractName.NameAtComplete` | backend/tools/payment/extract_name.py:15-19 | every position where the name pattern can match is found |
| `ExtractName.SeparatorBeforeName` | backend/tools/payment/extract_name.py:15-19 | the separator 0x1C counts as `\s`, so in "STUDENT", 0x1C, "JOHN" the name group is "JOHN" |
| `ExtractName.GroupAfter` | backend/tools/payment/extract_name.py:23 | the captured registration run is a maximal run of word characters or `*` |
| `ExtractName.GroupAfterComplete` | backend/tools/payment/extract_name.py:23 | every position where the run can start is found |
| `ExtractName.RegistrationAt` | backend/tools/payment/extract_name.py:22-26 | a match has the registration pattern's shape: Registration, whitespace, Number, optional whitespace, an optional colon, optional whitespace, then the run |
| `ExtractName.RegistrationAtComplete` | backend/tools/payment/extract_name.py:22-26 | every position where the registration pattern can match is found |
| `ExtractName.Leftmost` | backend/tools/payment/extract_name.py:15-26 | the search takes the leftmost matching position, and there is none exactly when no position matches |
| `ExtractName.FieldAbsent` | backend/tools/payment/extract_name.py:28-29 | a field without a match is None |
| `ExtractName.FieldIsGroup` | backend/tools/payment/extract_name.py:28-29 | a matched field is the captured group, stripped |
| `ExtractName.ParseStudentInfo` | backend/tools/payment/extract_name.py:11-30 | each field is None exactly when its pattern matches at no position of the OCR text |
| `ExtractName.GroupTrimmed` | backend/tools/payment/extract_name.py:28-29 | returned values have no leading or trailing whitespace |
| `ExtractName.StudentNameAbsent` | backend/tools/payment/extract_name.py:15-28 | `student_name` is None exactly when the name pattern matches nowhere |
| `ExtractName.StudentNameLeftmost` | backend/tools/payment/extract_name.py:15-28 | `student_name` is the group of the leftmost name match |
| `ExtractName.RegistrationAbsent` | backend/tools/payment/extract_name.py:22-29 | `registration_number` is None exactly when the registration pattern matches nowhere |
| `ExtractName.RegistrationLeftmost` | backend/tools/payment/extract_name.py:22-29 | `registration_number` is the group of the leftmost registration match |
| `DateCheatSheet.NextDay` | backend/utils/date_cheat_sheet.py:7 | the next day of a valid date is a valid date |
| `DateCheatSheet.NextDayNumber` | backend/utils/date_cheat_sheet.py:7 | the next day's day number is one more |
| `DateCheatSheet.AddDays` | backend/utils/date_cheat_sheet.py:7 | adding days to a valid date gives a valid date |
| `DateCheatSheet.AddDaysNumber` | backend/utils/date_cheat_sheet.py:7 | adding `n` days adds `n` to the day number |
| `DateCheatSheet.Weekday` | backend/utils/date_cheat_sheet.py:9 | the weekday index (0 for Monday) lies in 0..6, so it names one of the seven `%A` day names |
| `DateCheatSheet.IsoDate` | backend/utils/date_cheat_sheet.py:9 | the `%Y-%m-%d` text is at least ten characters of digits and dashes |
| `DateCheatSheet.Line` | backend/utils/date_cheat_sheet.py:9 | each entry is one line: it ends with a newline and holds no other |
| `DateCheatSheet.Lines` | backend/utils/date_cheat_sheet.py:6-9 | there are `n` entries; entry `i` is the line for the start date plus `i` days |
| `DateCheatSheet.CheatSheet` | backend/utils/date_cheat_sheet.py:3-10 | the loop builds the header followed by the 15 entry lines for offsets 0 to 14 |
| `DateCheatSheet.ConsecutiveLines` | backend/utils/date_cheat_sheet.py:6-9 | consecutive entries are consecutive days, and the weekday advances by one, cyclically |
| `DateCheatSheet.WeekLater` | backend/utils/date_cheat_sheet.py:6-9 | the entry seven days later has the same weekday |
| `DateCheatSheet.NewYearWeekday` | backend/utils/date_cheat_sheet.py:9 | the weekday of 1 January of year `y` is the number of days in the years before it (365 each, plus the Gregorian leap days) modulo 7 |
| `DateCheatSheet.KnownWeekdays` | backend/utils/date_cheat_sheet.py:9 | 1 January 1970 is a Thursday and 1 January 2024 is a Monday |
| `PaymentDb.ByStudent` | backend/database/payment.py:22-25 | exactly the records of the student |
| `PaymentDb.FirstMatch` | backend/database/payment.py:33 | the first record with the transaction id, or none when no record has it |
| `PaymentDb.Updated` | backend/database/payment.py:30-38 | the table keeps its length and every record changes at most its status; None exactly when no record has the id, and then nothing changes; otherwise the returned record has the id and the new status |
| `PaymentDb.Deleted` | backend/database/payment.py:42-49 | None exactly when no record has the id, and then nothing changes; otherwise the removed record has the id, and it with the remaining records is the old table as a multiset |
| `PaymentDb.PaymentTable.Create` | backend/database/payment.py:5-17 | appends one record with the given fields and a fresh id, and returns it |
| `PaymentDb.PaymentTable.PaymentsByStudent` | backend/database/payment.py:22-25 | the table's records of the student |
| `PaymentDb.PaymentTable.UpdateStatus` | backend/database/payment.py:30-38 | updates the first record with the transaction id and returns it; with none, returns None |
| `PaymentDb.PaymentTable.Delete` | backend/database/payment.py:42-49 | removes the first record with the transaction id and returns it; with none, returns None |
| `PaymentDb.DeleteKeepsIds` | backend/models/payment.py:7 | removing a record keeps every id distinct and below the next one |
| `PaymentDb.ByStudentSnoc` | backend/database/payment.py:22-25 | a new record shows up in its student's list, after the earlier ones |
| `PaymentDb.UpdateOnlyFirst` | backend/database/payment.py:33-38 | only the status of the first match changes; every other record and field is unchanged, and with no match nothing changes |
| `PaymentDb.DeleteOnlyFirst` | backend/database/payment.py:45-49 | only the first match is removed, the others keep their order, and with no match nothing changes |
| `ChatMessage.UrlAt` | ai-agent-ui/components/chat-message.tsx:13 | a URL match starts with `https://` or `http://`, holds no whitespace and runs to whitespace or the end |
| `ChatMessage.UrlAtComplete` | ai-agent-ui/components/chat-message.tsx:13 | a match starts at a position exactly when `https://` or `http://` is there followed by a non-space character, and it then runs over the whole non-space run |
| `ChatMessage.SplitFrom` | ai-agent-ui/components/chat-message.tsx:13-14 | splitting gives an odd number of parts whose concatenation is the text; odd parts start with `http` and hold no whitespace |
| `ChatMessage.SplitFromLayout` | ai-agent-ui/components/chat-message.tsx:13-14 | when no match starts between the scan's two positions, the parts alternate between plain text in which no match starts and maximal matches |
| `ChatMessage.Split` | ai-agent-ui/components/chat-message.tsx:13-14 | the parts are odd in number and concatenate back to the text |
| `ChatMessage.SplitLayout` | ai-agent-ui/components/chat-message.tsx:13-14 | the even parts of the split are plain text in which no match starts, and each odd part is exactly the match at its position |
| `ChatMessage.MatchesBecomeLinks` | ai-agent-ui/components/chat-message.tsx:13-17 | every odd part of the split, that is every URL match, is rendered as a link |
| `ChatMessage.CleanUrl` | ai-agent-ui/components/chat-message.tsx:19-20 | the clean URL is a prefix of the part that does not end with `) , . ! ?`; the rest of the part is made of those characters |
| `ChatMessage.AsPiece` | ai-agent-ui/components/chat-message.tsx:17-37 | a part starting with `http` becomes a link whose URL and trailing text give the part back; any other part is kept unchanged |
| `ChatMessage.MapPieces` | ai-agent-ui/components/chat-message.tsx:16-38 | one piece per part, in order |
| `ChatMessage.FormatMessage` | ai-agent-ui/components/chat-message.tsx:12-39 | one piece per part of the split, rendering back to the text; a piece is a link exactly when its part starts with `http` |
| `ChatMessage.FormatRoundTrip` | ai-agent-ui/components/chat-message.tsx:12-39 | the rendered text of the pieces is the message text |
| `ChatMessage.PlainHttpTextBecomesLink` | ai-agent-ui/components/chat-message.tsx:17 | as written, a message with no URL that starts with `http` becomes one link |
| `ChatMessage.NoUrlLinkFor` | ai-agent-ui/components/chat-message.tsx:17 | as written, any colon-free text that starts with `http` and does not end in `) , . ! ?` renders as a single link to the whole text |
| `ChatMessage.SplitNoUrl` | ai-agent-ui/components/chat-message.tsx:13-14 | a text without a URL splits into itself alone |
| `ChatMessage.FormatMessageCorrected` | ai-agent-ui/components/chat-message.tsx:12-39 | exactly the URL parts become links |
| `ChatMessage.CorrectedFormat` | ai-agent-ui/components/chat-message.tsx:12-39 | the corrected pieces render back to the text, and every link is a URL: it starts with `http` and holds no whitespace |
| `ChatMessage.IsUser` | ai-agent-ui/components/chat-message.tsx:43 | a message is from the user exactly when its type is `HumanMessage` |

## Left out

- The completion service (the LLM), each service outside this code and each tool body are parameters:
  - the LLM is a script of replies, and the classifier is a function of the last message's content;
  - prompt wording is text, not behaviour, and is kept only where code adds to it (the uploaded-file note);
  - the parameterised services are Google Calendar, Tavily, Stripe, Supabase, and the vision and OCR models.
- The payment and information agents' tool-calling loops are plain `while True` loops with no iteration bound. Here each loop consumes one scripted reply per round, and stops (`OutOfScript`, `ScriptExhausted`) when the script runs out. That stop is a modelling device, not source behaviour.
- AppointmentAgent.AppointmentTranscript, AppointmentAgent.AppointmentNodeUpdate: the appointment subgraph is a compiled LangGraph graph, so it runs under LangGraph's step budget (`recursion_limit`, 25 steps by default), which the model does not count. A script of 13 or more tool-requesting replies before a final reply takes more than 25 steps, so the source raises `GraphRecursionError` where the model finishes.
- PaymentAgent.PaymentTranscript, AppointmentAgent.AppointmentTranscript, AppointmentAgent.AppointmentNodeUpdate, Workflow.TurnShape: failures of the completion service are not modelled. The scripted replies and the classifier are total, but in the source the calls `classifier_llm.invoke` (backend/agents/orchestrator.py:26), `llm_with_tools.ainvoke` (backend/agents/payment_agent.py:86, backend/agents/info_agent.py:44) and `llm_with_tools.invoke` (backend/agents/appointment_agent.py:107) sit outside any `try`, so an error from the service escapes the node. The "no exception escapes" parts of these contracts speak of tool exceptions only.
- TestPayment.BlockText: a block whose `text` key or attribute is present but `None` is not told apart from one without it. It yields the empty string here, where the source's `+=` raises `TypeError` (backend/test_payment.py:109, 111).
- CheckFinanceAvailability.EventStart: an event without a `start` key raises `KeyError` in the source (backend/tools/appointment/check_finance_availability.py:35); the model gives every event a start.
- PaymentDb.FirstMatch: `.first()` and `.all()` on the payments table have no `ORDER BY` (backend/database/payment.py:25, 33); the model takes insertion order, which the database does not promise.
- The reconciliation agent's code is not part of this model: it is an opaque function of the state.
- Async scheduling, `print` and traceback logging are not modelled. A synchronous `invoke` from the harness on the asynchronous payment node is also left out.
- The diagram export in `backend/chat.py` is left out, and so are the other front-end components, the FastAPI endpoints and the test REPLs.
- A key present with value `None` and an absent key are the same state, because every read of the state goes through `get`. An update still tells "absent" from "set to None" (`Put(None)`).
- `add_messages` is modelled as appending. Every new message has a fresh id, so merge-by-id only appends. The appointment subgraph returns its whole list, which merge-by-id turns into old plus new; the model returns only the new messages.
- Ticket ids and payment ids are serial numbers handed out by the table. The database's own choice of id is not modelled.
- `created_at` (the server clock) is not modelled, and neither are a failed or empty Supabase insert or the database session calls.
- `amount` is a real number. Floating-point rounding is not modelled.
- String handling is ASCII only:
  - the regexes' `\s`, `\w` and `\d` and the `IGNORECASE` folding cover ASCII only; Unicode classes and folds such as `ſ` or the Kelvin sign are not modelled;
  - within ASCII, whitespace follows each language. For Python's `strip()` and `\s` it is space, tab, line feed, vertical tab, form feed, carriage return and the separators 0x1C to 0x1F. For the JavaScript URL regex's `\s` it is the same set without 0x1C to 0x1F;
  - non-ASCII whitespace (0x85, the no-break space and the other Unicode spaces) is not modelled.
- `DateCheatSheet.CheatSheet` takes the start date as a parameter instead of reading the clock. Also left out:
  - the time of day (it never reaches the text);
  - the `OverflowError` past year 9999;
  - `%Y` for years below 1000.
- `datetime.now()` in the appointment prompt is not modelled.
- The JSON rendering of an extraction result is a parameter.
- `live_image_url` and `type` reach no state key, because they are not keys of the state. The model drops them at input.
- `Workflow.FileUrlPersists` excludes turns routed to the reconciliation agent, because that agent may write any key.

## Findings

| source | as written | input that shows it | evidently intended | confidence | as-written member | corrected member |
|---|---|---|---|---|---|---|
| backend/test_payment.py:99 | `chat` invokes `app`, a name the file never defines; its graph is bound to `graph` (line 48), so every call ends in a `NameError` | `chat("I want to pay")` | run the harness graph built at line 48 and answer with the last message's text | not executed; high, the name is simply undefined in the file | `TestPayment.ChatAsWrittenNeverAnswers` | `TestPayment.ChatAnswersWithFinalReply` |
| ai-agent-ui/components/chat-message.tsx:17 | every part that starts with `http` is rendered as a link, including plain text that the URL regex never matched | `"httpx is a library"` renders as one link whose target is the whole sentence | only the parts the URL regex matched (the odd-indexed parts of the split) become links | not executed; medium, the intent is inferred from the split on a capturing regex | `ChatMessage.PlainHttpTextBecomesLink` | `ChatMessage.CorrectedFormat` |
