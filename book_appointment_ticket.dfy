/** The ticket booking tool (backend/tools/appointment/book_appointment_ticket.py): book the
    calendar meeting first, and only when that succeeds insert a confirmed appointment row and
    answer with its ticket number. */
module BookAppointmentTicket {
  import opened Wrappers
  import opened Strings
  import BookMeeting

  /** One row of the `appointments` table. */
  datatype Appointment = Appointment(ticketId: nat, studentEmail: string, appointmentTime: string, status: string)

  /** The `appointments` table. The database numbers tickets itself; here it hands out the next
      serial number. */
  class AppointmentTable {
    var rows: seq<Appointment>
    var nextTicket: nat

    /** Every row's ticket is below the next one to hand out. */
    ghost predicate Valid()
      reads this
    {
      forall i :: 0 <= i < |rows| ==> rows[i].ticketId < nextTicket
    }

    constructor ()
      ensures rows == [] && nextTicket == 0 && Valid()
    {
      rows := [];
      nextTicket := 0;
    }

    /** `insert(...).execute()` followed by reading back the new row's ticket id. */
    method Insert(studentEmail: string, appointmentTime: string, status: string) returns (ticketId: nat)
      requires Valid()
      modifies this
      ensures Valid()
      ensures ticketId == old(nextTicket) && nextTicket == old(nextTicket) + 1
      ensures rows == old(rows) + [Appointment(ticketId, studentEmail, appointmentTime, status)]
      ensures forall i :: 0 <= i < |old(rows)| ==> rows[i].ticketId != ticketId
    {
      ticketId := nextTicket;
      rows := rows + [Appointment(ticketId, studentEmail, appointmentTime, status)];
      nextTicket := nextTicket + 1;
    }
  }

  /** What the calendar step decides: go on to the ticket (`None`), or stop with this answer. */
  function Gate(calendarResult: Outcome<string>): (r: Option<string>)
    ensures calendarResult.Crash? ==> r == Some("Booking Failed (Tool Error): " + calendarResult.error)
    ensures calendarResult.Ok? ==>
      (r.None? <==> !Contains(calendarResult.value, "Failed") && !Contains(calendarResult.value, "Error"))
    ensures calendarResult.Ok? && r.Some? ==> r.value == "Booking Failed: " + calendarResult.value
  {
    match calendarResult
    case Crash(e) => Some("Booking Failed (Tool Error): " + e)
    case Ok(result) =>
      if Contains(result, "Failed") || Contains(result, "Error") then Some("Booking Failed: " + result)
      else None
  }

  /** The answer on success, naming the ticket. Its head is written in two pieces: the verifier
      reasons about short literals more cheaply. */
  const SuccessHead := "SUCCESS. Calendar Invite " + "sent. Your Ticket Number is #"

  function SuccessMessage(ticketId: nat): (r: string)
    ensures StartsWith(r, SuccessHead) && r[|r| - 1] == '.'
    ensures r[|SuccessHead|..|r| - 1] == NatToString(ticketId)
  {
    var r := SuccessHead + NatToString(ticketId) + ".";
    assert r[..|SuccessHead|] == SuccessHead;
    assert r[|SuccessHead|..|r| - 1] == NatToString(ticketId);
    r
  }

  /** Different tickets give different answers: the ticket number can be read back. */
  lemma SuccessMessageInjective(a: nat, b: nat)
    requires SuccessMessage(a) == SuccessMessage(b)
    ensures a == b
  {
    var p := SuccessHead;
    var sa := NatToString(a);
    var sb := NatToString(b);
    assert |sa| == |sb|;
    assert sa == SuccessMessage(a)[|p|..|p| + |sa|];
    assert sb == SuccessMessage(b)[|p|..|p| + |sb|];
    NatToStringInjective(a, b);
  }

  /** The tool. `bookMeeting` is the calendar tool called with the student's email and the two
      times unchanged; its exceptions are caught. The row is inserted only after it succeeded. */
  method Book(table: AppointmentTable, studentEmail: string, startIso: string, endIso: string,
              bookMeeting: (string, string, string) -> Outcome<string>)
    returns (answer: string)
    requires table.Valid()
    modifies table
    ensures table.Valid()
    ensures var g := Gate(bookMeeting(studentEmail, startIso, endIso));
      && (g.Some? ==> answer == g.value && table.rows == old(table.rows) && table.nextTicket == old(table.nextTicket))
      && (g.None? ==>
            && table.rows == old(table.rows) + [Appointment(old(table.nextTicket), studentEmail, startIso, "confirmed")]
            && answer == SuccessMessage(old(table.nextTicket)))
  {
    var calendarResult := bookMeeting(studentEmail, startIso, endIso);
    var stop := Gate(calendarResult);
    if stop.Some? {
      return stop.value;
    }
    var ticketId := table.Insert(studentEmail, startIso, "confirmed");
    answer := SuccessMessage(ticketId);
  }

  /** With the real calendar tool, a failed insert or a missing service always blocks the ticket. */
  lemma CalendarFailureBlocks(studentEmail: string, startIso: string, endIso: string, calendar: BookMeeting.Calendar)
    requires calendar.error.Some? || calendar.insert(BookMeeting.MeetingEvent(studentEmail, startIso, endIso)).Crash?
    ensures Gate(BookMeeting.Book(studentEmail, startIso, endIso, calendar)).Some?
  {
    if calendar.error.None? {
      BookMeeting.BookOutcomes(studentEmail, startIso, endIso, calendar);
    }
  }

  /** A successful answer names a ticket on a confirmed booking. */
  lemma SuccessNamesTicket(ticketId: nat)
    ensures Contains(SuccessMessage(ticketId), NatToString(ticketId))
    ensures !Contains(SuccessMessage(ticketId), "Failed")
  {
    var p := SuccessHead;
    assert Contains(NatToString(ticketId), NatToString(ticketId)) by {
      OccursContains(NatToString(ticketId), NatToString(ticketId), 0);
    }
    ContainsInMiddle(p, NatToString(ticketId), ".", NatToString(ticketId));
    NoFailedInSuccess(ticketId);
  }

  lemma NoFailedInSuccess(ticketId: nat)
    ensures !Contains(SuccessMessage(ticketId), "Failed")
  {
    var p1 := "SUCCESS. Calendar Invite ";
    var p2 := "sent. Your Ticket Number is #";
    assert Free(p1, 'F');
    assert Free(p2, 'F');
    assert Free(NatToString(ticketId), 'F');
    assert Free(".", 'F');
    FreeConcat(p1, p2, 'F');
    FreeConcat(SuccessHead, NatToString(ticketId), 'F');
    FreeConcat(SuccessHead + NatToString(ticketId), ".", 'F');
    NotContainsWithoutHead(SuccessMessage(ticketId), "Failed");
  }
}
