/** The calendar booking tool (backend/tools/appointment/book_meeting.py): normalise both times
    to UTC, build the event, and insert it through the calendar service. */
module BookMeeting {
  import opened Wrappers
  import opened Strings

  /** A time written with a trailing 'Z', added when missing. */
  function NormalizeZ(t: string): (r: string)
    ensures EndsWith(r, "Z")
    ensures EndsWith(t, "Z") ==> r == t
    ensures !EndsWith(t, "Z") ==> r == t + "Z"
  {
    if EndsWith(t, "Z") then t else t + "Z"
  }

  /** Normalising twice is normalising once. */
  lemma NormalizeIdempotent(t: string)
    ensures NormalizeZ(NormalizeZ(t)) == NormalizeZ(t)
  {
  }

  datatype EventTime = EventTime(dateTime: string, timeZone: string)

  /** The event body sent to the calendar. */
  datatype Event = Event(
    summary: string,
    location: string,
    description: string,
    start: EventTime,
    end: EventTime,
    attendees: seq<string>)

  /** The event for a student's meeting: both ends in UTC with a trailing 'Z', and the student
      as the only attendee. */
  function MeetingEvent(studentEmail: string, startIso: string, endIso: string): (e: Event)
    ensures e.attendees == [studentEmail]
    ensures e.start == EventTime(NormalizeZ(startIso), "UTC") && e.end == EventTime(NormalizeZ(endIso), "UTC")
    ensures EndsWith(e.start.dateTime, "Z") && EndsWith(e.end.dateTime, "Z")
  {
    Event("Finance Consultation", "Finance Office / Online", "Meeting with Student regarding tuition/fees.",
          EventTime(NormalizeZ(startIso), "UTC"), EventTime(NormalizeZ(endIso), "UTC"), [studentEmail])
  }

  /** The calendar service: obtaining it may raise (`error`), and inserting an event yields the
      event's `htmlLink` entry or raises. */
  datatype Calendar = Calendar(error: Option<string>, insert: Event -> Outcome<Option<string>>)

  const FailurePrefix := "Failed to book meeting: "

  /** The tool: an exception while obtaining the service escapes; one of the insert becomes a
      "Failed to book meeting" answer. */
  function Book(studentEmail: string, startIso: string, endIso: string, calendar: Calendar): (r: Outcome<string>)
    ensures calendar.error.Some? ==> r == Crash(calendar.error.value)
  {
    if calendar.error.Some? then Crash(calendar.error.value)
    else
      match calendar.insert(MeetingEvent(studentEmail, startIso, endIso))
      case Ok(link) => Ok("Meeting created! Link: " + ShowOption(link))
      case Crash(e) => Ok(FailurePrefix + e)
  }

  /** A failed insert answers with text that contains "Failed", a successful one starts with
      "Meeting created! Link: " followed by the link. */
  lemma BookOutcomes(studentEmail: string, startIso: string, endIso: string, calendar: Calendar)
    requires calendar.error.None?
    ensures var ins := calendar.insert(MeetingEvent(studentEmail, startIso, endIso));
      var r := Book(studentEmail, startIso, endIso, calendar);
      && r.Ok?
      && (ins.Crash? ==> Contains(r.value, "Failed") && StartsWith(r.value, FailurePrefix))
      && (ins.Ok? ==> r.value == "Meeting created! Link: " + ShowOption(ins.value))
  {
    var ins := calendar.insert(MeetingEvent(studentEmail, startIso, endIso));
    if ins.Crash? {
      FailureContainsFailed(ins.error);
    }
  }

  /** Every failure answer contains "Failed". */
  lemma FailureContainsFailed(e: string)
    ensures Contains(FailurePrefix + e, "Failed")
  {
    var s := FailurePrefix + e;
    assert s[0..6] == "Failed";
    assert OccursAt(s, "Failed", 0);
    OccursContains(s, "Failed", 0);
  }
}
