/** The availability tool (backend/tools/appointment/check_finance_availability.py): list the
    Finance Team's calendar events in the 1 PM to 4 PM window of one day and describe them. */
module CheckFinanceAvailability {
  import opened Wrappers
  import opened Strings

  /** The query window of a day, written as YYYY-MM-DD: 13:00 to 16:00 UTC. Both ends name the
      same day, and they differ only in the hour. */
  function Window(date: string): (w: (string, string))
    ensures StartsWith(w.0, date) && StartsWith(w.1, date)
    ensures w.0[|date|..] == "T13:00:00Z" && w.1[|date|..] == "T16:00:00Z"
    ensures |w.0| == |w.1| == |date| + 10
  {
    (date + "T13:00:00Z", date + "T16:00:00Z")
  }

  /** The `start` of a calendar event: a timed event has a `dateTime`, an all-day one only a
      `date`. */
  datatype EventStart = EventStart(dateTime: Option<string>, date: Option<string>)

  /** The start shown for an event: its `dateTime` if present, else its `date`. */
  function StartOf(e: EventStart): (r: Option<string>)
    ensures e.dateTime.Some? ==> r == e.dateTime
    ensures e.dateTime.None? ==> r == e.date
  {
    if e.dateTime.Some? then e.dateTime else e.date
  }

  /** One busy slot of the answer. */
  function Busy(e: EventStart): string {
    "Busy from " + ShowOption(StartOf(e))
  }

  /** The calendar service: obtaining it, or listing the events, may raise. Listing is asked for
      the window's two ends and yields the events in start-time order. */
  datatype Calendar = Calendar(error: Option<string>, list: (string, string) -> Outcome<seq<EventStart>>)

  const BookingsHead := "The Finance Team has bookings: "
  // Written in two pieces: the verifier reasons about short literals more cheaply.
  const BookingsTail := ". Please pick a different time " + "in the 1-4 PM window."

  /** The answer for a window without events starts with this and then names the date. (Written
      in two pieces: the verifier reasons about short literals more cheaply.) */
  const FullyOpenLead := "The Finance Team is fully open " + "between 1 PM and 4 PM on "

  function FullyOpen(date: string): string {
    FullyOpenLead + date + "."
  }

  /** The answer for the events of the window, given the busy slots described one by one. */
  function Answer(date: string, events: seq<EventStart>, slots: seq<string>): (r: string)
    ensures |events| == 0 ==> StartsWith(r, FullyOpenLead) && EndsWith(r, date + ".")
    ensures |events| > 0 ==> StartsWith(r, BookingsHead) && EndsWith(r, BookingsTail)
  {
    if |events| == 0 then
      AppendAssoc(FullyOpenLead, date, ".");
      ConcatEnds(FullyOpenLead, date + ".");
      FullyOpen(date)
    else
      var middle := Join(slots, ", ");
      AppendAssoc(BookingsHead, middle, BookingsTail);
      ConcatEnds(BookingsHead, middle + BookingsTail);
      ConcatEnds(BookingsHead + middle, BookingsTail);
      BookingsHead + middle + BookingsTail
  }

  /** The busy slots, one per event and in the events' order. */
  method BusySlots(events: seq<EventStart>) returns (slots: seq<string>)
    ensures |slots| == |events|
    ensures forall i :: 0 <= i < |events| ==> slots[i] == Busy(events[i])
  {
    slots := [];
    for i := 0 to |events|
      invariant |slots| == i
      invariant forall j :: 0 <= j < i ==> slots[j] == Busy(events[j])
    {
      slots := slots + [Busy(events[i])];
    }
  }

  /** The tool. Exceptions of the calendar service escape it. */
  method CheckAvailability(date: string, calendar: Calendar) returns (r: Outcome<string>)
    ensures calendar.error.Some? ==> r == Crash(calendar.error.value)
    ensures calendar.error.None? && calendar.list(Window(date).0, Window(date).1).Crash? ==>
      r == Crash(calendar.list(Window(date).0, Window(date).1).error)
    ensures calendar.error.None? && calendar.list(Window(date).0, Window(date).1).Ok? ==>
      var events := calendar.list(Window(date).0, Window(date).1).value;
      r == Ok(Answer(date, events, seq(|events|, i requires 0 <= i < |events| => Busy(events[i]))))
  {
    if calendar.error.Some? {
      return Crash(calendar.error.value);
    }
    var (timeMin, timeMax) := Window(date);
    var listed := calendar.list(timeMin, timeMax);
    if listed.Crash? {
      return Crash(listed.error);
    }
    var events := listed.value;
    if |events| == 0 {
      return Ok(FullyOpen(date));
    }
    var slots := BusySlots(events);
    assert slots == seq(|events|, i requires 0 <= i < |events| => Busy(events[i]));
    r := Ok(BookingsHead + Join(slots, ", ") + BookingsTail);
  }

  /** With no events the answer names the date and nothing else changes; with events it starts
      and ends with the fixed sentences. */
  lemma AnswerShape(date: string, events: seq<EventStart>, slots: seq<string>)
    ensures |events| == 0 ==> EndsWith(Answer(date, events, slots), date + ".")
    ensures |events| > 0 ==>
      StartsWith(Answer(date, events, slots), BookingsHead) && EndsWith(Answer(date, events, slots), BookingsTail)
  {
    if |events| == 0 {
      AppendAssoc(FullyOpenLead, date, ".");
      ConcatEnds(FullyOpenLead, date + ".");
    } else {
      var middle := Join(slots, ", ");
      AppendAssoc(BookingsHead, middle, BookingsTail);
      ConcatEnds(BookingsHead, middle + BookingsTail);
      ConcatEnds(BookingsHead + middle, BookingsTail);
    }
  }

  /** Every event's busy slot appears in the answer, in the events' order: slot `i + 1` starts
      after slot `i` and its separator. */
  lemma BusySlotsInOrder(date: string, events: seq<EventStart>, i: nat)
    requires i < |events|
    ensures var slots := seq(|events|, j requires 0 <= j < |events| => Busy(events[j]));
      var a := Answer(date, events, slots);
      var at := |BookingsHead| + JoinOffset(slots, ", ", i);
      && OccursAt(a, Busy(events[i]), at)
      && (i + 1 < |events| ==>
            |BookingsHead| + JoinOffset(slots, ", ", i + 1) == at + |Busy(events[i])| + 2)
  {
    var slots := seq(|events|, j requires 0 <= j < |events| => Busy(events[j]));
    var j := Join(slots, ", ");
    var a := Answer(date, events, slots);
    JoinOccurs(slots, ", ", i);
    var o := JoinOffset(slots, ", ", i);
    assert a == BookingsHead + j + BookingsTail;
    OccursInMiddle(BookingsHead, j, BookingsTail, slots[i], o);
  }
}
