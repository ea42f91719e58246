/**
 * The records of the departure display: flight status, airport and flight, and the two texts
 * the program derives from one flight: the passenger alert and the departure-board line.
 */
module Flights {
  import opened Wrappers
  import opened Clock
  import opened Text

  /** The closed set of states a flight can be in; each has a display label (its raw value). */
  datatype FlightStatus = EnRoute | Scheduled | Canceled | Delayed | OnTime | Boarding

  /** The string raw value of each status. */
  function RawValue(s: FlightStatus): string {
    match s
    case EnRoute => "En Route"
    case Scheduled => "Scheduled"
    case Canceled => "Canceled"
    case Delayed => "Delayed"
    case OnTime => "On Time"
    case Boarding => "Boarding"
  }

  /** The status with a given raw value, as the enum's failable raw-value initializer finds it. */
  function FromRawValue(r: string): (s: Option<FlightStatus>)
    ensures s.Some? ==> RawValue(s.value) == r
  {
    if r == "En Route" then Some(EnRoute)
    else if r == "Scheduled" then Some(Scheduled)
    else if r == "Canceled" then Some(Canceled)
    else if r == "Delayed" then Some(Delayed)
    else if r == "On Time" then Some(OnTime)
    else if r == "Boarding" then Some(Boarding)
    else None
  }

  /** Every status is found again from its raw value. */
  lemma RawValueRoundTrip(s: FlightStatus)
    ensures FromRawValue(RawValue(s)) == Some(s)
  {
  }

  /** No two statuses share a label. */
  lemma RawValueInjective(s: FlightStatus, t: FlightStatus)
    ensures RawValue(s) == RawValue(t) <==> s == t
  {
  }

  /** An airport; the two flags are carried as data and used nowhere. */
  datatype Airport = Airport(name: string, departure: bool, arrival: bool)

  /** A departing flight.  The time is absent when the flight is canceled, the terminal when none is assigned yet. */
  datatype Flight = Flight(
    flightNumber: string,
    airline: string,
    departureTime: Option<TimeOfDay>,
    terminal: Option<string>,
    flightStatus: FlightStatus,
    destination: string)

  /** The memberwise initializer of a flight, with its two defaults: no terminal, status Scheduled. */
  function NewFlight(departureTime: Option<TimeOfDay>, destination: string,
                     terminal: Option<string> := None, flightStatus: FlightStatus := Scheduled,
                     nameonly flightNumber: string, nameonly airline: string): Flight
  {
    Flight(flightNumber, airline, departureTime, terminal, flightStatus, destination)
  }

  /** A flight made without naming a terminal or a status has neither a terminal nor a status other than Scheduled. */
  lemma NewFlightDefaults(departureTime: Option<TimeOfDay>, destination: string, flightNumber: string, airline: string)
    ensures NewFlight(departureTime, destination, flightNumber := flightNumber, airline := airline).terminal == None
    ensures NewFlight(departureTime, destination, flightNumber := flightNumber, airline := airline).flightStatus == Scheduled
  {
  }

  // ----- The passenger alert -----

  /**
   * The message the alert sends for one flight, chosen by its status.  `None` stands for the
   * run-time trap of force-unwrapping the absent terminal of a scheduled flight.
   */
  function Alert(f: Flight): (m: Option<string>)
    ensures m.None? <==> f.flightStatus == Scheduled && f.terminal.None?
  {
    match f.flightStatus
    case Canceled =>
      Some("We're sorry your flight tp " + f.destination + " was canceled, here is a $500 voucher")
    case Scheduled =>
      if f.terminal.None? then None
      else Some("Your flight to " + f.destination + " is scheduled to depart at " + AlertTime(f.departureTime)
                + " from terminal: " + f.terminal.value)
    case Boarding =>
      Some(BoardingLead + Describe(f.terminal) + BoardingEnd)
    case OnTime =>
      Some("Your flight " + f.airline + " " + f.flightNumber + " is on time")
    case Delayed =>
      Some("Your flight to " + f.destination + " is delayed. Sorry for the inconvenience.")
    case EnRoute =>
      Some("Your flight " + f.airline + " " + f.flightNumber + " is en route to " + f.destination)
  }

  const BoardingLead := "Your flight is boarding, please head to the terminal: "
  const BoardingEnd := " immediately."

  /** The time shown in a scheduled alert: "HH:mm", or nothing when the time is absent. */
  function AlertTime(t: Option<TimeOfDay>): (s: string)
    ensures t.None? <==> s == ""
    ensures t.Some? ==> ParseHHmm(s) == t
  {
    match t
    case None => ""
    case Some(time) => FormatHHmmRoundTrip(time); FormatHHmm(time)
  }

  /** A canceled flight's alert depends on its destination alone: it is defined even without a time. */
  lemma CanceledAlertDependsOnDestination(f: Flight, g: Flight)
    requires f.flightStatus == Canceled && g.flightStatus == Canceled
    ensures Alert(f).Some? && Contains(Alert(f).value, f.destination)
    ensures f.destination == g.destination ==> Alert(f) == Alert(g)
  {
    ContainsMiddle("We're sorry your flight tp ", f.destination, " was canceled, here is a $500 voucher");
  }

  /** A scheduled flight's alert exists exactly when the flight has a terminal, and then names the destination and, last, the terminal. */
  lemma ScheduledAlertNeedsTerminal(f: Flight)
    requires f.flightStatus == Scheduled
    ensures Alert(f).Some? <==> f.terminal.Some?
    ensures f.terminal.Some? ==> EndsWith(Alert(f).value, " from terminal: " + f.terminal.value)
    ensures f.terminal.Some? ==> Contains(Alert(f).value, f.destination)
  {
    if f.terminal.Some? {
      var lead := "Your flight to " + f.destination + " is scheduled to depart at " + AlertTime(f.departureTime);
      assert Alert(f).value == lead + (" from terminal: " + f.terminal.value);
      EndsWithTail(lead, " from terminal: " + f.terminal.value);
      var c := " is scheduled to depart at " + AlertTime(f.departureTime) + " from terminal: " + f.terminal.value;
      assert Alert(f).value == "Your flight to " + f.destination + c;
      ContainsMiddle("Your flight to ", f.destination, c);
    }
  }

  /** Without a departure time a scheduled alert still exists; the time slot is empty. */
  lemma ScheduledAlertWithoutTime(f: Flight)
    requires f.flightStatus == Scheduled && f.departureTime.None? && f.terminal.Some?
    ensures Alert(f).Some?
    ensures Contains(Alert(f).value, " is scheduled to depart at  from terminal: " + f.terminal.value)
  {
    var a := "Your flight to " + f.destination;
    var b := " is scheduled to depart at  from terminal: " + f.terminal.value;
    assert Alert(f).value == a + b + "";
    ContainsMiddle(a, b, "");
  }

  /** With a departure time a scheduled alert shows it as "HH:mm" right before the terminal. */
  lemma ScheduledAlertWithTime(f: Flight)
    requires f.flightStatus == Scheduled && f.departureTime.Some? && f.terminal.Some?
    ensures Alert(f).Some?
    ensures Contains(Alert(f).value, " depart at " + FormatHHmm(f.departureTime.value) + " from terminal: ")
  {
    var a := "Your flight to " + f.destination + " is scheduled to";
    var b := " depart at " + FormatHHmm(f.departureTime.value) + " from terminal: ";
    assert Alert(f).value == a + b + f.terminal.value;
    ContainsMiddle(a, b, f.terminal.value);
  }

  /**
   * A boarding alert shows the terminal as Swift renders an optional, `Optional("…")` when
   * present and `nil` when absent, and the terminal can be read back from that text.
   */
  lemma BoardingAlertShowsOptional(f: Flight)
    requires f.flightStatus == Boarding
    ensures Alert(f).Some? && |BoardingLead| + |BoardingEnd| <= |Alert(f).value|
    ensures ParseDescription(Alert(f).value[|BoardingLead|..|Alert(f).value| - |BoardingEnd|]) == Some(f.terminal)
    ensures f.terminal.None? ==> Contains(Alert(f).value, "nil")
    ensures f.terminal.Some? ==> Contains(Alert(f).value, "Optional(\"" + Escape(f.terminal.value) + "\")")
  {
    var m := Alert(f).value;
    assert m[|BoardingLead|..|m| - |BoardingEnd|] == Describe(f.terminal);
    DescribeRoundTrip(f.terminal);
    ContainsMiddle(BoardingLead, Describe(f.terminal), BoardingEnd);
  }

  /** On-time and en-route alerts name the airline and then the flight number; en route also names the destination. */
  lemma OnTimeAndEnRouteAlertsNameTheFlight(f: Flight)
    requires f.flightStatus == OnTime || f.flightStatus == EnRoute
    ensures Alert(f).Some? && Contains(Alert(f).value, f.airline + " " + f.flightNumber)
    ensures f.flightStatus == EnRoute ==> EndsWith(Alert(f).value, " is en route to " + f.destination)
  {
    var tail := if f.flightStatus == OnTime then " is on time" else " is en route to " + f.destination;
    assert Alert(f).value == "Your flight " + (f.airline + " " + f.flightNumber) + tail;
    ContainsMiddle("Your flight ", f.airline + " " + f.flightNumber, tail);
    if f.flightStatus == EnRoute {
      assert Alert(f).value == ("Your flight " + f.airline + " " + f.flightNumber) + tail;
      EndsWithTail("Your flight " + f.airline + " " + f.flightNumber, tail);
    }
  }

  /** A delayed alert names the destination. */
  lemma DelayedAlertNamesDestination(f: Flight)
    requires f.flightStatus == Delayed
    ensures Alert(f).Some? && Contains(Alert(f).value, f.destination)
  {
    ContainsMiddle("Your flight to ", f.destination, " is delayed. Sorry for the inconvenience.");
  }

  // ----- The departure-board line -----

  /**
   * The time column of a departure line: the "HH:mm " pattern, then one more space; nothing when
   * absent.  A present column is the time an alert shows, followed by two spaces.
   */
  function LineTime(t: Option<TimeOfDay>): (s: string)
    ensures t.None? <==> s == ""
    ensures t.Some? ==> s == AlertTime(t) + "  "
  {
    match t
    case None => ""
    case Some(time) => FormatHHmm(time) + " " + " "
  }

  /** A present time column is seven characters: the time as "HH:mm", which reads back, then two spaces. */
  lemma LineTimeReadsBack(t: TimeOfDay)
    ensures |LineTime(Some(t))| == 7
    ensures ParseHHmm(LineTime(Some(t))[..5]) == Some(t) && LineTime(Some(t))[5..] == "  "
  {
    FormatHHmmRoundTrip(t);
    assert LineTime(Some(t))[..5] == FormatHHmm(t);
  }

  /** The terminal column of a departure line: the terminal itself, or nothing. */
  function LineTerminal(t: Option<string>): string {
    match t
    case None => ""
    case Some(term) => term
  }

  /** The part of a departure line before the time label. */
  function LineLead(f: Flight): string {
    "Destination: " + f.destination + " " + "Airline: " + f.airline + " " + " Flight: " + f.flightNumber + " "
  }

  /** The marker a departure line ends with. */
  function StatusMarker(s: FlightStatus): string {
    " Status: " + RawValue(s) + " "
  }

  /** The labels of the time and terminal columns, as the program spells them. */
  const TimeLabel := "Departurue Time: "
  const TerminalLabel := "Terminal: "

  /** The line printed for one flight on the departure board. */
  function DepartureLine(f: Flight): string {
    LineHead(f) + LineTail(f)
  }

  /** The destination, airline, flight and time columns. */
  function LineHead(f: Flight): string {
    LineLead(f) + TimeLabel + LineTime(f.departureTime)
  }

  /** The terminal column and the status. */
  function LineTail(f: Flight): string {
    TerminalLabel + LineTerminal(f.terminal) + StatusMarker(f.flightStatus)
  }

  /** Every departure line ends with " Status: ", the status label, and a space. */
  lemma DepartureLineEndsWithStatus(f: Flight)
    ensures EndsWith(DepartureLine(f), " Status: " + RawValue(f.flightStatus) + " ")
  {
  }

  /** The status shown at the end of a departure line, if any. */
  function StatusOfLine(line: string): Option<FlightStatus> {
    if EndsWith(line, StatusMarker(Scheduled)) then Some(Scheduled)
    else if EndsWith(line, StatusMarker(EnRoute)) then Some(EnRoute)
    else if EndsWith(line, StatusMarker(Canceled)) then Some(Canceled)
    else if EndsWith(line, StatusMarker(Boarding)) then Some(Boarding)
    else if EndsWith(line, StatusMarker(Delayed)) then Some(Delayed)
    else if EndsWith(line, StatusMarker(OnTime)) then Some(OnTime)
    else None
  }

  /** Of two suffixes of one text, the shorter is a suffix of the longer. */
  lemma EndsWithBoth(line: string, m: string, n: string)
    requires EndsWith(line, m) && EndsWith(line, n) && |n| <= |m|
    ensures EndsWith(m, n)
  {
  }

  /** The last five characters of each status marker. */
  function MarkerEnd(s: FlightStatus): string {
    match s
    case EnRoute => "oute "
    case Scheduled => "uled "
    case Canceled => "eled "
    case Delayed => "ayed "
    case OnTime => "Time "
    case Boarding => "ding "
  }

  /** Each marker ends with its five characters. */
  lemma StatusMarkerEnd(s: FlightStatus)
    ensures EndsWith(StatusMarker(s), MarkerEnd(s))
  {
  }

  /** No status marker is a suffix of a different status's marker. */
  lemma StatusMarkersSuffixFree(s: FlightStatus, t: FlightStatus)
    requires s != t && |StatusMarker(t)| <= |StatusMarker(s)|
    ensures !EndsWith(StatusMarker(s), StatusMarker(t))
  {
    if EndsWith(StatusMarker(s), StatusMarker(t)) {
      StatusMarkerEnd(s);
      StatusMarkerEnd(t);
      EndsWithBoth(StatusMarker(s), StatusMarker(t), MarkerEnd(t));
      EndsWithBoth(StatusMarker(s), MarkerEnd(s), MarkerEnd(t));
      assert false;
    }
  }

  /** The status can be read back from a departure line: two flights whose statuses differ never print alike. */
  lemma DepartureLineShowsStatus(f: Flight)
    ensures StatusOfLine(DepartureLine(f)) == Some(f.flightStatus)
  {
    var line := DepartureLine(f);
    var s := f.flightStatus;
    DepartureLineEndsWithStatus(f);
    assert EndsWith(line, StatusMarker(s));
    forall t | t != s && EndsWith(line, StatusMarker(t))
      ensures false
    {
      if |StatusMarker(t)| <= |StatusMarker(s)| {
        EndsWithBoth(line, StatusMarker(s), StatusMarker(t));
        StatusMarkersSuffixFree(s, t);
      } else {
        EndsWithBoth(line, StatusMarker(t), StatusMarker(s));
        StatusMarkersSuffixFree(t, s);
      }
    }
  }

  /** Without a departure time, the time label is followed directly by the terminal label. */
  lemma DepartureLineWithoutTime(f: Flight)
    requires f.departureTime.None?
    ensures OccursAt(DepartureLine(f), TimeLabel + TerminalLabel, |LineLead(f)|)
  {
  }

  /** With a departure time, it appears as "HH:mm" and two spaces between the two labels. */
  lemma DepartureLineWithTime(f: Flight)
    requires f.departureTime.Some?
    ensures OccursAt(DepartureLine(f), TimeLabel + FormatHHmm(f.departureTime.value) + "  " + TerminalLabel, |LineLead(f)|)
  {
    var mid := TimeLabel + FormatHHmm(f.departureTime.value) + "  " + TerminalLabel;
    assert LineTime(f.departureTime) == FormatHHmm(f.departureTime.value) + "  ";
    assert DepartureLine(f) == LineLead(f) + mid + (LineTerminal(f.terminal) + StatusMarker(f.flightStatus));
  }

  /**
   * The terminal column holds the terminal itself, never an `Optional(…)` wrapper, and is empty
   * when the terminal is absent: the terminal label is followed directly by the status marker.
   */
  lemma DepartureLineTerminal(f: Flight)
    ensures EndsWith(DepartureLine(f), TerminalLabel + LineTerminal(f.terminal) + StatusMarker(f.flightStatus))
    ensures f.terminal.None? ==> EndsWith(DepartureLine(f), TerminalLabel + StatusMarker(f.flightStatus))
    ensures f.terminal.Some? ==> EndsWith(DepartureLine(f), TerminalLabel + f.terminal.value + StatusMarker(f.flightStatus))
  {
    EndsWithTail(LineHead(f), LineTail(f));
    if f.terminal.None? {
      assert LineTail(f) == TerminalLabel + StatusMarker(f.flightStatus);
    }
  }
}
