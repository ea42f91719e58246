/**
 * The departure board: a mutable, ordered list of flights at one airport, the alert it sends
 * to passengers, and the free-standing function that prints its departure lines.  Printing is
 * modelled as returning the printed lines, in order.
 */
module Departures {
  import opened Wrappers
  import opened Clock
  import opened Text
  import opened Flights

  class DepartureBoard {
    var departureFlight: seq<Flight>
    var currentAirport: Airport

    /** A board for an airport, with no flights unless some are given. */
    constructor (currentAirpoint: Airport, departureFlight: seq<Flight> := [])
      ensures this.currentAirport == currentAirpoint
      ensures this.departureFlight == departureFlight
    {
      this.currentAirport := currentAirpoint;
      this.departureFlight := departureFlight;
    }

    /** Appends a flight in place: it becomes the last one, and nothing before it changes. */
    method AppendFlight(flight: Flight)
      modifies this
      ensures departureFlight == old(departureFlight) + [flight]
      ensures currentAirport == old(currentAirport)
    {
      departureFlight := departureFlight + [flight];
    }

    /**
     * Sends the alert for every flight, in board order, and returns the messages printed.
     * The run stops at the first scheduled flight without a terminal, whose forced unwrap traps;
     * `trapped` says whether that happened, and the messages for the flights before it have been printed.
     */
    method AlertPass() returns (lines: seq<string>, trapped: bool)
      ensures |lines| <= |departureFlight|
      ensures forall i :: 0 <= i < |lines| ==> Alert(departureFlight[i]) == Some(lines[i])
      ensures !trapped <==> |lines| == |departureFlight|
      ensures trapped ==> departureFlight[|lines|].flightStatus == Scheduled
                          && departureFlight[|lines|].terminal.None?
    {
      lines, trapped := [], false;
      for i := 0 to |departureFlight|
        invariant |lines| == i
        invariant forall k :: 0 <= k < i ==> Alert(departureFlight[k]) == Some(lines[k])
      {
        var flight := departureFlight[i];
        var message: string;
        match flight.flightStatus {
          case Canceled =>
            message := "We're sorry your flight tp " + flight.destination + " was canceled, here is a $500 voucher";
          case Scheduled =>
            var formatTime := "";
            if flight.departureTime.Some? {
              formatTime := FormatHHmm(flight.departureTime.value);
            }
            if flight.terminal.None? {
              trapped := true;
              return;
            }
            message := "Your flight to " + flight.destination + " is scheduled to depart at " + formatTime
                       + " from terminal: " + flight.terminal.value;
          case Boarding =>
            message := BoardingLead + Describe(flight.terminal) + BoardingEnd;
          case OnTime =>
            message := "Your flight " + flight.airline + " " + flight.flightNumber + " is on time";
          case Delayed =>
            message := "Your flight to " + flight.destination + " is delayed. Sorry for the inconvenience.";
          case EnRoute =>
            message := "Your flight " + flight.airline + " " + flight.flightNumber + " is en route to " + flight.destination;
        }
        lines := lines + [message];
      }
    }
  }

  /** Prints one line per flight on the board, in board order, and returns the lines printed. */
  method PrintDepartures(departureBoard: DepartureBoard) returns (lines: seq<string>)
    ensures |lines| == |departureBoard.departureFlight|
    ensures forall i :: 0 <= i < |lines| ==> lines[i] == DepartureLine(departureBoard.departureFlight[i])
  {
    lines := [];
    for i := 0 to |departureBoard.departureFlight|
      invariant |lines| == i
      invariant forall k :: 0 <= k < i ==> lines[k] == DepartureLine(departureBoard.departureFlight[k])
    {
      var flightInfo := FlightInfo(departureBoard.departureFlight[i]);
      lines := lines + [flightInfo];
    }
  }

  /** The body of the printing loop: one flight's line, built column by column by appending. */
  method FlightInfo(flight: Flight) returns (flightInfo: string)
    ensures flightInfo == DepartureLine(flight)
  {
    flightInfo := "Destination: " + flight.destination + " ";
    flightInfo := flightInfo + "Airline: " + flight.airline + " ";
    flightInfo := flightInfo + " Flight: " + flight.flightNumber + " ";
    flightInfo := flightInfo + TimeLabel;
    if flight.departureTime.Some? {
      // the pattern "HH:mm " ends in a literal space, and the interpolation adds another
      flightInfo := flightInfo + (FormatHHmm(flight.departureTime.value) + " " + " ");
    }
    assert flightInfo == LineHead(flight);
    ghost var head := flightInfo;
    flightInfo := flightInfo + TerminalLabel;
    if flight.terminal.Some? {
      AppendAssoc(head, TerminalLabel, flight.terminal.value);
      flightInfo := flightInfo + flight.terminal.value;
    }
    assert flightInfo == head + (TerminalLabel + LineTerminal(flight.terminal));
    AppendAssoc(head, TerminalLabel + LineTerminal(flight.terminal), StatusMarker(flight.flightStatus));
    flightInfo := flightInfo + (" Status: " + RawValue(flight.flightStatus) + " ");
  }

  /** Appending is associative; the printing loop regroups the terminal and status columns with it. */
  lemma AppendAssoc(a: string, b: string, c: string)
    ensures a + b + c == a + (b + c)
  {
  }

  /** The three flights of the sample script; `now1` and `now2` stand for the two readings of the current time. */
  function RaleighFlights(now1: TimeOfDay, now2: TimeOfDay): seq<Flight> {
    [NewFlight(Some(now1), "Detroit", Some("A14"), OnTime, flightNumber := "AA 114", airline := "American Airlines"),
     NewFlight(Some(now2), "Maui", Some("B13"), Scheduled, flightNumber := "1123", airline := "Delta"),
     NewFlight(None, "London", Some("C20"), Canceled, flightNumber := "2345", airline := "British Airways")]
  }

  /** The sample script's board: Raleigh, with the three flights appended one by one. */
  method RaleighBoard(now1: TimeOfDay, now2: TimeOfDay) returns (board: DepartureBoard)
    ensures fresh(board)
    ensures board.departureFlight == RaleighFlights(now1, now2)
    ensures board.currentAirport == Airport("Raleigh International Airport", true, false)
  {
    var flights := RaleighFlights(now1, now2);
    board := new DepartureBoard(Airport("Raleigh International Airport", true, false));
    board.AppendFlight(flights[0]);
    board.AppendFlight(flights[1]);
    board.AppendFlight(flights[2]);
  }

  /** The departure lines of the sample board: one per flight, each showing its status; London has no time. */
  method RaleighDepartures(now1: TimeOfDay, now2: TimeOfDay) returns (lines: seq<string>)
    ensures |lines| == 3
    ensures StatusOfLine(lines[0]) == Some(OnTime) && StatusOfLine(lines[1]) == Some(Scheduled)
    ensures StatusOfLine(lines[2]) == Some(Canceled)
    ensures Contains(lines[2], TimeLabel + TerminalLabel)
  {
    var board := RaleighBoard(now1, now2);
    lines := PrintDepartures(board);
    var flights := RaleighFlights(now1, now2);
    DepartureLineShowsStatus(flights[0]);
    DepartureLineShowsStatus(flights[1]);
    DepartureLineShowsStatus(flights[2]);
    DepartureLineWithoutTime(flights[2]);
  }

  /** The alerts of the sample board: all three are sent, none traps. */
  method RaleighAlerts(now1: TimeOfDay, now2: TimeOfDay) returns (alerts: seq<string>, trapped: bool)
    ensures |alerts| == 3 && !trapped
    ensures Contains(alerts[0], "American Airlines" + " " + "AA 114")
    ensures EndsWith(alerts[1], " from terminal: " + "B13")
    ensures Contains(alerts[2], "London")
  {
    var board := RaleighBoard(now1, now2);
    alerts, trapped := board.AlertPass();
    var flights := RaleighFlights(now1, now2);
    OnTimeAndEnRouteAlertsNameTheFlight(flights[0]);
    ScheduledAlertNeedsTerminal(flights[1]);
    CanceledAlertDependsOnDestination(flights[2], flights[2]);
  }

  /** A scheduled flight whose terminal is not assigned yet stops the alert run at that flight. */
  method UnassignedTerminalAlerts(now: TimeOfDay) returns (alerts: seq<string>, trapped: bool)
    ensures trapped
    ensures |alerts| == 1
    ensures Contains(alerts[0], "London")
  {
    var london := NewFlight(None, "London", Some("C20"), Canceled, flightNumber := "2345", airline := "British Airways");
    var rome := NewFlight(Some(now), "Rome", flightNumber := "AZ 611", airline := "ITA Airways");
    var board := new DepartureBoard(Airport("Raleigh International Airport", true, false), [london, rome]);
    alerts, trapped := board.AlertPass();
    assert Alert(board.departureFlight[1]).None?;
    CanceledAlertDependsOnDestination(london, london);
  }
}
