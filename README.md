# Airport departures board, modelled in Dafny

This project models the Swift playground `AirportDepartures.playground/Contents.swift`, a small
airport departure display:

- a closed `FlightStatus` enum whose cases carry string raw values ("En Route", "On Time", …);
- `Airport` and `Flight` records; a flight's departure time and terminal are optional, and the
  flight initializer defaults the terminal to nil and the status to `.Scheduled`;
- a `DepartureBoard` class owning a mutable, ordered list of flights and the current airport,
  to which flights are appended in place;
- `alertPass`, which walks the board and prints one passenger alert per flight, chosen by a
  `switch` on the status;
- `printDepartures`, which builds one display line per flight by appending to a string and
  leaves the time or terminal column empty when it is absent;
- `calculateAirfare`: $25 per checked bag plus $0.10 per mile, times the number of travelers.

Printing is modelled as returning the printed lines in board order. A Swift `Date` is abstracted
to the hour and minute a `DateFormatter` reads from it (`Clock.TimeOfDay`); the pattern "HH:mm" is
the zero-padded 24-hour hour and the zero-padded minute of the LDML date field symbols (Unicode
Technical Standard #35). The airfare is computed exactly, in whole cents.

The model reproduces the program's literal text, not the texts its exercise comments ask for:
"flight tp" in the canceled alert, "Departurue Time: ", the double space before "Flight:", the
two spaces after a formatted time in a departure line (the pattern "HH:mm " ends in a space and
the interpolation adds one), the trailing space after the status, and the boarding alert that
ends in " immediately." and shows the terminal as Swift renders an optional: `Optional("B13")`
or `nil`.

The exercise's instructions in the playground's comments (line 162) ask for "TBD" in place of an
absent time or terminal in an alert. The code shows an empty time, and for the terminal of a
scheduled flight it force-unwraps the terminal, which traps at run time. The model follows
the code: `Flights.Alert` returns `None` for that flight, and `DepartureBoard.AlertPass` stops
there, reporting `trapped` along with the messages printed before it.

Modules: `Wrappers` (Option), `Clock` (time of day and "HH:mm"), `Text` (substring predicates and
Swift's rendering of an optional string), `Flights` (records, alerts, departure lines),
`Departures` (the board class, the two printing loops, the sample script), `Airfare`.

## Model

The functions that compute the model, and that the members below speak about, are
`Flights.RawValue` (the status labels), `Flights.NewFlight` (the flight initializer),
`Flights.DepartureLine` with `Flights.LineLead`, `Flights.LineHead`, `Flights.LineTail`, `Flights.LineTerminal`
and `Flights.StatusMarker` (one departure-board line and its columns),
`Airfare.AirfareCents` and `Airfare.AirfareDollars` (the airfare in cents and, as written, in dollars).

| member | source | states |
|---|---|---|
| Flights.FromRawValue | AirportDepartures.playground/Contents.swift:19-26 | a status found from a label has exactly that label |
| Flights.RawValueRoundTrip | AirportDepartures.playground/Contents.swift:19-26 | every status is found again from its raw value |
| Flights.RawValueInjective | AirportDepartures.playground/Contents.swift:19-26 | two statuses have the same raw value exactly when they are the same status |
| Flights.NewFlightDefaults | AirportDepartures.playground/Contents.swift:42-49 | a flight built without a terminal or status has no terminal and status Scheduled |
| Flights.Alert | AirportDepartures.playground/Contents.swift:63-82 | the alert for a flight traps exactly when the flight is scheduled and has no terminal |
| Flights.AlertTime | AirportDepartures.playground/Contents.swift:67-72 | the time in a scheduled alert is empty exactly when the time is absent, and otherwise reads back as that time |
| Flights.CanceledAlertDependsOnDestination | AirportDepartures.playground/Contents.swift:64-65 | a canceled alert always exists, names the destination, and is the same for any two canceled flights to one destination, whatever their times |
| Flights.ScheduledAlertNeedsTerminal | AirportDepartures.playground/Contents.swift:66-73 | a scheduled alert exists exactly when the terminal is present, and then names the destination and ends with " from terminal: " and the terminal |
| Flights.ScheduledAlertWithoutTime | AirportDepartures.playground/Contents.swift:67-73 | with no departure time a scheduled alert still exists and its time slot is empty |
| Flights.ScheduledAlertWithTime | AirportDepartures.playground/Contents.swift:68-73 | with a departure time a scheduled alert shows it as "HH:mm" just before the terminal |
| Flights.BoardingAlertShowsOptional | AirportDepartures.playground/Contents.swift:74-75 | a boarding alert shows the terminal as an optional's rendering (`nil`, or `Optional("…")` with the escaped terminal), from which the terminal reads back |
| Flights.OnTimeAndEnRouteAlertsNameTheFlight | AirportDepartures.playground/Contents.swift:76-81 | on-time and en-route alerts contain the airline, a space and the flight number; an en-route alert ends with the destination |
| Flights.DelayedAlertNamesDestination | AirportDepartures.playground/Contents.swift:78-79 | a delayed alert exists and names the destination |
| Flights.LineTime | AirportDepartures.playground/Contents.swift:120-126 | the time column is empty exactly when the time is absent |
| Flights.LineTimeReadsBack | AirportDepartures.playground/Contents.swift:121-125 | a present time column is seven characters: the first five read back as that time and the last two are spaces |
| Flights.DepartureLineEndsWithStatus | AirportDepartures.playground/Contents.swift:131 | every departure line ends with " Status: ", the status raw value and a space |
| Flights.StatusMarkerEnd | AirportDepartures.playground/Contents.swift:19-26 | each status marker ends with characters particular to that status |
| Flights.StatusMarkersSuffixFree | AirportDepartures.playground/Contents.swift:19-26 | no status marker is a suffix of another status's marker |
| Flights.DepartureLineShowsStatus | AirportDepartures.playground/Contents.swift:117-131 | the status can be read back from any departure line, so lines of flights with different statuses differ |
| Flights.DepartureLineWithoutTime | AirportDepartures.playground/Contents.swift:120-126 | with no departure time, "Departurue Time: " is followed directly by "Terminal: ", right after the destination, airline and flight columns |
| Flights.DepartureLineWithTime | AirportDepartures.playground/Contents.swift:120-126 | with a departure time, "HH:mm" and two spaces stand between the time label and the terminal label |
| Flights.DepartureLineTerminal | AirportDepartures.playground/Contents.swift:126-131 | the terminal column is the terminal itself, never an optional's rendering; with no terminal, "Terminal: " is followed directly by " Status: " |
| Clock.TwoDigits | AirportDepartures.playground/Contents.swift:69 | a field is two decimal digits whose value is the number |
| Clock.FormatHHmm | AirportDepartures.playground/Contents.swift:69-71 | a formatted time is five characters with a colon in the middle |
| Clock.FormatHHmmRoundTrip | AirportDepartures.playground/Contents.swift:69-71 | the hour and minute read back from the formatted text |
| Clock.FormatHHmmInjective | AirportDepartures.playground/Contents.swift:69-71 | two times format alike exactly when they are equal |
| Clock.FormatHHmmShape | AirportDepartures.playground/Contents.swift:69-71 | every character of a formatted time but the colon is a digit |
| Text.EscapeChar | AirportDepartures.playground/Contents.swift:75 | a character is written as itself exactly when it is none of backslash, the two quotes, NUL, newline, carriage return and tab; those seven are written as a backslash and a character that stands for them |
| Text.Escape | AirportDepartures.playground/Contents.swift:75 | an escaped text is at least as long as the text and at most twice as long |
| Text.EscapeRoundTrip | AirportDepartures.playground/Contents.swift:75 | unescaping an escaped text gives the text back |
| Text.Describe | AirportDepartures.playground/Contents.swift:75 | an absent optional renders as "nil", a present one as `Optional("` … `")` |
| Text.DescribeRoundTrip | AirportDepartures.playground/Contents.swift:75 | the optional, present or absent, reads back from its rendering |
| Departures.DepartureBoard.constructor | AirportDepartures.playground/Contents.swift:56-59 | a new board has the given airport and the given flights, none by default |
| Departures.DepartureBoard.AppendFlight | AirportDepartures.playground/Contents.swift:103-105 | the flight list becomes the old list with the new flight last; the airport is unchanged |
| Departures.DepartureBoard.AlertPass | AirportDepartures.playground/Contents.swift:61-84 | one alert per flight in board order, each the flight's alert; the run stops exactly at the first scheduled flight without a terminal, and completes exactly when there is none |
| Departures.PrintDepartures | AirportDepartures.playground/Contents.swift:115-134 | exactly one line per flight, in board order, each the flight's departure line |
| Departures.FlightInfo | AirportDepartures.playground/Contents.swift:117-131 | the text built by appending the columns one by one, leaving out an absent time or terminal, is the flight's departure line |
| Departures.RaleighBoard | AirportDepartures.playground/Contents.swift:96-105 | the sample board holds the three sample flights in the order appended, at Raleigh |
| Departures.RaleighDepartures | AirportDepartures.playground/Contents.swift:136 | the sample prints three lines showing On Time, Scheduled and Canceled, and London's has an empty time column |
| Departures.RaleighAlerts | AirportDepartures.playground/Contents.swift:170 | the sample sends three alerts without trapping, naming American Airlines AA 114, terminal B13 and London |
| Departures.UnassignedTerminalAlerts | AirportDepartures.playground/Contents.swift:66-73 | a scheduled flight with no terminal after a canceled one: the canceled alert is printed, then the run traps |
| Airfare.CentsAreHundredthsOfDollars | AirportDepartures.playground/Contents.swift:190-191 | the fare in cents is one hundred times the formula's fare in dollars, for every input |
| Airfare.AirfareExample | AirportDepartures.playground/Contents.swift:185 | 2 bags, 2000 miles and 3 travelers cost 75000 cents, i.e. $750 |
| Airfare.AirfareZero | AirportDepartures.playground/Contents.swift:190-191 | zero travelers, or zero bags and zero miles, cost nothing |
| Airfare.AirfarePerTraveler | AirportDepartures.playground/Contents.swift:183 | the fare is the one-traveler fare times the number of travelers |
| Airfare.AirfareMonotone | AirportDepartures.playground/Contents.swift:179-183 | for non-negative inputs the fare never decreases when bags, miles or travelers grow |

## Left out

- Output to standard output: each printing operation returns the lines it would print, in order.
- `Date()` and the clock: each reading of the current time in the sample script is a parameter (`now1` and `now2` for the two calls at lines 96-97).
- `DateFormatter` time zones, locales and calendars: a time is the hour and minute the formatter reads.
- IEEE `Double` rounding in `calculateAirfare`: the fare is exact, in integer cents and in real dollars.
- `NumberFormatter` currency formatting and the final summary print (lines 197-201): a locale-dependent library call.
- Swift `Int` range: the airfare inputs are unbounded integers; converting them to `Double` cannot trap in Swift.
- The `Airport` flags `departure` and `arrival`: carried as data, used by nothing.
- The expected outputs quoted in the exercise comments (lines 149-151, 156-168), which the code does not produce.
- Text.EscapeChar: writes the other ASCII control characters (U+0001 to U+0008, U+000B, U+000C, U+000E to U+001F, U+007F) as themselves, where Swift's debug rendering writes them as `\u{…}` escapes.
- Text.Escape: models the escapes of backslash, both quotes, NUL, newline, carriage return and tab in Swift's debug rendering of a string; the `\u{…}` escapes of other non-printable characters are not modelled.
- Departures.RaleighDepartures: states the sample lines through their status and time columns, not as whole literal strings, because the solver cannot compare long literal strings within its resource limit.
- Departures.RaleighAlerts: states the sample alerts through what they contain, not as whole literal strings, for the same reason.
