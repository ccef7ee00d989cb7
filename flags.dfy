/**
 * Command-line flag validation of main.go: out-of-range values are put back
 * to their defaults before the web application is built.
 */
module Flags {

  const DefaultPollRate := 30
  const DefaultPort := 8880
  const DefaultApiStart := 6
  const DefaultApiEnd := 18

  predicate ValidPort(port: int) { 1 <= port <= 65535 }

  /** Poll intervals from one second to two hours. */
  predicate ValidPollRate(pollRate: int) { 1 <= pollRate <= 7200 }

  /** The three checks of the active-hours chain, all passed. */
  predicate ValidActiveHours(apiStart: int, apiEnd: int) {
    && apiStart < apiEnd
    && 1 <= apiEnd <= 23
    && 0 <= apiStart <= 22
  }

  /** The chain of checks accepts exactly the windows 0 <= start < end <= 23. */
  lemma ValidActiveHoursIsWindow(apiStart: int, apiEnd: int)
    ensures ValidActiveHours(apiStart, apiEnd) <==> 0 <= apiStart < apiEnd <= 23
  {
  }

  /** The parsed flag variables that validateFlags overwrites through pointers. */
  class CommandLine {
    var port: int
    var pollRate: int
    var apiStart: int
    var apiEnd: int

    /** The values flag.Parse produced. */
    constructor (port: int, pollRate: int, apiStart: int, apiEnd: int)
      ensures this.port == port && this.pollRate == pollRate
      ensures this.apiStart == apiStart && this.apiEnd == apiEnd
    {
      this.port := port;
      this.pollRate := pollRate;
      this.apiStart := apiStart;
      this.apiEnd := apiEnd;
    }

    /** validateFlags as written: an invalid poll rate resets the port, and
        the poll rate itself is kept. */
    method ValidateFlags()
      modifies this
      ensures ValidPort(port)
      ensures port == if ValidPort(old(port)) && ValidPollRate(old(pollRate)) then old(port) else DefaultPort
      ensures pollRate == old(pollRate)
      ensures 0 <= apiStart < apiEnd <= 23
      ensures ValidActiveHours(old(apiStart), old(apiEnd)) ==> apiStart == old(apiStart) && apiEnd == old(apiEnd)
      ensures !ValidActiveHours(old(apiStart), old(apiEnd)) ==> apiStart == DefaultApiStart && apiEnd == DefaultApiEnd
    {
      if port < 1 || port > 65535 {
        port := DefaultPort;
      }
      if pollRate < 1 || pollRate > 7200 {
        port := DefaultPort;
      }
      ValidateActiveHours();
    }

    /** validateFlags as evidently intended: an invalid poll rate resets the
        poll rate, and the port depends on the port flag alone. */
    method ValidateFlagsIntended()
      modifies this
      ensures ValidPort(port) && ValidPollRate(pollRate)
      ensures port == if ValidPort(old(port)) then old(port) else DefaultPort
      ensures pollRate == if ValidPollRate(old(pollRate)) then old(pollRate) else DefaultPollRate
      ensures 0 <= apiStart < apiEnd <= 23
      ensures ValidActiveHours(old(apiStart), old(apiEnd)) ==> apiStart == old(apiStart) && apiEnd == old(apiEnd)
      ensures !ValidActiveHours(old(apiStart), old(apiEnd)) ==> apiStart == DefaultApiStart && apiEnd == DefaultApiEnd
    {
      if port < 1 || port > 65535 {
        port := DefaultPort;
      }
      if pollRate < 1 || pollRate > 7200 {
        pollRate := DefaultPollRate;
      }
      ValidateActiveHours();
    }

    /** The if/else-if chain on the active hours, shared by both versions:
        any rejected pair becomes (6, 18). */
    method ValidateActiveHours()
      modifies this`apiStart, this`apiEnd
      ensures 0 <= apiStart < apiEnd <= 23
      ensures ValidActiveHours(old(apiStart), old(apiEnd)) ==> apiStart == old(apiStart) && apiEnd == old(apiEnd)
      ensures !ValidActiveHours(old(apiStart), old(apiEnd)) ==> apiStart == DefaultApiStart && apiEnd == DefaultApiEnd
    {
      if apiEnd <= apiStart {
        apiStart, apiEnd := DefaultApiStart, DefaultApiEnd;
      } else if apiEnd > 23 || apiEnd < 1 {
        apiStart, apiEnd := DefaultApiStart, DefaultApiEnd;
      } else if apiStart < 0 || apiStart > 22 {
        apiStart, apiEnd := DefaultApiStart, DefaultApiEnd;
      }
    }
  }

  /** The input that shows the poll-rate check resetting the wrong flag: port
      8080 is valid, poll rate 0 is not, and afterwards the port is 8880 while
      the poll rate is still 0. */
  method PollRateResetsPort() returns (port: int, pollRate: int)
    ensures port == DefaultPort && pollRate == 0
  {
    var flags := new CommandLine(8080, 0, DefaultApiStart, DefaultApiEnd);
    flags.ValidateFlags();
    port, pollRate := flags.port, flags.pollRate;
  }

  /** The corrected chain on the same input keeps the port and restores the
      default poll rate. */
  method PollRateResetIntended() returns (port: int, pollRate: int)
    ensures port == 8080 && pollRate == DefaultPollRate
  {
    var flags := new CommandLine(8080, 0, DefaultApiStart, DefaultApiEnd);
    flags.ValidateFlagsIntended();
    port, pollRate := flags.port, flags.pollRate;
  }
}
