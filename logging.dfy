/**
 * The logger the dependency reports to, as a trace of events. Each event
 * carries the level of the call that produced it (`Debugf` or `Errorf`) and
 * what it reports; message formatting is not modelled.
 */
module Logging {
  import opened FileSystem

  datatype Level = Debug | Error

  datatype Message =
    | ConfigNotFound(cause: FsError)      // "config file not found: %v"
    | UnmarshalFailed                     // "failed to unmarshal YAML from default config file: %v"
    | WrongNetworkCount(count: nat)       // "default config file has incorrect number of Networks defined (%d)"

  datatype LogEvent = LogEvent(level: Level, message: Message)

  /** The number of events at `level`: what a strict logger mock counts. */
  function CountLevel(log: seq<LogEvent>, level: Level): nat
  {
    if log == [] then 0
    else (if log[0].level == level then 1 else 0) + CountLevel(log[1..], level)
  }

  lemma {:induction false} CountLevelAppend(a: seq<LogEvent>, b: seq<LogEvent>, level: Level)
    ensures CountLevel(a + b, level) == CountLevel(a, level) + CountLevel(b, level)
  {
    if a == [] {
      assert a + b == b;
    } else {
      assert (a + b)[1..] == a[1..] + b;
      CountLevelAppend(a[1..], b, level);
    }
  }

  class Logger {
    var events: seq<LogEvent>

    constructor ()
      ensures events == []
    {
      events := [];
    }

    method Debugf(m: Message)
      modifies this
      ensures events == old(events) + [LogEvent(Debug, m)]
    {
      events := events + [LogEvent(Debug, m)];
    }

    method Errorf(m: Message)
      modifies this
      ensures events == old(events) + [LogEvent(Error, m)]
    {
      events := events + [LogEvent(Error, m)];
    }
  }
}
