/** The part of a Python `logging.Logger` that the agent relies on: a named
    logger whose `info` and `error` calls are recorded, in order, as entries. */
module Logging {

  datatype Level = Info | Error

  datatype LogEntry = LogEntry(level: Level, message: string)

  /** Number of error-level entries in a log. */
  function ErrorCount(log: seq<LogEntry>): (n: nat)
    ensures n <= |log|
    ensures n == 0 <==> forall i :: 0 <= i < |log| ==> log[i].level != Error
  {
    if log == [] then 0
    else ErrorCount(log[..|log| - 1]) + (if log[|log| - 1].level == Error then 1 else 0)
  }

  class Logger {
    /** The name the logger was obtained under (`logging.getLogger(name)`). */
    const name: string
    /** Every message logged so far, oldest first. */
    var entries: seq<LogEntry>

    constructor (name: string)
      ensures this.name == name && entries == []
    {
      this.name := name;
      entries := [];
    }

    /** `logger.info(message)`. */
    method LogInfo(message: string)
      modifies this
      ensures entries == old(entries) + [LogEntry(Info, message)]
    {
      entries := entries + [LogEntry(Info, message)];
    }

    /** `logger.error(message)`. */
    method LogError(message: string)
      modifies this
      ensures entries == old(entries) + [LogEntry(Error, message)]
    {
      entries := entries + [LogEntry(Error, message)];
    }
  }
}
