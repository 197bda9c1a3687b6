/** The agent skeleton: per-agent configuration, tool initialisation with
    per-tool error isolation, presence-only input validation, and the error
    and performance reports every agent shares. */
module BaseAgents {
  import opened Strings
  import opened Logging

  datatype Option<T> = None | Some(value: T)

  /** A raised Python exception, seen through `type(e).__name__` and `str(e)`.
      Only instances of `Exception` and its subclasses are described: those
      are what the agent's `except Exception` clauses catch. */
  datatype Exception = Exception(typeName: string, message: string)

  /** The outcome of a call that either returns a value or raises. */
  datatype Result<T> = Ok(value: T) | Raise(error: Exception)

  /** A tool factory (`_create_tool`). Its second argument is the number of
      earlier factory calls made by the same tool initialisation, so that a
      factory with internal state (one that returns a new instance on every
      call, say) can be described by a function. */
  type Factory<Tool> = (string, nat) -> Result<Tool>

  // ---------------------------------------------------------------------
  // Configuration
  // ---------------------------------------------------------------------

  /** A Python `list` of tool names: an object whose contents can change. */
  class ToolList {
    var items: seq<string>

    constructor (items: seq<string>)
      ensures this.items == items
    {
      this.items := items;
    }

    /** `list.append(name)`. */
    method Append(name: string)
      modifies this
      ensures items == old(items) + [name]
    {
      items := items + [name];
    }
  }

  /** `AgentConfig` together with its `__post_init__` defaulting of `tools`.
      The sampling temperature is not part of this model. */
  class AgentConfig {
    const name: string
    const model: string
    const maxTokens: int
    const tools: ToolList
    const domain: string

    /** `tools` left out (`null`, Python's `None`) becomes a new empty list
        owned by this configuration alone; a given list is kept as it is. */
    constructor (name: string, model: string := "gpt-4", maxTokens: int := 2000,
                 tools: ToolList? := null, domain: string := "general")
      ensures this.name == name && this.model == model
      ensures this.maxTokens == maxTokens && this.domain == domain
      ensures tools == null ==> fresh(this.tools) && this.tools.items == []
      ensures tools != null ==> this.tools == tools && this.tools.items == old(tools.items)
    {
      this.name := name;
      this.model := model;
      this.maxTokens := maxTokens;
      this.domain := domain;
      if tools == null {
        this.tools := new ToolList([]);
      } else {
        this.tools := tools;
      }
    }
  }

  /** The name of the logger an agent called `agentName` logs to. */
  function LoggerName(agentName: string): (n: string)
    ensures StartsWith(n, "agent.") && Contains(n, agentName)
  {
    ContainsSuffix("agent.", agentName);
    "agent." + agentName
  }

  /** Agents with different names log to different loggers. */
  lemma LoggerNamesDistinct(a: string, b: string)
    requires a != b
    ensures LoggerName(a) != LoggerName(b)
  {
  }

  // ---------------------------------------------------------------------
  // Tool initialisation
  // ---------------------------------------------------------------------

  /** The base class's `_create_tool`: it always raises `NotImplementedError`. */
  function BaseCreateTool<Tool>(name: string, call: nat): (r: Result<Tool>)
    ensures r.Raise? && r.error.typeName == "NotImplementedError"
    ensures Contains(r.error.message, name)
  {
    ContainsMiddle("Tool creation for ", name, " not implemented");
    Raise(Exception("NotImplementedError", "Tool creation for " + name + " not implemented"))
  }

  /** The tool map after initialising the tools `names`, in order, with
      `create`: each success is stored under its name (a later success for
      the same name replaces an earlier one), each failure is skipped. */
  function Registered<Tool>(names: seq<string>, create: Factory<Tool>): (tools: map<string, Tool>)
    ensures |tools| <= |names|
  {
    if names == [] then map[]
    else
      var last := |names| - 1;
      var earlier := Registered(names[..last], create);
      match create(names[last], last)
      case Ok(tool) => earlier[names[last] := tool]
      case Raise(_) => earlier
  }

  /** True iff the `i`-th factory call of the initialisation of `names` succeeds. */
  predicate Succeeds<Tool>(names: seq<string>, create: Factory<Tool>, i: int) {
    0 <= i < |names| && create(names[i], i).Ok?
  }

  /** The message logged for one tool, from the outcome of its factory call. */
  function ToolLogEntry<Tool>(name: string, outcome: Result<Tool>): (e: LogEntry)
    ensures e.level == Info <==> outcome.Ok?
    ensures Contains(e.message, name)
    ensures outcome.Raise? ==> Contains(e.message, outcome.error.message)
  {
    match outcome
    case Ok(_) =>
      ContainsSuffix("Initialized tool: ", name);
      LogEntry(Info, "Initialized tool: " + name)
    case Raise(err) =>
      ContainsMiddle("Failed to initialize tool ", name, ": " + err.message);
      ContainsSuffix("Failed to initialize tool " + name + ": ", err.message);
      assert "Failed to initialize tool " + name + ": " + err.message
          == "Failed to initialize tool " + name + (": " + err.message);
      LogEntry(Error, "Failed to initialize tool " + name + ": " + err.message)
  }

  /** Everything the initialisation of `names` logs: one entry per name. */
  function InitLog<Tool>(names: seq<string>, create: Factory<Tool>): (log: seq<LogEntry>)
    ensures |log| == |names|
  {
    if names == [] then []
    else
      var last := |names| - 1;
      InitLog(names[..last], create) + [ToolLogEntry(names[last], create(names[last], last))]
  }

  /** The `i`-th log entry reports the `i`-th factory call, success or not:
      a failure never stops the entries for the names after it. */
  lemma {:induction false} InitLogAt<Tool>(names: seq<string>, create: Factory<Tool>, i: nat)
    requires i < |names|
    ensures InitLog(names, create)[i] == ToolLogEntry(names[i], create(names[i], i))
  {
    var last := |names| - 1;
    if i < last {
      InitLogAt(names[..last], create, i);
    }
  }

  /** A name is a key of the tool map iff some factory call for it succeeded. */
  lemma {:induction false} RegisteredHas<Tool>(names: seq<string>, create: Factory<Tool>, n: string)
    ensures n in Registered(names, create) <==>
            exists i :: Succeeds(names, create, i) && names[i] == n
  {
    if names != [] {
      var last := |names| - 1;
      var earlier := names[..last];
      RegisteredHas(earlier, create, n);
      if n in Registered(earlier, create) {
        var i :| Succeeds(earlier, create, i) && earlier[i] == n;
        assert Succeeds(names, create, i) && names[i] == n;
      }
      if exists i :: Succeeds(names, create, i) && names[i] == n {
        var i :| Succeeds(names, create, i) && names[i] == n;
        if i < last {
          assert Succeeds(earlier, create, i) && earlier[i] == n;
        }
      }
    }
  }

  /** The names whose factory call succeeded at least once. */
  ghost function SucceededNames<Tool>(names: seq<string>, create: Factory<Tool>): set<string> {
    set i | 0 <= i < |names| && Succeeds(names, create, i) :: names[i]
  }

  /** The tool map's keys are exactly the names that were created
      successfully; no other key appears. */
  lemma {:induction false} RegisteredKeys<Tool>(names: seq<string>, create: Factory<Tool>)
    ensures Registered(names, create).Keys == SucceededNames(names, create)
  {
    forall n ensures n in Registered(names, create) <==> n in SucceededNames(names, create) {
      RegisteredHas(names, create, n);
    }
  }

  /** With duplicate names, the entry for a name holds the tool from the
      last successful factory call for that name. */
  lemma {:induction false} RegisteredLastWins<Tool>(names: seq<string>, create: Factory<Tool>, j: nat)
    requires Succeeds(names, create, j)
    requires forall k :: j < k < |names| && names[k] == names[j] ==> !Succeeds(names, create, k)
    ensures names[j] in Registered(names, create)
    ensures Registered(names, create)[names[j]] == create(names[j], j).value
  {
    var last := |names| - 1;
    if j < last {
      RegisteredLastWins(names[..last], create, j);
    }
  }

  /** With the base `_create_tool`, no tool is registered and every listed
      name logs one error. */
  lemma {:induction false} BaseFactoryRegistersNothing<Tool>(names: seq<string>)
    ensures Registered(names, BaseCreateTool<Tool>) == map[]
    ensures ErrorCount(InitLog(names, BaseCreateTool<Tool>)) == |names|
  {
    if names != [] {
      BaseFactoryRegistersNothing<Tool>(names[..|names| - 1]);
    }
  }

  // ---------------------------------------------------------------------
  // Input validation and error reports
  // ---------------------------------------------------------------------

  /** The index of the first field of `fields`, in declared order, that is
      not a key of `input`; `None` when every field is present. */
  function FirstMissing<V>(fields: seq<string>, input: map<string, V>): (r: Option<nat>)
    ensures r.None? <==> forall j :: 0 <= j < |fields| ==> fields[j] in input
    ensures r.Some? ==> r.value < |fields| && fields[r.value] !in input
    ensures r.Some? ==> forall j :: 0 <= j < r.value ==> fields[j] in input
  {
    if fields == [] then None
    else if fields[0] !in input then Some(0)
    else
      match FirstMissing(fields[1..], input)
      case None => None
      case Some(k) => Some(k + 1)
  }

  /** What `validate_input` logs: nothing on success, otherwise one error
      naming the first missing field. */
  function ValidationLog<V>(fields: seq<string>, input: map<string, V>): (log: seq<LogEntry>)
    ensures log == [] <==> forall j :: 0 <= j < |fields| ==> fields[j] in input
    ensures |log| <= 1 && ErrorCount(log) == |log|
    ensures log != [] ==> Contains(log[0].message, fields[FirstMissing(fields, input).value])
  {
    match FirstMissing(fields, input)
    case None => []
    case Some(i) =>
      ContainsSuffix("Missing required field: ", fields[i]);
      [LogEntry(Error, "Missing required field: " + fields[i])]
  }

  /** The message `handle_error` builds from an exception and its context. */
  function ErrorMessage(err: Exception, context: string): (m: string)
    ensures StartsWith(m, "Error in ") && EndsWith(m, ": " + err.message)
    ensures Contains(m, context) && Contains(m, err.message)
  {
    ContainsMiddle("Error in ", context, ": " + err.message);
    ContainsSuffix("Error in " + context + ": ", err.message);
    assert "Error in " + context + ": " + err.message
        == "Error in " + context + (": " + err.message);
    "Error in " + context + ": " + err.message
  }

  /** Two contexts that give the same message for one exception are equal. */
  lemma ErrorMessageDeterminesContext(err: Exception, c1: string, c2: string)
    requires ErrorMessage(err, c1) == ErrorMessage(err, c2)
    ensures c1 == c2
  {
    assert ErrorMessage(err, c1) == "Error in " + c1 + (": " + err.message);
    assert ErrorMessage(err, c2) == "Error in " + c2 + (": " + err.message);
    MiddleDetermined("Error in ", c1, c2, ": " + err.message);
  }

  /** The dictionary `handle_error` returns. */
  datatype ErrorResponse = ErrorResponse(success: bool, error: string, errorType: string, context: string)

  /** The error record for `err` raised in `context`. */
  function ErrorRecord(err: Exception, context: string): (r: ErrorResponse)
    ensures !r.success && r.context == context && r.errorType == err.typeName
    ensures r.error == ErrorMessage(err, context)
    ensures Contains(r.error, context) && Contains(r.error, err.message)
  {
    ErrorResponse(false, ErrorMessage(err, context), err.typeName, context)
  }

  /** The status word `log_performance` reports. */
  function PerformanceStatus(success: bool): (status: string)
    ensures status == "SUCCESS" <==> success
    ensures status == "FAILED" <==> !success
  {
    if success then "SUCCESS" else "FAILED"
  }

  /** The line `log_performance` logs; `duration` is the duration already
      formatted to two decimals. */
  function PerformanceMessage(taskId: string, status: string, duration: string): (m: string)
    ensures StartsWith(m, "Task " + taskId + " - " + status + " - ")
    ensures EndsWith(m, "Duration: " + duration + "s")
    ensures Contains(m, taskId) && Contains(m, status)
  {
    var head := "Task " + taskId + " - " + status + " - ";
    var tail := "Duration: " + duration + "s";
    ContainsMiddle("Task ", taskId, " - " + status + " - " + tail);
    ContainsMiddle("Task " + taskId + " - ", status, " - " + tail);
    assert head + tail == "Task " + taskId + (" - " + status + " - " + tail);
    assert head + tail == "Task " + taskId + " - " + status + (" - " + tail);
    assert (head + tail)[..|head|] == head;
    assert (head + tail)[|head|..] == tail;
    head + tail
  }

  // ---------------------------------------------------------------------
  // The agent
  // ---------------------------------------------------------------------

  class BaseAgent<Tool> {
    const config: AgentConfig
    const logger: Logger
    /** The agent's `_create_tool`; `BaseCreateTool` unless a subclass overrides it. */
    const createTool: Factory<Tool>
    /** Tool name to tool instance. */
    var tools: map<string, Tool>
    /** The agent's `required_fields` attribute; `None` when it has none. */
    var requiredFields: Option<seq<string>>

    /** Stores the configuration, takes the logger obtained under
        `LoggerName(config.name)`, and initialises the tools. */
    constructor (config: AgentConfig, logger: Logger, createTool: Factory<Tool>)
      requires logger.name == LoggerName(config.name)
      modifies logger
      ensures this.config == config && this.logger == logger && this.createTool == createTool
      ensures requiredFields == None
      ensures tools == Registered(config.tools.items, createTool)
      ensures logger.entries == old(logger.entries) + InitLog(config.tools.items, createTool)
      ensures config.tools.items == old(config.tools.items)
    {
      this.config := config;
      this.logger := logger;
      this.createTool := createTool;
      requiredFields := None;
      new;
      tools := InitializeTools();
    }

    /** The required fields, an absent attribute counting as none. */
    function RequiredFields(): (fields: seq<string>)
      reads this
      ensures requiredFields.None? ==> fields == []
      ensures requiredFields.Some? ==> fields == requiredFields.value
    {
      match requiredFields
      case None => []
      case Some(fields) => fields
    }

    /** `_initialize_tools`: calls the factory for every configured name in
        order, keeps the successes and logs every outcome. */
    method InitializeTools() returns (registered: map<string, Tool>)
      modifies logger
      ensures registered == Registered(config.tools.items, createTool)
      ensures logger.entries == old(logger.entries) + InitLog(config.tools.items, createTool)
    {
      var names := config.tools.items;
      registered := map[];
      var i := 0;
      while i < |names|
        invariant 0 <= i <= |names|
        invariant registered == Registered(names[..i], createTool)
        invariant logger.entries == old(logger.entries) + InitLog(names[..i], createTool)
      {
        assert names[..i + 1][..i] == names[..i];
        var outcome := createTool(names[i], i);
        match outcome {
          case Ok(tool) =>
            registered := registered[names[i] := tool];
            logger.LogInfo("Initialized tool: " + names[i]);
          case Raise(err) =>
            logger.LogError("Failed to initialize tool " + names[i] + ": " + err.message);
        }
        i := i + 1;
      }
      assert names[..i] == names;
    }

    /** `validate_input`: true iff every required field is a key of `input`;
        stops at the first missing one and logs it. */
    method ValidateInput<V>(input: map<string, V>) returns (valid: bool)
      modifies logger
      ensures valid <==> forall j :: 0 <= j < |RequiredFields()| ==> RequiredFields()[j] in input
      ensures logger.entries == old(logger.entries) + ValidationLog(RequiredFields(), input)
    {
      var fields := RequiredFields();
      for i := 0 to |fields|
        invariant forall j :: 0 <= j < i ==> fields[j] in input
        invariant logger.entries == old(logger.entries)
      {
        if fields[i] !in input {
          logger.LogError("Missing required field: " + fields[i]);
          assert RequiredFields()[i] !in input;
          return false;
        }
      }
      return true;
    }

    /** `handle_error`: logs the error message once and returns the record. */
    method HandleError(err: Exception, context: string := "") returns (response: ErrorResponse)
      modifies logger
      ensures response == ErrorRecord(err, context)
      ensures logger.entries == old(logger.entries) + [LogEntry(Error, response.error)]
    {
      var message := "Error in " + context + ": " + err.message;
      logger.LogError(message);
      response := ErrorResponse(false, message, err.typeName, context);
    }

    /** `log_performance`: one info line with the task id, status and duration. */
    method LogPerformance(taskId: string, duration: string, success: bool)
      modifies logger
      ensures logger.entries == old(logger.entries)
                                + [LogEntry(Info, PerformanceMessage(taskId, PerformanceStatus(success), duration))]
    {
      var status := if success then "SUCCESS" else "FAILED";
      var message := "Task " + taskId + " - " + status + " - Duration: " + duration + "s";
      assert message == PerformanceMessage(taskId, PerformanceStatus(success), duration);
      logger.LogInfo(message);
    }
  }
}
