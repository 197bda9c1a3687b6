/** Concrete agents built only through the contracts of `BaseAgents`: each
    method sets up one situation and states what the agent then does. */
module AgentScenarios {
  import opened Strings
  import opened Logging
  import opened BaseAgents

  /** Two configurations built without `tools` do not share a list:
      appending to one leaves the other empty. */
  method DefaultToolListsNotShared() returns (alphaTools: seq<string>, betaTools: seq<string>)
    ensures alphaTools == ["browser"] && betaTools == []
  {
    var alpha := new AgentConfig("alpha");
    var beta := new AgentConfig("beta");
    alpha.tools.Append("browser");
    alphaTools, betaTools := alpha.tools.items, beta.tools.items;
  }

  /** Tool "A" is created, tool "B" raises: construction goes on, "A" is
      registered, "B" is not, and the error logged names "B". */
  method PartialToolFailure() returns (keys: set<string>, failure: LogEntry)
    ensures keys == {"A"}
    ensures failure.level == Error && Contains(failure.message, "B")
  {
    var names := new ToolList(["A", "B"]);
    var config := new AgentConfig("partial", tools := names);
    var logger := new Logger(LoggerName("partial"));
    var agent := new BaseAgent<int>(config, logger,
      (n: string, k: nat) => if n == "A" then Ok(k) else Raise(Exception("RuntimeError", "boom")));
    assert Registered(["A", "B"][..1], agent.createTool) == map["A" := 0];
    keys := agent.tools.Keys;
    InitLogAt(["A", "B"], agent.createTool, 1);
    failure := logger.entries[1];
  }

  /** With `tools = ["x", "x"]` and a factory that hands out a new instance
      on every call, the entry for "x" is the second instance. */
  method DuplicateToolName() returns (tool: int)
    ensures tool == 1
  {
    var names := new ToolList(["x", "x"]);
    var config := new AgentConfig("dup", tools := names);
    var logger := new Logger(LoggerName("dup"));
    var agent := new BaseAgent<int>(config, logger, (n: string, k: nat) => Ok(k));
    RegisteredLastWins(["x", "x"], agent.createTool, 1);
    tool := agent.tools["x"];
  }

  /** With `required_fields = ["a", "b"]` and an empty input, validation
      fails and exactly one error is logged. */
  method ValidationFailsFast() returns (valid: bool, errors: nat)
    ensures !valid && errors == 1
  {
    var config := new AgentConfig("check");
    var logger := new Logger(LoggerName("check"));
    var agent := new BaseAgent<int>(config, logger, BaseCreateTool<int>);
    agent.requiredFields := Some(["a", "b"]);
    var input: map<string, int> := map[];
    valid := agent.ValidateInput(input);
    errors := ErrorCount(logger.entries);
  }

  /** With `required_fields = ["a"]` and the input `{"a": 1}`, validation
      succeeds and logs nothing. */
  method ValidationSucceeds() returns (valid: bool, logged: nat)
    ensures valid && logged == 0
  {
    var config := new AgentConfig("check");
    var logger := new Logger(LoggerName("check"));
    var agent := new BaseAgent<int>(config, logger, BaseCreateTool<int>);
    agent.requiredFields := Some(["a"]);
    valid := agent.ValidateInput(map["a" := 1]);
    logged := |logger.entries|;
  }

  /** The agent "demo" with the single tool "search": its tool map has the
      one key "search", and a successful task t1, whose duration is given
      already formatted to two decimals as "1.23", logs a line that reports
      SUCCESS and ends in "Duration: 1.23s". */
  method DemoAgent() returns (keys: set<string>, line: string)
    ensures keys == {"search"}
    ensures Contains(line, "SUCCESS") && EndsWith(line, "Duration: 1.23s")
  {
    var names := new ToolList(["search"]);
    var config := new AgentConfig("demo", tools := names);
    var logger := new Logger(LoggerName("demo"));
    var agent := new BaseAgent<string>(config, logger,
      (n: string, k: nat) => if n == "search" then Ok("search stub") else Raise(Exception("KeyError", n)));
    keys := agent.tools.Keys;
    agent.LogPerformance("t1", "1.23", true);
    line := logger.entries[|logger.entries| - 1].message;
  }
}
