# Agent skeleton: a verified model

This project models the base agent of a framework for task-processing
agents, the class `BaseAgent` and its configuration record `AgentConfig`
in `src/core/base_agent.py`. A concrete agent supplies `process_task`
and, optionally, a tool factory and a list of required input fields. The
base class does the rest:

- it stores the configuration;
- it obtains the logger `agent.<name>`;
- it builds the tool map by calling the factory once per configured tool
  name, in order, logging each success and each failure and skipping the
  failures;
- it checks the presence of required input fields, failing fast on the
  first missing one;
- it turns an exception into a fixed-shape error record;
- it logs one performance line per task.

The Dafny files:

- `strings.dfy` (module `Strings`): substring, prefix and suffix
  predicates, used to state what the messages contain.
- `logging.dfy` (module `Logging`): a logger. It is a class whose
  `entries` field records every `info`/`error` call as a `(level, message)`
  pair, in order.
- `base_agent.dfy` (module `BaseAgents`): the model itself.
  - `AgentConfig` is a class. Its tool-name list is an object (`ToolList`),
    as a Python list is, so "each configuration gets its own new empty
    list" can be said with `fresh`.
  - `BaseAgent<Tool>` is a class with the fields `config`, `logger`,
    `tools` and `requiredFields`. The tool factory is the field
    `createTool`.
  - The imperative code stays imperative: the `_initialize_tools` loop and
    the `validate_input` loop are `while`/`for` loops. Each is proved
    against a specification function (`Registered`, `InitLog`,
    `FirstMissing`, `ValidationLog`), and the promised properties are
    lemmas about those functions.
- `scenarios.dfy` (module `AgentScenarios`): small clients that build
  agents through the contracts alone. They cover:
  - configurations built without tools do not share a default list;
  - one failing tool does not stop the others;
  - with duplicate names, the last creation wins;
  - validation fails fast, and succeeds when every field is present;
  - the `demo` agent with the `search` tool.

Modelling choices:

- The tool factory is a function `(name, k) -> Result<Tool>`. `k` is the
  number of earlier factory calls in the same initialisation. This lets a
  stateful factory be described, for example one that returns a new
  instance per call. The base `_create_tool` is `BaseCreateTool`, which
  ignores `k` and always raises `NotImplementedError`.
- An exception is the pair `type(e).__name__`, `str(e)`.
- The input of `validate_input` is a `map<string, V>`.
- A missing `required_fields` attribute is `None`, which counts as the
  empty list.
- The logger is a constructor parameter: the object that
  `logging.getLogger("agent." + name)` returns. The constructor requires
  it to carry that name. Two agents with the same name may be given the
  same `Logger` object, as the logging registry would give them.

Three behaviours of the code worth noting:

- **Handler setup runs after tool initialisation.** `_initialize_tools` runs
  before `_setup_logging` (lines 43-44). So tool messages are logged
  before the handler is attached and before the level is set to INFO.
  The model records every log call, whether or not a handler would emit it.
- **`log_performance` has no guard.** It has no protection against a
  failing logger.
- **`handle_error` keeps the context as given.** The context is stored
  exactly as passed, and it also appears inside `error`.

## Model

| member | source | states |
|---|---|---|
| `BaseAgents.AgentConfig.constructor` | src/core/base_agent.py:11-23 | defaults `model` "gpt-4", `max_tokens` 2000, `domain` "general"; with `tools` omitted the configuration gets a new (fresh) empty list of its own; a given list is kept as the same object with its contents unchanged |
| `BaseAgents.LoggerName` | src/core/base_agent.py:42 | the logger name starts with "agent." and contains the agent's name |
| `BaseAgents.LoggerNamesDistinct` | src/core/base_agent.py:42 | agents with different names get different logger names |
| `BaseAgents.BaseAgent.constructor` | src/core/base_agent.py:34-44 | stores config and logger, has no required fields, its tool map is exactly the result of initialising `config.tools` with the agent's factory, and the logger gains exactly the initialisation log; the tool list is unchanged |
| `BaseAgents.Registered` | src/core/base_agent.py:63-71 | the tool map built by the loop in order, each success stored under its name and each failure skipped, has at most one key per listed name |
| `BaseAgents.BaseAgent.RequiredFields` | src/core/base_agent.py:112 | the agent's `required_fields` attribute, or the empty list when the attribute is absent |
| `BaseAgents.BaseAgent.InitializeTools` | src/core/base_agent.py:56-71 | the loop returns the map `Registered(config.tools, factory)` and appends exactly `InitLog(config.tools, factory)`, one entry per listed name, to the log |
| `BaseAgents.BaseCreateTool` | src/core/base_agent.py:73-86 | always raises `NotImplementedError`, with a message naming the tool |
| `BaseAgents.ToolLogEntry` | src/core/base_agent.py:65-70 | a tool's entry is info-level iff its creation succeeded; it always names the tool, and on failure it also contains the exception's message |
| `BaseAgents.InitLog` | src/core/base_agent.py:63-71 | initialisation logs exactly one entry per listed name |
| `BaseAgents.InitLogAt` | src/core/base_agent.py:64-70 | the i-th log entry reports the i-th factory call, so a failure does not stop the entries of the names after it |
| `BaseAgents.RegisteredHas` | src/core/base_agent.py:63-71 | a name is a key of the tool map iff some factory call for that name succeeded (both directions) |
| `BaseAgents.RegisteredKeys` | src/core/base_agent.py:63-71 | the tool map's key set equals the set of names created successfully; no other key appears |
| `BaseAgents.RegisteredLastWins` | src/core/base_agent.py:64-67 | for duplicate names, the entry holds the tool from the last successful creation of that name |
| `BaseAgents.BaseFactoryRegistersNothing` | src/core/base_agent.py:63-86 | with the base factory the tool map is empty for every tool list, and the log holds one error per listed name |
| `BaseAgents.FirstMissing` | src/core/base_agent.py:112-117 | gives the least index of a required field missing from the input, or `None` iff every field is present |
| `BaseAgents.ValidationLog` | src/core/base_agent.py:113-116 | validation logs nothing iff every field is present; otherwise exactly one error, naming the first missing field |
| `BaseAgents.BaseAgent.ValidateInput` | src/core/base_agent.py:101-117 | returns true iff every required field (none when the attribute is absent) is a key of the input; appends exactly `ValidationLog` to the log |
| `BaseAgents.ErrorMessage` | src/core/base_agent.py:130 | the message starts with "Error in ", ends with ": " followed by the exception's message, and contains both the context and the exception's message |
| `BaseAgents.ErrorMessageDeterminesContext` | src/core/base_agent.py:130 | for a fixed exception, the message determines the context |
| `BaseAgents.ErrorRecord` | src/core/base_agent.py:133-138 | `success` is false, `context` is the given context unchanged, `error_type` is the exception's class name, `error` is the message and contains the context |
| `BaseAgents.BaseAgent.HandleError` | src/core/base_agent.py:119-138 | returns the error record and logs its `error` message once, at error level |
| `BaseAgents.PerformanceStatus` | src/core/base_agent.py:149 | the status is "SUCCESS" iff the task succeeded and "FAILED" iff it did not |
| `BaseAgents.PerformanceMessage` | src/core/base_agent.py:150 | the line starts with "Task <id> - <status> - ", ends with "Duration: <duration>s", and contains the id and the status |
| `BaseAgents.BaseAgent.LogPerformance` | src/core/base_agent.py:140-150 | appends exactly one info entry, the performance line for the task's status |
| `Logging.Logger.LogInfo` | src/core/base_agent.py:68 | appends exactly one info-level entry with the message |
| `Logging.Logger.LogError` | src/core/base_agent.py:70 | appends exactly one error-level entry with the message |
| `AgentScenarios.DefaultToolListsNotShared` | src/core/base_agent.py:18-23 | appending to the default tool list of one configuration leaves another configuration's list empty |
| `AgentScenarios.PartialToolFailure` | src/core/base_agent.py:63-71 | with "A" created and "B" raising, the tool map has exactly the key "A", and an error naming "B" is logged |
| `AgentScenarios.DuplicateToolName` | src/core/base_agent.py:64-67 | with `["x", "x"]` and a new instance per call, the entry for "x" is the second instance |
| `AgentScenarios.ValidationFailsFast` | src/core/base_agent.py:112-117 | with required fields `["a", "b"]` and an empty input, validation fails and exactly one error is logged |
| `AgentScenarios.ValidationSucceeds` | src/core/base_agent.py:112-117 | with required field `["a"]` and input `{"a": 1}`, validation succeeds and nothing is logged |
| `AgentScenarios.DemoAgent` | src/core/base_agent.py:34-71 | the agent "demo" with tool "search" has exactly the key "search"; a successful task logs a line containing SUCCESS and ending in "Duration: 1.23s" |

## Left out

- Logging plumbing (`_setup_logging`, lines 46-54) is not modelled: the
  stream handler, the formatter `time - name - level - message` and
  `setLevel(INFO)`. The logging registry (`logging.getLogger`) is not
  modelled either; the caller passes in the logger. Because these are
  left out, the model does not capture two things:
  - messages logged before the handler and level are set are possibly
    dropped;
  - building two agents with the same name attaches duplicate handlers.
- `temperature` (line 16) is left out: it is a float that is never read.
  `model` and `max_tokens` are kept only as opaque constants.
- `process_task` (lines 88-99) is abstract and has no behaviour.
- `BaseAgents.PerformanceMessage`: the duration is taken as a string that
  is already formatted to two decimals. The floating-point formatting
  `{duration:.2f}` (line 150) is not modelled.
- `str(e)` and `type(e).__name__` are the two fields of `Exception`.
  How Python renders particular exception classes (the quoting in
  `KeyError`, for instance) is not modelled.
- `Raise` stands only for instances of `Exception` and its subclasses, the
  ones `except Exception` (line 69) catches. A factory that raises a bare
  `BaseException` (`KeyboardInterrupt`, `SystemExit`, `GeneratorExit`)
  escapes `_initialize_tools` and aborts construction, and the remaining
  names are never tried. That path is not modelled.
- The factory only returns values or raises. A factory that changes the
  agent or the tool list while the loop runs (aliasing through `self`)
  is not modelled.
- `src/__init__.py` and `src/core/__init__.py` only re-export names. They
  import modules (`config`, `logging`, `models`, `utils`) that are not part
  of this model.
- The test fixtures and smoke tests check the environment, the file system
  and third-party imports. They are not part of this model.
