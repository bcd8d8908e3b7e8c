# MCP client tool bridge: a verified model of its deterministic core

The client (`mcp_client/base.py`) reads a configuration file, starts one
MCP provider process per entry of its `mcpServers` map, asks each provider
for its tools, wraps every listed tool in a LangChain tool object that
reconnects to its provider on each call, and hands those tools, a chat
model and a prompt to a LangChain agent. This project models the parts of
that file that are plain data transformation and proves what they promise:

- `ServerParams` (`server_params.dfy`): `create_server_parameters`, which turns
  the `mcpServers` entries into launch descriptors `(command, args, env)`.
  Missing `args` become `[]`, `PATH` is taken from the client's environment,
  and an empty configured value falls back to the client's own value of
  that variable. The loops of the source are methods. `BuildServerParameter`
  rewrites the environment map entry by entry, as lines 108-110 do.
  Each method is proved equal to a specification function, and the
  lemmas state the properties of that function.
- `McpTools` (`mcp_tools.dfy`): `create_mcp_tool`, `get_mcp_tools` and
  `convert_mcp_to_langchain_tools`. Aggregation concatenates each provider's
  adapters in provider order, with no deduplication. It is fail-fast: the
  first provider whose discovery fails aborts all of it. This module also
  models the request `_arun` sends and how it classifies the answer.
- `Agent` (`agent.dfy`): the argument map `initialize_model` builds,
  the prompt of `create_chat_prompt`, and `initialise_tools`, which
  runs these steps in order.
- `Config` (`config.dfy`), `Values` (`values.dfy`), `Wrappers` (`wrappers.dfy`):
  the parsed configuration (a missing key is `None`), JSON values, and
  Option/Result.

Inputs from the outside world are explicit parameters:

- the process environment (`os.environ`) is a `map<string, string>`;
- the outcome of one provider's discovery session (start, initialise,
  `list_tools`) is a `Listing`: either the tools of the single page that one
  `list_tools()` call returns, or a `SessionError`;
- one tool-call session is a function from the `CallRequest` to the
  provider's `CallToolResult` or a `SessionError`;
- in `InitialiseTools`, discovery is a function of the descriptor.

Python exceptions are `Failure` values. A missing `mcpServers` or `command`
key gives `MissingKey`, as `KeyError` does. For an unset `PATH`, the model
gives `PathUnset` at the first entry, because the environment would then
hold `None` and building the descriptor raises. With no entries at all the
source never reaches that code, so the model returns an empty list there.

In short, on errors:

- Discovery is fail-fast: the first provider fault aborts start-up, and it
  is returned as it is.
- An unset `PATH` makes building the descriptors raise.
- A provider-reported error raises `ToolException` with the content
  unchanged, and a session fault becomes `SessionFailed`.

## Model

| member | source | states |
|---|---|---|
| `ServerParams.BuildServerParameter` | mcp_client/base.py:103-110 | Rewriting the merged environment (configured entries plus `PATH`) in place, key by key, gives the environment that `LaunchEnv` defines for every key. A missing command or an unset `PATH` gives the matching error. |
| `ServerParams.CreateServerParameters` | mcp_client/base.py:99-112 | Appending one descriptor per entry, in order, returns exactly what `ServerParameters` defines. A missing `mcpServers` key raises, and the first entry that raises aborts. |
| `ServerParams.ServerParametersSucceed` | mcp_client/base.py:101-111 | The build succeeds if and only if every entry has a `command` and, when there is at least one entry, `PATH` is set. |
| `ServerParams.ServerParametersError` | mcp_client/base.py:102-109 | A failed build names its cause. With `PATH` unset, the first entry raises: a missing command if it has none, else the unset `PATH`. With `PATH` set, only a missing command raises. |
| `ServerParams.ServerParametersPointwise` | mcp_client/base.py:101-111 | A successful build has exactly one descriptor per entry, in entry order. Descriptor i is what entry i yields on its own. |
| `ServerParams.CreatedDescriptor` | mcp_client/base.py:103-110 | Descriptor i copies entry i's command verbatim. Its args are the configured list, or `[]` when absent. Its env keys are exactly the configured keys plus `PATH`, and `PATH` is the client's own value. An empty configured value becomes the client's value if the client has one and stays empty otherwise. Non-empty values are unchanged. |
| `McpTools.GetMcpTools` | mcp_client/base.py:76-88 | A failed discovery session raises its fault. Otherwise there is one adapter per listed tool, in listing order. Adapter i has tool i's name, description and input schema and is bound to this provider's descriptor. |
| `McpTools.ConvertMcpToLangchainTools` | mcp_client/base.py:65-73 | Extending one list with each provider's adapters in turn returns exactly `Aggregate`: the concatenation in provider order, or the first fault. |
| `McpTools.AggregateSucceeds` | mcp_client/base.py:69-71 | Aggregation succeeds if and only if every provider's discovery succeeds. |
| `McpTools.AggregateError` | mcp_client/base.py:69-71 | A failed aggregation carries the fault of a provider whose discovery failed. Every provider before that one succeeded. |
| `McpTools.AggregateLength` | mcp_client/base.py:67-73 | A successful aggregation holds as many adapters as all providers listed tools together. None is dropped or merged. |
| `McpTools.AggregateAt` | mcp_client/base.py:67-86 | Tool k of provider p has its own adapter, at position (tools of earlier providers) + k. It has the listed name, description and schema and is bound to provider p's descriptor. Equal names from different providers therefore stay separate. |
| `McpTools.ClassifyResult` | mcp_client/base.py:57-60 | The outcome is a failure if and only if the answer has `isError` set. A failure is a `ToolException` with the answer's content unchanged. Otherwise the content is returned unchanged. |
| `McpTools.ClassifyRoundTrip` | mcp_client/base.py:57-60 | The provider's answer can be recovered from the classified outcome, so classification loses nothing. |
| `McpTools.ArunRoundTrip` | mcp_client/base.py:53-60 | The outcome of a call loses nothing. `Unarun` recovers from it exactly the answer to the adapter's own request (its descriptor, its name, the caller's arguments): the returned content, the reported error's content, or the session fault. |
| `McpTools.ArunDependsOnOwnRequest` | mcp_client/base.py:53-56 | Two sessions that give the same answer to the adapter's own request give the same call outcome, whatever they answer to other requests. |
| `McpTools.AggregatedToolCalls` | mcp_client/base.py:42-56 | Calling the aggregated adapter of tool k of provider p sends that tool's listed name to provider p's descriptor, with the caller's arguments unchanged. |
| `Agent.InitArgs` | mcp_client/base.py:117-125 | Model, provider and temperature are taken from the `llm` section or default to `gpt-4o-mini`, `openai` and 0. Streaming is always true. `api_key` is a key of the map if and only if the configured key is present and non-empty, and then it holds that key. No other key is present. |
| `Agent.SystemPrompt` | mcp_client/base.py:129-138 | For the `rest` client, the prompt is the configured prompt (empty when absent) followed by the fixed JSON-only instruction. For any other client it is the configured prompt unchanged. `ChatPrompt`'s first message is a system message with this prompt, followed by the user's messages and the agent's scratchpad templates. |
| `Agent.InitialiseTools` | mcp_client/base.py:141-154 | A configuration error aborts start-up before any discovery. Otherwise every descriptor is discovered, and the first discovery fault aborts. Otherwise the agent gets exactly the aggregated tools, the model arguments for the `llm` section (an empty one when absent) and the chat prompt. |

## Left out

- `load_server_config` (lines 91-96): file-system check and JSON parsing. The model starts from the parsed file, with JSON values typed as the code uses them. A `null` or a wrongly typed value, which would raise inside pydantic or with `len`, is not modelled.
- `stdio_client`, `ClientSession`, `initialize`, `list_tools`, `call_tool`: starting processes, async I/O and the MCP wire protocol. They are replaced by the `Listing` inputs and the `callTool` function, so session teardown and cancellation are not modelled.
- `jsonschema_to_pydantic` (line 36) and LangChain's check of the arguments against the tool's schema are foreign library code. The adapter keeps the listed input schema verbatim, and schema conversion is treated as total.
- `init_chat_model`, `ChatPromptTemplate.from_messages`, `create_tool_calling_agent`, `AgentExecutor`: library constructors. The model stops at the arguments and the message list passed to them.
- `get_mcp_tools` makes one `list_tools()` call and reads only its `tools`. The pagination cursor (`nextCursor`) is never followed, so a provider that pages its tools contributes only its first page. `AggregateLength` counts the tools of those single pages.
- `McpTool._run` (lines 47-49) only raises `NotImplementedError`.
- `InitArgs`: the truthiness of `api_key` is modelled for strings only: absent or empty means no key. Non-string JSON values are outside the typed configuration.
- `InitialiseTools`: discovery is a function of the descriptor, so two providers with identical descriptors are taken to list the same tools.
- The order of the entries in a provider's `env` dict is not modelled (a map). The result does not depend on it.
