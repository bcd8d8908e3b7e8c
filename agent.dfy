/** The values the client hands to the chat-model and agent libraries: the
    model's start-up arguments, the prompt's messages, and the start-up
    sequence that builds both beside the aggregated tools. */
module Agent {
  import opened Wrappers
  import opened Config
  import opened ServerParams
  import opened McpTools

  const DefaultModel := "gpt-4o-mini"
  const DefaultProvider := "openai"
  const DefaultTemperature: real := 0.0

  /** The client whose answers must be plain JSON. */
  const RestClient := "rest"

  /** Appended to the system prompt for the REST client. */
  const JsonOnlySuffix := "\nGive the output in the json format only. Please do not include json formatting. Give plain json output."

  /** A value of the chat model's start-up arguments. */
  datatype ArgValue = Str(s: string) | Num(n: real) | Flag(b: bool)

  /** One message template of the chat prompt: a role and its text. */
  datatype Message = Message(role: string, template: string)

  /** An API key is passed on only when it is present and not empty. */
  predicate HasApiKey(llm: LlmConfig) {
    llm.apiKey.Some? && llm.apiKey.value != ""
  }

  /** The start-up arguments `initialize_model` passes for `llm`: the model,
      provider and temperature given there or their defaults, streaming
      always on, and the API key exactly when `llm` has a non-empty one. */
  ghost predicate ModelArgsFor(llm: LlmConfig, args: map<string, ArgValue>) {
    && args.Keys == {"model", "model_provider", "temperature", "streaming"} + (if HasApiKey(llm) then {"api_key"} else {})
    && (llm.model.Some? ==> args["model"] == Str(llm.model.value))
    && (llm.model.None? ==> args["model"] == Str(DefaultModel))
    && (llm.provider.Some? ==> args["model_provider"] == Str(llm.provider.value))
    && (llm.provider.None? ==> args["model_provider"] == Str(DefaultProvider))
    && (llm.temperature.Some? ==> args["temperature"] == Num(llm.temperature.value))
    && (llm.temperature.None? ==> args["temperature"] == Num(DefaultTemperature))
    && args["streaming"] == Flag(true)
    && (HasApiKey(llm) ==> args["api_key"] == Str(llm.apiKey.value))
  }

  /** The argument construction of `initialize_model`: a fixed set of four
      arguments, and the API key inserted afterwards when there is one. */
  method InitArgs(llm: LlmConfig) returns (args: map<string, ArgValue>)
    ensures ModelArgsFor(llm, args)
  {
    var apiKey := llm.apiKey;
    args := map[
      "model" := Str(llm.model.GetOr(DefaultModel)),
      "model_provider" := Str(llm.provider.GetOr(DefaultProvider)),
      "temperature" := Num(llm.temperature.GetOr(DefaultTemperature)),
      "streaming" := Flag(true)];
    if apiKey.Some? && |apiKey.value| != 0 {
      args := args["api_key" := Str(apiKey.value)];
    }
  }

  /** The system prompt of `create_chat_prompt`: the configured prompt (empty
      when there is none), followed for the REST client by the JSON-only
      instruction and otherwise left as it is. */
  function SystemPrompt(client: string, config: ClientConfig): (prompt: string)
    ensures var configured := config.systemPrompt.GetOr("");
            && (client == RestClient ==>
                  && |prompt| == |configured| + |JsonOnlySuffix|
                  && prompt[..|configured|] == configured
                  && prompt[|configured|..] == JsonOnlySuffix)
            && (client != RestClient ==> prompt == configured)
  {
    var configured := config.systemPrompt.GetOr("");
    if client == RestClient then configured + JsonOnlySuffix else configured
  }

  /** The messages of the chat prompt: the system prompt, then the user's
      messages, then the agent's scratchpad. */
  function ChatPrompt(client: string, config: ClientConfig): seq<Message>
  {
    [Message("system", SystemPrompt(client, config)),
     Message("user", "{messages}"),
     Message("placeholder", "{agent_scratchpad}")]
  }

  /** What the agent is built from: the tools, the model's arguments and
      the prompt. */
  datatype AgentSetup = AgentSetup(tools: seq<McpTool>, modelArgs: map<string, ArgValue>, prompt: seq<Message>)

  /** Why start-up raised: the configuration, or a provider's discovery. */
  datatype StartupError = ConfigFailed(config: ConfigError) | DiscoveryFailed(session: SessionError)

  /** The `llm` section, an empty one when the file has none. */
  function LlmSection(config: ClientConfig): LlmConfig {
    config.llm.GetOr(LlmConfig(None, None, None, None))
  }

  /** The listings `discover` yields for the descriptors, in order. */
  function Discovered(servers: seq<StdioServerParameters>, discover: StdioServerParameters -> Listing): seq<Listing>
  {
    seq(|servers|, i requires 0 <= i < |servers| => discover(servers[i]))
  }

  /** `initialise_tools` on an already loaded file: descriptors first, then
      discovery of every provider (`discover` stands for one discovery
      session), then the model's arguments and the prompt. The first error
      aborts start-up; nothing after it is built. */
  method InitialiseTools(client: string, config: ClientConfig, environ: map<string, string>, discover: StdioServerParameters -> Listing)
    returns (r: Result<AgentSetup, StartupError>)
    ensures ServerParameters(config, environ).Failure? ==>
      r == Failure(ConfigFailed(ServerParameters(config, environ).error))
    ensures ServerParameters(config, environ).Success? ==>
      var servers := ServerParameters(config, environ).value;
      var tools := Aggregate(servers, Discovered(servers, discover));
      && (tools.Failure? ==> r == Failure(DiscoveryFailed(tools.error)))
      && (tools.Success? ==>
            && r.Success?
            && r.value.tools == tools.value
            && ModelArgsFor(LlmSection(config), r.value.modelArgs)
            && r.value.prompt == ChatPrompt(client, config))
  {
    var servers := CreateServerParameters(config, environ);
    if servers.Failure? {
      return Failure(ConfigFailed(servers.error));
    }
    var tools := ConvertMcpToLangchainTools(servers.value, Discovered(servers.value, discover));
    if tools.Failure? {
      return Failure(DiscoveryFailed(tools.error));
    }
    var modelArgs := InitArgs(LlmSection(config));
    r := Success(AgentSetup(tools.value, modelArgs, ChatPrompt(client, config)));
  }
}
