/** The client's configuration file once parsed: the `mcpServers` map, the
    optional system prompt and the optional `llm` section. A key that the
    file leaves out is `None`. */
module Config {
  import opened Wrappers

  /** One value of the `mcpServers` map: how to launch one provider. */
  datatype ServerEntry = ServerEntry(
    command: Option<string>,
    args: Option<seq<string>>,
    env: Option<map<string, string>>)

  /** The `llm` section: which chat model to start and how. */
  datatype LlmConfig = LlmConfig(
    model: Option<string>,
    provider: Option<string>,
    temperature: Option<real>,
    apiKey: Option<string>)

  /** The whole file. `mcpServers` lists the map's values in the map's
      own (insertion) order; the server names are never read. */
  datatype ClientConfig = ClientConfig(
    mcpServers: Option<seq<ServerEntry>>,
    systemPrompt: Option<string>,
    llm: Option<LlmConfig>)
}
