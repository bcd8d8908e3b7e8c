/** Launch descriptors for the configured providers, built from the
    `mcpServers` section and the client's own process environment. */
module ServerParams {
  import opened Wrappers
  import opened Config

  /** The variable that is always copied from the client's environment. */
  const PathVar := "PATH"

  /** How to start one provider process: a command, its arguments and the
      environment it runs with. Never changed once it is built. */
  datatype StdioServerParameters = StdioServerParameters(
    command: string,
    args: seq<string>,
    env: map<string, string>)

  /** Why building the descriptors raised: a required key was missing from
      the file, or `PATH` is not set, so the environment would hold `None`. */
  datatype ConfigError = MissingKey(key: string) | PathUnset

  /** The value an environment entry ends with: an empty value falls back
      to the client's own value of the same variable, when there is one. */
  function Resolved(key: string, value: string, environ: map<string, string>): string {
    if |value| == 0 && key in environ then environ[key] else value
  }

  /** The environment a provider is launched with: every configured
      variable, resolved, plus `PATH` taken from the client's environment. */
  function LaunchEnv(configured: map<string, string>, environ: map<string, string>): map<string, string>
    requires PathVar in environ
  {
    map k | k in configured.Keys + {PathVar} ::
      if k == PathVar then environ[PathVar] else Resolved(k, configured[k], environ)
  }

  /** The descriptor one entry yields, or the error it raises. */
  function ServerParameter(entry: ServerEntry, environ: map<string, string>): Result<StdioServerParameters, ConfigError> {
    if entry.command.None? then Failure(MissingKey("command"))
    else if PathVar !in environ then Failure(PathUnset)
    else Success(StdioServerParameters(
      entry.command.value, entry.args.GetOr([]), LaunchEnv(entry.env.GetOr(map[]), environ)))
  }

  /** The descriptors of a list of entries, or the error of the first entry
      that raises. */
  function ServerParameterList(entries: seq<ServerEntry>, environ: map<string, string>): Result<seq<StdioServerParameters>, ConfigError>
    decreases |entries|
  {
    if entries == [] then Success([])
    else
      match ServerParameterList(entries[..|entries| - 1], environ)
      case Failure(e) => Failure(e)
      case Success(ps) =>
        match ServerParameter(entries[|entries| - 1], environ)
        case Failure(e) => Failure(e)
        case Success(p) => Success(ps + [p])
  }

  /** What `create_server_parameters` returns or raises for a whole file. */
  function ServerParameters(config: ClientConfig, environ: map<string, string>): Result<seq<StdioServerParameters>, ConfigError> {
    match config.mcpServers
    case None => Failure(MissingKey("mcpServers"))
    case Some(entries) => ServerParameterList(entries, environ)
  }

  /** Builds one descriptor as the loop body does: merge `PATH` into the
      configured environment, then rewrite empty entries in place. */
  method BuildServerParameter(entry: ServerEntry, environ: map<string, string>) returns (r: Result<StdioServerParameters, ConfigError>)
    ensures r == ServerParameter(entry, environ)
  {
    if entry.command.None? {
      return Failure(MissingKey("command"));
    }
    if PathVar !in environ {
      return Failure(PathUnset);
    }
    var merged := entry.env.GetOr(map[])[PathVar := environ[PathVar]];
    var env := merged;
    var pending := merged.Keys;
    while pending != {}
      invariant pending <= merged.Keys
      invariant env.Keys == merged.Keys
      invariant forall k :: k in env ==> env[k] == if k in pending then merged[k] else Resolved(k, merged[k], environ)
      decreases pending
    {
      var key :| key in pending;
      if |env[key]| == 0 && key in environ {
        env := env[key := environ[key]];
      }
      pending := pending - {key};
    }
    assert env == LaunchEnv(entry.env.GetOr(map[]), environ);
    r := Success(StdioServerParameters(entry.command.value, entry.args.GetOr([]), env));
  }

  /** `create_server_parameters`: one descriptor per entry, appended in the
      order of the `mcpServers` map; the first entry that raises aborts. */
  method CreateServerParameters(config: ClientConfig, environ: map<string, string>) returns (r: Result<seq<StdioServerParameters>, ConfigError>)
    ensures r == ServerParameters(config, environ)
  {
    if config.mcpServers.None? {
      return Failure(MissingKey("mcpServers"));
    }
    var entries := config.mcpServers.value;
    var parameters: seq<StdioServerParameters> := [];
    var i := 0;
    while i < |entries|
      invariant 0 <= i <= |entries|
      invariant ServerParameterList(entries[..i], environ) == Success(parameters)
    {
      var p := BuildServerParameter(entries[i], environ);
      assert entries[..i + 1][..i] == entries[..i];
      if p.Failure? {
        FailureIsFinal(entries, i + 1, environ);
        return Failure(p.error);
      }
      parameters := parameters + [p.value];
      i := i + 1;
    }
    assert entries[..i] == entries;
    r := Success(parameters);
  }

  /** Once a prefix of the entries raises, so does the whole list, with the
      same error. */
  lemma {:induction false} FailureIsFinal(entries: seq<ServerEntry>, n: nat, environ: map<string, string>)
    requires n <= |entries|
    requires ServerParameterList(entries[..n], environ).Failure?
    ensures ServerParameterList(entries, environ) == ServerParameterList(entries[..n], environ)
    decreases |entries| - n
  {
    if n < |entries| {
      assert entries[..n + 1][..n] == entries[..n];
      FailureIsFinal(entries, n + 1, environ);
    } else {
      assert entries[..n] == entries;
    }
  }

  /** Building succeeds exactly when every entry names a command and, as
      soon as there is one entry, `PATH` is set. */
  lemma {:induction false} ServerParametersSucceed(entries: seq<ServerEntry>, environ: map<string, string>)
    ensures ServerParameterList(entries, environ).Success? <==>
      (forall i :: 0 <= i < |entries| ==> entries[i].command.Some?) && (entries != [] ==> PathVar in environ)
    decreases |entries|
  {
    if entries != [] {
      var init := entries[..|entries| - 1];
      ServerParametersSucceed(init, environ);
      assert forall i :: 0 <= i < |init| ==> init[i] == entries[i];
    }
  }

  /** Which error aborts the build: with `PATH` unset the first entry
      already raises (for its missing command, else for `PATH`); with
      `PATH` set only a missing command can raise. */
  lemma {:induction false} ServerParametersError(entries: seq<ServerEntry>, environ: map<string, string>)
    requires ServerParameterList(entries, environ).Failure?
    ensures entries != []
    ensures ServerParameterList(entries, environ).error ==
      if PathVar in environ || entries[0].command.None? then MissingKey("command") else PathUnset
    decreases |entries|
  {
    var init := entries[..|entries| - 1];
    if ServerParameterList(init, environ).Failure? {
      ServerParametersError(init, environ);
      assert init[0] == entries[0];
    } else if init != [] {
      ServerParametersSucceed(init, environ);
      assert init[0] == entries[0];
    }
  }

  /** A successful build yields one descriptor per entry, in entry order,
      descriptor i being the one entry i yields on its own. */
  lemma {:induction false} ServerParametersPointwise(entries: seq<ServerEntry>, environ: map<string, string>, i: nat)
    requires ServerParameterList(entries, environ).Success?
    requires i < |entries|
    ensures |ServerParameterList(entries, environ).value| == |entries|
    ensures Success(ServerParameterList(entries, environ).value[i]) == ServerParameter(entries[i], environ)
    decreases |entries|
  {
    var init := entries[..|entries| - 1];
    if i < |init| {
      ServerParametersPointwise(init, environ, i);
    } else if init != [] {
      ServerParametersPointwise(init, environ, 0);
    }
  }

  /** Descriptor i of a successful build: the command is copied verbatim,
      missing arguments become the empty list, the environment holds the
      configured variables plus `PATH`, `PATH` is the client's own, and an
      empty configured value falls back to the client's value when it has
      one and stays empty otherwise, while other values are unchanged. */
  lemma CreatedDescriptor(entries: seq<ServerEntry>, environ: map<string, string>, i: nat)
    requires ServerParameterList(entries, environ).Success?
    requires i < |entries|
    ensures |ServerParameterList(entries, environ).value| == |entries|
    ensures PathVar in environ && entries[i].command.Some?
    ensures var d := ServerParameterList(entries, environ).value[i];
            var configured := entries[i].env.GetOr(map[]);
            && d.command == entries[i].command.value
            && (entries[i].args.Some? ==> d.args == entries[i].args.value)
            && (entries[i].args.None? ==> d.args == [])
            && d.env.Keys == configured.Keys + {PathVar}
            && d.env[PathVar] == environ[PathVar]
            && (forall k :: k in configured && k != PathVar && configured[k] == "" && k in environ ==> d.env[k] == environ[k])
            && (forall k :: k in configured && k != PathVar && configured[k] == "" && k !in environ ==> d.env[k] == "")
            && (forall k :: k in configured && k != PathVar && configured[k] != "" ==> d.env[k] == configured[k])
  {
    ServerParametersPointwise(entries, environ, i);
  }
}
