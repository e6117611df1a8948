/** `generate_command` and `main`: client selection from the base URL, the
    two chat messages, the outcome of one generation and what the command
    line prints. The OpenAI client is replaced by two parameters: whether
    constructing it succeeds, and the reply the completion call yields for
    a request (None when the call raises or the content is missing). */
module Generate {
  import opened Wrappers
  import opened Text
  import opened Config
  import opened Prompt
  import opened Sanitizer

  /** The client's keyword arguments and the Anthropic flag the source
      records (and never reads again). */
  datatype ClientSetup = ClientSetup(apiKey: String, baseUrl: Option<String>, isAnthropic: bool)

  /** Anthropic when the lowered base URL mentions "anthropic"; otherwise
      the base URL is passed only when it does not mention "openai", so
      the client's own default endpoint is used for OpenAI URLs. */
  function SelectClient(creds: Credentials): (c: ClientSetup)
    ensures c.apiKey == creds.apiKey
    ensures c.isAnthropic <==> Contains(Lower(creds.baseUrl), "anthropic")
    ensures c.baseUrl == None <==>
      !Contains(Lower(creds.baseUrl), "anthropic") && Contains(Lower(creds.baseUrl), "openai")
    ensures c.baseUrl != None ==> c.baseUrl == Some(creds.baseUrl)
  {
    var url := Lower(creds.baseUrl);
    if Contains(url, "anthropic") then ClientSetup(creds.apiKey, Some(creds.baseUrl), true)
    else if !Contains(url, "openai") then ClientSetup(creds.apiKey, Some(creds.baseUrl), false)
    else ClientSetup(creds.apiKey, None, false)
  }

  /** The dialect test ignores letter case in the URL. */
  lemma SelectClientIgnoresCase(c1: Credentials, c2: Credentials)
    requires SameIgnoringCase(c1.baseUrl, c2.baseUrl)
    ensures SelectClient(c1).isAnthropic == SelectClient(c2).isAnthropic
    ensures SelectClient(c1).baseUrl.None? == SelectClient(c2).baseUrl.None?
  {
    LowerIgnoresCase(c1.baseUrl, c2.baseUrl);
  }

  /** A URL without capitals is tested as written. */
  lemma SelectLowercaseUrl(creds: Credentials)
    requires NoCapitals(creds.baseUrl)
    ensures var c := SelectClient(creds);
      && (c.isAnthropic <==> Contains(creds.baseUrl, "anthropic"))
      && (c.baseUrl == None <==>
            !Contains(creds.baseUrl, "anthropic") && Contains(creds.baseUrl, "openai"))
  {
    LowerKeeps(creds.baseUrl);
  }

  /** Neither default endpoint has a capital letter. */
  lemma DefaultUrlsLowercase(u: String)
    requires u == OpenAiUrl || u == AnthropicUrl
    ensures NoCapitals(u)
  {
  }

  /** The default OpenAI endpoint mentions "openai" but not "anthropic". */
  lemma OpenAiUrlWords(u: String)
    requires u == OpenAiUrl
    ensures Contains(u, "openai") && !Contains(u, "anthropic")
  {
    assert u[12..18] == "openai";
    ContainsAt(u, "openai", 12);
    assert "anthropic"[4] !in u;
    NotContains(u, "anthropic", 4);
  }

  /** The default Anthropic endpoint mentions "anthropic". */
  lemma AnthropicUrlWords(u: String)
    requires u == AnthropicUrl
    ensures Contains(u, "anthropic")
  {
    assert u[12..21] == "anthropic";
    ContainsAt(u, "anthropic", 12);
  }

  /** The default OpenAI endpoint is left to the client's own default. */
  lemma OpenAiDefaultNotPassed(creds: Credentials)
    requires creds.baseUrl == OpenAiUrl
    ensures SelectClient(creds) == ClientSetup(creds.apiKey, None, false)
  {
    DefaultUrlsLowercase(creds.baseUrl);
    OpenAiUrlWords(creds.baseUrl);
    SelectLowercaseUrl(creds);
  }

  /** The default Anthropic endpoint is passed and flagged. */
  lemma AnthropicDefaultPassed(creds: Credentials)
    requires creds.baseUrl == AnthropicUrl
    ensures SelectClient(creds) == ClientSetup(creds.apiKey, Some(AnthropicUrl), true)
  {
    DefaultUrlsLowercase(creds.baseUrl);
    AnthropicUrlWords(creds.baseUrl);
    SelectLowercaseUrl(creds);
  }

  /** Without BASE_URL the endpoint follows the key: an `sk-ant-` key gives
      the Anthropic endpoint, passed explicitly; any other key leaves the
      client on its OpenAI default. */
  lemma DefaultEndpointFollowsKey(env: Env)
    requires Truthy(EnvKey(env)) && !Truthy(env.baseUrl)
    ensures var c := SelectClient(FromEnv(env).value);
      var anthropic := StartsWith(EnvKey(env).value, AnthropicKeyPrefix);
      && (c.isAnthropic <==> anthropic)
      && (c.baseUrl == if anthropic then Some(AnthropicUrl) else None)
  {
    EnvDefaults(env);
    var creds := FromEnv(env).value;
    if StartsWith(EnvKey(env).value, AnthropicKeyPrefix) {
      AnthropicDefaultPassed(creds);
    } else {
      OpenAiDefaultNotPassed(creds);
    }
  }

  /** The instruction placed before the query, summarised in English. */
  const UserPrefix: String := "Turn this instruction into a shell command; reply with the command only:"

  /** The user-role message: the fixed instruction, a blank line, the query. */
  function UserMessage(query: String): (m: String)
    ensures |m| == |UserPrefix| + 2 + |query|
    ensures m[..|UserPrefix|] == UserPrefix
    ensures m[|UserPrefix| + 2..] == query
  {
    UserPrefix + "\n\n" + query
  }

  /** Distinct queries give distinct user messages, and the query is
      always found in its message. */
  lemma UserMessageInjective(q1: String, q2: String)
    ensures UserMessage(q1) == UserMessage(q2) ==> q1 == q2
    ensures Contains(UserMessage(q1), q1)
  {
    var m := UserMessage(q1);
    ContainsAt(m, q1, |UserPrefix| + 2);
  }

  datatype Role = SystemRole | UserRole

  datatype Message = Message(role: Role, content: String)

  /** The completion request; `temperature=0.1` is kept in tenths. */
  datatype ChatRequest = ChatRequest(
    model: Option<String>,
    messages: seq<Message>,
    temperatureTenths: nat,
    maxTokens: nat)

  const TemperatureTenths: nat := 1
  const MaxTokens: nat := 500

  /** The request sent for a query on a given platform and SHELL value. */
  function BuildRequest(model: Option<String>, system: String, shellVar: Option<String>, query: String): (r: ChatRequest)
    ensures r.model == model && r.temperatureTenths == 1 && r.maxTokens == 500
    ensures |r.messages| == 2
    ensures r.messages[0] == Message(SystemRole, SystemPrompt(system, shellVar))
    ensures r.messages[1].role == UserRole && r.messages[1].content == UserMessage(query)
  {
    ChatRequest(model, [Message(SystemRole, SystemPrompt(system, shellVar)), Message(UserRole, UserMessage(query))],
                TemperatureTenths, MaxTokens)
  }

  /** The request carries the query verbatim and names the platform and
      the shell type in the system message. */
  lemma RequestCarriesQuery(model: Option<String>, system: String, shellVar: Option<String>, query: String)
    ensures var r := BuildRequest(model, system, shellVar, query);
      && Contains(r.messages[1].content, query)
      && Contains(r.messages[0].content, system)
      && Contains(r.messages[0].content, ShellTypeOf(system, ShellString(system, shellVar)).Name())
  {
    UserMessageInjective(query, query);
    PromptNamesPlatformAndShell(system, shellVar);
  }

  /** Everything outside the process that a run depends on: the config
      file, the environment after `.env` loading, the platform name and
      SHELL. */
  datatype Host = Host(file: ConfigFile, env: Environment, system: String, shellVar: Option<String>)

  /** Where a generation stopped with a printed error and `None`. */
  datatype Stage = ConfigLoad | ClientInit | ApiCall

  datatype Outcome =
    | MissingKeyExit        // `sys.exit(1)` inside `load_api_config`, not caught
    | Failed(stage: Stage)  // an error message and `None`
    | Produced(command: String)

  /** `generate_command`: resolve the configuration, set up the client,
      send the request and clean the reply. */
  function GenerateCommand(query: String, host: Host, clientOk: ClientSetup -> bool,
                           api: (ClientSetup, ChatRequest) -> Option<String>): (o: Outcome)
    ensures o == MissingKeyExit <==> LoadApiConfig(host.file, host.env) == Failure(MissingApiKey)
    ensures o == Failed(ConfigLoad) <==>
      host.file.Undecodable? || (host.file.Sections? && !Complete(host.file) && host.env.DotEnvFailed?)
    ensures LoadApiConfig(host.file, host.env).Success? ==>
      var creds := LoadApiConfig(host.file, host.env).value;
      var client := SelectClient(creds);
      var reply := api(client, BuildRequest(creds.model, host.system, host.shellVar, query));
      && (o == Failed(ClientInit) <==> !clientOk(client))
      && (o == Failed(ApiCall) <==> clientOk(client) && reply.None?)
      && (o.Produced? <==> clientOk(client) && reply.Some?)
      && (o.Produced? ==> o.command == Sanitize(reply.value))
  {
    match LoadApiConfig(host.file, host.env)
    case Failure(MissingApiKey) => MissingKeyExit
    case Failure(LoadFailed) => Failed(ConfigLoad)
    case Success(creds) =>
      var client := SelectClient(creds);
      if !clientOk(client) then Failed(ClientInit)
      else
        match api(client, BuildRequest(creds.model, host.system, host.shellVar, query))
        case None => Failed(ApiCall)
        case Some(reply) => Produced(Sanitize(reply))
  }

  /** A produced command is one contiguous piece of the reply: the
      clean-up only removes text, it never adds any. */
  lemma ProducedFromReply(query: String, host: Host, clientOk: ClientSetup -> bool,
                          api: (ClientSetup, ChatRequest) -> Option<String>)
    requires GenerateCommand(query, host, clientOk, api).Produced?
    ensures var creds := LoadApiConfig(host.file, host.env).value;
      var reply := api(SelectClient(creds), BuildRequest(creds.model, host.system, host.shellVar, query));
      && reply.Some?
      && exists lo, hi :: 0 <= lo <= hi <= |reply.value| &&
           GenerateCommand(query, host, clientOk, api).command == reply.value[lo..hi]
  {
    var creds := LoadApiConfig(host.file, host.env).value;
    var reply := api(SelectClient(creds), BuildRequest(creds.model, host.system, host.shellVar, query));
    var lo, hi := SanitizedIsSlice(reply.value);
  }

  /** One line of output. Error lines stand for the printed messages, whose
      exception text is not modelled. */
  datatype Line =
    | Usage
    | Command(text: String)
    | CannotGenerate
    | MissingKeyError
    | StageError(stage: Stage)

  /** What a run prints, and its exit status. */
  datatype Run = Run(output: seq<Line>, exitCode: int)

  /** The query: the arguments after the program name joined by spaces. */
  function Query(args: seq<String>): (q: String)
    requires |args| >= 1
    ensures |args| == 1 ==> q == args[0]
  {
    Join(args, ' ')
  }

  /** `main`, given the arguments after the program name. */
  function RunCli(args: seq<String>, host: Host, clientOk: ClientSetup -> bool,
                  api: (ClientSetup, ChatRequest) -> Option<String>): (run: Run)
    ensures run.exitCode == 1 <==>
      |args| > 0 && LoadApiConfig(host.file, host.env) == Failure(MissingApiKey)
    ensures run.exitCode == 0 || run.exitCode == 1
    ensures |args| == 0 <==> run.output == [Usage]
    ensures |run.output| >= 1
    ensures forall i :: 0 <= i < |run.output| && run.output[i].Command? ==>
      && run.output == [run.output[i]] && run.output[i].text != ""
      && GenerateCommand(Query(args), host, clientOk, api) == Produced(run.output[i].text)
    ensures |args| > 0 && run.exitCode == 0 ==>
      (run.output[|run.output| - 1] == CannotGenerate <==> !run.output[0].Command?)
    ensures |args| > 0 ==>
      var g := GenerateCommand(Query(args), host, clientOk, api);
      && (g.Produced? && g.command != "" ==> run.output == [Command(g.command)])
      && (g.Produced? && g.command == "" ==> run.output == [CannotGenerate])
      && (g == MissingKeyExit ==> run.output == [MissingKeyError])
      && (g.Failed? ==> run.output == [StageError(g.stage), CannotGenerate])
  {
    if |args| == 0 then Run([Usage], 0)
    else
      match GenerateCommand(Query(args), host, clientOk, api)
      case MissingKeyExit => Run([MissingKeyError], 1)
      case Failed(stage) => Run([StageError(stage), CannotGenerate], 0)
      case Produced(command) =>
        if command != "" then Run([Command(command)], 0) else Run([CannotGenerate], 0)
  }

  /** With no arguments only the usage line is printed, whatever the host
      and the service would have done. */
  lemma UsageIgnoresHost(h1: Host, h2: Host, ok1: ClientSetup -> bool, ok2: ClientSetup -> bool,
                         api1: (ClientSetup, ChatRequest) -> Option<String>,
                         api2: (ClientSetup, ChatRequest) -> Option<String>)
    ensures RunCli([], h1, ok1, api1) == RunCli([], h2, ok2, api2) == Run([Usage], 0)
  {
  }

  /** A reply that cleans up to nothing reports failure, with status 0. */
  lemma EmptyCommandReported(args: seq<String>, host: Host, clientOk: ClientSetup -> bool,
                             api: (ClientSetup, ChatRequest) -> Option<String>)
    requires |args| > 0 && GenerateCommand(Query(args), host, clientOk, api) == Produced("")
    ensures RunCli(args, host, clientOk, api) == Run([CannotGenerate], 0)
  {
  }

  /** A reply that cleans up to a non-empty command has that command
      printed, alone, with status 0; it is a piece of the reply. */
  lemma CommandPrinted(args: seq<String>, host: Host, clientOk: ClientSetup -> bool,
                       api: (ClientSetup, ChatRequest) -> Option<String>)
    requires |args| > 0
    requires GenerateCommand(Query(args), host, clientOk, api).Produced?
    requires GenerateCommand(Query(args), host, clientOk, api).command != ""
    ensures var cmd := GenerateCommand(Query(args), host, clientOk, api).command;
      RunCli(args, host, clientOk, api) == Run([Command(cmd)], 0)
    ensures var creds := LoadApiConfig(host.file, host.env).value;
      var reply := api(SelectClient(creds), BuildRequest(creds.model, host.system, host.shellVar, Query(args)));
      && reply.Some?
      && exists lo, hi :: 0 <= lo <= hi <= |reply.value| &&
           RunCli(args, host, clientOk, api).output[0].text == reply.value[lo..hi]
  {
    ProducedFromReply(Query(args), host, clientOk, api);
  }

  /** Arguments without spaces are recovered by splitting the query. */
  lemma QueryKeepsArguments(args: seq<String>)
    requires |args| >= 1 && forall i :: 0 <= i < |args| ==> ' ' !in args[i]
    ensures Split(Query(args), ' ') == args
  {
    SplitJoin(args, ' ');
  }

  /** `list all files` typed as three words is sent as one query. */
  lemma QueryExample(args: seq<String>)
    requires args == ["list", "all", "files"]
    ensures Query(args) == "list all files"
  {
    assert Join(args[2..], ' ') == "files";
    assert Join(args[1..], ' ') == "all" + " " + "files";
  }
}
