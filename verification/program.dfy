/**
 * The command-line host: flag parsing, the choice of tool source, agent and
 * rendering, the start-up sequence, and the read-eval loop.
 */
module Cli {
  import opened Wrappers
  import opened Text
  import opened LlmConfig
  import opened McpConfig
  import opened Providers
  import opened Chat
  import A2UIFridge
  import SmartFridge
  import Zomato
  import Swiggy

  // ---------------------------------------------------------------------------
  // Flags

  datatype Flags = Flags(
    useA2UI: bool,
    useZomato: bool,
    useSwiggy: bool,
    useSwiggyInstamart: bool,
    useSwiggyDineout: bool)

  /** The flags that switch from the local plugin to a remote tool server. */
  const ServiceFlags: set<string> := {"--zomato", "--swiggy", "--swiggy-instamart", "--swiggy-dineout"}

  /**
   * Each flag is an exact, case-sensitive membership test on the arguments.
   * Remote tools are used exactly when a service flag is present, and A2UI
   * mode exactly when `--text` is absent.
   */
  function ParseFlags(args: seq<string>): (f: Flags)
    ensures UseMcp(f) <==> exists flag :: flag in args && flag in ServiceFlags
    ensures f.useA2UI <==> "--text" !in args
  {
    Flags(
      "--text" !in args,
      "--zomato" in args,
      "--swiggy" in args,
      "--swiggy-instamart" in args,
      "--swiggy-dineout" in args)
  }

  predicate UseAnySwiggy(f: Flags) {
    f.useSwiggy || f.useSwiggyInstamart || f.useSwiggyDineout
  }

  predicate UseMcp(f: Flags) {
    f.useZomato || UseAnySwiggy(f)
  }

  /**
   * Only which strings occur matters: neither the order of the arguments nor
   * repetitions change the flags.
   */
  lemma FlagsDependOnlyOnMembership(args: seq<string>, other: seq<string>)
    requires forall x :: x in args <==> x in other
    ensures ParseFlags(args) == ParseFlags(other)
  {
  }

  /** The flags are matched case-sensitively: `--TEXT` is not `--text`, and an empty command line is A2UI mode without remote tools. */
  lemma FlagsAreCaseSensitive()
    ensures ParseFlags(["--TEXT", "--Zomato"]) == ParseFlags([])
    ensures ParseFlags([]).useA2UI && !UseMcp(ParseFlags([]))
  {
    assert "--text" != "--TEXT" by { assert "--text"[2] != "--TEXT"[2]; }
    assert "--zomato" != "--Zomato" by { assert "--zomato"[2] != "--Zomato"[2]; }
  }

  // ---------------------------------------------------------------------------
  // Tool source

  /** The Swiggy service the flags pick: Instamart, then Dineout, then Food. */
  function SelectSwiggyService(f: Flags): (s: Swiggy.SwiggyService)
    ensures Swiggy.IsDeclared(s)
    ensures s == Swiggy.Instamart <==> f.useSwiggyInstamart
    ensures s == Swiggy.Dineout <==> !f.useSwiggyInstamart && f.useSwiggyDineout
    ensures s == Swiggy.Food <==> !f.useSwiggyInstamart && !f.useSwiggyDineout
  {
    if f.useSwiggyInstamart then Swiggy.Instamart
    else if f.useSwiggyDineout then Swiggy.Dineout
    else Swiggy.Food
  }

  /** The remote tool server to connect to: where, under which name, with which token. */
  datatype McpServer = McpServer(endpoint: string, name: string, accessToken: Option<string>)

  /** The Swiggy endpoint configured for a service. */
  function SwiggyEndpoint(settings: SwiggyMcpSettings, service: Swiggy.SwiggyService): string
    requires Swiggy.IsDeclared(service)
  {
    if service == Swiggy.Instamart then settings.instamartEndpoint
    else if service == Swiggy.Dineout then settings.dineoutEndpoint
    else settings.foodEndpoint
  }

  /**
   * The tool-source choice. Zomato wins over every Swiggy flag and brings its
   * own endpoint, name and token. Otherwise the Swiggy token is used with the
   * endpoint of the service the flags pick, under the same name the Swiggy
   * agent for that service carries.
   */
  function SelectMcpServer(f: Flags, mcp: McpSettings): (s: McpServer)
    ensures f.useZomato ==> s == McpServer(mcp.zomato.endpoint, mcp.zomato.name, mcp.zomato.accessToken)
    ensures !f.useZomato ==>
      && s.accessToken == mcp.swiggy.accessToken
      && s.endpoint == SwiggyEndpoint(mcp.swiggy, SelectSwiggyService(f))
      && s.name == Swiggy.NameFor(SelectSwiggyService(f))
  {
    if f.useZomato then
      McpServer(mcp.zomato.endpoint, mcp.zomato.name, mcp.zomato.accessToken)
    else if f.useSwiggyInstamart then
      McpServer(mcp.swiggy.instamartEndpoint, "SwiggyInstamart", mcp.swiggy.accessToken)
    else if f.useSwiggyDineout then
      McpServer(mcp.swiggy.dineoutEndpoint, "SwiggyDineout", mcp.swiggy.accessToken)
    else
      McpServer(mcp.swiggy.foodEndpoint, "SwiggyFood", mcp.swiggy.accessToken)
  }

  /** The Zomato `Enabled` setting is never consulted. */
  lemma ZomatoEnabledIgnored(f: Flags, mcp: McpSettings, enabled: bool)
    ensures SelectMcpServer(f, mcp.(zomato := mcp.zomato.(enabled := enabled))) == SelectMcpServer(f, mcp)
  {
  }

  /**
   * With the default settings: Zomato has an empty endpoint, each Swiggy
   * service its public endpoint, and no server is sent a token.
   */
  lemma DefaultServers(f: Flags)
    ensures var s := SelectMcpServer(f, DefaultMcpSettings);
      && AuthHeaders(s.accessToken) == None
      && (f.useZomato ==> s == McpServer("", "Zomato", None))
      && (!f.useZomato && f.useSwiggyInstamart ==>
            s == McpServer("https://mcp.swiggy.com/im", "SwiggyInstamart", None))
      && (!f.useZomato && !f.useSwiggyInstamart && f.useSwiggyDineout ==>
            s == McpServer("https://mcp.swiggy.com/dineout", "SwiggyDineout", None))
      && (!f.useZomato && !f.useSwiggyInstamart && !f.useSwiggyDineout ==>
            s == McpServer("https://mcp.swiggy.com/food", "SwiggyFood", None))
  {
  }

  const AuthorizationHeader: string := "Authorization"
  const BearerPrefix: string := "Bearer "

  /**
   * The extra transport headers: none for a null or empty token, otherwise
   * exactly one, `Authorization`, whose value is the token behind `Bearer `.
   */
  function AuthHeaders(accessToken: Option<string>): (r: Option<map<string, string>>)
    ensures r.Some? <==> !IsNullOrEmpty(accessToken)
    ensures r.Some? ==>
      && r.value.Keys == {AuthorizationHeader}
      && |r.value[AuthorizationHeader]| == |BearerPrefix| + |accessToken.value|
      && r.value[AuthorizationHeader][..|BearerPrefix|] == BearerPrefix
      && r.value[AuthorizationHeader][|BearerPrefix|..] == accessToken.value
  {
    if IsNullOrEmpty(accessToken) then None
    else Some(map[AuthorizationHeader := BearerPrefix + accessToken.value])
  }

  /** Different tokens give different headers: the server receives the token unaltered. */
  lemma AuthHeadersInjective(t: Option<string>, u: Option<string>)
    requires !IsNullOrEmpty(t) && AuthHeaders(t) == AuthHeaders(u)
    ensures t == u
  {
    var v := AuthHeaders(t).value[AuthorizationHeader];
    assert t.value == v[|BearerPrefix|..] == u.value;
  }

  // ---------------------------------------------------------------------------
  // Agent selection and rendering

  datatype AgentKind = ZomatoKind | SwiggyKind(service: Swiggy.SwiggyService) | A2UIFridgeKind | SmartFridgeKind

  /** The agent priority: Zomato, then any Swiggy flag, then A2UI unless `--text`, then plain text. */
  function SelectAgent(f: Flags): (k: AgentKind)
    ensures k == ZomatoKind <==> f.useZomato
    ensures k.SwiggyKind? <==> !f.useZomato && UseAnySwiggy(f)
    ensures k.SwiggyKind? ==> k.service == SelectSwiggyService(f)
    ensures k == A2UIFridgeKind <==> !UseMcp(f) && f.useA2UI
    ensures k == SmartFridgeKind <==> !UseMcp(f) && !f.useA2UI
  {
    if f.useZomato then ZomatoKind
    else if UseAnySwiggy(f) then
      SwiggyKind(if f.useSwiggyInstamart then Swiggy.Instamart
                 else if f.useSwiggyDineout then Swiggy.Dineout
                 else Swiggy.Food)
    else if f.useA2UI then A2UIFridgeKind
    else SmartFridgeKind
  }

  /** The name of the agent of a kind. */
  function AgentName(k: AgentKind): string
    requires k.SwiggyKind? ==> Swiggy.IsDeclared(k.service)
  {
    match k
    case ZomatoKind => Zomato.AgentName
    case SwiggyKind(s) => Swiggy.NameFor(s)
    case A2UIFridgeKind => A2UIFridge.AgentName
    case SmartFridgeKind => SmartFridge.AgentName
  }

  /** The system prompt the agent of a kind starts its history with. */
  function AgentSystemPrompt(k: AgentKind): string
    requires k.SwiggyKind? ==> Swiggy.IsDeclared(k.service)
  {
    match k
    case ZomatoKind => Zomato.SystemPrompt
    case SwiggyKind(s) => Swiggy.GetSystemPrompt(s).value
    case A2UIFridgeKind => A2UIFridge.SystemPrompt
    case SmartFridgeKind => SmartFridge.SystemPrompt
  }

  /**
   * Answers are split into text and A2UI JSON in A2UI mode without remote
   * tools, which is exactly when the A2UI agent is the one selected.
   */
  predicate ShouldParse(f: Flags): (b: bool)
    ensures b <==> SelectAgent(f) == A2UIFridgeKind
  {
    f.useA2UI && !UseMcp(f)
  }

  /**
   * The agent and the tool source agree: the fridge plugin is registered
   * exactly for the two fridge agents, and a Swiggy agent carries the name of
   * the tool server it talks to.
   */
  lemma AgentMatchesTools(f: Flags, mcp: McpSettings)
    ensures !UseMcp(f) <==> SelectAgent(f) in {A2UIFridgeKind, SmartFridgeKind}
    ensures SelectAgent(f).SwiggyKind? ==> AgentName(SelectAgent(f)) == SelectMcpServer(f, mcp).name
  {
  }

  /** `GetModelId`: the chosen provider's model, or `unknown` for a name no provider answers to. */
  function GetModelId(settings: LlmSettings): (r: string)
    ensures ProviderNamed(settings.defaultProvider) == Some(OpenAI) ==> r == settings.openAi.modelId
    ensures ProviderNamed(settings.defaultProvider) == Some(Gemini) ==> r == settings.gemini.modelId
    ensures ProviderNamed(settings.defaultProvider).None? ==> r == "unknown"
  {
    var lower := ToLowerAscii(settings.defaultProvider);
    assert ToLowerAscii("openai") == "openai" && ToLowerAscii("gemini") == "gemini";
    if lower == "openai" then settings.openAi.modelId
    else if lower == "gemini" then settings.gemini.modelId
    else "unknown"
  }

  /** The model shown in the header is the model that was registered. */
  lemma ModelIdIsRegisteredModel(builder: KernelBuilder, settings: LlmSettings)
    requires AddLlmProvider(builder, settings).Ok?
    ensures GetModelId(settings) == LastService(AddLlmProvider(builder, settings).value).modelId
  {
  }

  /** With the default settings the header shows `gpt-4o`, or `gemini-2.0-flash` once Gemini is chosen. */
  lemma DefaultModelIds()
    ensures GetModelId(DefaultLlmSettings) == "gpt-4o"
    ensures GetModelId(DefaultLlmSettings.(defaultProvider := "gemini")) == "gemini-2.0-flash"
  {
    assert ToLowerAscii("OpenAI") == "openai";
    assert ToLowerAscii("gemini") == "gemini";
  }

  // ---------------------------------------------------------------------------
  // Start-up

  /** Where the agent's tools come from, and the transport headers for remote ones. */
  datatype ToolSource = LocalPlugin | McpTools(server: McpServer, headers: Option<map<string, string>>)

  /** What start-up settles before the first prompt. */
  datatype Plan = Plan(builder: KernelBuilder, tools: ToolSource, agent: AgentKind, parseResponses: bool)

  /**
   * The top-level sequence: flags, provider registration (whose failure ends
   * the program before anything else), the tool source, the agent, and
   * whether answers are split. Connecting to the server is not modelled.
   */
  method Startup(args: seq<string>, llm: LlmSettings, mcp: McpSettings) returns (r: Result<Plan, ConfigError>)
    ensures r.Err? <==> AddLlmProvider(EmptyBuilder, llm).Err?
    ensures r.Err? ==> r.error == AddLlmProvider(EmptyBuilder, llm).error
    ensures r.Ok? ==> var f, p := ParseFlags(args), r.value;
      && p.builder == AddLlmProvider(EmptyBuilder, llm).value
      && (p.tools.LocalPlugin? <==> !UseMcp(f))
      && (p.tools.McpTools? ==> p.tools.server == SelectMcpServer(f, mcp))
      && (p.tools.McpTools? ==> p.tools.headers == AuthHeaders(p.tools.server.accessToken))
      && p.agent == SelectAgent(f)
      && (p.parseResponses <==> p.agent == A2UIFridgeKind)
  {
    var useA2UI := "--text" !in args;
    var useZomato := "--zomato" in args;
    var useSwiggy := "--swiggy" in args;
    var useSwiggyInstamart := "--swiggy-instamart" in args;
    var useSwiggyDineout := "--swiggy-dineout" in args;
    var useAnySwiggy := useSwiggy || useSwiggyInstamart || useSwiggyDineout;
    var useMcp := useZomato || useAnySwiggy;

    var registered := AddLlmProvider(EmptyBuilder, llm);
    if registered.Err? {
      return Err(registered.error);
    }

    var tools: ToolSource;
    if useMcp {
      var endpoint: string;
      var name: string;
      var accessToken: Option<string>;
      if useZomato {
        endpoint := mcp.zomato.endpoint;
        name := mcp.zomato.name;
        accessToken := mcp.zomato.accessToken;
      } else {
        accessToken := mcp.swiggy.accessToken;
        if useSwiggyInstamart {
          endpoint := mcp.swiggy.instamartEndpoint;
          name := "SwiggyInstamart";
        } else if useSwiggyDineout {
          endpoint := mcp.swiggy.dineoutEndpoint;
          name := "SwiggyDineout";
        } else {
          endpoint := mcp.swiggy.foodEndpoint;
          name := "SwiggyFood";
        }
      }
      tools := McpTools(McpServer(endpoint, name, accessToken), AuthHeaders(accessToken));
    } else {
      tools := LocalPlugin;
    }

    var agent: AgentKind;
    if useZomato {
      agent := ZomatoKind;
    } else if useAnySwiggy {
      var service := if useSwiggyInstamart then Swiggy.Instamart
        else if useSwiggyDineout then Swiggy.Dineout
        else Swiggy.Food;
      agent := SwiggyKind(service);
    } else if useA2UI {
      agent := A2UIFridgeKind;
    } else {
      agent := SmartFridgeKind;
    }

    r := Ok(Plan(registered.value, tools, agent, useA2UI && !useMcp));
  }

  // ---------------------------------------------------------------------------
  // The read loop

  /** What the loop does with one line read from the console (`None` for end of input). */
  datatype InputAction = Skip | Exit | Send(prompt: string)

  /**
   * Blank lines and end of input are skipped; `exit` in any letter case ends
   * the loop; any other line goes to the agent as typed, untrimmed.
   */
  function ClassifyInput(input: Option<string>): (a: InputAction)
    ensures a == Skip <==> IsNullOrWhiteSpace(input)
    ensures a == Exit <==> !IsNullOrWhiteSpace(input) && EqualsIgnoreCase(input.value, "exit")
    ensures a.Send? ==> input == Some(a.prompt)
  {
    if IsNullOrWhiteSpace(input) then Skip
    else if EqualsIgnoreCase(input.value, "exit") then Exit
    else Send(input.value)
  }

  /** `EXIT` ends the loop, ` exit` (with a leading space) is sent to the agent, and end of input is skipped. */
  lemma ExitIsExact()
    ensures ClassifyInput(Some("EXIT")) == Exit
    ensures ClassifyInput(Some(" exit")) == Send(" exit")
    ensures ClassifyInput(None) == Skip
  {
    var upper, spaced := "EXIT", " exit";
    assert !IsWhiteSpace(upper[0]) && !IsWhiteSpace(spaced[1]);
    assert ToLowerAscii(upper) == "exit" == ToLowerAscii("exit");
    assert |ToLowerAscii(spaced)| != |ToLowerAscii("exit")|;
  }

  /** What the loop prints for one answer. */
  datatype Output =
    | Plain(text: string)
    | Rendered(text: string, json: Option<string>)  // the JSON block only when non-empty
    | Error(message: string)

  /**
   * One answer as shown: verbatim, or split at the A2UI delimiter with the
   * JSON block shown only when it is non-empty; a thrown call shows its
   * message.
   */
  function Show(parse: bool, reply: Result<string, string>): (o: Output)
    ensures reply.Err? <==> o.Error?
    ensures reply.Err? ==> o.message == reply.error
    ensures reply.Ok? && !parse ==> o == Plain(reply.value)
    ensures reply.Ok? && parse ==> var split := A2UIFridge.ParseResponse(reply.value);
      && o.Rendered?
      && o.text == split.conversationalText
      && (o.json.Some? <==> !IsNullOrEmpty(split.a2uiJson))
      && (o.json.Some? ==> o.json == split.a2uiJson)
  {
    match reply
    case Err(message) => Error(message)
    case Ok(response) =>
      if parse then
        var split := A2UIFridge.ParseResponse(response);
        Rendered(split.conversationalText, if IsNullOrEmpty(split.a2uiJson) then None else split.a2uiJson)
      else Plain(response)
  }

  /** The text shown in A2UI mode never contains the delimiter. */
  lemma ShownTextHasNoDelimiter(response: string)
    ensures !Contains(Show(true, Ok(response)).text, A2UIFridge.Delimiter)
  {
    A2UIFridge.TextNeverContainsDelimiter(response);
  }

  /** The history at the end of the loop, what it printed, and whether it ended by `exit`. */
  datatype Transcript = Transcript(history: seq<Turn>, outputs: seq<Output>, exited: bool)

  /**
   * The loop over the lines read, as a function of the agent's history. The
   * history only grows, and at most one answer is printed per line read.
   */
  function Session(parse: bool, h: seq<Turn>, inputs: seq<Option<string>>, backend: Backend): (t: Transcript)
    ensures |h| <= |t.history| && t.history[..|h|] == h
    ensures |t.outputs| <= |inputs|
    ensures |t.history| <= |h| + 2 * |inputs|
    decreases |inputs|
  {
    if inputs == [] then Transcript(h, [], false)
    else
      match ClassifyInput(inputs[0])
      case Skip => Session(parse, h, inputs[1..], backend)
      case Exit => Transcript(h, [], true)
      case Send(prompt) =>
        var e := Step(h, prompt, backend);
        var rest := Session(parse, e.history, inputs[1..], backend);
        Transcript(rest.history, [Show(parse, e.reply)] + rest.outputs, rest.exited)
  }

  /** `rest`, with `outputs` printed before it. */
  function After(outputs: seq<Output>, rest: Transcript): Transcript {
    Transcript(rest.history, outputs + rest.outputs, rest.exited)
  }

  /**
   * The read loop, over the lines the console delivers, on the agent's
   * history: each sent line is one exchange with the agent, and a failed
   * exchange is shown as an error without ending the loop.
   */
  method ReadLoop(parse: bool, h: seq<Turn>, inputs: seq<Option<string>>, backend: Backend) returns (t: Transcript)
    ensures t == Session(parse, h, inputs, backend)
  {
    var history := h;
    var outputs: seq<Output> := [];
    var exited := false;
    var i := 0;
    while i < |inputs| && !exited
      invariant 0 <= i <= |inputs|
      invariant !exited ==> Session(parse, h, inputs, backend) == After(outputs, Session(parse, history, inputs[i..], backend))
      invariant exited ==> Session(parse, h, inputs, backend) == Transcript(history, outputs, true)
      decreases |inputs| - i, !exited
    {
      SessionUnfolds(parse, outputs, history, inputs, i, backend);
      match ClassifyInput(inputs[i])
      case Skip =>
        i := i + 1;
      case Exit =>
        exited := true;
      case Send(prompt) =>
        var e := Step(history, prompt, backend);
        history := e.history;
        outputs := outputs + [Show(parse, e.reply)];
        i := i + 1;
    }
    t := Transcript(history, outputs, exited);
  }

  /**
   * One turn of the loop: the session from line `i` on, after `outputs`
   * were printed, given how line `i` is classified.
   */
  lemma SessionUnfolds(parse: bool, outputs: seq<Output>, h: seq<Turn>, inputs: seq<Option<string>>, i: nat, backend: Backend)
    requires i < |inputs|
    ensures ClassifyInput(inputs[i]).Skip? ==>
      After(outputs, Session(parse, h, inputs[i..], backend)) == After(outputs, Session(parse, h, inputs[i + 1..], backend))
    ensures ClassifyInput(inputs[i]).Exit? ==>
      After(outputs, Session(parse, h, inputs[i..], backend)) == Transcript(h, outputs, true)
    ensures ClassifyInput(inputs[i]).Send? ==>
      var e := Step(h, ClassifyInput(inputs[i]).prompt, backend);
      After(outputs, Session(parse, h, inputs[i..], backend))
        == After(outputs + [Show(parse, e.reply)], Session(parse, e.history, inputs[i + 1..], backend))
  {
    assert inputs[i..][0] == inputs[i] && inputs[i..][1..] == inputs[i + 1..];
    match ClassifyInput(inputs[i])
    case Skip =>
    case Exit =>
      assert outputs + [] == outputs;
    case Send(prompt) =>
      var e := Step(h, prompt, backend);
      var rest := Session(parse, e.history, inputs[i + 1..], backend);
      assert outputs + ([Show(parse, e.reply)] + rest.outputs) == (outputs + [Show(parse, e.reply)]) + rest.outputs;
  }

  /** The prompts the loop sends: the sent lines before the first `exit`. */
  function SentPrompts(inputs: seq<Option<string>>): seq<string>
    decreases |inputs|
  {
    if inputs == [] then []
    else
      match ClassifyInput(inputs[0])
      case Skip => SentPrompts(inputs[1..])
      case Exit => []
      case Send(prompt) => [prompt] + SentPrompts(inputs[1..])
  }

  /**
   * The loop is the agent's calls in sequence: the history is the replay of
   * the sent prompts, one line is printed per prompt (failed calls included,
   * so an error does not end the loop), and it ends by `exit` exactly when
   * some line is `exit`.
   */
  lemma SessionIsReplay(parse: bool, h: seq<Turn>, inputs: seq<Option<string>>, backend: Backend)
    ensures Session(parse, h, inputs, backend).history == Replay(h, SentPrompts(inputs), backend)
    ensures |Session(parse, h, inputs, backend).outputs| == |SentPrompts(inputs)|
    ensures forall i :: 0 <= i < |SentPrompts(inputs)| ==>
      Session(parse, h, inputs, backend).outputs[i]
        == Show(parse, Step(Replay(h, SentPrompts(inputs)[..i], backend), SentPrompts(inputs)[i], backend).reply)
    ensures Session(parse, h, inputs, backend).exited <==>
      exists i :: 0 <= i < |inputs| && ClassifyInput(inputs[i]) == Exit
  {
    SessionHistory(parse, h, inputs, backend);
    SessionOutputCount(parse, h, inputs, backend);
    SessionShowsEachReply(parse, h, inputs, backend);
    SessionExits(parse, h, inputs, backend);
  }

  /** The i-th line printed is the i-th call's reply, as `Show` renders it. */
  lemma {:induction false} SessionShowsEachReply(parse: bool, h: seq<Turn>, inputs: seq<Option<string>>, backend: Backend)
    ensures |Session(parse, h, inputs, backend).outputs| == |SentPrompts(inputs)|
    ensures forall i :: 0 <= i < |SentPrompts(inputs)| ==>
      Session(parse, h, inputs, backend).outputs[i]
        == Show(parse, Step(Replay(h, SentPrompts(inputs)[..i], backend), SentPrompts(inputs)[i], backend).reply)
    decreases |inputs|
  {
    SessionOutputCount(parse, h, inputs, backend);
    if inputs != [] {
      match ClassifyInput(inputs[0])
      case Skip =>
        SessionShowsEachReply(parse, h, inputs[1..], backend);
      case Exit =>
      case Send(prompt) =>
        var e := Step(h, prompt, backend);
        var rest := SentPrompts(inputs[1..]);
        var ps := SentPrompts(inputs);
        var t := Session(parse, h, inputs, backend);
        var later := Session(parse, e.history, inputs[1..], backend);
        SessionShowsEachReply(parse, e.history, inputs[1..], backend);
        assert ps == [prompt] + rest;
        assert t.outputs == [Show(parse, e.reply)] + later.outputs;
        forall i | 0 <= i < |ps|
          ensures t.outputs[i] == Show(parse, Step(Replay(h, ps[..i], backend), ps[i], backend).reply)
        {
          if i == 0 {
            assert ps[..0] == [];
          } else {
            SendOutputAt(parse, h, prompt, rest, later.outputs, i, backend);
          }
        }
    }
  }

  /** After a first call on `prompt`, output `i` is output `i - 1` of the rest of the loop. */
  lemma SendOutputAt(parse: bool, h: seq<Turn>, prompt: string, rest: seq<string>, later: seq<Output>, i: nat, backend: Backend)
    requires 0 < i <= |rest| && |later| == |rest|
    requires later[i - 1] == Show(parse, Step(Replay(Step(h, prompt, backend).history, rest[..i - 1], backend), rest[i - 1], backend).reply)
    ensures ([Show(parse, Step(h, prompt, backend).reply)] + later)[i]
      == Show(parse, Step(Replay(h, ([prompt] + rest)[..i], backend), ([prompt] + rest)[i], backend).reply)
  {
    SendPrefixReplay(h, prompt, rest, i, backend);
    assert ([prompt] + rest)[i] == rest[i - 1];
  }

  /** Replaying the first `i` prompts of `[prompt] + rest` is the call on `prompt`, then the first `i - 1` of `rest`. */
  lemma SendPrefixReplay(h: seq<Turn>, prompt: string, rest: seq<string>, i: nat, backend: Backend)
    requires 0 < i <= |rest| + 1
    ensures Replay(h, ([prompt] + rest)[..i], backend) == Replay(Step(h, prompt, backend).history, rest[..i - 1], backend)
  {
    var ps := ([prompt] + rest)[..i];
    assert ps[0] == prompt && ps[1..] == rest[..i - 1];
  }

  /** The history at the end of the loop is the replay of the sent prompts. */
  lemma {:induction false} SessionHistory(parse: bool, h: seq<Turn>, inputs: seq<Option<string>>, backend: Backend)
    ensures Session(parse, h, inputs, backend).history == Replay(h, SentPrompts(inputs), backend)
    decreases |inputs|
  {
    if inputs != [] {
      match ClassifyInput(inputs[0])
      case Skip =>
        SessionHistory(parse, h, inputs[1..], backend);
      case Exit =>
      case Send(prompt) =>
        var rest := SentPrompts(inputs[1..]);
        assert ([prompt] + rest)[0] == prompt && ([prompt] + rest)[1..] == rest;
        SessionHistory(parse, Step(h, prompt, backend).history, inputs[1..], backend);
    }
  }

  /** One line is printed per sent prompt. */
  lemma {:induction false} SessionOutputCount(parse: bool, h: seq<Turn>, inputs: seq<Option<string>>, backend: Backend)
    ensures |Session(parse, h, inputs, backend).outputs| == |SentPrompts(inputs)|
    decreases |inputs|
  {
    if inputs != [] {
      match ClassifyInput(inputs[0])
      case Skip =>
        SessionOutputCount(parse, h, inputs[1..], backend);
      case Exit =>
      case Send(prompt) =>
        SessionOutputCount(parse, Step(h, prompt, backend).history, inputs[1..], backend);
    }
  }

  /** The loop ends by `exit` exactly when some line is `exit`. */
  lemma {:induction false} SessionExits(parse: bool, h: seq<Turn>, inputs: seq<Option<string>>, backend: Backend)
    ensures Session(parse, h, inputs, backend).exited <==>
      exists i :: 0 <= i < |inputs| && ClassifyInput(inputs[i]) == Exit
    decreases |inputs|
  {
    if inputs != [] {
      assert forall i :: 0 < i < |inputs| ==> inputs[i] == inputs[1..][i - 1];
      match ClassifyInput(inputs[0])
      case Skip =>
        SessionExits(parse, h, inputs[1..], backend);
      case Exit =>
      case Send(prompt) =>
        SessionExits(parse, Step(h, prompt, backend).history, inputs[1..], backend);
    }
  }

  /** Lines after `exit` are never read. */
  lemma {:induction false} NothingAfterExit(parse: bool, h: seq<Turn>, inputs: seq<Option<string>>, more: seq<Option<string>>, backend: Backend)
    requires Session(parse, h, inputs, backend).exited
    ensures Session(parse, h, inputs + more, backend) == Session(parse, h, inputs, backend)
    decreases |inputs|
  {
    assert inputs != [];
    assert (inputs + more)[0] == inputs[0] && (inputs + more)[1..] == inputs[1..] + more;
    match ClassifyInput(inputs[0])
    case Skip =>
      NothingAfterExit(parse, h, inputs[1..], more, backend);
    case Exit =>
    case Send(prompt) =>
      NothingAfterExit(parse, Step(h, prompt, backend).history, inputs[1..], more, backend);
  }

  /** A service that never throws never produces an error line. */
  lemma {:induction false} NoErrorsWithoutFailures(parse: bool, h: seq<Turn>, inputs: seq<Option<string>>, backend: Backend)
    requires NeverFails(backend)
    ensures forall o :: o in Session(parse, h, inputs, backend).outputs ==> !o.Error?
    decreases |inputs|
  {
    if inputs != [] {
      match ClassifyInput(inputs[0])
      case Skip =>
        NoErrorsWithoutFailures(parse, h, inputs[1..], backend);
      case Exit =>
      case Send(prompt) =>
        assert backend(h + [Turn(User, prompt)]).Completed?;
        NoErrorsWithoutFailures(parse, Step(h, prompt, backend).history, inputs[1..], backend);
    }
  }

  /**
   * End of input is skipped like a blank line, so a console that only
   * reports end of input never sends anything and never ends the loop.
   */
  lemma {:induction false} EndOfInputNeverExits(parse: bool, h: seq<Turn>, inputs: seq<Option<string>>, backend: Backend)
    requires forall i :: 0 <= i < |inputs| ==> inputs[i].None?
    ensures Session(parse, h, inputs, backend) == Transcript(h, [], false)
    decreases |inputs|
  {
    if inputs != [] {
      EndOfInputNeverExits(parse, h, inputs[1..], backend);
    }
  }

  /**
   * A session of the agent the flags pick keeps that agent's history well
   * formed: its system turn first and no other.
   */
  lemma SessionKeepsHistoryWellFormed(f: Flags, inputs: seq<Option<string>>, backend: Backend)
    ensures var k := SelectAgent(f);
      WellFormed(Session(ShouldParse(f), Initial(AgentSystemPrompt(k)), inputs, backend).history, AgentSystemPrompt(k))
  {
    var k := SelectAgent(f);
    SessionIsReplay(ShouldParse(f), Initial(AgentSystemPrompt(k)), inputs, backend);
    ReplayWellFormed(Initial(AgentSystemPrompt(k)), AgentSystemPrompt(k), SentPrompts(inputs), backend);
  }
}
