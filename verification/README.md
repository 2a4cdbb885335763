# woof-agent, modelled in Dafny

woof-agent is a console chat assistant for a smart fridge (Samsung Family Hub
on Tizen) and for food-ordering services. A command line picks one of four
agents: `A2UIFridge`, `SmartFridge`, `Zomato`, or `Swiggy` in one of three
services (Food, Instamart, Dineout). Each agent keeps a chat history and
sends it to a chat-completion provider (OpenAI or Gemini). The fridge agents
get their tools from a local mock plugin. The food agents get theirs from a
remote MCP tool server. The A2UI agent's answers carry a rich-UI JSON
payload after a `---a2ui---` delimiter, and the console splits it off.

This project models that logic and proves properties of it:

- `text.dfy` (module `Text`) models the .NET string operations the code relies on. These are
  `char.IsWhiteSpace`, `Trim`, `IsNullOrEmpty`, `IsNullOrWhiteSpace`, ordinal `IndexOf`,
  case-insensitive comparison and `int.ToString`.
- `chat.dfy` (module `Chat`) models the chat history and the one exchange that every agent's
  `InvokeAsync` performs. The chat-completion service is a function from the history it is sent
  to either a thrown exception or a message whose content may be null.
- There is one class per agent, each with a `history` field that its methods change in place:
  - `a2ui_fridge_agent.dfy` holds the agent and also `ParseResponse`.
  - `smart_fridge_agent.dfy`, `zomato_agent.dfy` and `swiggy_agent.dfy` hold the other three.
    The Swiggy file also has the service enum and the per-service system prompt.
- `providers.dfy` models `AddLlmProvider`. The kernel builder is seen as the list of
  chat services registered on it.
- `llm_settings.dfy` and `mcp_settings.dfy` are the configuration records with their defaults.
- `fridge_plugin.dfy` is the mock plugin's tool functions.
- `program.dfy` (module `Cli`) is the console host, covering:
  - flag parsing;
  - the choice of tool server, bearer header, agent and rendering;
  - `GetModelId`;
  - the start-up sequence;
  - the read loop, as a method proved against a function of the lines read.

Two behaviours of the code are worth stating plainly:

- A completion call that throws leaves the user's turn in the history with no answer. This is
  because `InvokeAsync` appends it before calling the service.
- The agents do not treat an empty prompt as a no-op. Only the console loop skips blank lines.

## Model

| member | source | states |
|---|---|---|
| Text.Trim | src/WoofAgent.Core/Agents/A2UIFridgeAgent.cs:191 | the trimmed string is the contiguous middle of the input that neither starts nor ends with white space; everything cut from either end is white space |
| Text.TrimAround | src/WoofAgent.Core/Agents/A2UIFridgeAgent.cs:191 | white space around a trimmed core is exactly what trimming removes |
| Text.IndexOf | src/WoofAgent.Core/Agents/A2UIFridgeAgent.cs:191 | the search finds an index exactly when the pattern occurs, and the index found is the first occurrence |
| Text.IsWhiteSpace | src/WoofAgent.Core/Agents/A2UIFridgeAgent.cs:191 | on ASCII, the white-space characters are exactly space, tab, line feed, vertical tab, form feed and carriage return (the full predicate is `char.IsWhiteSpace`'s 25 code points) |
| Text.NullOrWhiteSpaceIffTrimsToEmpty | src/WoofAgent.Cli/Program.cs:146 | `IsNullOrWhiteSpace` holds for null and exactly the strings trimming empties; every null or empty string passes it, while `" "` passes it but not `IsNullOrEmpty` |
| Text.EqualsIgnoreCase | src/WoofAgent.Providers/KernelBuilderExtensions.cs:12 | two strings are equal ignoring case exactly when they have the same length and agree character by character after folding |
| Text.IntToString | src/WoofAgent.Core/Plugins/FridgePlugin.cs:125 | the rendering starts with a minus sign exactly for negative numbers and has no leading zero |
| Text.IntToStringRoundTrip | src/WoofAgent.Core/Plugins/FridgePlugin.cs:125 | the decimal rendering of any 32-bit integer, negative ones included, reads back as the same integer |
| Chat.Initial | src/WoofAgent.Core/Agents/A2UIFridgeAgent.cs:161 | a new history is one system turn and is well formed |
| Chat.Step | src/WoofAgent.Core/Agents/A2UIFridgeAgent.cs:166-182 | one call keeps the old history as a prefix; the user turn is appended before the service is asked, so the service sees it; the call fails exactly when the service throws, and then the error is the exception's message and the user turn stays unanswered; on success exactly one assistant turn follows, carrying the returned text, which is the service's content with null read as empty |
| Chat.StepPreservesWellFormed | src/WoofAgent.Core/Agents/A2UIFridgeAgent.cs:166-182 | a call keeps the system turn first and adds no other system turn |
| Chat.ReplayExtends | src/WoofAgent.Core/Agents/SwiggyAgent.cs:57-75 | the history is append-only: any number of calls keeps the earlier turns unchanged and adds one or two turns per call |
| Chat.ReplayWellFormed | src/WoofAgent.Core/Agents/SwiggyAgent.cs:57-75 | any number of calls keeps the history well formed |
| Chat.ReplayLength | src/WoofAgent.Core/Agents/ZomatoAgent.cs:41-59 | with a service that never throws, n calls add exactly 2n turns: each prompt as a user turn, followed by the service's answer (`Content ?? ""`) to the history up to that prompt |
| Chat.FreshSessionLength | src/WoofAgent.Core/Agents/ZomatoAgent.cs:34-59 | a fresh agent that has answered n prompts holds 1 + 2n turns, the system turn first |
| A2UIFridge.A2UIFridgeAgent.constructor | src/WoofAgent.Core/Agents/A2UIFridgeAgent.cs:155-162 | a new agent's history is exactly the system turn |
| A2UIFridge.A2UIFridgeAgent.Invoke | src/WoofAgent.Core/Agents/A2UIFridgeAgent.cs:164-183 | on success the history grows by exactly the user turn and an assistant turn with the returned text; on a thrown call only by the user turn; the history stays well formed |
| A2UIFridge.A2UIFridgeAgent.ClearHistory | src/WoofAgent.Core/Agents/A2UIFridgeAgent.cs:204-208 | whatever came before, the history is afterwards exactly the system turn, so clearing twice is clearing once |
| A2UIFridge.ParseResponse | src/WoofAgent.Core/Agents/A2UIFridgeAgent.cs:188-199 | there is JSON exactly when the delimiter occurs; without it the text is the answer untrimmed; with it, the text is the trimmed part before the first occurrence and the JSON the trimmed rest |
| A2UIFridge.DelimiterHasNoWhiteSpace | src/WoofAgent.Core/Agents/A2UIFridgeAgent.cs:190 | the delimiter holds no white-space character |
| A2UIFridge.TextNeverContainsDelimiter | src/WoofAgent.Core/Agents/A2UIFridgeAgent.cs:191 | for every answer, the conversational text contains no delimiter |
| A2UIFridge.SplitsAtFirstDelimiter | src/WoofAgent.Core/Agents/A2UIFridgeAgent.cs:191-195 | an answer `a + delimiter + b` with no earlier delimiter gives the trimmed `a` and the trimmed `b`, later delimiters in `b` included |
| A2UIFridge.ParseRecoversParts | src/WoofAgent.Core/Agents/A2UIFridgeAgent.cs:188-199 | the layout the system prompt asks for is split exactly back into its text and its JSON when the text holds no delimiter and white space separates the two |
| A2UIFridge.DelimiterAlone | src/WoofAgent.Core/Agents/A2UIFridgeAgent.cs:191-195 | an answer that is only the delimiter gives empty text and empty, non-null JSON |
| A2UIFridge.TypicalAnswer | src/WoofAgent.Core/Agents/A2UIFridgeAgent.cs:188-199 | a text, a blank line, the delimiter and a JSON line split into that text and that JSON |
| SmartFridge.SmartFridgeAgent.constructor | src/WoofAgent.Core/Agents/SmartFridgeAgent.cs:34-41 | a new agent's history is exactly the system turn |
| SmartFridge.SmartFridgeAgent.Invoke | src/WoofAgent.Core/Agents/SmartFridgeAgent.cs:43-61 | on success the old history gains exactly the user turn and an assistant turn with the returned text; a thrown call leaves one extra user turn and no answer |
| SmartFridge.SmartFridgeAgent.ClearHistory | src/WoofAgent.Core/Agents/SmartFridgeAgent.cs:66-70 | afterwards the history is exactly the system turn, whatever its length before |
| Zomato.ZomatoAgent.constructor | src/WoofAgent.Core/Agents/ZomatoAgent.cs:32-39 | a new agent's history is exactly the system turn |
| Zomato.ZomatoAgent.Invoke | src/WoofAgent.Core/Agents/ZomatoAgent.cs:41-59 | on success the history gains the user turn and then the assistant turn, and the returned text is the last turn's content; a thrown call adds only the user turn |
| Swiggy.NameFor | src/WoofAgent.Core/Agents/SwiggyAgent.cs:52 | the name is `SwiggyFood`, `SwiggyInstamart` or `SwiggyDineout` exactly for Food, Instamart or Dineout respectively |
| Swiggy.NameForInjective | src/WoofAgent.Core/Agents/SwiggyAgent.cs:52 | different services never share a name |
| Swiggy.GetSystemPrompt | src/WoofAgent.Core/Agents/SwiggyAgent.cs:19-47 | there is a prompt exactly for the three declared services; any other enum value throws `ArgumentOutOfRangeException` for `service` |
| Swiggy.SwiggyAgent.constructor | src/WoofAgent.Core/Agents/SwiggyAgent.cs:49-55 | the agent's name is `Swiggy` followed by the service, and its history is exactly the service's system turn |
| Swiggy.SwiggyAgent.Invoke | src/WoofAgent.Core/Agents/SwiggyAgent.cs:57-75 | the history gains the user turn and then the assistant turn with the returned text, or only the user turn when the call throws |
| Providers.ProviderNamed | src/WoofAgent.Providers/KernelBuilderExtensions.cs:12-16 | the name selects OpenAI exactly when it equals `openai` ignoring case, and Gemini exactly when it equals `gemini` ignoring case |
| Providers.AddOpenAiProvider | src/WoofAgent.Providers/KernelBuilderExtensions.cs:20-41 | fails exactly for a blank key, before anything is registered; otherwise it adds one service with the model and key, using the custom endpoint exactly when one is set and not blank, and keeps every earlier service |
| Providers.AddGeminiProvider | src/WoofAgent.Providers/KernelBuilderExtensions.cs:43-55 | fails exactly for a blank key; otherwise it adds one Gemini service with the model and key to the same builder |
| Providers.AddLlmProvider | src/WoofAgent.Providers/KernelBuilderExtensions.cs:10-47 | an unknown provider name fails with that name; a known one fails exactly when its key is blank, with the missing-key error (`InvalidOperationException`) naming that provider; otherwise exactly one service is added, with the chosen provider's model and key, and it is Gemini exactly when the name is `gemini` ignoring case |
| Providers.ProviderNameCaseInsensitive | src/WoofAgent.Providers/KernelBuilderExtensions.cs:12-15 | two provider names that differ only in letter case register the same service |
| Providers.DefaultSettingsRejected | src/WoofAgent.Shared/Configuration/LlmSettings.cs:7-22 | the default provider `OpenAI` selects OpenAI, and the default empty key makes registration fail; with `Gemini` chosen, its default empty key fails too |
| FridgePlugin.GetCalendarEvents | src/WoofAgent.Core/Plugins/FridgePlugin.cs:12-28 | the fixed answer holds today's events and tomorrow's events, as the tool's description promises |
| FridgePlugin.GetFridgeInventory | src/WoofAgent.Core/Plugins/FridgePlugin.cs:30-58 | the fixed answer gives expiry information and the low-stock items |
| FridgePlugin.GetWeather | src/WoofAgent.Core/Plugins/FridgePlugin.cs:93-114 | the fixed answer gives the current weather and a forecast |
| FridgePlugin.GetFridgeStatus | src/WoofAgent.Core/Plugins/FridgePlugin.cs:154-174 | the fixed answer gives the temperatures and the alerts |
| FridgePlugin.SuggestRecipes | src/WoofAgent.Core/Plugins/FridgePlugin.cs:62-91 | the answer always ends with the base recipes and is exactly them for a null or empty preference; otherwise the preference reads back between `Filtering for: ` and a blank line |
| FridgePlugin.SuggestRecipesInjective | src/WoofAgent.Core/Plugins/FridgePlugin.cs:85-88 | different non-empty preferences give different answers |
| FridgePlugin.QuantitySuffix | src/WoofAgent.Core/Plugins/FridgePlugin.cs:138 | empty exactly for a null or empty quantity; otherwise the quantity inside ` (` and `)` |
| FridgePlugin.EmptyQuantityIsNoQuantity | src/WoofAgent.Core/Plugins/FridgePlugin.cs:138 | an empty quantity gives the same entry as none, the item alone |
| FridgePlugin.AddToShoppingList | src/WoofAgent.Core/Plugins/FridgePlugin.cs:134-152 | the entry (item and suffix) appears on the `Added` line and again as the list's last item, followed by the `New` mark |
| FridgePlugin.AddToShoppingListDeterminesEntry | src/WoofAgent.Core/Plugins/FridgePlugin.cs:140-151 | the answer determines the entry that was added |
| FridgePlugin.EntryIsAmbiguous | src/WoofAgent.Core/Plugins/FridgePlugin.cs:138-142 | for every item and non-empty quantity, writing the quantity into the item's name gives the same entry as passing it separately |
| FridgePlugin.SetTimer | src/WoofAgent.Core/Plugins/FridgePlugin.cs:118-130 | the name is embedded unchanged, and the duration field is the canonical decimal (no leading zero) that reads back as exactly the minutes given, for every integer |
| FridgePlugin.NegativeMinutesAccepted | src/WoofAgent.Core/Plugins/FridgePlugin.cs:118-125 | a negative duration is accepted and shown with its minus sign |
| Cli.ParseFlags | src/WoofAgent.Cli/Program.cs:12-18 | remote tools are used exactly when one of the four service flags is among the arguments; A2UI mode exactly when `--text` is not |
| Cli.FlagsDependOnlyOnMembership | src/WoofAgent.Cli/Program.cs:12-16 | argument lists with the same members give the same flags, whatever their order or repetitions |
| Cli.FlagsAreCaseSensitive | src/WoofAgent.Cli/Program.cs:12-18 | flags are matched case-sensitively, so `--TEXT --Zomato` is the empty command line: A2UI mode, local tools |
| Cli.SelectSwiggyService | src/WoofAgent.Cli/Program.cs:115-117 | the service is declared, with priority Instamart, then Dineout, then Food |
| Cli.SelectMcpServer | src/WoofAgent.Cli/Program.cs:46-70 | `--zomato` takes the Zomato endpoint, name and token whatever Swiggy flags are given; otherwise the Swiggy token, the endpoint of the service picked, and the name the Swiggy agent for that service carries |
| Cli.ZomatoEnabledIgnored | src/WoofAgent.Cli/Program.cs:46-51 | the Zomato `Enabled` setting never changes the server chosen |
| Cli.DefaultServers | src/WoofAgent.Shared/Configuration/McpSettings.cs:5-24 | with default settings, Zomato has an empty endpoint and the name `Zomato`, each Swiggy service connects to its public `https://mcp.swiggy.com/` endpoint under its agent's name, and no server gets a token or header |
| Cli.AuthHeaders | src/WoofAgent.Cli/Program.cs:79-85 | headers are set exactly when the token is non-null and non-empty, and then only `Authorization`, whose value is `Bearer ` followed by the token |
| Cli.AuthHeadersInjective | src/WoofAgent.Cli/Program.cs:83 | different tokens give different headers |
| Cli.SelectAgent | src/WoofAgent.Cli/Program.cs:108-127 | the agent is Zomato exactly for `--zomato`, Swiggy exactly for a Swiggy flag without it (with the service the tool server uses), A2UI exactly without remote tools or `--text`, SmartFridge otherwise |
| Cli.ShouldParse | src/WoofAgent.Cli/Program.cs:157 | answers are split exactly when the agent selected is the A2UI agent |
| Cli.AgentMatchesTools | src/WoofAgent.Cli/Program.cs:99-127 | the fridge plugin is registered exactly for the two fridge agents, and a Swiggy agent carries the name of its tool server |
| Cli.GetModelId | src/WoofAgent.Cli/Program.cs:199-205 | the OpenAI or Gemini model for a name equal to `openai` or `gemini` ignoring case, `unknown` for any other name |
| Cli.DefaultModelIds | src/WoofAgent.Shared/Configuration/LlmSettings.cs:7-22 | with default settings the header shows `gpt-4o`, or `gemini-2.0-flash` when `gemini` is chosen |
| Cli.ModelIdIsRegisteredModel | src/WoofAgent.Cli/Program.cs:131 | the model shown in the header is the model registered on the builder |
| Cli.Startup | src/WoofAgent.Cli/Program.cs:11-127 | start-up fails exactly when provider registration does, with its error; otherwise the local plugin is used exactly without remote tools, the remote server and header are the ones chosen from the flags, the agent is the one selected, and answers are split exactly for the A2UI agent |
| Cli.ClassifyInput | src/WoofAgent.Cli/Program.cs:146-150 | end of input and blank lines are skipped; `exit` in any letter case ends the loop; every other line is sent exactly as typed |
| Cli.ExitIsExact | src/WoofAgent.Cli/Program.cs:146-150 | `EXIT` ends the loop, ` exit` is sent to the agent untrimmed, and end of input is skipped |
| Cli.Show | src/WoofAgent.Cli/Program.cs:154-185 | a thrown call shows its message; otherwise the answer is shown verbatim, or in A2UI mode split into text and JSON, with the JSON block exactly when the JSON is non-null and non-empty |
| Cli.ShownTextHasNoDelimiter | src/WoofAgent.Cli/Program.cs:160-163 | the text shown in A2UI mode never contains the delimiter |
| Cli.Session | src/WoofAgent.Cli/Program.cs:141-186 | the reference for the loop: the agent's history only grows, by at most two turns per line, and at most one answer is printed per line |
| Cli.ReadLoop | src/WoofAgent.Cli/Program.cs:141-186 | the loop's history, printed answers and way of ending are those of the session function over the lines read |
| Cli.SessionIsReplay | src/WoofAgent.Cli/Program.cs:141-186 | the history is the agent's calls on the sent lines before the first `exit`; one answer or error is printed per call, so an error does not end the loop, and the i-th item printed is the i-th call's reply as `Show` renders it (split in A2UI mode, the message for an error); the loop ends by `exit` exactly when some line is `exit` |
| Cli.NothingAfterExit | src/WoofAgent.Cli/Program.cs:149-150 | lines after `exit` are never read |
| Cli.NoErrorsWithoutFailures | src/WoofAgent.Cli/Program.cs:181-185 | error lines come only from calls that throw |
| Cli.EndOfInputNeverExits | src/WoofAgent.Cli/Program.cs:144-147 | end of input is skipped like a blank line, so a console at end of input never sends anything and never ends the loop |
| Cli.SessionKeepsHistoryWellFormed | src/WoofAgent.Cli/Program.cs:108-154 | a whole session of the selected agent keeps its history well formed |

## Left out

- Asynchrony and cancellation tokens are not modelled. Each call is one atomic step.
- Network I/O is not modelled: connecting to the MCP server, listing its tools, and disposing the client.
- Chat.Step: the function-call and function-result turns that the service adds to the history during automatic function calling are not modelled. The service is a function of the history, and only the user and assistant turns are appended.
- Configuration loading is not modelled: `appsettings.json`, user secrets and binding. Settings are given values.
- Cli.Startup: `new Uri(endpoint)` can throw on a malformed endpoint, and that failure is not modelled. The URI parser is a foreign library.
- Providers.AddOpenAiProvider and Providers.AddLlmProvider: a custom endpoint that is not blank but is not a valid URI makes `new Uri` throw `UriFormatException`. The model registers it as a custom-endpoint service instead, because URI parsing is a foreign library.
- Text.IntToString and FridgePlugin.SetTimer: the minutes are interpolated with the current culture. The model assumes that culture's negative sign is `-`. Some cultures use U+2212 instead.
- Console output is left out: the header lines, emoji labels, separators and `Goodbye!`. `Cli.Show` models what is printed per answer.
- Cli.ReadLoop:
  - It runs over a finite sequence of console lines, where `None` stands for end of input. The source loop reads forever.
  - It runs on the agent's history value rather than on an agent object. The common `IAgent` interface is not part of this model.
- Text.EqualsIgnoreCase and Text.ToLowerAscii fold only the ASCII letters. `ToLowerInvariant` and `OrdinalIgnoreCase` fold all of Unicode.
- Strings are sequences of Unicode scalar values, while .NET strings are UTF-16 code units. The delimiter and the flags are ASCII, so the splitting and matching are the same.
- The agents' system prompts are abbreviated to their first line, because their wording carries no logic. The plugin's texts are given in full.
- Swiggy.SwiggyAgent.constructor requires a declared service. For any other value the source constructor throws, and no agent exists.
- Providers.AddLlmProvider: the exceptions are modelled by kind (`ArgumentException`, `InvalidOperationException`) and the provider or name they concern, not by their message text.
- src/WoofAgent.Core/Agents/HelloWorldAgent.cs is not part of this model: it is a thin wrapper over a prompt call.
