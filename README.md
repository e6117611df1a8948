# ai-terminal-assistant command generator, modelled in Dafny

`generate_command.py` turns a natural-language request into a shell
command:

- It resolves an API key, a base URL and a model name from `config.ini`
  or from the environment.
- It builds a system prompt from the platform name and the `SHELL`
  variable.
- It picks between the OpenAI and Anthropic endpoints from the base URL
  and sends one chat completion request.
- It cleans the reply: it trims whitespace, strips backticks and drops a
  leading Markdown language-tag line.
- It prints the command, or says that none could be generated.

This project models that core as pure Dafny values and functions. It
proves properties of the clean-up, of the configuration resolution, of
the prompt and of the command-line flow.

Modules:

- `Wrappers`: `Option` and `Result`.
- `Text`: the Python string operations the code relies on, each as a
  function with its properties:
  - `str.strip()` and `str.strip('`')`, with Python's whitespace set;
  - the substring test `in`;
  - `split('\n')` and `'\n'.join`;
  - `str.lower()`.
- `Config`: `load_api_config`. The config file and the environment are
  inputs. The missing-key `sys.exit(1)` is the `MissingApiKey` error.
- `Prompt`: `get_system_prompt`. The platform name and `SHELL` are inputs.
- `Sanitizer`: the reply clean-up.
- `Generate`:
  - client selection;
  - the two chat messages and the request;
  - `generate_command`, with the client and the completion call as
    parameters;
  - `main`, given the arguments after the program name.

## Model

| member | source | states |
|---|---|---|
| Text.Strip | generate_command.py:170-173 | `strip` keeps one contiguous run of the input, starting after the leading removable run; the run it keeps neither starts nor ends with a removable character. For `strip()` the removable set (`Text.IsPySpace`) is exactly the characters for which `str.isspace()` holds |
| Text.StripRemovesOnly | generate_command.py:170-173 | every character `strip` drops, at either end, is whitespace (or a backtick for `strip('`')`) |
| Text.StripAround | generate_command.py:170-173 | removable text around a body with non-removable ends is removed exactly, leaving the body |
| Text.Join | generate_command.py:180 | joining no parts gives the empty string and one part gives that part; a join starts with the first part, ends with the last, and with several parts the separator follows the first |
| Text.Split | generate_command.py:178 | `split('\n')` yields at least one part; no part holds a newline; there are several parts exactly when the text has a newline |
| Text.JoinSplit | generate_command.py:178-180 | joining the parts of a split with the separator gives back the text |
| Text.SplitJoin | generate_command.py:196 | splitting a join of separator-free parts gives back the parts |
| Text.SplitAtFirst | generate_command.py:178-180 | the first part is the text before the first newline; joining the remaining parts gives the text after it |
| Text.Lower | generate_command.py:137-142 | `lower()` never shortens a string (U+0130 lowers to two characters) |
| Text.LowerKeeps | generate_command.py:137-142 | text without capitals is unchanged by `lower()` |
| Text.LowerIdempotent | generate_command.py:137-142 | lowering twice is lowering once |
| Text.LowerIgnoresCase | generate_command.py:137-142 | strings that differ only in letter case lower to the same string |
| Text.StartsWith | generate_command.py:47 | `startswith` holds iff the prefix fits and agrees character by character |
| Text.EndsWith | generate_command.py:174 | `endswith` holds iff the suffix fits and agrees character by character at the end |
| Text.Contains | generate_command.py:71-73 | Python's `t in s` (also the URL tests at lines 137-142): true for an empty `t`, false when `t` is longer than `s`; with ContainsAt and ContainsWitness it holds iff `t` occurs at some position |
| Text.ContainsAt | generate_command.py:71-73 | an occurrence at any position makes the `in` test true |
| Text.ContainsWitness | generate_command.py:71-73 | a true `in` test exhibits a position of the occurrence |
| Text.NotContains | generate_command.py:71-73 | a pattern with a character the text lacks is not in the text |
| Config.Truthy | generate_command.py:40-56 | an optional string is truthy iff it is present and not empty |
| Config.Or | generate_command.py:40 | `a or b` is `a` when `a` is truthy and `b` otherwise, so it is truthy iff either operand is |
| Config.EnvKey | generate_command.py:40 | the key is OPENAI_API_KEY when that is non-empty and ANTHROPIC_API_KEY otherwise; it is truthy iff either variable is non-empty |
| Config.FromEnv | generate_command.py:32-60 | environment resolution fails exactly when neither key variable is non-empty, and then with the missing-key exit; on success the key and base URL are non-empty |
| Config.LoadApiConfig | generate_command.py:15-60 | a config file with all three entries is used verbatim; an incomplete one defers wholly to the environment; `LoadFailed` happens exactly for an undecodable config file, or for an incomplete one followed by a `.env` whose loading raises |
| Config.ConfigFileAllOrNothing | generate_command.py:22-30 | a complete file ignores the environment; incomplete files contribute nothing, so any two resolve alike |
| Config.ConfigFileSkipsKeyCheck | generate_command.py:22-28 | an empty key from a complete config file is returned without the missing-key exit |
| Config.OpenAiKeyWins | generate_command.py:40 | a non-empty OPENAI_API_KEY is used; otherwise ANTHROPIC_API_KEY; an empty OPENAI_API_KEY behaves as unset |
| Config.EnvDefaults | generate_command.py:45-54 | without BASE_URL an `sk-ant-` key selects the Anthropic URL and model, any other key the OpenAI ones, and a non-empty MODEL is kept |
| Config.ExplicitBaseUrl | generate_command.py:41-45 | with BASE_URL set, the URL is used as given and MODEL is taken as it is, possibly absent |
| Config.MissingKeyIsFatal | generate_command.py:56-58 | when the config file is incomplete, resolution ends in the missing-key exit iff the environment has no non-empty key |
| Prompt.ShellString | generate_command.py:65 | the inspected shell string is `PowerShell` on Windows, and elsewhere SHELL, or the empty string when SHELL is unset |
| Prompt.ShellTypeOf | generate_command.py:64-76 | PowerShell iff the platform is Windows; otherwise Zsh iff SHELL mentions `zsh`, Bash iff it mentions `bash` and not `zsh` |
| Prompt.Preamble | generate_command.py:79-88 | the common part starts with the introduction, has the platform name right after it and the shell type right after the shell line, and ends with the rules |
| Prompt.Addendum | generate_command.py:90-112 | the Windows, macOS or Linux note is chosen exactly for `Windows`, `Darwin` or `Linux`, and it is empty for any other platform |
| Prompt.SystemPrompt | generate_command.py:62-114 | the prompt holds the platform name and the shell type at their places in the preamble, and the rest is the platform addendum |
| Prompt.PromptNamesPlatformAndShell | generate_command.py:79-88 | the prompt always contains the platform name and the shell type name |
| Prompt.AddendumChosen | generate_command.py:90-112 | after the preamble comes the Windows, macOS or Linux note exactly for `Windows`, `Darwin` or `Linux`, and nothing for any other platform |
| Prompt.WindowsIgnoresShell | generate_command.py:65-70 | on Windows the prompt and the shell type do not depend on SHELL |
| Prompt.ZshBeforeBash | generate_command.py:71-74 | off Windows, every SHELL mentioning both `zsh` and `bash` gives Zsh |
| Prompt.ZshBashPathExample | generate_command.py:71-74 | `/usr/bin/zsh-bash` on Linux gives Zsh |
| Prompt.BashShell | generate_command.py:65-74 | on every platform other than Windows, SHELL `/bin/bash` gives Bash |
| Prompt.UnsetShell | generate_command.py:65-76 | on every platform but Windows, an unset SHELL gives the generic `Shell` type |
| Sanitizer.Unquoted | generate_command.py:170-173 | after the whitespace strip and the backtick strip, the text is no longer than the reply and neither starts nor ends with a backtick |
| Sanitizer.InsideFence | generate_command.py:175 | `s[3:-3]` is what lies between the first three and the last three characters, and is empty for fewer than six |
| Sanitizer.StripFence | generate_command.py:174-175 | removing a fence never lengthens the text, and text not both starting and ending with a fence is left alone |
| Sanitizer.DropTagLine | generate_command.py:178-180 | the text is either left alone or, when it has a newline, made strictly shorter |
| Sanitizer.Sanitize | generate_command.py:170-182 | the clean-up never lengthens the reply; the result is the stripped text, or a strictly shorter text when the stripped text has a newline |
| Sanitizer.FenceRemovalUnreachable | generate_command.py:173-175 | once backticks are stripped the text cannot start with a fence, so the fence branch never changes anything |
| Sanitizer.TagLineRule | generate_command.py:178-180 | the first line is dropped, and the rest trimmed, exactly when a newline is present and the trimmed first line is one of the five tags; otherwise the stripped text is returned |
| Sanitizer.DropTagLineRule | generate_command.py:178-180 | the tag-line rule stated on the first newline's position |
| Sanitizer.SanitizeShape | generate_command.py:170-182 | the result is either the stripped text or the trimmed text after its first newline |
| Sanitizer.UnquotedSlice | generate_command.py:170-173 | the stripped text is a contiguous piece of the reply |
| Sanitizer.AfterFirstLineSlice | generate_command.py:178-180 | the trimmed text after the first newline is a contiguous piece of the reply |
| Sanitizer.SanitizedIsSlice | generate_command.py:170-182 | the cleaned command is always one contiguous piece of the reply: nothing is added or reordered |
| Sanitizer.UnframedUnquoted | generate_command.py:170-173 | text with no whitespace or backtick at either end passes both strips unchanged |
| Sanitizer.CleanLineUnchanged | generate_command.py:170-182 | a single line with nothing to trim comes back unchanged |
| Sanitizer.BacktickQuoted | generate_command.py:173 | a clean command in single backticks loses exactly the backticks |
| Sanitizer.TagLineThenText | generate_command.py:178-180 | a tag line followed by text with clean ends gives that text |
| Sanitizer.FenceUnquoted | generate_command.py:173 | the backtick strip alone removes a triple-backtick fence around text whose ends are not backticks |
| Sanitizer.FencedBlock | generate_command.py:170-182 | a fenced block with a tag line gives the command; with any other first line the first line and the final newline are kept |
| Sanitizer.PlainExample | generate_command.py:170-182 | `ls -la` gives `ls -la` |
| Sanitizer.QuotedExample | generate_command.py:173 | `` `ls -la` `` gives `ls -la` |
| Sanitizer.FencedExample | generate_command.py:170-182 | a bash-fenced `ls -la` gives `ls -la` |
| Sanitizer.CapitalisedTagExample | generate_command.py:179 | the tag test is case-sensitive: a `Bash`-fenced `ls` gives `Bash\nls\n` |
| Sanitizer.SecondTagLineExample | generate_command.py:178-180 | only one tag line is dropped per pass, so cleaning is not idempotent |
| Sanitizer.ShTagExample | generate_command.py:178-180 | `sh\nls` gives `ls` |
| Sanitizer.SpaceInsideBackticksExample | generate_command.py:170-173 | a space inside backticks survives one pass and is trimmed by a second |
| Sanitizer.SpaceTrimmed | generate_command.py:170 | `ls ` gives `ls` |
| Generate.SelectClient | generate_command.py:134-145 | Anthropic iff the lowered URL mentions `anthropic`; the URL is passed unless it mentions `openai` and not `anthropic`; the key is always passed |
| Generate.SelectClientIgnoresCase | generate_command.py:137-142 | URLs that differ only in case select alike |
| Generate.SelectLowercaseUrl | generate_command.py:137-142 | for a URL without capitals the tests apply to the URL as written |
| Generate.DefaultUrlsLowercase | generate_command.py:48-52 | neither default endpoint has a capital |
| Generate.OpenAiUrlWords | generate_command.py:52 | the default OpenAI URL mentions `openai` and not `anthropic` |
| Generate.AnthropicUrlWords | generate_command.py:48 | the default Anthropic URL mentions `anthropic` |
| Generate.OpenAiDefaultNotPassed | generate_command.py:141-145 | the default OpenAI URL is not passed to the client and is not flagged Anthropic |
| Generate.AnthropicDefaultPassed | generate_command.py:137-140 | the default Anthropic URL is passed and flagged |
| Generate.DefaultEndpointFollowsKey | generate_command.py:44-53 | without BASE_URL the client is Anthropic, with its URL passed, iff the key starts with `sk-ant-`; otherwise no URL is passed |
| Generate.UserMessage | generate_command.py:157 | the user message is the fixed instruction, a blank line, then the query |
| Generate.UserMessageInjective | generate_command.py:157 | distinct queries give distinct messages, and the message contains the query |
| Generate.BuildRequest | generate_command.py:155-167 | the request holds the model, the system prompt then the user message, temperature 0.1 and 500 tokens |
| Generate.RequestCarriesQuery | generate_command.py:155-158 | the request carries the query verbatim and names the platform and the shell type |
| Generate.GenerateCommand | generate_command.py:116-186 | missing key exits iff resolution says so; config load fails iff the config file is undecodable, or is incomplete and `.env` loading raises; client failure and call failure are reported in order; otherwise the result is the cleaned reply |
| Generate.ProducedFromReply | generate_command.py:161-182 | a produced command is a contiguous piece of the reply to the request actually sent |
| Generate.Query | generate_command.py:196 | a single argument is the query itself |
| Generate.QueryKeepsArguments | generate_command.py:196 | arguments without spaces are recovered by splitting the query on spaces |
| Generate.QueryExample | generate_command.py:196 | `list all files` given as three words is sent as `list all files` |
| Generate.RunCli | generate_command.py:188-205 | exit status 1 iff there are arguments and the key is missing, else 0; usage is printed iff there are no arguments; a non-empty generated command is printed alone, an empty one gives the cannot-generate line; a missing key prints only its message; a failed stage prints its error then the cannot-generate line |
| Generate.UsageIgnoresHost | generate_command.py:191-193 | with no arguments the run is the usage line and status 0, whatever the host and service |
| Generate.CommandPrinted | generate_command.py:202-203 | a non-empty generated command is printed alone with status 0, and it is a piece of the reply |
| Generate.EmptyCommandReported | generate_command.py:202-205 | a reply that cleans to nothing prints the cannot-generate line with status 0 |

Behaviour of the code that may be unexpected, which the model keeps:

- The language-tag test compares the trimmed first line exactly, so
  `Bash` is not a tag.
- The clean-up is not idempotent.
- The fence branch after the backtick strip can never apply. A non-tag
  fenced block therefore keeps its final newline.
- `main` exits with status 0 whenever a command could not be generated,
  except for the missing-key exit inside `load_api_config`. That exit is
  a `SystemExit`, which `except Exception` does not catch, so the status
  is 1.
- An empty MODEL is treated as unset when defaults are filled in.
- A complete config file is used without the missing-key check.

## Left out

- The OpenAI client library and the network.
  - Constructing the client becomes a parameter that says whether
    construction succeeds.
  - The completion call becomes a function from the client set-up and
    the request to the reply content. It gives None when the call
    raises, the content is missing, or the model is absent and the
    service rejects the request.
- The text of error messages, including the exception text they embed.
  Each printed message is a `Line` value. `print` and `sys.exit` are
  modelled as the run's output lines and exit status.
- Reading `config.ini` and loading `.env`. The file becomes a
  `ConfigFile` value: its three lookups are present or absent, or it is
  undecodable. A file that cannot be opened is read as empty, so it has
  no lookups. The environment after loading becomes an `Environment`
  value: the variables, or a `.env` whose loading raised. The platform
  name and `SHELL` are inputs.
- The prompt and instruction wording. The original Chinese text is
  replaced by short English summary constants. The model proves where
  the platform name, the shell type, the addendum and the query go, not
  the wording.
- Text.Lower: models `lower()` only for ASCII capitals and U+0130. Other
  non-ASCII capitals are left unchanged, because the full Unicode case
  tables are not modelled.
- The ImportError exit when the `openai` package is missing. It is an
  environment failure at import time, outside the generator's logic.
- The `is_anthropic` flag is recorded in `ClientSetup`. The source never
  reads it again.
- `install_ai_terminal.py` is not part of this model.
