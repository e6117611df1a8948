/** `get_system_prompt`: the system-role instruction built from the platform
    name and the SHELL variable. The wording is carried by constants that
    summarise the original instructions in English; what is proved is where
    the platform and shell names go and which addendum follows. */
module Prompt {
  import opened Wrappers
  import opened Text

  const Intro: String := "Shell-command assistant.\n- OS: "
  const ShellLine: String := "\n- Shell: "
  const Rules: String := "\n- Command only; nothing destructive; no placeholders; pipes allowed; keep it simple\n"

  const WindowsNote: String := "\nWindows: PowerShell syntax and aliases, backslash paths\n"
  const MacNote: String := "\nmacOS: open/pbcopy, escaped spaces, / paths\n"
  const LinuxNote: String := "\nLinux: GNU tools, / paths, globs, pipes, redirection\n"

  /** The shell type named in the prompt. */
  datatype ShellType = PowerShell | Zsh | Bash | GenericShell {
    function Name(): String {
      match this
      case PowerShell => "PowerShell"
      case Zsh => "Zsh"
      case Bash => "Bash"
      case GenericShell => "Shell"
    }
  }

  /** The shell string inspected: SHELL (empty when unset) off Windows,
      the literal "PowerShell" on Windows. */
  function ShellString(system: String, shellVar: Option<String>): (r: String)
    ensures system == "Windows" ==> r == "PowerShell"
    ensures system != "Windows" ==> r == (if shellVar.Some? then shellVar.value else "")
  {
    if system != "Windows" then shellVar.GetOr("") else "PowerShell"
  }

  /** Windows first, then "zsh" before "bash" as substrings, else generic. */
  function ShellTypeOf(system: String, shell: String): (t: ShellType)
    ensures t == PowerShell <==> system == "Windows"
    ensures system != "Windows" ==> (t == Zsh <==> Contains(shell, "zsh"))
    ensures system != "Windows" ==> (t == Bash <==> !Contains(shell, "zsh") && Contains(shell, "bash"))
  {
    if system == "Windows" then PowerShell
    else if Contains(shell, "zsh") then Zsh
    else if Contains(shell, "bash") then Bash
    else GenericShell
  }

  /** The common part of the prompt, naming the platform and shell type. */
  function Preamble(system: String, shellName: String): (r: String)
    ensures var at := |Intro| + |system| + |ShellLine|;
      && |r| == at + |shellName| + |Rules|
      && r[..|Intro|] == Intro && r[|Intro|..|Intro| + |system|] == system
      && r[at..at + |shellName|] == shellName && r[at + |shellName|..] == Rules
  {
    Intro + system + ShellLine + shellName + Rules
  }

  /** The addendum for the platform: one each for Windows, Darwin and
      Linux, none for any other platform name. */
  function Addendum(system: String): (r: String)
    ensures r == WindowsNote <==> system == "Windows"
    ensures r == MacNote <==> system == "Darwin"
    ensures r == LinuxNote <==> system == "Linux"
    ensures r == "" <==> system != "Windows" && system != "Darwin" && system != "Linux"
  {
    assert |WindowsNote| != |MacNote| && |WindowsNote| != |LinuxNote| && |MacNote| != |LinuxNote|;
    assert |WindowsNote| > 0 && |MacNote| > 0 && |LinuxNote| > 0;
    if system == "Windows" then WindowsNote
    else if system == "Darwin" then MacNote
    else if system == "Linux" then LinuxNote
    else ""
  }

  /** `get_system_prompt`: the preamble followed by the platform addendum.
      The platform name sits right after the introduction, the shell type
      right after the shell line. */
  function SystemPrompt(system: String, shellVar: Option<String>): (r: String)
    ensures var name := ShellTypeOf(system, ShellString(system, shellVar)).Name();
      var at := |Intro + system + ShellLine|;
      && |Intro| + |system| <= |r| && r[|Intro|..|Intro| + |system|] == system
      && at + |name| <= |r| && r[at..at + |name|] == name
    ensures var p := Preamble(system, ShellTypeOf(system, ShellString(system, shellVar)).Name());
      |p| <= |r| && r[..|p|] == p && r[|p|..] == Addendum(system)
  {
    var name := ShellTypeOf(system, ShellString(system, shellVar)).Name();
    Layout(Intro, system, ShellLine, name, Rules, Addendum(system));
    Preamble(system, name) + Addendum(system)
  }

  /** Where each part lies in `a + system + b + name + c + d`. */
  lemma Layout(a: String, system: String, b: String, name: String, c: String, d: String)
    ensures var r := a + system + b + name + c + d;
      && r[|a|..|a| + |system|] == system
      && r[|a + system + b|..|a + system + b| + |name|] == name
      && r[..|a + system + b + name + c|] == a + system + b + name + c
      && r[|a + system + b + name + c|..] == d
  {
  }

  /** The prompt always mentions the platform name and the shell type. */
  lemma PromptNamesPlatformAndShell(system: String, shellVar: Option<String>)
    ensures Contains(SystemPrompt(system, shellVar), system)
    ensures Contains(SystemPrompt(system, shellVar), ShellTypeOf(system, ShellString(system, shellVar)).Name())
  {
    var r := SystemPrompt(system, shellVar);
    ContainsAt(r, system, |Intro|);
    ContainsAt(r, ShellTypeOf(system, ShellString(system, shellVar)).Name(), |Intro + system + ShellLine|);
  }

  /** The text after the preamble tells which addendum was chosen: each
      of the three notes appears exactly for its platform, and nothing is
      appended for any other platform. */
  lemma AddendumChosen(system: String, shellVar: Option<String>)
    ensures var r := SystemPrompt(system, shellVar);
      var n := |Preamble(system, ShellTypeOf(system, ShellString(system, shellVar)).Name())|;
      var tail := r[n..];
      && (tail == WindowsNote <==> system == "Windows")
      && (tail == MacNote <==> system == "Darwin")
      && (tail == LinuxNote <==> system == "Linux")
      && (tail == "" <==> system != "Windows" && system != "Darwin" && system != "Linux")
  {
  }

  /** On Windows the shell type is PowerShell whatever SHELL says. */
  lemma WindowsIgnoresShell(v1: Option<String>, v2: Option<String>)
    ensures SystemPrompt("Windows", v1) == SystemPrompt("Windows", v2)
    ensures ShellTypeOf("Windows", ShellString("Windows", v1)) == PowerShell
  {
  }

  /** Off Windows, "zsh" is looked for before "bash": a SHELL mentioning
      both gives Zsh. */
  lemma ZshBeforeBash(system: String, sh: String)
    requires system != "Windows" && Contains(sh, "zsh") && Contains(sh, "bash")
    ensures ShellTypeOf(system, ShellString(system, Some(sh))) == Zsh
  {
  }

  /** A SHELL naming both shells, as in `/usr/bin/zsh-bash`, gives Zsh. */
  lemma ZshBashPathExample()
    ensures ShellTypeOf("Linux", ShellString("Linux", Some("/usr/bin/zsh-bash"))) == Zsh
  {
    var sh := "/usr/bin/zsh-bash";
    assert sh[9..12] == "zsh";
    ContainsAt(sh, "zsh", 9);
  }

  /** Off Windows, a bash path gives Bash. */
  lemma BashShell(system: String, sh: String)
    requires system != "Windows" && sh == "/bin/bash"
    ensures ShellTypeOf(system, ShellString(system, Some(sh))) == Bash
  {
    assert 'z' !in sh;
    NotContains(sh, "zsh", 0);
    assert sh[5..9] == "bash";
    ContainsAt(sh, "bash", 5);
  }

  /** Off Windows, an unset SHELL gives the generic shell type. */
  lemma UnsetShell(system: String)
    requires system != "Windows"
    ensures ShellTypeOf(system, ShellString(system, None)) == GenericShell
  {
    NotContains("", "zsh", 0);
    NotContains("", "bash", 0);
  }
}
