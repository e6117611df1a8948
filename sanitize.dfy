/** The clean-up `generate_command` applies to the model's reply before
    returning it: trim whitespace, strip backticks, remove a fence that
    cannot survive the backtick strip, and drop a leading language-tag line. */
module Sanitizer {
  import opened Text

  const Fence: String := "```"

  /** First lines taken for a Markdown language tag; compared exactly, so
      `Bash` is not one. */
  const LanguageTags: seq<String> := ["bash", "sh", "powershell", "cmd", "shell"]

  /** The reply trimmed of whitespace and then of backticks at both ends. */
  function Unquoted(content: String): (r: String)
    ensures |r| <= |content|
    ensures r == [] || (r[0] != '`' && r[|r| - 1] != '`')
  {
    Strip(Strip(content, Whitespace), Only('`'))
  }

  /** Python's `s[3:-3]`, empty when `s` is shorter than six characters. */
  function InsideFence(s: String): (r: String)
    ensures |s| >= 6 ==> s == s[..3] + r + s[|s| - 3..]
    ensures |s| < 6 ==> r == []
  {
    if |s| >= 6 then s[3..|s| - 3] else ""
  }

  /** Removes a surrounding triple-backtick fence and trims again. */
  function StripFence(s: String): (r: String)
    ensures |r| <= |s|
    ensures !(StartsWith(s, Fence) && EndsWith(s, Fence)) ==> r == s
  {
    if StartsWith(s, Fence) && EndsWith(s, Fence) then Strip(InsideFence(s), Whitespace) else s
  }

  /** Drops the first line when there are several lines and the first,
      trimmed of whitespace, is one of the language tags; the rest is then
      trimmed of whitespace. */
  function DropTagLine(s: String): (r: String)
    ensures r == s || ('\n' in s && |r| < |s|)
  {
    var lines := Split(s, '\n');
    if |lines| > 1 && Strip(lines[0], Whitespace) in LanguageTags
    then SplitAtFirst(s, '\n'); Strip(Join(lines[1..], '\n'), Whitespace)
    else s
  }

  /** The whole clean-up applied to the reply's message content. */
  function Sanitize(content: String): (r: String)
    ensures |r| <= |content|
    ensures var u := Unquoted(content); r == u || ('\n' in u && |r| < |u|)
  {
    FenceRemovalUnreachable(content);
    DropTagLine(StripFence(Unquoted(content)))
  }

  /** Once the backticks are stripped the text cannot start with a fence,
      so the fence removal never applies. */
  lemma FenceRemovalUnreachable(content: String)
    ensures !StartsWith(Unquoted(content), Fence)
    ensures StripFence(Unquoted(content)) == Unquoted(content)
  {
  }

  /** The tag-line rule on the backtick-stripped text: the first line is
      dropped exactly when a newline is present and the text before the
      first newline, trimmed, is a language tag; then the text after that
      newline, trimmed, is the result. Otherwise the text is returned as is. */
  lemma TagLineRule(content: String)
    ensures var u := Unquoted(content);
      && ('\n' in u && Strip(u[..IndexOf(u, '\n')], Whitespace) in LanguageTags ==>
            Sanitize(content) == Strip(u[IndexOf(u, '\n') + 1..], Whitespace))
      && (!('\n' in u && Strip(u[..IndexOf(u, '\n')], Whitespace) in LanguageTags) ==>
            Sanitize(content) == u)
  {
    FenceRemovalUnreachable(content);
    DropTagLineRule(Unquoted(content));
  }

  /** A slice of a slice is a slice. */
  lemma SliceOfSlice(s: String, a: nat, w: String, b: nat, m: nat)
    requires a + |w| <= |s| && w == s[a..a + |w|] && b + m <= |w|
    ensures w[b..b + m] == s[a + b..a + b + m]
  {
    var x, y := w[b..b + m], s[a + b..a + b + m];
    forall i | 0 <= i < m ensures x[i] == y[i] {
      assert x[i] == w[b + i] && y[i] == s[a + b + i];
    }
  }

  /** Stripping a slice of `s` gives a slice of `s`. */
  lemma StripOfSlice(s: String, a: nat, w: String, k: Strippable) returns (b: nat)
    requires a + |w| <= |s| && w == s[a..a + |w|]
    ensures a <= b && b + |Strip(w, k)| <= |s| && Strip(w, k) == s[b..b + |Strip(w, k)|]
  {
    var r, n := Strip(w, k), Leading(w, k);
    assert n + |r| <= |w| && r == w[n..n + |r|];
    SliceOfSlice(s, a, w, n, |r|);
    b := a + n;
  }

  /** The result is the backtick-stripped text, or the trimmed text after
      its first newline. */
  lemma SanitizeShape(content: String) returns (dropped: bool)
    ensures var u := Unquoted(content);
      && (!dropped ==> Sanitize(content) == u)
      && (dropped ==> '\n' in u && Sanitize(content) == Strip(u[IndexOf(u, '\n') + 1..], Whitespace))
  {
    var u := Unquoted(content);
    TagLineRule(content);
    dropped := '\n' in u && Strip(u[..IndexOf(u, '\n')], Whitespace) in LanguageTags;
  }

  /** The backtick-stripped text is a slice of the reply. */
  lemma UnquotedSlice(content: String) returns (b: nat)
    ensures b + |Unquoted(content)| <= |content|
    ensures Unquoted(content) == content[b..b + |Unquoted(content)|]
  {
    var a := StripOfSlice(content, 0, content, Whitespace);
    b := StripOfSlice(content, a, Strip(content, Whitespace), Only('`'));
  }

  /** The trimmed text after the first newline of the backtick-stripped
      text is a slice of the reply. */
  lemma AfterFirstLineSlice(content: String) returns (lo: nat, hi: nat)
    requires '\n' in Unquoted(content)
    ensures var u := Unquoted(content);
      lo <= hi <= |content| && Strip(u[IndexOf(u, '\n') + 1..], Whitespace) == content[lo..hi]
  {
    var b := UnquotedSlice(content);
    lo, hi := AfterNewlineSlice(content, b, Unquoted(content));
  }

  /** The trimmed text after the first newline of a slice of `s` is a
      slice of `s`. */
  lemma AfterNewlineSlice(s: String, b: nat, u: String) returns (lo: nat, hi: nat)
    requires b + |u| <= |s| && u == s[b..b + |u|] && '\n' in u
    ensures lo <= hi <= |s| && Strip(u[IndexOf(u, '\n') + 1..], Whitespace) == s[lo..hi]
  {
    var k := IndexOf(u, '\n') + 1;
    assert k <= |u|;
    lo, hi := StripSuffixSlice(s, b, u, k);
  }

  /** Stripping a suffix of a slice of `s` gives a slice of `s`. */
  lemma StripSuffixSlice(s: String, b: nat, u: String, k: nat) returns (lo: nat, hi: nat)
    requires b + |u| <= |s| && u == s[b..b + |u|] && k <= |u|
    ensures lo <= hi <= |s| && Strip(u[k..], Whitespace) == s[lo..hi]
  {
    SliceOfSlice(s, b, u, k, |u| - k);
    lo := StripOfSlice(s, b + k, u[k..], Whitespace);
    hi := lo + |Strip(u[k..], Whitespace)|;
  }

  /** The result is always one contiguous piece of the reply. */
  lemma SanitizedIsSlice(content: String) returns (lo: nat, hi: nat)
    ensures lo <= hi <= |content| && Sanitize(content) == content[lo..hi]
  {
    var dropped := SanitizeShape(content);
    if !dropped {
      var b := UnquotedSlice(content);
      lo, hi := b, b + |Unquoted(content)|;
    } else {
      lo, hi := AfterFirstLineSlice(content);
    }
  }

  /** The tag-line rule stated on positions: with a newline present and
      the trimmed text before the first one a tag, the result is the
      trimmed text after it; otherwise the text is left alone. */
  lemma DropTagLineRule(s: String)
    ensures '\n' in s && Strip(s[..IndexOf(s, '\n')], Whitespace) in LanguageTags ==>
      DropTagLine(s) == Strip(s[IndexOf(s, '\n') + 1..], Whitespace)
    ensures !('\n' in s && Strip(s[..IndexOf(s, '\n')], Whitespace) in LanguageTags) ==>
      DropTagLine(s) == s
  {
    var lines := Split(s, '\n');
    if '\n' in s {
      SplitAtFirst(s, '\n');
      var first, rest := s[..IndexOf(s, '\n')], s[IndexOf(s, '\n') + 1..];
      assert |lines| > 1 && lines[0] == first && Join(lines[1..], '\n') == rest;
    } else {
      assert |lines| == 1;
    }
  }

  /** Text whose first and last characters are neither whitespace nor
      backticks. */
  predicate Unframed(s: String) {
    && s != []
    && !IsPySpace(s[0]) && !IsPySpace(s[|s| - 1])
    && s[0] != '`' && s[|s| - 1] != '`'
  }

  /** A single line with nothing to trim at its ends. */
  predicate CleanLine(s: String) {
    Unframed(s) && '\n' !in s
  }

  /** Every language tag is a clean line. */
  lemma TagIsClean(tag: String)
    requires tag in LanguageTags
    ensures CleanLine(tag)
  {
  }

  /** Unframed text passes both strips untouched. */
  lemma UnframedUnquoted(s: String)
    requires Unframed(s)
    ensures Strip(s, Whitespace) == s && Unquoted(s) == s
  {
    StripKeeps(s, Whitespace);
    StripKeeps(s, Only('`'));
  }

  /** A clean line survives stripping, with or without a final newline. */
  lemma CleanLineStrips(line: String)
    requires CleanLine(line)
    ensures Strip(line, Whitespace) == line && Strip(line + "\n", Whitespace) == line
  {
    UnframedUnquoted(line);
    assert line + "\n" == [] + line + "\n";
    StripAround([], line, "\n", Whitespace);
  }

  /** Where the first newline splits a tag line from what follows. */
  lemma FirstLineSplit(tag: String, body: String)
    requires '\n' !in tag
    ensures var u := tag + ("\n" + body);
      && '\n' in u
      && u[..IndexOf(u, '\n')] == tag
      && u[IndexOf(u, '\n') + 1..] == body
  {
    IndexOfAfter(tag, "\n" + body, '\n');
  }

  /** A clean single-line reply comes back unchanged. */
  lemma CleanLineUnchanged(content: String)
    requires CleanLine(content)
    ensures Sanitize(content) == content
  {
    UnframedUnquoted(content);
    TagLineRule(content);
  }

  /** A command quoted in single backticks loses them. */
  lemma BacktickQuoted(cmd: String)
    requires CleanLine(cmd)
    ensures Sanitize("`" + cmd + "`") == cmd
  {
    var raw := "`" + cmd + "`";
    StripKeeps(raw, Whitespace);
    StripAround("`", cmd, "`", Only('`'));
    TagLineRule(raw);
  }

  /** A language-tag line in front of unframed text is dropped. */
  lemma TagLineThenText(tag: String, body: String)
    requires tag in LanguageTags && Unframed(body)
    ensures Sanitize(tag + ("\n" + body)) == body
  {
    TagIsClean(tag);
    CleanLineStrips(tag);
    CleanFirstLineDropped(tag, body);
  }

  /** A clean first line that trims to a language tag, in front of
      unframed text, is dropped. */
  lemma CleanFirstLineDropped(first: String, body: String)
    requires CleanLine(first) && Strip(first, Whitespace) in LanguageTags && Unframed(body)
    ensures Sanitize(first + ("\n" + body)) == body
  {
    var u := first + ("\n" + body);
    assert u[0] == first[0] && u[|u| - 1] == body[|body| - 1];
    FirstLineSplit(first, body);
    TagLineDropped(u, first, body);
  }

  /** Unframed text whose first line trims to a language tag loses that
      line; the unframed rest is kept whole. */
  lemma TagLineDropped(u: String, first: String, rest: String)
    requires Unframed(u) && '\n' in u
    requires u[..IndexOf(u, '\n')] == first && u[IndexOf(u, '\n') + 1..] == rest
    requires Strip(first, Whitespace) in LanguageTags && Unframed(rest)
    ensures Sanitize(u) == rest
  {
    UnframedUnquoted(u);
    UnframedUnquoted(rest);
    TagLineRule(u);
  }

  /** The fence markers around a text whose ends are not backticks are
      stripped away with the backticks. */
  lemma FenceUnquoted(u: String)
    requires u != [] && u[0] != '`' && u[|u| - 1] != '`'
    ensures Unquoted(Fence + u + Fence) == u
  {
    BacktickRunsUnquoted(Fence, u, Fence);
  }

  /** Backtick runs on both sides of a text whose ends are not backticks
      are stripped away. */
  lemma BacktickRunsUnquoted(pre: String, u: String, post: String)
    requires pre != [] && post != []
    requires forall i :: 0 <= i < |pre| ==> pre[i] == '`'
    requires forall i :: 0 <= i < |post| ==> post[i] == '`'
    requires u != [] && u[0] != '`' && u[|u| - 1] != '`'
    ensures Unquoted(pre + u + post) == u
  {
    var raw := pre + u + post;
    assert raw[0] == pre[0] && raw[|raw| - 1] == post[|post| - 1];
    StripKeeps(raw, Whitespace);
    StripAround(pre, u, post, Only('`'));
  }

  /** A fenced block whose first line is a clean line followed by a clean
      command line: a language tag is dropped together with the final
      newline; any other first line, `Bash` included, is kept along with
      the final newline. */
  lemma FencedBlock(first: String, cmd: String)
    requires CleanLine(first) && CleanLine(cmd)
    ensures first in LanguageTags ==>
      Sanitize(Fence + first + "\n" + cmd + "\n" + Fence) == cmd
    ensures first !in LanguageTags ==>
      Sanitize(Fence + first + "\n" + cmd + "\n" + Fence) == first + "\n" + cmd + "\n"
  {
    var u := first + ("\n" + (cmd + "\n"));
    assert Fence + first + "\n" + cmd + "\n" + Fence == Fence + u + Fence;
    assert first + "\n" + cmd + "\n" == u;
    FenceUnquoted(u);
    FenceRemovalUnreachable(Fence + u + Fence);
    FirstLineSplit(first, cmd + "\n");
    CleanLineStrips(first);
    CleanLineStrips(cmd);
    DropTagLineRule(u);
  }

  /** "ls -la" comes back unchanged. */
  lemma PlainExample(raw: String)
    requires raw == "ls -la"
    ensures Sanitize(raw) == "ls -la"
  {
    assert CleanLine(raw);
    CleanLineUnchanged(raw);
  }

  /** "`ls -la`" gives "ls -la". */
  lemma QuotedExample(raw: String)
    requires raw == "`ls -la`"
    ensures Sanitize(raw) == "ls -la"
  {
    var cmd: String := "ls -la";
    assert CleanLine(cmd);
    assert raw == "`" + cmd + "`";
    BacktickQuoted(cmd);
  }

  /** "```bash\nls -la\n```" gives "ls -la". */
  lemma FencedExample(raw: String)
    requires raw == "```bash\nls -la\n```"
    ensures Sanitize(raw) == "ls -la"
  {
    var tag: String, cmd: String := "bash", "ls -la";
    assert tag in LanguageTags;
    assert CleanLine(tag) && CleanLine(cmd);
    assert raw == Fence + tag + "\n" + cmd + "\n" + Fence;
    FencedBlock(tag, cmd);
  }

  /** The tag test is case-sensitive: "```Bash\nls\n```" gives "Bash\nls\n". */
  lemma CapitalisedTagExample(raw: String)
    requires raw == "```Bash\nls\n```"
    ensures Sanitize(raw) == "Bash\nls\n"
  {
    var tag: String, cmd: String := "Bash", "ls";
    assert raw == Fence + tag + "\n" + cmd + "\n" + Fence;
    assert CleanLine(tag) && CleanLine(cmd) && tag !in LanguageTags;
    assert tag + "\n" + cmd + "\n" == "Bash\nls\n";
    FencedBlock(tag, cmd);
  }

  /** Not idempotent: a second tag line survives one pass and is dropped
      by the next. */
  lemma SecondTagLineExample(raw: String)
    requires raw == "bash\nsh\nls"
    ensures Sanitize(raw) == "sh\nls" && Sanitize(Sanitize(raw)) == "ls"
  {
    var rest: String := "sh\nls";
    assert "bash" in LanguageTags && Unframed(rest);
    assert raw == "bash" + ("\n" + rest);
    TagLineThenText("bash", rest);
    ShTagExample(rest);
  }

  /** "sh\nls" gives "ls". */
  lemma ShTagExample(raw: String)
    requires raw == "sh\nls"
    ensures Sanitize(raw) == "ls"
  {
    assert "sh" in LanguageTags && Unframed("ls");
    assert raw == "sh" + ("\n" + "ls");
    TagLineThenText("sh", "ls");
  }

  /** Not idempotent: a space inside the backticks survives one pass and
      is trimmed by the next. */
  lemma SpaceInsideBackticksExample(raw: String)
    requires raw == "`ls `"
    ensures Sanitize(raw) == "ls " && Sanitize(Sanitize(raw)) == "ls"
  {
    var spaced: String := "ls ";
    StripKeeps(raw, Whitespace);
    assert raw == "`" + spaced + "`";
    StripAround("`", spaced, "`", Only('`'));
    assert '\n' !in spaced;
    TagLineRule(raw);
    SpaceTrimmed();
  }

  /** "ls " gives "ls". */
  lemma SpaceTrimmed()
    ensures Sanitize("ls ") == "ls"
  {
    var cmd: String := "ls";
    assert CleanLine(cmd);
    assert "ls " == [] + cmd + " ";
    StripAround([], cmd, " ", Whitespace);
    UnframedUnquoted(cmd);
    CleanLineUnchanged(cmd);
    TagLineRule("ls ");
  }
}
