/** The few Python `str` operations the command generator relies on:
    `strip`, `startswith`/`endswith`, `in`, `split`, `join` and `lower`,
    each written out over sequences of characters. */
module Text {

  type String = seq<char>

  /** The characters Python's argument-less `str.strip()` removes
      (those for which `str.isspace()` holds). */
  predicate IsPySpace(c: char) {
    var n := c as int;
    (9 <= n <= 13) || (28 <= n <= 32) || n == 0x85 || n == 0xA0 || n == 0x1680
    || (0x2000 <= n <= 0x200A) || n == 0x2028 || n == 0x2029 || n == 0x202F
    || n == 0x205F || n == 0x3000
  }

  /** What a call to `strip` removes: whitespace (`s.strip()`) or every
      occurrence of one character at the ends (`s.strip('`')`). */
  datatype Strippable = Whitespace | Only(ch: char)

  predicate Removes(k: Strippable, c: char) {
    match k
    case Whitespace => IsPySpace(c)
    case Only(x) => c == x
  }

  /** How many leading characters `k` removes. */
  function Leading(s: String, k: Strippable): (n: nat)
    ensures n <= |s|
    ensures n < |s| ==> !Removes(k, s[n])
  {
    if |s| > 0 && Removes(k, s[0]) then 1 + Leading(s[1..], k) else 0
  }

  /** The leading run is removable and stops at the first character that
      is not. */
  lemma {:induction false} LeadingRun(s: String, k: Strippable)
    ensures forall i :: 0 <= i < Leading(s, k) ==> Removes(k, s[i])
  {
    if |s| > 0 && Removes(k, s[0]) {
      LeadingRun(s[1..], k);
      forall i | 1 <= i < Leading(s, k) ensures Removes(k, s[i]) {
        assert s[i] == s[1..][i - 1];
      }
    }
  }

  /** How many trailing characters `k` removes. */
  function Trailing(s: String, k: Strippable): (n: nat)
    ensures n <= |s|
    ensures n < |s| ==> !Removes(k, s[|s| - 1 - n])
  {
    if |s| > 0 && Removes(k, s[|s| - 1]) then 1 + Trailing(s[..|s| - 1], k) else 0
  }

  /** The trailing run is removable and stops at the last character that
      is not. */
  lemma {:induction false} TrailingRun(s: String, k: Strippable)
    ensures forall i :: |s| - Trailing(s, k) <= i < |s| ==> Removes(k, s[i])
  {
    if |s| > 0 && Removes(k, s[|s| - 1]) {
      TrailingRun(s[..|s| - 1], k);
      forall i | |s| - Trailing(s, k) <= i < |s| - 1 ensures Removes(k, s[i]) {
        assert s[i] == s[..|s| - 1][i];
      }
    }
  }

  /** Python's `s.strip()` (k = Whitespace) and `s.strip(ch)` (k = Only(ch)):
      the run of `s` left between the leading and the trailing removable
      characters, neither starting nor ending with a removable one. */
  function Strip(s: String, k: Strippable): (r: String)
    ensures Leading(s, k) + |r| <= |s|
    ensures r == s[Leading(s, k)..Leading(s, k) + |r|]
    ensures r == [] || (!Removes(k, r[0]) && !Removes(k, r[|r| - 1]))
  {
    var lo := Leading(s, k);
    var t := s[lo..];
    t[..|t| - Trailing(t, k)]
  }

  /** Everything `strip` removes is removable: the characters before the
      kept run and those after it. */
  lemma StripRemovesOnly(s: String, k: Strippable)
    ensures forall i :: 0 <= i < Leading(s, k) ==> Removes(k, s[i])
    ensures forall i :: Leading(s, k) + |Strip(s, k)| <= i < |s| ==> Removes(k, s[i])
  {
    var lo := Leading(s, k);
    LeadingRun(s, k);
    TrailingOfRest(s, k, lo, |Strip(s, k)|);
  }

  /** The trailing part of `strip`'s work, on the rest after the leading run. */
  lemma TrailingOfRest(s: String, k: Strippable, lo: nat, n: nat)
    requires lo == Leading(s, k) && n == |Strip(s, k)|
    ensures forall i :: lo + n <= i < |s| ==> Removes(k, s[i])
  {
    var t := s[lo..];
    TrailingRun(t, k);
    assert n == |t| - Trailing(t, k);
    forall i | lo + n <= i < |s| ensures Removes(k, s[i]) {
      assert s[i] == t[i - lo];
    }
  }

  /** Stripping is the identity on a string whose ends are not removable. */
  lemma {:induction false} StripKeeps(s: String, k: Strippable)
    requires s == [] || (!Removes(k, s[0]) && !Removes(k, s[|s| - 1]))
    ensures Strip(s, k) == s
  {
    assert Leading(s, k) == 0;
    assert Trailing(s, k) == 0;
  }

  /** A removable prefix followed by a non-removable character is
      exactly the leading run. */
  lemma {:induction false} LeadingOf(pre: String, rest: String, k: Strippable)
    requires forall i :: 0 <= i < |pre| ==> Removes(k, pre[i])
    requires rest != [] && !Removes(k, rest[0])
    ensures Leading(pre + rest, k) == |pre|
  {
    if |pre| > 0 {
      assert (pre + rest)[0] == pre[0];
      assert (pre + rest)[1..] == pre[1..] + rest;
      LeadingOf(pre[1..], rest, k);
    } else {
      assert pre + rest == rest;
    }
  }

  /** A removable suffix preceded by a non-removable character is exactly
      the trailing run. */
  lemma {:induction false} TrailingOf(rest: String, post: String, k: Strippable)
    requires forall i :: 0 <= i < |post| ==> Removes(k, post[i])
    requires rest != [] && !Removes(k, rest[|rest| - 1])
    ensures Trailing(rest + post, k) == |post|
  {
    var s := rest + post;
    if |post| > 0 {
      assert s[|s| - 1] == post[|post| - 1];
      assert s[..|s| - 1] == rest + post[..|post| - 1];
      TrailingOf(rest, post[..|post| - 1], k);
    } else {
      assert s == rest;
    }
  }

  /** Conversely to the contract of `Strip`: removable characters around a
      run that starts and ends with non-removable ones are exactly what
      `strip` takes away. */
  lemma StripAround(pre: String, body: String, post: String, k: Strippable)
    requires forall i :: 0 <= i < |pre| ==> Removes(k, pre[i])
    requires forall i :: 0 <= i < |post| ==> Removes(k, post[i])
    requires body != [] && !Removes(k, body[0]) && !Removes(k, body[|body| - 1])
    ensures Strip(pre + body + post, k) == body
  {
    var s := pre + body + post;
    assert s == pre + (body + post);
    LeadingOf(pre, body + post, k);
    assert s[|pre|..] == body + post;
    TrailingOf(body, post, k);
    assert (body + post)[..|body|] == body;
  }

  /** Python's `s.startswith(p)`. */
  predicate StartsWith(s: String, p: String)
    ensures StartsWith(s, p) <==> |p| <= |s| && forall i :: 0 <= i < |p| ==> s[i] == p[i]
  {
    p <= s
  }

  /** Python's `s.endswith(p)`. */
  predicate EndsWith(s: String, p: String)
    ensures EndsWith(s, p) <==> |p| <= |s| && forall i :: 0 <= i < |p| ==> s[|s| - |p| + i] == p[i]
  {
    |p| <= |s| && s[|s| - |p|..] == p
  }

  /** Python's substring test `t in s` (true for the empty `t`). */
  predicate Contains(s: String, t: String)
    ensures t == [] ==> Contains(s, t)
    ensures Contains(s, t) ==> |t| <= |s|
    decreases |s|
  {
    t <= s || (|s| > 0 && Contains(s[1..], t))
  }

  /** An occurrence of `t` at any position makes `t in s` true. */
  lemma {:induction false} ContainsAt(s: String, t: String, i: nat)
    requires i + |t| <= |s| && s[i..i + |t|] == t
    ensures Contains(s, t)
    decreases i
  {
    if i > 0 {
      assert s[1..][i - 1..i - 1 + |t|] == s[i..i + |t|];
      ContainsAt(s[1..], t, i - 1);
    } else {
      assert t == s[..|t|];
    }
  }

  /** Conversely, `t in s` exhibits a position where `t` occurs. */
  lemma {:induction false} ContainsWitness(s: String, t: String) returns (i: nat)
    requires Contains(s, t)
    ensures i + |t| <= |s| && s[i..i + |t|] == t
    decreases |s|
  {
    if t <= s {
      i := 0;
    } else {
      var j := ContainsWitness(s[1..], t);
      i := j + 1;
      assert s[i..i + |t|] == s[1..][j..j + |t|];
    }
  }

  /** A `t` with a character absent from `s` is not in `s`. */
  lemma {:induction false} NotContains(s: String, t: String, j: nat)
    requires j < |t| && t[j] !in s
    ensures !Contains(s, t)
    decreases |s|
  {
    if |s| > 0 {
      assert forall c :: c in s[1..] ==> c in s;
      NotContains(s[1..], t, j);
    }
  }

  /** Index of the first `c` in `s`. */
  function IndexOf(s: String, c: char): (i: nat)
    requires c in s
    ensures i < |s| && s[i] == c && c !in s[..i]
  {
    if s[0] == c then 0 else 1 + IndexOf(s[1..], c)
  }

  /** The first `c` after a `c`-free prefix is the one right after it. */
  lemma {:induction false} IndexOfAfter(p: String, rest: String, c: char)
    requires c !in p && rest != [] && rest[0] == c
    ensures c in p + rest && IndexOf(p + rest, c) == |p|
  {
    assert (p + rest)[|p|] == c;
    if |p| > 0 {
      assert (p + rest)[1..] == p[1..] + rest;
      IndexOfAfter(p[1..], rest, c);
    }
  }

  /** Python's `s.split(c)`: always at least one part, none containing `c`,
      and more than one part exactly when `c` occurs in `s`. */
  function Split(s: String, c: char): (r: seq<String>)
    ensures |r| >= 1
    ensures forall i :: 0 <= i < |r| ==> c !in r[i]
    ensures |r| > 1 <==> c in s
  {
    if |s| == 0 then [""]
    else
      var t := Split(s[1..], c);
      if s[0] == c then [""] + t else [[s[0]] + t[0]] + t[1..]
  }

  /** Python's `c.join(parts)`. */
  function Join(parts: seq<String>, c: char): (r: String)
    ensures |parts| == 0 ==> r == ""
    ensures |parts| == 1 ==> r == parts[0]
    ensures |parts| >= 1 ==> StartsWith(r, parts[0]) && EndsWith(r, parts[|parts| - 1])
    ensures |parts| >= 2 ==> |r| > |parts[0]| && r[|parts[0]|] == c
  {
    if |parts| == 0 then ""
    else if |parts| == 1 then parts[0]
    else parts[0] + [c] + Join(parts[1..], c)
  }

  /** Prepending a character to the first part prepends it to the join. */
  lemma JoinExtendFirst(x: char, parts: seq<String>, c: char)
    requires |parts| >= 1
    ensures Join([[x] + parts[0]] + parts[1..], c) == [x] + Join(parts, c)
  {
    var q := [[x] + parts[0]] + parts[1..];
    if |parts| > 1 {
      assert q[1..] == parts[1..];
    }
  }

  /** Joining the parts of a split gives back the original string. */
  lemma {:induction false} JoinSplit(s: String, c: char)
    ensures Join(Split(s, c), c) == s
  {
    if |s| > 0 {
      var t := Split(s[1..], c);
      JoinSplit(s[1..], c);
      if s[0] == c {
        assert ([""] + t)[1..] == t;
      } else {
        JoinExtendFirst(s[0], t, c);
      }
      assert [s[0]] + s[1..] == s;
    }
  }

  /** A separator-free string splits into itself alone. */
  lemma {:induction false} SplitWhole(p: String, c: char)
    requires c !in p
    ensures Split(p, c) == [p]
  {
    if |p| > 0 {
      SplitWhole(p[1..], c);
      assert [p[0]] + p[1..] == p;
    }
  }

  /** A separator-free first part splits off first. */
  lemma {:induction false} SplitFirstPart(p: String, rest: String, c: char)
    requires c !in p
    ensures Split(p + [c] + rest, c) == [p] + Split(rest, c)
  {
    var s := p + [c] + rest;
    if |p| == 0 {
      assert s[1..] == rest;
    } else {
      assert s[1..] == p[1..] + [c] + rest;
      SplitFirstPart(p[1..], rest, c);
      assert [p[0]] + p[1..] == p;
    }
  }

  /** Splitting the join of separator-free parts gives the parts back. */
  lemma {:induction false} SplitJoin(parts: seq<String>, c: char)
    requires |parts| >= 1
    requires forall i :: 0 <= i < |parts| ==> c !in parts[i]
    ensures Split(Join(parts, c), c) == parts
  {
    if |parts| == 1 {
      SplitWhole(parts[0], c);
    } else {
      SplitJoin(parts[1..], c);
      SplitFirstPart(parts[0], Join(parts[1..], c), c);
      assert [parts[0]] + parts[1..] == parts;
    }
  }

  /** The first part of a split is the text before the first separator,
      and joining the remaining parts gives the text after it. */
  lemma SplitAtFirst(s: String, c: char)
    requires c in s
    ensures Split(s, c)[0] == s[..IndexOf(s, c)]
    ensures Join(Split(s, c)[1..], c) == s[IndexOf(s, c) + 1..]
  {
    var k := IndexOf(s, c);
    assert s == s[..k] + [c] + s[k + 1..];
    SplitFirstPart(s[..k], s[k + 1..], c);
    assert Split(s, c)[1..] == Split(s[k + 1..], c);
    JoinSplit(s[k + 1..], c);
  }

  /** Python's `str.lower()` on one character: ASCII capitals, and U+0130
      (capital I with dot above), whose lowercase form is two characters. */
  function LowerChar(c: char): String {
    if 'A' <= c <= 'Z' then [(c as int + 32) as char]
    else if c == '\U{0130}' then "i̇"
    else [c]
  }

  /** Python's `s.lower()`. */
  function Lower(s: String): (r: String)
    ensures |r| >= |s|
  {
    if |s| == 0 then "" else LowerChar(s[0]) + Lower(s[1..])
  }

  /** Text with nothing for `lower()` to change. */
  predicate NoCapitals(s: String) {
    forall i :: 0 <= i < |s| ==> !('A' <= s[i] <= 'Z') && s[i] != '\U{0130}'
  }

  /** Text without capitals is its own lowercase form. */
  lemma {:induction false} LowerKeeps(s: String)
    requires NoCapitals(s)
    ensures Lower(s) == s
  {
    if |s| > 0 {
      LowerKeeps(s[1..]);
      assert [s[0]] + s[1..] == s;
    }
  }

  lemma {:induction false} LowerAppend(a: String, b: String)
    ensures Lower(a + b) == Lower(a) + Lower(b)
  {
    if |a| > 0 {
      assert (a + b)[0] == a[0] && (a + b)[1..] == a[1..] + b;
      LowerAppend(a[1..], b);
    } else {
      assert a + b == b;
    }
  }

  /** Lowering is idempotent: a lowered string has no capitals left. */
  lemma {:induction false} LowerIdempotent(s: String)
    ensures Lower(Lower(s)) == Lower(s)
  {
    if |s| > 0 {
      LowerIdempotent(s[1..]);
      LowerAppend(LowerChar(s[0]), Lower(s[1..]));
      var l := LowerChar(s[0]);
      if |l| == 1 {
        assert Lower(l) == LowerChar(l[0]) + Lower(l[1..]);
      } else {
        assert Lower(l) == LowerChar(l[0]) + Lower(l[1..]);
        assert Lower(l[1..]) == LowerChar(l[1]) + Lower(l[2..]);
      }
    }
  }

  /** Two strings that differ only in letter case. */
  predicate SameIgnoringCase(s: String, t: String) {
    |s| == |t| && forall i :: 0 <= i < |s| ==> LowerChar(s[i]) == LowerChar(t[i])
  }

  /** Strings that differ only in letter case lower to the same string. */
  lemma {:induction false} LowerIgnoresCase(s: String, t: String)
    requires SameIgnoringCase(s, t)
    ensures Lower(s) == Lower(t)
  {
    if |s| > 0 {
      assert SameIgnoringCase(s[1..], t[1..]) by {
        forall i | 0 <= i < |s| - 1 ensures LowerChar(s[1..][i]) == LowerChar(t[1..][i]) {
          assert s[1..][i] == s[i + 1] && t[1..][i] == t[i + 1];
        }
      }
      LowerIgnoresCase(s[1..], t[1..]);
      assert LowerChar(s[0]) == LowerChar(t[0]);
    }
  }
}
