/** The Python `str` operations the modelled code relies on: `startswith`,
    `endswith`, `in`, `strip()`, `replace`, `split('\n')`, `join`, `upper()`
    and `str(int)`, each defined once over `seq<char>`. */
module Text {

  predicate StartsWith(s: string, prefix: string) {
    |prefix| <= |s| && s[..|prefix|] == prefix
  }

  predicate EndsWith(s: string, suffix: string) {
    |suffix| <= |s| && s[|s| - |suffix|..] == suffix
  }

  /** `sub` occurs in `s` as a contiguous piece. */
  predicate Contains(s: string, sub: string)
    decreases |s|
  {
    StartsWith(s, sub) || (|s| > 0 && Contains(s[1..], sub))
  }

  lemma {:induction false} ContainsInfix(a: string, b: string, c: string)
    ensures Contains(a + b + c, b)
  {
    if a == [] {
      assert a + b + c == b + c;
      assert (b + c)[..|b|] == b;
    } else {
      assert (a + b + c)[1..] == a[1..] + b + c;
      ContainsInfix(a[1..], b, c);
    }
  }

  lemma {:induction false} ContainsInPrefix(a: string, b: string, sub: string)
    requires Contains(a, sub)
    ensures Contains(a + b, sub)
  {
    if StartsWith(a, sub) {
      assert (a + b)[..|sub|] == a[..|sub|];
    } else {
      assert (a + b)[1..] == a[1..] + b;
      ContainsInPrefix(a[1..], b, sub);
    }
  }

  lemma {:induction false} ContainsAfterPrefix(a: string, x: string, sub: string)
    requires Contains(x, sub)
    ensures Contains(a + x, sub)
  {
    if a != [] {
      assert (a + x)[1..] == a[1..] + x;
      ContainsAfterPrefix(a[1..], x, sub);
    } else {
      assert a + x == x;
    }
  }

  /** A text found inside the middle part is found in the whole. */
  lemma ContainsInInfix(a: string, t: string, b: string, sub: string)
    requires Contains(t, sub)
    ensures Contains(a + t + b, sub)
  {
    ContainsInPrefix(t, b, sub);
    ContainsAfterPrefix(a, t + b, sub);
    assert a + (t + b) == a + t + b;
  }

  /** A text found in a part of `s` is found in `s`. */
  lemma {:induction false} ContainsTrans(s: string, part: string, sub: string)
    requires Contains(s, part) && Contains(part, sub)
    ensures Contains(s, sub)
  {
    if StartsWith(s, part) {
      assert s == part + s[|part|..];
      ContainsInPrefix(part, s[|part|..], sub);
    } else {
      ContainsTrans(s[1..], part, sub);
    }
  }

  /** A text holding a character `s` lacks does not occur in `s`. */
  lemma {:induction false} MissingCharNotContained(s: string, sub: string, c: char)
    requires c in sub && c !in s
    ensures !Contains(s, sub)
    decreases |s|
  {
    if |s| > 0 {
      MissingCharNotContained(s[1..], sub, c);
    }
  }

  /** Each joined part occurs in the joined text. */
  lemma {:induction false} JoinContains(sep: string, parts: seq<string>, k: nat)
    requires k < |parts|
    ensures Contains(Join(sep, parts), parts[k])
  {
    if |parts| == 1 {
      ContainsInfix([], parts[0], []);
      assert [] + parts[0] + [] == parts[0];
    } else if k == 0 {
      ContainsInfix([], parts[0], sep + Join(sep, parts[1..]));
      assert [] + parts[0] + (sep + Join(sep, parts[1..])) == Join(sep, parts);
    } else {
      JoinContains(sep, parts[1..], k - 1);
      ContainsAfterPrefix(parts[0] + sep, Join(sep, parts[1..]), parts[k]);
    }
  }

  // ---------------------------------------------------------------------------
  // Whitespace and strip()
  // ---------------------------------------------------------------------------

  /** Python's `str.isspace()` for one character. */
  predicate IsSpace(c: char) {
    var n := c as int;
    (9 <= n <= 13) || (28 <= n <= 32) || n == 0x85 || n == 0xA0 || n == 0x1680
    || (0x2000 <= n <= 0x200A) || n == 0x2028 || n == 0x2029 || n == 0x202F
    || n == 0x205F || n == 0x3000
  }

  predicate AllSpace(s: string) {
    forall i | 0 <= i < |s| :: IsSpace(s[i])
  }

  function StripLeft(s: string): (r: string)
    ensures |r| <= |s|
  {
    if |s| > 0 && IsSpace(s[0]) then StripLeft(s[1..]) else s
  }

  /** `StripLeft` removes a whitespace prefix and stops at the first other character. */
  lemma {:induction false} StripLeftFacts(s: string)
    ensures var r := StripLeft(s);
      |r| <= |s| && r == s[|s| - |r|..] && (r == [] || !IsSpace(r[0])) && AllSpace(s[..|s| - |r|])
  {
    if |s| > 0 && IsSpace(s[0]) {
      StripLeftFacts(s[1..]);
      var r := StripLeft(s);
      assert s[1..][|s| - 1 - |r|..] == s[|s| - |r|..];
      assert forall i | 0 <= i < |s| - |r| :: s[i] == (if i == 0 then s[0] else s[1..][i - 1]);
    } else {
      assert s[..0] == [];
    }
  }

  function StripRight(s: string): (r: string)
    ensures |r| <= |s|
  {
    if |s| > 0 && IsSpace(s[|s| - 1]) then StripRight(s[..|s| - 1]) else s
  }

  /** `StripRight` removes a whitespace suffix and stops at the last other character. */
  lemma {:induction false} StripRightFacts(s: string)
    ensures var r := StripRight(s);
      |r| <= |s| && r == s[..|r|] && (r == [] || !IsSpace(r[|r| - 1])) && AllSpace(s[|r|..])
  {
    if |s| > 0 && IsSpace(s[|s| - 1]) {
      var init := s[..|s| - 1];
      StripRightFacts(init);
      var r := StripRight(s);
      assert init[..|r|] == s[..|r|];
      assert forall i | |r| <= i < |s| :: s[i] == (if i == |s| - 1 then s[|s| - 1] else init[i]);
    } else {
      assert s[|s|..] == [];
    }
  }

  /** Python's `str.strip()`: the result neither starts nor ends with
      whitespace; `StripInfix` shows it is what remains of `s` once only
      whitespace has been removed from both ends. */
  function Strip(s: string): (r: string)
    ensures r == [] || (!IsSpace(r[0]) && !IsSpace(r[|r| - 1]))
  {
    var t := StripLeft(s);
    StripLeftFacts(s);
    StripRightFacts(t);
    var r := StripRight(t);
    assert r == [] || r[0] == t[0];
    r
  }

  lemma StripInfix(s: string)
    ensures var k := |s| - |StripLeft(s)|; var r := Strip(s);
      k + |r| <= |s| && s[k..k + |r|] == r && AllSpace(s[..k]) && AllSpace(s[k + |r|..])
  {
    var t := StripLeft(s);
    var r := StripRight(t);
    StripLeftFacts(s);
    StripRightFacts(t);
    var k := |s| - |t|;
    assert s[k..k + |r|] == t[..|r|];
    assert s[k + |r|..] == t[|r|..];
  }

  lemma {:induction false} StripLeftSkipsSpace(w: string, x: string)
    requires AllSpace(w)
    ensures StripLeft(w + x) == StripLeft(x)
  {
    if w == [] {
      assert w + x == x;
    } else {
      assert (w + x)[0] == w[0];
      assert (w + x)[1..] == w[1..] + x;
      StripLeftSkipsSpace(w[1..], x);
    }
  }

  lemma {:induction false} StripRightSkipsSpace(x: string, w: string)
    requires AllSpace(w)
    ensures StripRight(x + w) == StripRight(x)
  {
    if w == [] {
      assert x + w == x;
    } else {
      var n := |w|;
      assert (x + w)[|x + w| - 1] == w[n - 1];
      assert (x + w)[..|x + w| - 1] == x + w[..n - 1];
      StripRightSkipsSpace(x, w[..n - 1]);
    }
  }

  lemma {:induction false} StripLeftAppend(x: string, y: string)
    ensures StripLeft(x + y) == if StripLeft(x) == [] then StripLeft(y) else StripLeft(x) + y
  {
    if x == [] {
      assert x + y == y;
    } else if IsSpace(x[0]) {
      assert (x + y)[0] == x[0];
      assert (x + y)[1..] == x[1..] + y;
      StripLeftAppend(x[1..], y);
    } else {
      assert (x + y)[0] == x[0];
    }
  }

  /** Whitespace around a text is exactly what `strip()` removes. */
  lemma StripPadded(w1: string, c: string, w2: string)
    requires AllSpace(w1) && AllSpace(w2)
    ensures Strip(w1 + c + w2) == Strip(c)
  {
    assert w1 + c + w2 == w1 + (c + w2);
    StripLeftSkipsSpace(w1, c + w2);
    StripLeftAppend(c, w2);
    if StripLeft(c) == [] {
      StripLeftSkipsSpace(w2, []);
      assert w2 + [] == w2;
    } else {
      StripRightSkipsSpace(StripLeft(c), w2);
    }
  }

  /** A text that neither starts nor ends with whitespace is left alone. */
  lemma StripUnpadded(s: string)
    requires s == [] || (!IsSpace(s[0]) && !IsSpace(s[|s| - 1]))
    ensures Strip(s) == s
  {
  }

  lemma StripIdempotent(s: string)
    ensures Strip(Strip(s)) == Strip(s)
  {
    StripUnpadded(Strip(s));
  }

  // ---------------------------------------------------------------------------
  // replace, split, join, upper, str(int)
  // ---------------------------------------------------------------------------

  /** Python's `s.replace(pat, rep)`: every non-overlapping occurrence of `pat`,
      scanning from the left, is replaced. */
  function ReplaceAll(s: string, pat: string, rep: string): string
    requires |pat| > 0
    decreases |s|
  {
    if |s| < |pat| then s
    else if s[..|pat|] == pat then rep + ReplaceAll(s[|pat|..], pat, rep)
    else [s[0]] + ReplaceAll(s[1..], pat, rep)
  }

  /** Removing every ".py" from `stem + ".py"` gives back `stem` exactly when
      no ".py" occurs earlier: the suffix cannot overlap a match inside `stem`. */
  lemma {:induction false} RemovePySuffix(stem: string)
    requires !Contains(stem, ".py")
    ensures ReplaceAll(stem + ".py", ".py", "") == stem
  {
    var s := stem + ".py";
    if stem == [] {
      assert s == ".py";
      assert s[3..] == [];
    } else {
      assert s[..3] != ".py" by {
        if |stem| >= 3 {
          assert s[..3] == stem[..3];
        } else {
          assert s[|stem|] == '.';
        }
      }
      assert s[1..] == stem[1..] + ".py";
      assert !Contains(stem[1..], ".py");
      RemovePySuffix(stem[1..]);
    }
  }

  /** The parts with `sep` between each two of them. */
  function Join(sep: string, parts: seq<string>): string {
    if |parts| == 0 then ""
    else if |parts| == 1 then parts[0]
    else parts[0] + sep + Join(sep, parts[1..])
  }

  function CountChar(s: string, c: char): nat {
    if |s| == 0 then 0 else (if s[0] == c then 1 else 0) + CountChar(s[1..], c)
  }

  /** Python's `s.split('\n')`: one piece more than there are line breaks,
      and no piece contains a line break. */
  function Lines(s: string): (r: seq<string>)
    ensures |r| == CountChar(s, '\n') + 1
    ensures forall k | 0 <= k < |r| :: '\n' !in r[k]
  {
    if |s| == 0 then [""]
    else
      var rest := Lines(s[1..]);
      if s[0] == '\n' then [""] + rest
      else [[s[0]] + rest[0]] + rest[1..]
  }

  lemma {:induction false} LinesConcat(a: string, b: string)
    ensures Lines(a + "\n" + b) == Lines(a) + Lines(b)
  {
    var s := a + "\n" + b;
    if a == [] {
      assert s == "\n" + b;
      assert s[1..] == b;
    } else {
      assert s[0] == a[0];
      assert s[1..] == a[1..] + "\n" + b;
      LinesConcat(a[1..], b);
    }
  }

  lemma {:induction false} LinesOfLine(x: string)
    requires '\n' !in x
    ensures Lines(x) == [x]
  {
    if x != [] {
      assert x[1..] == x[1..];
      assert '\n' !in x[1..];
      LinesOfLine(x[1..]);
      assert [x[0]] + x[1..] == x;
    }
  }

  /** Splitting a newline-joined list of single lines gives the list back. */
  lemma {:induction false} LinesOfJoin(xs: seq<string>)
    requires |xs| > 0
    requires forall k | 0 <= k < |xs| :: '\n' !in xs[k]
    ensures Lines(Join("\n", xs)) == xs
  {
    if |xs| == 1 {
      LinesOfLine(xs[0]);
    } else {
      LinesConcat(xs[0], Join("\n", xs[1..]));
      LinesOfLine(xs[0]);
      LinesOfJoin(xs[1..]);
    }
  }

  function UpperChar(c: char): char {
    if 'a' <= c <= 'z' then (c as int - 32) as char else c
  }

  /** `s.upper()`, restricted to the ASCII letters. */
  function UpperAscii(s: string): (r: string)
    ensures |r| == |s| && forall k | 0 <= k < |s| :: r[k] == UpperChar(s[k])
  {
    seq(|s|, k requires 0 <= k < |s| => UpperChar(s[k]))
  }

  function Digit(d: int): char
    requires 0 <= d < 10
  {
    ('0' as int + d) as char
  }

  function NatToString(n: nat): (r: string)
    ensures |r| > 0 && forall k | 0 <= k < |r| :: '0' <= r[k] <= '9'
  {
    if n < 10 then [Digit(n)] else NatToString(n / 10) + [Digit(n % 10)]
  }

  /** `str(n)` for an `int` */
  function IntToString(n: int): (r: string)
    ensures '\n' !in r
  {
    if n < 0 then "-" + NatToString(-n) else NatToString(n)
  }

  // ---------------------------------------------------------------------------
  // Cleaning a JSON reply (src/agents/auditor.py:236-243, src/agents/judge.py:250-257)
  // ---------------------------------------------------------------------------

  /** Drop a leading "```json", then (independently) a leading "```", then a
      trailing "```". */
  function DropFences(c0: string): (r: string)
    ensures |r| <= |c0|
  {
    var c1 := if StartsWith(c0, "```json") then c0[7..] else c0;
    var c2 := if StartsWith(c1, "```") then c1[3..] else c1;
    if EndsWith(c2, "```") then c2[..|c2| - 3] else c2
  }

  /** The reply cleaning: strip, drop the fences, strip again. */
  function CleanJsonFences(response: string): (r: string)
    ensures r == [] || (!IsSpace(r[0]) && !IsSpace(r[|r| - 1]))
  {
    Strip(DropFences(Strip(response)))
  }

  lemma NewlineIsSpace()
    ensures AllSpace("\n")
  {
    var nl := "\n";
    assert |nl| == 1 && nl[0] == '\n';
    assert IsSpace(nl[0]);
  }

  /** A reply fenced as a ```json block cleans to its stripped body. */
  lemma JsonFenceRoundTrip(body: string)
    ensures CleanJsonFences("```json\n" + body + "\n```") == Strip(body)
  {
    var fenced := "```json\n" + body + "\n```";
    var inner := "\n" + body + "\n";
    assert fenced[0] == '`' && fenced[|fenced| - 1] == '`';
    StripUnpadded(fenced);
    JsonFenceDropped(body);
    assert DropFences(Strip(fenced)) == inner;
    NewlineIsSpace();
    StripPadded("\n", body, "\n");
    assert Strip(inner) == Strip(body);
  }

  lemma JsonFenceDropped(body: string)
    ensures DropFences("```json\n" + body + "\n```") == "\n" + body + "\n"
  {
    var inner := "\n" + body + "\n";
    var tail := inner + "```";
    var fenced := "```json" + tail;
    assert fenced == "```json\n" + body + "\n```";
    assert fenced[..7] == "```json";
    assert fenced[7..] == tail;
    assert tail[0] == '\n';
    assert tail[..|tail| - 3] == inner;
    assert tail[|tail| - 3..] == "```";
  }

  /** A reply that is just a fenced block with no language tag also cleans to its body. */
  lemma PlainFenceRoundTrip(body: string)
    ensures CleanJsonFences("```\n" + body + "\n```") == Strip(body)
  {
    var fenced := "```\n" + body + "\n```";
    var inner := "\n" + body + "\n";
    assert fenced[0] == '`' && fenced[|fenced| - 1] == '`';
    StripUnpadded(fenced);
    PlainFenceDropped(body);
    assert DropFences(Strip(fenced)) == inner;
    NewlineIsSpace();
    StripPadded("\n", body, "\n");
    assert Strip(inner) == Strip(body);
  }

  lemma PlainFenceDropped(body: string)
    ensures DropFences("```\n" + body + "\n```") == "\n" + body + "\n"
  {
    var inner := "\n" + body + "\n";
    var tail := inner + "```";
    var fenced := "```" + tail;
    assert fenced == "```\n" + body + "\n```";
    assert fenced[3] == '\n';
    assert fenced[..3] == "```";
    assert fenced[3..] == tail;
    assert tail[0] == '\n';
    assert tail[..|tail| - 3] == inner;
    assert tail[|tail| - 3..] == "```";
  }
}
