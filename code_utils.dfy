/** src/utils/code_utils.py: `count_lines`, the number of '\n'-separated lines
    that are neither blank nor comments. */
module CodeUtils {
  import opened Text

  /** A line counts when, once stripped, it is non-empty and does not start with '#'. */
  predicate IsCodeLine(line: string) {
    Strip(line) != [] && !StartsWith(Strip(line), "#")
  }

  function CountCodeLines(lines: seq<string>): (n: nat)
    ensures n <= |lines|
  {
    if |lines| == 0 then 0
    else (if IsCodeLine(lines[0]) then 1 else 0) + CountCodeLines(lines[1..])
  }

  /** The number of code lines: the lines that, stripped, are neither empty
      nor comments. */
  function CountLines(code: string): (n: nat)
    ensures n <= CountChar(code, '\n') + 1
  {
    CountCodeLines(Lines(code))
  }

  lemma {:induction false} CountCodeLinesAppend(a: seq<string>, b: seq<string>)
    ensures CountCodeLines(a + b) == CountCodeLines(a) + CountCodeLines(b)
  {
    if a == [] {
      assert a + b == b;
    } else {
      assert (a + b)[0] == a[0];
      assert (a + b)[1..] == a[1..] + b;
      CountCodeLinesAppend(a[1..], b);
    }
  }

  lemma CountLinesEmpty()
    ensures CountLines("") == 0
  {
    assert Lines("") == [""];
    assert !IsCodeLine("");
  }

  /** Joining two texts with a line break adds their counts. */
  lemma CountLinesConcat(a: string, b: string)
    ensures CountLines(a + "\n" + b) == CountLines(a) + CountLines(b)
  {
    LinesConcat(a, b);
    CountCodeLinesAppend(Lines(a), Lines(b));
  }

  /** A single line counts once exactly when it is code. */
  lemma CountLinesOfLine(line: string)
    requires '\n' !in line
    ensures CountLines(line) == if IsCodeLine(line) then 1 else 0
  {
    LinesOfLine(line);
  }
}
