/** Text as lines: how a rendered template reads once it is split at its
    newline characters. The splitter is the independent reference against
    which the layouts of the rendered files are stated. */
module Lines {

  /** The text made of `lines`, each one followed by a newline: the shape of
      a template whose every line, the last included, ends in a newline. */
  function TextOf(lines: seq<string>): string
  {
    if lines == [] then "" else lines[0] + "\n" + TextOf(lines[1..])
  }

  /** The position of the first newline in `s`. */
  function FirstNewline(s: string): (i: nat)
    requires '\n' in s
    ensures i < |s| && s[i] == '\n'
    ensures forall j :: 0 <= j < i ==> s[j] != '\n'
  {
    if s[0] == '\n' then 0
    else
      assert '\n' in s[1..] by {
        var k :| 0 <= k < |s| && s[k] == '\n';
        assert s[1..][k - 1] == '\n';
      }
      1 + FirstNewline(s[1..])
  }

  /** The lines of `s`, cut at every newline; whatever follows the last
      newline (possibly nothing) is the final element. */
  function SplitLines(s: string): (lines: seq<string>)
    ensures |lines| >= 1
    ensures |lines| == 1 <==> '\n' !in s
    decreases |s|
  {
    if '\n' in s then
      var i := FirstNewline(s);
      [s[..i]] + SplitLines(s[i + 1..])
    else [s]
  }

  /** The first newline of `a + "\n" + b` is the one after `a` when `a`
      holds none. */
  lemma {:induction false} FirstNewlineAfter(a: string, b: string)
    requires '\n' !in a
    ensures FirstNewline(a + "\n" + b) == |a|
    decreases |a|
  {
    var s := a + "\n" + b;
    if a != [] {
      assert s[0] == a[0];
      assert s[1..] == a[1..] + "\n" + b;
      assert '\n' !in a[1..] by {
        forall j | 0 <= j < |a[1..]| ensures a[1..][j] != '\n' { assert a[1..][j] == a[j + 1]; }
      }
      FirstNewlineAfter(a[1..], b);
    }
  }

  /** A newline-free line followed by a newline is split off as the first
      line. */
  lemma SplitLeadingLine(a: string, b: string)
    requires '\n' !in a
    ensures SplitLines(a + "\n" + b) == [a] + SplitLines(b)
  {
    var s := a + "\n" + b;
    assert s[|a|] == '\n';
    FirstNewlineAfter(a, b);
    assert s[..|a|] == a;
    assert s[|a| + 1..] == b;
  }

  /** Splitting a text built from newline-free lines gives those lines back,
      followed by the empty remainder after the final newline. */
  lemma {:induction false} SplitTextOf(lines: seq<string>)
    requires forall i :: 0 <= i < |lines| ==> '\n' !in lines[i]
    ensures SplitLines(TextOf(lines)) == lines + [""]
    decreases |lines|
  {
    if lines != [] {
      var rest := lines[1..];
      assert forall i :: 0 <= i < |rest| ==> rest[i] == lines[i + 1];
      calc {
        SplitLines(TextOf(lines));
        SplitLines(lines[0] + "\n" + TextOf(rest));
        { SplitLeadingLine(lines[0], TextOf(rest)); }
        [lines[0]] + SplitLines(TextOf(rest));
        { SplitTextOf(rest); }
        [lines[0]] + (rest + [""]);
        { assert lines == [lines[0]] + rest; }
        lines + [""];
      }
    }
  }
}
