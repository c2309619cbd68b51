/** Plain-text helpers shared by both renderers: Go's strings.Join with a
    separator, the newline-terminated concatenation a strings.Builder loop
    produces, and a newline splitter (strings.Split on "\n") used to state
    what the rendered text looks like line by line. */
module Text {

  /** True when `s` contains no line break. */
  predicate NewlineFree(s: string) {
    forall i :: 0 <= i < |s| ==> s[i] != '\n'
  }

  predicate AllNewlineFree(parts: seq<string>) {
    forall i :: 0 <= i < |parts| ==> NewlineFree(parts[i])
  }

  /** Index of the first '\n' in `s`, or |s| when there is none. */
  function NewlineIndex(s: string): (k: nat)
    ensures k <= |s|
    ensures NewlineFree(s[..k])
    ensures k < |s| ==> s[k] == '\n'
  {
    if s == [] then 0
    else if s[0] == '\n' then 0
    else
      var k' := NewlineIndex(s[1..]);
      assert s[1..][..k'] == s[1..k' + 1];
      1 + k'
  }

  /** strings.Split(s, "\n"): the pieces between line breaks; always at least one. */
  function Split(s: string): (parts: seq<string>)
    ensures |parts| >= 1
    ensures AllNewlineFree(parts)
    decreases |s|
  {
    var k := NewlineIndex(s);
    if k == |s| then
      assert s[..k] == s;
      [s]
    else
      [s[..k]] + Split(s[k + 1..])
  }

  /** strings.Join(parts, sep). */
  function Join(parts: seq<string>, sep: string): string
  {
    if parts == [] then ""
    else if |parts| == 1 then parts[0]
    else parts[0] + sep + Join(parts[1..], sep)
  }

  /** Every line followed by "\n", in order: what appending `line + "\n"`
      to a string builder once per line leaves behind. */
  function Terminated(lines: seq<string>): string
  {
    if lines == [] then "" else lines[0] + "\n" + Terminated(lines[1..])
  }

  /** Splitting at the first line break of `a + "\n" + b` gives back `a`
      and continues with `b`. */
  lemma SplitAfterLine(a: string, b: string)
    requires NewlineFree(a)
    ensures Split(a + "\n" + b) == [a] + Split(b)
  {
    var s := a + "\n" + b;
    assert s[|a|] == '\n';
    NewlineIndexIs(s, |a|);
    assert s[..|a|] == a;
    assert s[|a| + 1..] == b;
  }

  /** The first line break is found exactly where it is. */
  lemma NewlineIndexIs(s: string, k: nat)
    requires k < |s| && s[k] == '\n'
    requires NewlineFree(s[..k])
    ensures NewlineIndex(s) == k
  {
  }

  /** Joining single-line pieces with "\n" and splitting again is the identity. */
  lemma {:induction false} SplitJoin(parts: seq<string>)
    requires |parts| >= 1
    requires AllNewlineFree(parts)
    ensures Split(Join(parts, "\n")) == parts
  {
    if |parts| == 1 {
      var p := parts[0];
      assert NewlineFree(p);
      assert p[..|p|] == p;
    } else {
      assert NewlineFree(parts[0]);
      SplitAfterLine(parts[0], Join(parts[1..], "\n"));
      SplitJoin(parts[1..]);
      assert parts == [parts[0]] + parts[1..];
    }
  }

  /** A newline-terminated block of single-line pieces splits back into those
      pieces followed by the empty piece after the last line break. */
  lemma {:induction false} SplitTerminated(lines: seq<string>)
    requires AllNewlineFree(lines)
    ensures Split(Terminated(lines)) == lines + [""]
  {
    if lines == [] {
      assert Split("") == [""];
    } else {
      assert NewlineFree(lines[0]);
      SplitAfterLine(lines[0], Terminated(lines[1..]));
      SplitTerminated(lines[1..]);
      assert lines == [lines[0]] + lines[1..];
    }
  }

  /** Appending one more line to a terminated block. */
  lemma {:induction false} TerminatedSnoc(lines: seq<string>, line: string)
    ensures Terminated(lines + [line]) == Terminated(lines) + line + "\n"
  {
    if lines == [] {
      assert [] + [line] == [line];
    } else {
      assert (lines + [line])[1..] == lines[1..] + [line];
      TerminatedSnoc(lines[1..], line);
    }
  }

  /** Number of line breaks in `s`. */
  function NewlineCount(s: string): (n: nat)
    ensures n <= |s|
    ensures n == 0 <==> NewlineFree(s)
  {
    if s == [] then 0
    else
      var rest := NewlineCount(s[1..]);
      assert NewlineFree(s[1..]) ==> (NewlineFree(s) <==> s[0] != '\n') by {
        if NewlineFree(s[1..]) && s[0] != '\n' {
          forall i | 0 <= i < |s| ensures s[i] != '\n' {
            if i > 0 { assert s[i] == s[1..][i - 1]; }
          }
        }
      }
      assert NewlineFree(s) ==> NewlineFree(s[1..]) by {
        if NewlineFree(s) {
          forall i | 0 <= i < |s[1..]| ensures s[1..][i] != '\n' {
            assert s[1..][i] == s[i + 1];
          }
        }
      }
      (if s[0] == '\n' then 1 else 0) + rest
  }

  lemma {:induction false} NewlineCountAppend(a: string, b: string)
    ensures NewlineCount(a + b) == NewlineCount(a) + NewlineCount(b)
  {
    if a != [] {
      assert (a + b)[1..] == a[1..] + b;
      NewlineCountAppend(a[1..], b);
    } else {
      assert a + b == b;
    }
  }

  /** A terminated block of n single-line pieces holds exactly n line breaks. */
  lemma {:induction false} TerminatedLineCount(lines: seq<string>)
    requires AllNewlineFree(lines)
    ensures NewlineCount(Terminated(lines)) == |lines|
  {
    if lines != [] {
      assert NewlineFree(lines[0]);
      NewlineCountAppend(lines[0] + "\n", Terminated(lines[1..]));
      NewlineCountAppend(lines[0], "\n");
      TerminatedLineCount(lines[1..]);
    }
  }
}
