/** JavaScript's `str.split("\n")` and `lines.join("\n")` on strings. */
module Text {

  const Newline: char := '\n'

  /** `s.split("\n")`: the pieces between newlines. Never empty; "" splits
      into [""] and a trailing newline leaves a trailing "" piece. */
  function Split(s: string): (lines: seq<string>)
    ensures |lines| >= 1
    ensures forall i :: 0 <= i < |lines| ==> Newline !in lines[i]
  {
    if s == [] then [""]
    else
      var rest := Split(s[1..]);
      if s[0] == Newline then [""] + rest
      else [[s[0]] + rest[0]] + rest[1..]
  }

  /** `lines.join("\n")`; the empty array joins to "". The text starts
      with the first line, and has a newline as soon as there are two. */
  function Join(lines: seq<string>): (s: string)
    ensures |lines| == 0 ==> s == ""
    ensures |lines| >= 1 ==> lines[0] <= s
    ensures |lines| >= 2 ==> |s| > |lines[0]| && s[|lines[0]|] == Newline
  {
    if |lines| == 0 then ""
    else if |lines| == 1 then lines[0]
    else lines[0] + [Newline] + Join(lines[1..])
  }

  /** Joining the pieces of a split gives the original string back. */
  lemma {:induction false} JoinSplit(s: string)
    ensures Join(Split(s)) == s
  {
    if s != [] {
      var rest := Split(s[1..]);
      JoinSplit(s[1..]);
      if s[0] == Newline {
        assert ([""] + rest)[1..] == rest;
        assert s == [Newline] + s[1..];
      } else if |rest| == 1 {
        assert s == [s[0]] + s[1..];
      } else {
        var lines := [[s[0]] + rest[0]] + rest[1..];
        assert lines[1..] == rest[1..];
        calc {
          Join(lines);
          ([s[0]] + rest[0]) + [Newline] + Join(rest[1..]);
          [s[0]] + (rest[0] + [Newline] + Join(rest[1..]));
          [s[0]] + Join(rest);
          [s[0]] + s[1..];
          s;
        }
      }
    }
  }

  /** A string without newlines is a single piece. */
  lemma {:induction false} SplitSingleLine(a: string)
    requires Newline !in a
    ensures Split(a) == [a]
  {
    if a != [] {
      SplitSingleLine(a[1..]);
      assert a == [a[0]] + a[1..];
    }
  }

  /** A line followed by a newline splits off as the first piece. */
  lemma {:induction false} SplitFirstLine(a: string, rest: string)
    requires Newline !in a
    ensures Split(a + [Newline] + rest) == [a] + Split(rest)
  {
    var s := a + [Newline] + rest;
    if a == [] {
      assert s[1..] == rest;
    } else {
      assert s[1..] == a[1..] + [Newline] + rest;
      SplitFirstLine(a[1..], rest);
      assert [s[0]] + a[1..] == a;
    }
  }

  /** Splitting a join of newline-free lines gives the lines back. */
  lemma {:induction false} SplitJoin(lines: seq<string>)
    requires |lines| >= 1
    requires forall i :: 0 <= i < |lines| ==> Newline !in lines[i]
    ensures Split(Join(lines)) == lines
  {
    if |lines| == 1 {
      SplitSingleLine(lines[0]);
    } else {
      SplitJoin(lines[1..]);
      SplitFirstLine(lines[0], Join(lines[1..]));
      assert lines == [lines[0]] + lines[1..];
    }
  }
}
