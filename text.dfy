/**
 * Line-oriented text: joining entries with a newline, splitting text back into
 * its lines, and looking for one string inside another. These state what the
 * sender's diagnostic texts contain.
 */
module Text {

  const NewLine: char := '\n'

  /** `t` occurs at the start of `s`. */
  predicate IsPrefix(t: string, s: string) {
    |t| <= |s| && s[..|t|] == t
  }

  /** `t` occurs at the end of `s`. */
  predicate IsSuffix(t: string, s: string) {
    |t| <= |s| && s[|s| - |t|..] == t
  }

  /** `t` occurs somewhere in `s`. */
  predicate IsInfix(t: string, s: string) {
    exists i :: 0 <= i <= |s| && IsPrefix(t, s[i..])
  }

  /** What follows a known start of `s` occurs in `s`. */
  lemma InfixAfterPrefix(a: string, t: string, s: string)
    requires IsPrefix(a + t, s)
    ensures IsInfix(t, s)
  {
    assert s[|a|..][..|t|] == (a + t)[|a|..];
  }

  /** What precedes a known end of `s` occurs in `s`. */
  lemma InfixBeforeSuffix(t: string, b: string, s: string)
    requires IsSuffix(t + b, s)
    ensures IsInfix(t, s)
  {
    var i := |s| - |t + b|;
    assert s[i..][..|t|] == (t + b)[..|t|];
  }

  /** The entries one after the other, each but the last followed by a newline. */
  function JoinLines(lines: seq<string>): string {
    if |lines| == 0 then ""
    else if |lines| == 1 then lines[0]
    else lines[0] + [NewLine] + JoinLines(lines[1..])
  }

  /** Joined text ends with the last entry. */
  lemma {:induction false} JoinLinesEndsWithLast(lines: seq<string>)
    requires |lines| >= 1
    ensures IsSuffix(lines[|lines| - 1], JoinLines(lines))
  {
    if |lines| > 1 {
      JoinLinesEndsWithLast(lines[1..]);
      var last, rest := lines[|lines| - 1], JoinLines(lines[1..]);
      var s := lines[0] + [NewLine] + rest;
      assert s[|s| - |last|..] == rest[|rest| - |last|..];
    }
  }

  /** The position of the first occurrence of `c` in `s`. */
  function IndexOf(s: string, c: char): (i: nat)
    requires c in s
    ensures i < |s| && s[i] == c && c !in s[..i]
  {
    if s[0] == c then 0
    else
      var j := IndexOf(s[1..], c);
      assert s[..j + 1] == [s[0]] + s[1..][..j];
      j + 1
  }

  /** The lines of `s`: the pieces between its newlines, always at least one. */
  function SplitLines(s: string): (lines: seq<string>)
    ensures |lines| >= 1
    decreases |s|
  {
    if NewLine !in s then [s]
    else
      var i := IndexOf(s, NewLine);
      [s[..i]] + SplitLines(s[i + 1..])
  }

  /** Splitting text joined from newline-free lines gives those lines back. */
  lemma {:induction false} SplitJoin(lines: seq<string>)
    requires |lines| >= 1
    requires forall k :: 0 <= k < |lines| ==> NewLine !in lines[k]
    ensures SplitLines(JoinLines(lines)) == lines
  {
    if |lines| > 1 {
      var x, rest := lines[0], JoinLines(lines[1..]);
      var s := x + [NewLine] + rest;
      assert s[|x|] == NewLine;
      var i := IndexOf(s, NewLine);
      assert i == |x|;
      assert s[..i] == x;
      assert s[i + 1..] == rest;
      SplitJoin(lines[1..]);
      assert lines == [x] + lines[1..];
    }
  }
}
