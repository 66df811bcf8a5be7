/** Searching and splitting strings, as Python's `find` and `partition` do. */
module Text {
  /** Where `c` first occurs; the length of `s` if nowhere. */
  function IndexOf(s: string, c: char): (i: nat)
    ensures i <= |s| && forall k :: 0 <= k < i ==> s[k] != c
    ensures i < |s| ==> s[i] == c
  {
    if s == "" || s[0] == c then 0 else 1 + IndexOf(s[1..], c)
  }

  datatype Parts = Parts(before: string, found: bool, after: string)

  /** `s.partition(c)`. */
  function Partition(s: string, c: char): (p: Parts)
    ensures c !in p.before
    ensures if p.found then s == p.before + [c] + p.after else s == p.before && p.after == ""
  {
    var i := IndexOf(s, c);
    if i < |s| then Parts(s[..i], true, s[i + 1..]) else Parts(s, false, "")
  }

  /** The cut is at the first occurrence, whatever follows it. */
  lemma PartitionJoin(before: string, c: char, after: string)
    requires c !in before
    ensures Partition(before + [c] + after, c) == Parts(before, true, after)
  {
    var s := before + [c] + after;
    var i := IndexOf(s, c);
    assert s[|before|] == c;
    assert forall k :: 0 <= k < |before| ==> s[k] == before[k];
  }

  lemma PartitionNone(s: string, c: char)
    requires c !in s
    ensures Partition(s, c) == Parts(s, false, "")
  {
  }

  // ---- Lines ----

  /** The line boundaries of Python's `splitlines`. */
  predicate IsBreak(c: char) {
    '\n' <= c <= '\r' || '\U{1c}' <= c <= '\U{1e}' || c == '\U{85}' || c == '\U{2028}' || c == '\U{2029}'
  }

  function BreakAt(s: string): (i: nat)
    ensures i <= |s| && forall k :: 0 <= k < i ==> !IsBreak(s[k])
    ensures i < |s| ==> IsBreak(s[i])
  {
    if s == "" || IsBreak(s[0]) then 0 else 1 + BreakAt(s[1..])
  }

  /** A carriage return and the line feed after it are one boundary. */
  function BreakEnd(s: string, i: nat): (e: nat)
    requires i < |s|
    ensures i < e <= |s|
  {
    if s[i] == '\r' && i + 1 < |s| && s[i + 1] == '\n' then i + 2 else i + 1
  }

  function SplitLines(s: string): seq<string> {
    if s == "" then []
    else
      var i := BreakAt(s);
      if i == |s| then [s] else [s[..i]] + SplitLines(s[BreakEnd(s, i)..])
  }

  predicate OneLine(s: string) {
    forall k :: 0 <= k < |s| ==> !IsBreak(s[k])
  }

  lemma {:induction false} LinesHaveNoBreaks(s: string)
    ensures forall i :: 0 <= i < |SplitLines(s)| ==> OneLine(SplitLines(s)[i])
  {
    if s != "" && BreakAt(s) < |s| {
      LinesHaveNoBreaks(s[BreakEnd(s, BreakAt(s))..]);
    }
  }

  lemma FirstLine(line: string, rest: string)
    requires OneLine(line)
    ensures SplitLines(line + "\n" + rest) == [line] + SplitLines(rest)
  {
    var s := line + "\n" + rest;
    assert s[|line|] == '\n';
    assert forall k :: 0 <= k < |line| ==> s[k] == line[k];
    assert BreakAt(s) == |line|;
    assert s[..|line|] == line && s[|line| + 1..] == rest;
  }

  lemma BreakConcat(a: string, b: string)
    requires a != "" && a[|a| - 1] == '\n'
    ensures BreakAt(a) < |a| && BreakAt(a + b) == BreakAt(a)
    ensures BreakEnd(a + b, BreakAt(a)) == BreakEnd(a, BreakAt(a))
  {
    var i := BreakAt(a);
    assert IsBreak(a[|a| - 1]);
    assert forall k :: 0 <= k < |a| ==> (a + b)[k] == a[k];
  }

  ghost predicate StartsWithLine(s: string, line: string, rest: string) {
    BreakAt(s) < |s| && line == s[..BreakAt(s)] && rest == s[BreakEnd(s, BreakAt(s))..]
  }

  lemma SplitFirst(s: string, line: string, rest: string)
    requires StartsWithLine(s, line, rest)
    ensures SplitLines(s) == [line] + SplitLines(rest)
  {
  }

  lemma Assoc<T>(a: seq<T>, b: seq<T>, c: seq<T>)
    ensures a + (b + c) == (a + b) + c
  {
  }

  lemma FirstOfConcat(a: string, b: string) returns (line: string, rest: string)
    requires a != "" && a[|a| - 1] == '\n'
    ensures StartsWithLine(a, line, rest) && StartsWithLine(a + b, line, rest + b)
    ensures |rest| < |a| && (rest == "" || rest[|rest| - 1] == '\n')
  {
    BreakConcat(a, b);
    line, rest := a[..BreakAt(a)], a[BreakEnd(a, BreakAt(a))..];
  }

  /** A text that ends with a line feed can be split apart from what follows. */
  lemma {:induction false} SplitConcat(a: string, b: string)
    requires a == "" || a[|a| - 1] == '\n'
    ensures SplitLines(a + b) == SplitLines(a) + SplitLines(b)
    decreases |a|
  {
    if a == "" {
      assert a + b == b;
    } else {
      var line, rest := FirstOfConcat(a, b);
      var x, y := SplitLines(rest), SplitLines(b);
      assert SplitLines(a) == [line] + x by {
        SplitFirst(a, line, rest);
      }
      assert SplitLines(a + b) == [line] + (x + y) by {
        SplitFirst(a + b, line, rest + b);
        SplitConcat(rest, b);
      }
      Assoc([line], x, y);
    }
  }
}
