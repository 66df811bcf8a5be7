/** Writing frames as server-sent events, and reading them back. */
module SsePrint {
  import opened Wrappers
  import opened Sse
  import opened SseAgreement
  import Text

  function FieldText(name: string, value: string): string {
    name + ": " + value
  }

  function PrintData(lines: seq<string>): string {
    if lines == [] then "" else FieldText("data", lines[0]) + "\n" + PrintData(lines[1..])
  }

  function Print(frame: Frame): string {
    FieldText("event", frame.event) + "\n" + (PrintData(frame.lines) + "\n")
  }

  function PrintAll(frames: seq<Frame>): string {
    if frames == [] then "" else Print(frames[0]) + PrintAll(frames[1..])
  }

  /** A frame with a name and data, none of it broken over lines. */
  ghost predicate Printable(f: Frame) {
    && f.event != "" && Text.OneLine(f.event)
    && f.lines != [] && forall i :: 0 <= i < |f.lines| ==> Text.OneLine(f.lines[i])
  }

  function StripAll(lines: seq<string>): seq<string> {
    seq(|lines|, i requires 0 <= i < |lines| => StripSpaces(lines[i]))
  }

  /** What the parsers make of a printed frame: leading spaces are gone. */
  function Stripped(f: Frame): Frame {
    Frame(StripSpaces(f.event), StripAll(f.lines))
  }

  function StrippedAll(frames: seq<Frame>): seq<Frame> {
    seq(|frames|, i requires 0 <= i < |frames| => Stripped(frames[i]))
  }

  // ---- One line ----

  lemma StripsNothing(line: string)
    requires Text.OneLine(line)
    ensures StripNewlines(line) == line
  {
  }

  lemma FieldLine(name: string, value: string)
    requires Text.OneLine(value) && Text.OneLine(name) && name != "" && ':' !in name
    ensures Text.OneLine(FieldText(name, value))
    ensures ParseLine(FieldText(name, value)) == Some(Field(name, StripSpaces(value)))
  {
    var line, padded := FieldText(name, value), " " + value;
    assert line == name + [':'] + padded;
    StripsNothing(line);
    Text.PartitionJoin(name, ':', padded);
    assert padded[1..] == value;
    assert line[0] == name[0];
  }

  /** A line is a field by its name; one with a leading colon is a comment, and an empty one ends a frame. */
  lemma LineIs(name: string, value: string)
    requires Text.OneLine(value) && Text.OneLine(name) && name != "" && ':' !in name
    ensures Classify(FieldText(name, value)) ==
      if name == "event" then Event(StripSpaces(value)) else if name == "data" then Data(StripSpaces(value)) else Skip
  {
    FieldLine(name, value);
  }

  lemma CommentIs(value: string)
    requires Text.OneLine(value)
    ensures Classify(":" + value) == Skip && Classify("") == Blank
  {
    assert Text.OneLine(":" + value) by {
      assert (":" + value)[0] == ':';
      assert (":" + value)[1..] == value;
    }
    StripsNothing(":" + value);
    assert (":" + value)[0] == ':';
  }

  // ---- One frame ----

  function DataTokens(lines: seq<string>): seq<Token> {
    seq(|lines|, i requires 0 <= i < |lines| => Data(StripSpaces(lines[i])))
  }

  function FrameTokens(f: Frame): seq<Token> {
    [Event(StripSpaces(f.event))] + DataTokens(f.lines) + [Blank]
  }

  lemma OneToken(line: string, rest: string)
    requires Text.OneLine(line)
    ensures Tokens(Text.SplitLines(line + "\n" + rest)) == [Classify(line)] + Tokens(Text.SplitLines(rest))
  {
    Text.FirstLine(line, rest);
    TokensConcat([line], Text.SplitLines(rest));
  }

  lemma OneField(name: string, value: string, rest: string)
    requires Text.OneLine(value) && name in ["event", "data"]
    ensures Tokens(Text.SplitLines(FieldText(name, value) + "\n" + rest)) ==
      [if name == "data" then Data(StripSpaces(value)) else Event(StripSpaces(value))] + Tokens(Text.SplitLines(rest))
  {
    FieldLine(name, value);
    OneToken(FieldText(name, value), rest);
  }

  lemma Regroup(a: string, b: string, c: string)
    ensures (a + "\n" + b) + c == a + "\n" + (b + c)
  {
  }

  lemma {:induction false} DataLines(lines: seq<string>, rest: string)
    requires forall i :: 0 <= i < |lines| ==> Text.OneLine(lines[i])
    ensures Tokens(Text.SplitLines(PrintData(lines) + ("\n" + rest))) ==
      DataTokens(lines) + ([Blank] + Tokens(Text.SplitLines(rest)))
  {
    var us := [Blank] + Tokens(Text.SplitLines(rest));
    if lines == [] {
      assert PrintData(lines) + ("\n" + rest) == "" + "\n" + rest;
      OneToken("", rest);
      assert DataTokens(lines) == [];
    } else {
      var more := PrintData(lines[1..]) + ("\n" + rest);
      DataLines(lines[1..], rest);
      Regroup(FieldText("data", lines[0]), PrintData(lines[1..]), "\n" + rest);
      OneField("data", lines[0], more);
      Unshift(lines, us);
    }
  }

  lemma Unshift(lines: seq<string>, us: seq<Token>)
    requires lines != []
    ensures [Data(StripSpaces(lines[0]))] + (DataTokens(lines[1..]) + us) == DataTokens(lines) + us
  {
  }

  lemma FrameLines(f: Frame, rest: string)
    requires Printable(f)
    ensures Tokens(Text.SplitLines(Print(f) + rest)) == FrameTokens(f) + Tokens(Text.SplitLines(rest))
  {
    var more, us := PrintData(f.lines) + ("\n" + rest), Tokens(Text.SplitLines(rest));
    PrintThen(f, rest);
    DataLines(f.lines, rest);
    OneField("event", f.event, more);
    FrameThen(f, us);
  }

  lemma PrintThen(f: Frame, rest: string)
    ensures Print(f) + rest == FieldText("event", f.event) + "\n" + (PrintData(f.lines) + ("\n" + rest))
  {
    Regroup(FieldText("event", f.event), PrintData(f.lines) + "\n", rest);
    Text.Assoc(PrintData(f.lines), "\n", rest);
  }

  lemma FrameThen(f: Frame, us: seq<Token>)
    ensures [Event(StripSpaces(f.event))] + (DataTokens(f.lines) + ([Blank] + us)) == FrameTokens(f) + us
  {
    Text.Assoc(DataTokens(f.lines), [Blank], us);
  }

  /** The name that is left of a frame's name; a name of spaces only is no name. */
  predicate Named(f: Frame) {
    StripSpaces(f.event) != ""
  }

  /** The tokens of a name and data values. */
  function Opening(name: string, values: seq<string>): seq<Token> {
    if values == [] then [Event(name)]
    else Opening(name, values[..|values| - 1]) + [Data(values[|values| - 1])]
  }

  lemma {:induction false} OpeningAt(name: string, values: seq<string>)
    ensures |Opening(name, values)| == 1 + |values| && Opening(name, values)[0] == Event(name)
    ensures forall i :: 0 <= i < |values| ==> Opening(name, values)[i + 1] == Data(values[i])
  {
    if values != [] {
      OpeningAt(name, values[..|values| - 1]);
    }
  }

  lemma RunOne(ts: seq<Token>, t: Token)
    ensures ChunkRun(ts + [t]) == ChunkStep(ChunkRun(ts), t)
    ensures LiveRun(ts + [t]) == LiveStep(LiveRun(ts), t)
  {
    assert (ts + [t])[..|ts + [t]| - 1] == ts;
  }

  lemma {:induction false} ChunkOpening(name: string, values: seq<string>)
    ensures ChunkRun(Opening(name, values)) == Scan([], name, values)
  {
    if values == [] {
      RunOne([], Event(name));
    } else {
      var n := |values| - 1;
      ChunkOpening(name, values[..n]);
      RunOne(Opening(name, values[..n]), Data(values[n]));
    }
  }

  lemma {:induction false} LiveOpening(name: string, values: seq<string>)
    ensures LiveRun(Opening(name, values)) == Scan([], name, if name != "" then values else [])
  {
    if values == [] {
      RunOne([], Event(name));
    } else {
      var n := |values| - 1;
      LiveOpening(name, values[..n]);
      RunOne(Opening(name, values[..n]), Data(values[n]));
    }
  }

  /** What is read back of one frame: nothing if it has no name. */
  function Back(f: Frame): seq<Frame> {
    if Named(f) then [Stripped(f)] else []
  }

  lemma FrameIsOpening(f: Frame)
    ensures FrameTokens(f) == Opening(StripSpaces(f.event), StripAll(f.lines)) + [Blank]
  {
    var ts := Opening(StripSpaces(f.event), StripAll(f.lines));
    OpeningAt(StripSpaces(f.event), StripAll(f.lines));
    forall i | 0 <= i < |f.lines| ensures ts[i + 1] == DataTokens(f.lines)[i] {
      assert ts[i + 1] == Data(StripAll(f.lines)[i]);
    }
    assert ts == [ts[0]] + DataTokens(f.lines);
  }

  lemma Closing(f: Frame)
    requires Printable(f)
    ensures Flush(Scan([], StripSpaces(f.event), StripAll(f.lines))) == Back(f)
    ensures Flush(Scan([], StripSpaces(f.event), if Named(f) then StripAll(f.lines) else [])) == Back(f)
  {
  }

  lemma OneFrame(f: Frame)
    requires Printable(f)
    ensures ChunkRun(FrameTokens(f)) == LiveRun(FrameTokens(f)) == Scan(Back(f), "", [])
  {
    var name, values := StripSpaces(f.event), StripAll(f.lines);
    FrameIsOpening(f);
    ChunkOpening(name, values);
    LiveOpening(name, values);
    RunOne(Opening(name, values), Blank);
    Closing(f);
  }

  lemma {:induction false} LiveConcat(a: seq<Token>, b: seq<Token>)
    requires a == [] || a[|a| - 1].Blank?
    ensures LiveRun(a + b) == LiveRun(b).(out := LiveRun(a).out + LiveRun(b).out)
  {
    if b == [] {
      assert a + b == a;
    } else {
      LiveConcat(a, b[..|b| - 1]);
      assert (a + b)[..|a + b| - 1] == a + b[..|b| - 1];
    }
  }

  // ---- All frames ----

  function BackAll(frames: seq<Frame>): seq<Frame> {
    if frames == [] then [] else Back(frames[0]) + BackAll(frames[1..])
  }

  /** Both parsers read the printed frames that have a name back, one for one, with leading spaces removed. */
  lemma {:induction false} ParsePrint(frames: seq<Frame>)
    requires forall i :: 0 <= i < |frames| ==> Printable(frames[i])
    ensures var ts := Tokens(Text.SplitLines(PrintAll(frames)));
      ChunkFrames(ts) == LiveFrames(ts) == BackAll(frames)
  {
    if frames != [] {
      var f, rest := frames[0], PrintAll(frames[1..]);
      ParsePrint(frames[1..]);
      FrameLines(f, rest);
      OneFrame(f);
      var ts := Tokens(Text.SplitLines(rest));
      ChunkConcat(FrameTokens(f), ts);
      LiveConcat(FrameTokens(f), ts);
    }
  }

  /** As many frames come back as were printed exactly when all have a name. */
  lemma {:induction false} BackLength(frames: seq<Frame>)
    ensures |BackAll(frames)| <= |frames|
    ensures |BackAll(frames)| == |frames| <==> forall i :: 0 <= i < |frames| ==> Named(frames[i])
    ensures |BackAll(frames)| == |frames| ==> BackAll(frames) == StrippedAll(frames)
  {
    if frames != [] {
      BackLength(frames[1..]);
      assert (forall i :: 0 <= i < |frames| ==> Named(frames[i])) <==>
        Named(frames[0]) && forall i :: 0 <= i < |frames[1..]| ==> Named(frames[1..][i]);
      assert StrippedAll(frames) == [Stripped(frames[0])] + StrippedAll(frames[1..]);
    }
  }

  predicate NoLeadingSpace(s: string) {
    s == "" || s[0] != ' '
  }

  lemma {:induction false} StripShorter(s: string)
    ensures |StripSpaces(s)| <= |s|
    ensures StripSpaces(s) == s <==> NoLeadingSpace(s)
  {
    if s != "" && s[0] == ' ' {
      StripShorter(s[1..]);
    }
  }

  ghost predicate Unpadded(f: Frame) {
    NoLeadingSpace(f.event) && forall i :: 0 <= i < |f.lines| ==> NoLeadingSpace(f.lines[i])
  }

  lemma StrippedSame(f: Frame)
    ensures Stripped(f) == f <==> Unpadded(f)
  {
    StripShorter(f.event);
    forall i | 0 <= i < |f.lines| ensures StripSpaces(f.lines[i]) == f.lines[i] <==> NoLeadingSpace(f.lines[i]) {
      StripShorter(f.lines[i]);
    }
    if Stripped(f) == f {
      forall i | 0 <= i < |f.lines| ensures NoLeadingSpace(f.lines[i]) {
        assert StripAll(f.lines)[i] == f.lines[i];
      }
    }
    if Unpadded(f) {
      assert StripAll(f.lines) == f.lines;
    }
  }

  /** Parsing undoes printing exactly when no event name or data line starts with a space. */
  lemma RoundTripIffUnpadded(frames: seq<Frame>)
    requires forall i :: 0 <= i < |frames| ==> Printable(frames[i])
    ensures ChunkFrames(Tokens(Text.SplitLines(PrintAll(frames)))) == frames <==>
      forall i :: 0 <= i < |frames| ==> Unpadded(frames[i])
  {
    ParsePrint(frames);
    BackLength(frames);
    forall i | 0 <= i < |frames| ensures Stripped(frames[i]) == frames[i] <==> Unpadded(frames[i]) {
      StrippedSame(frames[i]);
    }
    forall i | 0 <= i < |frames| && Unpadded(frames[i]) ensures Named(frames[i]) {
      StripShorter(frames[i].event);
    }
    if BackAll(frames) == frames {
      forall i | 0 <= i < |frames| ensures Unpadded(frames[i]) {
        assert StrippedAll(frames)[i] == frames[i];
      }
    }
  }

  /** The standard takes one leading space off a value; these parsers take all, so data that begins with one is changed. */
  lemma LeadingSpaceIsLost()
    ensures Printable(Frame("e", [" x"]))
    ensures ChunkFrames(Tokens(Text.SplitLines(PrintAll([Frame("e", [" x"])])))) == [Frame("e", ["x"])]
  {
    var f := Frame("e", [" x"]);
    assert StripSpaces(" x") == StripSpaces("x") == "x" by {
      assert " x"[1..] == "x";
    }
    ParsePrint([f]);
    assert StripAll(f.lines) == ["x"];
    assert [f][1..] == [];
  }
}
