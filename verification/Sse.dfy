/**
 * Server-sent events: the parser for a whole text (claude_ai/streaming/parser.py) and the
 * incremental one for a stream of lines (claude_ai/session/http.py, _iterate_stream). The JSON
 * decoder is a parameter.
 */
module Sse {
  import opened Wrappers
  import Text

  /** What a line is to both parsers. */
  datatype Token =
    | Blank
    | Skip                       // a comment, or a field neither parser knows
    | Event(value: string)
    | Data(value: string)

  // ---- Lines ----

  predicate IsNewline(c: char) {
    c == '\r' || c == '\n'
  }

  /** `line.rstrip("\r\n")`. */
  function StripNewlines(line: string): string {
    if line != "" && IsNewline(line[|line| - 1]) then StripNewlines(line[..|line| - 1]) else line
  }

  /** `value.lstrip(" ")`: every leading space goes, not just one. */
  function StripSpaces(value: string): string {
    if value != "" && value[0] == ' ' then StripSpaces(value[1..]) else value
  }

  datatype Field = Field(name: string, value: string)

  function ParseLine(line: string): Option<Field> {
    var l := StripNewlines(line);
    if l == "" || l[0] == ':' then None
    else
      var parts := Text.Partition(l, ':');
      if parts.before == "" then None else Some(Field(parts.before, StripSpaces(parts.after)))
  }

  predicate IsComment(line: string) {
    line != "" && line[0] == ':'
  }

  function Classify(line: string): Token {
    var parsed := ParseLine(line);
    if parsed.None? then if IsComment(StripNewlines(line)) then Skip else Blank
    else if parsed.value.name == "event" then Event(parsed.value.value)
    else if parsed.value.name == "data" then Data(parsed.value.value)
    else Skip
  }

  function Tokens(lines: seq<string>): seq<Token> {
    seq(|lines|, i requires 0 <= i < |lines| => Classify(lines[i]))
  }

  // ---- The two scanners ----

  datatype Frame = Frame(event: string, lines: seq<string>)

  /** Frames emitted, the current event ("" for none) and the pending data lines. */
  datatype Scan = Scan(out: seq<Frame>, cur: string, data: seq<string>)

  const IDLE := Scan([], "", [])

  predicate Ready(s: Scan) {
    s.cur != "" && s.data != []
  }

  function Flush(s: Scan): seq<Frame> {
    if Ready(s) then s.out + [Frame(s.cur, s.data)] else s.out
  }

  /** `parse_chunk` on one line: an event line closes the frame before it. */
  function ChunkStep(s: Scan, t: Token): Scan {
    match t
    case Blank => Scan(Flush(s), "", [])
    case Skip => s
    case Event(v) => if Ready(s) then Scan(Flush(s), v, []) else s.(cur := v)
    case Data(v) => s.(data := s.data + [v])
  }

  /** `_iterate_stream` on one line: an event line renames the frame, data without an event is dropped. */
  function LiveStep(s: Scan, t: Token): Scan {
    match t
    case Blank => Scan(Flush(s), "", [])
    case Skip => s
    case Event(v) => s.(cur := v)
    case Data(v) => if s.cur != "" then s.(data := s.data + [v]) else s
  }

  function ChunkRun(ts: seq<Token>): Scan {
    if ts == [] then IDLE else ChunkStep(ChunkRun(ts[..|ts| - 1]), ts[|ts| - 1])
  }

  function LiveRun(ts: seq<Token>): Scan {
    if ts == [] then IDLE else LiveStep(LiveRun(ts[..|ts| - 1]), ts[|ts| - 1])
  }

  /** The frames of a whole text; what is pending at its end counts. */
  function ChunkFrames(ts: seq<Token>): seq<Frame> {
    Flush(ChunkRun(ts))
  }

  /** The frames of a stream; what is pending at its end is lost. */
  function LiveFrames(ts: seq<Token>): seq<Frame> {
    LiveRun(ts).out
  }

  // ---- Decoding ----

  /** `"\n".join(lines)`. */
  function Join(lines: seq<string>): string {
    if lines == [] then "" else if |lines| == 1 then lines[0] else lines[0] + "\n" + Join(lines[1..])
  }

  /** The lines of a frame are joined by line feeds. */
  lemma {:induction false} JoinsLines(a: seq<string>, b: seq<string>)
    ensures |a| == 1 ==> Join(a) == a[0]
    ensures a != [] && b != [] ==> Join(a + b) == Join(a) + "\n" + Join(b)
  {
    if a != [] && b != [] {
      assert (a + b)[1..] == a[1..] + b;
      if |a| > 1 {
        JoinsLines(a[1..], b);
      } else {
        assert a[1..] + b == b;
      }
    }
  }

  datatype Message<+J> = Message(event: string, body: J)

  /** The messages decoded before the first bad frame, and that frame's text. */
  datatype Decoded<+J> = Decoded(messages: seq<Message<J>>, bad: Option<string>)

  function DecodeAll<J>(decode: string -> Option<J>, frames: seq<Frame>): Decoded<J> {
    if frames == [] then Decoded([], None)
    else
      var n := |frames| - 1;
      var before := DecodeAll(decode, frames[..n]);
      var body := decode(Join(frames[n].lines));
      if before.bad.Some? then before
      else if body.None? then Decoded(before.messages, Some(Join(frames[n].lines)))
      else Decoded(before.messages + [Message(frames[n].event, body.value)], None)
  }

  /** Frames are decoded in order, each to a message of its name, up to the first whose text is not JSON. */
  lemma {:induction false} DecodesExactly<J>(decode: string -> Option<J>, frames: seq<Frame>)
    ensures var d := DecodeAll(decode, frames);
      && |d.messages| <= |frames|
      && (forall i :: 0 <= i < |d.messages| ==>
            d.messages[i].event == frames[i].event && decode(Join(frames[i].lines)) == Some(d.messages[i].body))
      && (d.bad.None? <==> |d.messages| == |frames|)
      && (d.bad.Some? ==> var f := frames[|d.messages|];
            decode(Join(f.lines)).None? && d.bad.value == Join(f.lines))
  {
    if frames != [] {
      DecodesExactly(decode, frames[..|frames| - 1]);
    }
  }

  lemma {:induction false} BadStays<J>(decode: string -> Option<J>, frames: seq<Frame>, more: seq<Frame>)
    requires DecodeAll(decode, frames).bad.Some?
    ensures DecodeAll(decode, frames + more) == DecodeAll(decode, frames)
  {
    if more == [] {
      assert frames + more == frames;
    } else {
      BadStays(decode, frames, more[..|more| - 1]);
      assert (frames + more)[..|frames + more| - 1] == frames + more[..|more| - 1];
    }
  }

  /** The messages with one more frame, after frames that all decoded. */
  function DecodeNext<J>(decode: string -> Option<J>, messages: seq<Message<J>>, f: Frame): Decoded<J> {
    var body := decode(Join(f.lines));
    if body.None? then Decoded(messages, Some(Join(f.lines)))
    else Decoded(messages + [Message(f.event, body.value)], None)
  }

  lemma DecodeOne<J>(decode: string -> Option<J>, frames: seq<Frame>, f: Frame)
    requires DecodeAll(decode, frames).bad.None?
    ensures DecodeAll(decode, frames + [f]) == DecodeNext(decode, DecodeAll(decode, frames).messages, f)
  {
    assert (frames + [f])[..|frames|] == frames;
  }

  lemma ChunkNext(ts: seq<Token>, i: nat)
    requires i < |ts|
    ensures ChunkRun(ts[..i + 1]) == ChunkStep(ChunkRun(ts[..i]), ts[i])
  {
    assert ts[..i + 1][..i] == ts[..i];
  }

  lemma LiveNext(ts: seq<Token>, i: nat)
    requires i < |ts|
    ensures LiveRun(ts[..i + 1]) == LiveStep(LiveRun(ts[..i]), ts[i])
  {
    assert ts[..i + 1][..i] == ts[..i];
  }

  /** Without comments and unknown fields. */
  function Known(ts: seq<Token>): seq<Token> {
    if ts == [] then [] else Known(ts[..|ts| - 1]) + if ts[|ts| - 1].Skip? then [] else [ts[|ts| - 1]]
  }

  /** Comments and unknown fields make no difference to either scanner. */
  lemma {:induction false} SkipsAreIgnored(ts: seq<Token>)
    ensures ChunkRun(Known(ts)) == ChunkRun(ts) && LiveRun(Known(ts)) == LiveRun(ts)
  {
    if ts != [] {
      var rest, last := Known(ts[..|ts| - 1]), ts[|ts| - 1];
      SkipsAreIgnored(ts[..|ts| - 1]);
      if last.Skip? {
        assert Known(ts) == rest;
      } else {
        assert Known(ts) == rest + [last] && (rest + [last])[..|rest|] == rest;
      }
    }
  }

  /** Frames are only ever added. */
  lemma {:induction false} ChunkGrows(ts: seq<Token>, n: nat)
    requires n <= |ts|
    ensures ChunkRun(ts[..n]).out <= ChunkRun(ts).out
  {
    if n == |ts| {
      assert ts[..n] == ts;
    } else {
      ChunkGrows(ts[..|ts| - 1], n);
      assert ts[..|ts| - 1][..n] == ts[..n];
    }
  }

  lemma {:induction false} LiveGrows(ts: seq<Token>, n: nat)
    requires n <= |ts|
    ensures LiveRun(ts[..n]).out <= LiveRun(ts).out
  {
    if n == |ts| {
      assert ts[..n] == ts;
    } else {
      LiveGrows(ts[..|ts| - 1], n);
      assert ts[..|ts| - 1][..n] == ts[..n];
    }
  }

  lemma BadPrefix<J>(decode: string -> Option<J>, a: seq<Frame>, b: seq<Frame>)
    requires a <= b && DecodeAll(decode, a).bad.Some?
    ensures DecodeAll(decode, b) == DecodeAll(decode, a)
  {
    BadStays(decode, a, b[|a|..]);
    assert a + b[|a|..] == b;
  }

  // ---- The parsers ----

  /** `SSEParser.parse_chunk`: all messages of a text, or the data that is not JSON. */
  method ParseChunk<J>(decode: string -> Option<J>, text: string) returns (r: Result<seq<Message<J>>, string>)
    ensures var d := DecodeAll(decode, ChunkFrames(Tokens(Text.SplitLines(text))));
      r == if d.bad.Some? then Err(d.bad.value) else Ok(d.messages)
  {
    r := ParseLines(decode, Text.SplitLines(text));
  }

  method ParseLines<J>(decode: string -> Option<J>, lines: seq<string>) returns (r: Result<seq<Message<J>>, string>)
    ensures var d := DecodeAll(decode, ChunkFrames(Tokens(lines)));
      r == if d.bad.Some? then Err(d.bad.value) else Ok(d.messages)
  {
    var events: seq<Message<J>> := [];
    var current, data := "", [];
    ghost var ts, s := Tokens(lines), IDLE;
    for i := 0 to |lines|
      invariant s == ChunkRun(ts[..i]) && current == s.cur && data == s.data
      invariant DecodeAll(decode, s.out) == Decoded(events, None)
    {
      ChunkNext(ts, i);
      DecodeOne(decode, s.out, Frame(current, data));
      s := ChunkStep(s, ts[i]);
      var parsed := ParseLine(lines[i]);
      if parsed.None? {
        if !IsComment(StripNewlines(lines[i])) {
          if current != "" && data != [] {
            var body := decode(Join(data));
            if body.None? {
              BadChunk(decode, ts, i + 1);
              return Err(Join(data));
            }
            events := events + [Message(current, body.value)];
          }
          current, data := "", [];
        }
      } else if parsed.value.name == "event" {
        if current != "" && data != [] {
          var body := decode(Join(data));
          if body.None? {
            BadChunk(decode, ts, i + 1);
            return Err(Join(data));
          }
          events := events + [Message(current, body.value)];
          data := [];
        }
        current := parsed.value.value;
      } else if parsed.value.name == "data" {
        data := data + [parsed.value.value];
      }
    }
    assert ts[..|lines|] == ts;
    DecodeOne(decode, s.out, Frame(current, data));
    if current != "" && data != [] {
      var body := decode(Join(data));
      if body.None? {
        return Err(Join(data));
      }
      events := events + [Message(current, body.value)];
    }
    return Ok(events);
  }

  lemma BadChunk<J>(decode: string -> Option<J>, ts: seq<Token>, n: nat)
    requires n <= |ts| && DecodeAll(decode, ChunkRun(ts[..n]).out).bad.Some?
    ensures DecodeAll(decode, ChunkFrames(ts)) == DecodeAll(decode, ChunkRun(ts[..n]).out)
  {
    ChunkGrows(ts, n);
    BadPrefix(decode, ChunkRun(ts[..n]).out, ChunkFrames(ts));
  }

  lemma BadLive<J>(decode: string -> Option<J>, ts: seq<Token>, n: nat)
    requires n <= |ts| && DecodeAll(decode, LiveRun(ts[..n]).out).bad.Some?
    ensures DecodeAll(decode, LiveFrames(ts)) == DecodeAll(decode, LiveRun(ts[..n]).out)
  {
    LiveGrows(ts, n);
    BadPrefix(decode, LiveRun(ts[..n]).out, LiveFrames(ts));
  }

  /** The session's stream loop: the messages it yields, and the text that ends it if one is not JSON. */
  method IterateStream<J>(decode: string -> Option<J>, lines: seq<string>) returns (r: Decoded<J>)
    ensures r == DecodeAll(decode, LiveFrames(Tokens(lines)))
  {
    var events: seq<Message<J>> := [];
    var current, data := "", [];
    ghost var ts, s := Tokens(lines), IDLE;
    for i := 0 to |lines|
      invariant s == LiveRun(ts[..i]) && current == s.cur && data == s.data
      invariant DecodeAll(decode, s.out) == Decoded(events, None)
    {
      LiveNext(ts, i);
      DecodeOne(decode, s.out, Frame(current, data));
      s := LiveStep(s, ts[i]);
      var parsed := ParseLine(lines[i]);
      if parsed.None? {
        if !IsComment(StripNewlines(lines[i])) {
          if current != "" && data != [] {
            var body := decode(Join(data));
            if body.None? {
              BadLive(decode, ts, i + 1);
              return Decoded(events, Some(Join(data)));
            }
            events := events + [Message(current, body.value)];
          }
          current, data := "", [];
        }
      } else if parsed.value.name == "event" {
        current := parsed.value.value;
      } else if parsed.value.name == "data" && current != "" {
        data := data + [parsed.value.value];
      }
    }
    assert ts[..|lines|] == ts;
    return Decoded(events, None);
  }
}
