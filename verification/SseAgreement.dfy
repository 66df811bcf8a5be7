/** When the incremental parser and the whole-text parser see the same frames. */
module SseAgreement {
  import opened Wrappers
  import opened Sse
  import Text

  // ---- Blocks ----

  /** The blank-terminated blocks of a token list, and what follows the last blank. */
  datatype Blocks = Blocks(closed: seq<seq<Token>>, tail: seq<Token>)

  function Split(ts: seq<Token>): Blocks {
    if ts == [] then Blocks([], [])
    else
      var b := Split(ts[..|ts| - 1]);
      if ts[|ts| - 1].Blank? then Blocks(b.closed + [b.tail], []) else Blocks(b.closed, b.tail + [ts[|ts| - 1]])
  }

  function ChunkCat(blocks: seq<seq<Token>>): seq<Frame> {
    if blocks == [] then [] else ChunkCat(blocks[..|blocks| - 1]) + ChunkFrames(blocks[|blocks| - 1])
  }

  /** What the stream loop emits for one block when its blank line arrives. */
  function LiveBlock(block: seq<Token>): seq<Frame> {
    Flush(LiveRun(block))
  }

  function LiveCat(blocks: seq<seq<Token>>): seq<Frame> {
    if blocks == [] then [] else LiveCat(blocks[..|blocks| - 1]) + LiveBlock(blocks[|blocks| - 1])
  }

  lemma ChunkCatOne(blocks: seq<seq<Token>>, block: seq<Token>)
    ensures ChunkCat(blocks + [block]) == ChunkCat(blocks) + ChunkFrames(block)
  {
    assert (blocks + [block])[..|blocks|] == blocks;
  }

  lemma LiveCatOne(blocks: seq<seq<Token>>, block: seq<Token>)
    ensures LiveCat(blocks + [block]) == LiveCat(blocks) + LiveBlock(block)
  {
    assert (blocks + [block])[..|blocks|] == blocks;
  }

  /** What was emitted before does not matter to a step. */
  lemma ChunkShift(before: seq<Frame>, s: Scan, t: Token)
    ensures ChunkStep(s.(out := before + s.out), t) == ChunkStep(s, t).(out := before + ChunkStep(s, t).out)
  {
    Text.Assoc(before, s.out, [Frame(s.cur, s.data)]);
  }

  lemma LiveShift(before: seq<Frame>, s: Scan, t: Token)
    ensures LiveStep(s.(out := before + s.out), t) == LiveStep(s, t).(out := before + LiveStep(s, t).out)
  {
    Text.Assoc(before, s.out, [Frame(s.cur, s.data)]);
  }

  /** Blocks are scanned independently of each other. */
  lemma {:induction false} ChunkByBlocks(ts: seq<Token>)
    ensures ChunkRun(ts) == ChunkRun(Split(ts).tail).(out := ChunkCat(Split(ts).closed) + ChunkRun(Split(ts).tail).out)
  {
    if ts != [] {
      var b := Split(ts[..|ts| - 1]);
      ChunkByBlocks(ts[..|ts| - 1]);
      ChunkShift(ChunkCat(b.closed), ChunkRun(b.tail), ts[|ts| - 1]);
      if ts[|ts| - 1].Blank? {
        ChunkCatOne(b.closed, b.tail);
      } else {
        assert Split(ts).tail[..|b.tail|] == b.tail;
      }
    }
  }

  lemma {:induction false} LiveByBlocks(ts: seq<Token>)
    ensures LiveRun(ts) == LiveRun(Split(ts).tail).(out := LiveCat(Split(ts).closed) + LiveRun(Split(ts).tail).out)
  {
    if ts != [] {
      var b := Split(ts[..|ts| - 1]);
      LiveByBlocks(ts[..|ts| - 1]);
      LiveShift(LiveCat(b.closed), LiveRun(b.tail), ts[|ts| - 1]);
      if ts[|ts| - 1].Blank? {
        LiveCatOne(b.closed, b.tail);
      } else {
        assert Split(ts).tail[..|b.tail|] == b.tail;
      }
    }
  }

  ghost predicate NoBlank(ts: seq<Token>) {
    forall i :: 0 <= i < |ts| ==> !ts[i].Blank?
  }

  lemma {:induction false} SplitNoBlank(ts: seq<Token>)
    ensures NoBlank(Split(ts).tail) && forall i :: 0 <= i < |Split(ts).closed| ==> NoBlank(Split(ts).closed[i])
  {
    if ts != [] {
      SplitNoBlank(ts[..|ts| - 1]);
    }
  }

  // ---- One block ----

  /** The last event value of a block, "" if it has none. */
  function LastEvent(b: seq<Token>): string {
    if b == [] then ""
    else if b[|b| - 1].Event? then b[|b| - 1].value
    else LastEvent(b[..|b| - 1])
  }

  function Values(b: seq<Token>): seq<string> {
    if b == [] then []
    else if b[|b| - 1].Data? then Values(b[..|b| - 1]) + [b[|b| - 1].value]
    else Values(b[..|b| - 1])
  }

  function FirstData(b: seq<Token>): (i: nat)
    ensures i <= |b| && forall k :: 0 <= k < i ==> !b[k].Data?
    ensures i < |b| ==> b[i].Data?
  {
    if b == [] || b[0].Data? then 0 else 1 + FirstData(b[1..])
  }

  predicate NamedFrom(b: seq<Token>, i: nat) {
    exists k :: i <= k < |b| && b[k].Event? && b[k].value != ""
  }

  predicate EventFrom(b: seq<Token>, i: nat) {
    exists k :: i <= k < |b| && b[k].Event?
  }

  /** Data lines and no event name, neither before the first of them nor after. */
  predicate Nameless(b: seq<Token>) {
    var f := FirstData(b);
    LastEvent(b[..f]) == "" && !NamedFrom(b, f)
  }

  /** A data line after an event line after a data line. */
  predicate LateData(b: seq<Token>) {
    b != [] && (LateData(b[..|b| - 1]) || (b[|b| - 1].Data? && EventFrom(b[..|b| - 1], FirstData(b))))
  }

  /** Events after the first data line have no data after them, and leave the name as it was. */
  predicate Renamed(b: seq<Token>) {
    LastEvent(b) == LastEvent(b[..FirstData(b)]) && !LateData(b)
  }

  predicate Clean(b: seq<Token>) {
    var f := FirstData(b);
    || f == |b|
    || (if LastEvent(b[..f]) == "" then !NamedFrom(b, f) else Renamed(b))
  }

  predicate Silent(b: seq<Token>) {
    FirstData(b) == |b| || Nameless(b)
  }

  /** Both scanners know the same current event. */
  lemma {:induction false} RunNames(b: seq<Token>)
    requires NoBlank(b)
    ensures ChunkRun(b).cur == LiveRun(b).cur == LastEvent(b)
    ensures LiveRun(b).out == []
  {
    if b != [] {
      RunNames(b[..|b| - 1]);
    }
  }

  function Lines(frames: seq<Frame>): seq<string> {
    if frames == [] then [] else Lines(frames[..|frames| - 1]) + frames[|frames| - 1].lines
  }

  /** Within a block the whole-text parser neither loses nor reorders a data line. */
  lemma {:induction false} ChunkKeepsLines(b: seq<Token>)
    requires NoBlank(b)
    ensures Lines(ChunkRun(b).out) + ChunkRun(b).data == Values(b)
  {
    if b != [] {
      ChunkKeepsLines(b[..|b| - 1]);
    }
  }

  lemma {:induction false} LiveDrops(b: seq<Token>)
    requires NoBlank(b)
    ensures |LiveRun(b).data| <= |Values(b)|
    ensures FirstData(b) < |b| && LastEvent(b[..FirstData(b)]) == "" ==> |LiveRun(b).data| < |Values(b)|
  {
    if b != [] {
      var a := b[..|b| - 1];
      LiveDrops(a);
      RunNames(a);
      FirstOfPrefix(b);
    }
  }

  /** The first data line of a block is that of the block without its last token, if there is one. */
  lemma {:induction false} FirstOfPrefix(b: seq<Token>)
    requires b != []
    ensures var a := b[..|b| - 1];
      && FirstData(b) == (if FirstData(a) < |a| then FirstData(a) else if b[|a|].Data? then |a| else |b|)
      && (FirstData(a) < |a| ==> a[..FirstData(a)] == b[..FirstData(a)])
  {
    var a := b[..|b| - 1];
    assert forall k :: 0 <= k < |a| ==> a[k] == b[k];
  }

  /** Before its first data line a block leaves nothing pending. */
  lemma {:induction false} NoDataYet(b: seq<Token>)
    requires NoBlank(b) && FirstData(b) == |b|
    ensures ChunkRun(b).out == [] && ChunkRun(b).data == [] && LiveRun(b).data == [] && Values(b) == []
  {
    if b != [] {
      FirstOfPrefix(b);
      NoDataYet(b[..|b| - 1]);
    }
  }

  lemma NamedPrefix(b: seq<Token>, i: nat)
    requires b != [] && i < |b|
    ensures var a := b[..|b| - 1];
      NamedFrom(b, i) <==> NamedFrom(a, i) || (b[|a|].Event? && b[|a|].value != "")
  {
    var a := b[..|b| - 1];
    if NamedFrom(b, i) {
      var k :| i <= k < |b| && b[k].Event? && b[k].value != "";
      assert k < |a| ==> a[k] == b[k];
    }
    if NamedFrom(a, i) {
      var k :| i <= k < |a| && a[k].Event? && a[k].value != "";
      assert a[k] == b[k];
    }
  }

  /** A block whose data comes before any name: silent until a name arrives, and then both differ. */
  lemma {:induction false} NamelessRun(b: seq<Token>)
    requires NoBlank(b) && FirstData(b) < |b| && LastEvent(b[..FirstData(b)]) == ""
    ensures !NamedFrom(b, FirstData(b)) ==>
      ChunkRun(b).out == [] && LiveRun(b).data == [] && LastEvent(b) == "" && ChunkRun(b).data != []
    ensures NamedFrom(b, FirstData(b)) ==> ChunkRun(b).out != [] || Ready(ChunkRun(b))
  {
    var a, f := b[..|b| - 1], FirstData(b);
    FirstOfPrefix(b);
    RunNames(a);
    NamedPrefix(b, f);
    if FirstData(a) < |a| {
      NamelessRun(a);
    } else {
      NoDataYet(a);
      assert b[..f] == a;
      assert !NamedFrom(a, f);
    }
  }

  /** A block whose data has a name: after the first event line that follows, the frame is out. */
  lemma {:induction false} NamedRun(b: seq<Token>)
    requires NoBlank(b) && FirstData(b) < |b| && LastEvent(b[..FirstData(b)]) != ""
    ensures var name, f := LastEvent(b[..FirstData(b)]), FirstData(b);
      && (!EventFrom(b, f) ==>
            && ChunkRun(b) == Scan([], name, Values(b)) && LiveRun(b).data == Values(b)
            && LastEvent(b) == name && Values(b) != [])
      && (EventFrom(b, f) ==> ChunkRun(b).out != [] && ChunkRun(b).out[0].event == name)
  {
    var a, f := b[..|b| - 1], FirstData(b);
    FirstOfPrefix(b);
    RunNames(a);
    assert EventFrom(b, f) <==> EventFrom(a, f) || b[|a|].Event? by {
      EventPrefix(b, f);
    }
    if FirstData(a) < |a| {
      NamedRun(a);
    } else {
      NoDataYet(a);
      assert b[..f] == a;
      assert !EventFrom(a, f);
    }
  }

  lemma EventPrefix(b: seq<Token>, i: nat)
    requires b != [] && i < |b|
    ensures EventFrom(b, i) <==> EventFrom(b[..|b| - 1], i) || b[|b| - 1].Event?
  {
    var a := b[..|b| - 1];
    if EventFrom(b, i) {
      var k :| i <= k < |b| && b[k].Event?;
      assert k < |a| ==> a[k] == b[k];
    }
    if EventFrom(a, i) {
      var k :| i <= k < |a| && a[k].Event?;
      assert a[k] == b[k];
    }
  }

  /** With all data before the later event lines, the one frame is out; otherwise the first frame lacks data. */
  lemma {:induction false} RenamedRun(b: seq<Token>)
    requires NoBlank(b) && FirstData(b) < |b| && LastEvent(b[..FirstData(b)]) != "" && EventFrom(b, FirstData(b))
    ensures ChunkRun(b).out != []
    ensures !LateData(b) ==>
      && ChunkRun(b).out == [Frame(LastEvent(b[..FirstData(b)]), Values(b))] && ChunkRun(b).data == []
      && LiveRun(b).data == Values(b) && Values(b) != []
    ensures LateData(b) ==> |ChunkRun(b).out[0].lines| < |Values(b)|
  {
    var a, f := b[..|b| - 1], FirstData(b);
    FirstOfPrefix(b);
    EventPrefix(b, f);
    RunNames(a);
    NamedRun(b);
    if FirstData(a) < |a| {
      NamedRun(a);
      if EventFrom(a, f) {
        RenamedRun(a);
      } else {
        NoLateYet(a);
      }
    }
  }

  lemma {:induction false} NoLateYet(b: seq<Token>)
    requires FirstData(b) < |b| ==> !EventFrom(b, FirstData(b))
    ensures !LateData(b)
  {
    if b != [] {
      FirstOfPrefix(b);
      if FirstData(b) < |b| {
        EventPrefix(b, FirstData(b));
      }
      NoLateYet(b[..|b| - 1]);
    }
  }

  // ---- Agreement on one block ----

  lemma BothSilent(b: seq<Token>)
    requires NoBlank(b)
    ensures Silent(b) <==> ChunkFrames(b) == []
    ensures Silent(b) ==> LiveBlock(b) == []
  {
    RunNames(b);
    if FirstData(b) == |b| {
      NoDataYet(b);
    } else if LastEvent(b[..FirstData(b)]) == "" {
      NamelessRun(b);
    } else {
      NamedRun(b);
    }
  }

  /** On a clean block the parsers agree. */
  lemma CleanAgrees(b: seq<Token>)
    requires NoBlank(b) && Clean(b)
    ensures ChunkFrames(b) == LiveBlock(b)
  {
    RunNames(b);
    if Silent(b) {
      BothSilent(b);
    } else {
      NamedRun(b);
      if EventFrom(b, FirstData(b)) {
        RenamedRun(b);
      }
    }
  }

  lemma LinesOfOne(frame: Frame)
    ensures Lines([frame]) == frame.lines
  {
    assert [frame][..0] == [];
  }

  /** A scanner with a named event that flushes to one frame has all its lines in it. */
  lemma OnlyFrame(s: Scan, frame: Frame)
    requires s.cur != "" && Flush(s) == [frame]
    ensures frame.lines == Lines(s.out) + s.data
  {
    if Ready(s) {
      assert |s.out| == 0;
      assert frame == Flush(s)[0];
    } else {
      LinesOfOne(frame);
    }
  }

  /** A frame the stream loop emits carries all the block's data if the whole-text parser emits just that frame. */
  lemma SameFrame(b: seq<Token>)
    requires NoBlank(b) && ChunkFrames(b) == LiveBlock(b) != []
    ensures ChunkFrames(b) == [Frame(LastEvent(b), Values(b))] && |LiveRun(b).data| == |Values(b)|
  {
    RunNames(b);
    ChunkKeepsLines(b);
    OnlyFrame(ChunkRun(b), Frame(LastEvent(b), LiveRun(b).data));
  }

  /** Where the parsers agree on a block, it is clean. */
  lemma AgreesClean(b: seq<Token>)
    requires NoBlank(b) && ChunkFrames(b) == LiveBlock(b)
    ensures Clean(b)
  {
    BothSilent(b);
    if !Silent(b) {
      SameFrame(b);
      LiveDrops(b);
      NamedRun(b);
      if EventFrom(b, FirstData(b)) {
        RenamedRun(b);
      } else {
        NoLateYet(b);
      }
    }
  }

  /** The whole-text parser emits at least as many frames for a block. */
  lemma NoFewer(b: seq<Token>)
    requires NoBlank(b)
    ensures |LiveBlock(b)| <= |ChunkFrames(b)|
  {
    RunNames(b);
    BothSilent(b);
  }

  // ---- Agreement on all blocks ----

  ghost predicate NoBlanks(blocks: seq<seq<Token>>) {
    forall i :: 0 <= i < |blocks| ==> NoBlank(blocks[i])
  }

  lemma {:induction false} NoFewerInAll(blocks: seq<seq<Token>>)
    requires NoBlanks(blocks)
    ensures |LiveCat(blocks)| <= |ChunkCat(blocks)|
  {
    if blocks != [] {
      NoFewerInAll(blocks[..|blocks| - 1]);
      NoFewer(blocks[|blocks| - 1]);
    }
  }

  lemma CleanExactly(b: seq<Token>)
    requires NoBlank(b)
    ensures ChunkFrames(b) == LiveBlock(b) <==> Clean(b)
  {
    if Clean(b) {
      CleanAgrees(b);
    } else if ChunkFrames(b) == LiveBlock(b) {
      AgreesClean(b);
    }
  }

  /** No shortfall in one block makes up for a surplus in another. */
  lemma PartsAgree(rest: seq<seq<Token>>, last: seq<Token>)
    requires NoBlanks(rest) && NoBlank(last)
    ensures ChunkCat(rest) + ChunkFrames(last) == LiveCat(rest) + LiveBlock(last) <==>
      ChunkCat(rest) == LiveCat(rest) && ChunkFrames(last) == LiveBlock(last)
  {
    if ChunkCat(rest) + ChunkFrames(last) == LiveCat(rest) + LiveBlock(last) {
      NoFewerInAll(rest);
      NoFewer(last);
      SameParts(ChunkCat(rest), ChunkFrames(last), LiveCat(rest), LiveBlock(last));
    }
  }

  lemma {:induction false} AllClean(blocks: seq<seq<Token>>)
    requires NoBlanks(blocks)
    ensures ChunkCat(blocks) == LiveCat(blocks) <==> forall i :: 0 <= i < |blocks| ==> Clean(blocks[i])
  {
    if blocks != [] {
      var rest, last := blocks[..|blocks| - 1], blocks[|blocks| - 1];
      AllClean(rest);
      PartsAgree(rest, last);
      CleanExactly(last);
      assert (forall i :: 0 <= i < |blocks| ==> Clean(blocks[i])) <==>
        Clean(last) && forall i :: 0 <= i < |rest| ==> Clean(rest[i]);
    }
  }

  lemma SameParts<T>(a: seq<T>, b: seq<T>, c: seq<T>, d: seq<T>)
    requires a + b == c + d && |c| <= |a| && |d| <= |b|
    ensures a == c && b == d
  {
    assert a == (a + b)[..|a|] && c == (c + d)[..|c|];
    assert b == (a + b)[|a|..] && d == (c + d)[|c|..];
  }

  /**
   * The incremental parser sees exactly the frames of the whole-text parser if and only if every
   * blank-terminated block is clean and nothing complete is left after the last blank line.
   */
  lemma AgreeExactly(ts: seq<Token>)
    ensures ChunkFrames(ts) == LiveFrames(ts) <==>
      Silent(Split(ts).tail) && forall i :: 0 <= i < |Split(ts).closed| ==> Clean(Split(ts).closed[i])
  {
    var closed, tail := Split(ts).closed, Split(ts).tail;
    SplitNoBlank(ts);
    ChunkByBlocks(ts);
    LiveByBlocks(ts);
    RunNames(tail);
    AllClean(closed);
    BothSilent(tail);
    NoFewerInAll(closed);
    assert ChunkFrames(ts) == ChunkCat(closed) + ChunkFrames(tail);
    assert LiveFrames(ts) == LiveCat(closed) + [];
    if ChunkFrames(ts) == LiveFrames(ts) {
      SameParts(ChunkCat(closed), ChunkFrames(tail), LiveCat(closed), []);
    }
  }

  // ---- The usual case ----

  /** No data before the block's event line, and no event line after data. */
  ghost predicate EventThenData(b: seq<Token>) {
    FirstData(b) < |b| ==> LastEvent(b[..FirstData(b)]) != "" && !EventFrom(b, FirstData(b))
  }

  /** On blank-terminated input in the usual shape the parsers agree, frame for frame and message for message. */
  lemma UsualInputAgrees<J>(decode: string -> Option<J>, ts: seq<Token>)
    requires Split(ts).tail == []
    requires forall i :: 0 <= i < |Split(ts).closed| ==> EventThenData(Split(ts).closed[i])
    ensures LiveFrames(ts) == ChunkFrames(ts)
    ensures DecodeAll(decode, LiveFrames(ts)) == DecodeAll(decode, ChunkFrames(ts))
  {
    SplitNoBlank(ts);
    forall i | 0 <= i < |Split(ts).closed| ensures Clean(Split(ts).closed[i]) {
      var b := Split(ts).closed[i];
      if FirstData(b) < |b| {
        NamedRun(b);
        NoLateYet(b);
      }
    }
    AgreeExactly(ts);
  }

  // ---- Concatenation ----

  /** Scanning starts afresh after a blank line. */
  lemma {:induction false} ChunkConcat(a: seq<Token>, b: seq<Token>)
    requires a == [] || a[|a| - 1].Blank?
    ensures ChunkRun(a + b) == ChunkRun(b).(out := ChunkRun(a).out + ChunkRun(b).out)
    ensures ChunkFrames(a + b) == ChunkFrames(a) + ChunkFrames(b)
  {
    if b == [] {
      assert a + b == a;
    } else {
      ChunkConcat(a, b[..|b| - 1]);
      assert (a + b)[..|a + b| - 1] == a + b[..|b| - 1];
    }
  }

  /** Parsing a text piece by piece, cut after a blank line, gives the frames of the whole. */
  lemma ParseConcat(a: string, b: string)
    requires a == "" || a[|a| - 1] == '\n'
    requires var lines := Text.SplitLines(a); lines == [] || lines[|lines| - 1] == ""
    ensures ChunkFrames(Tokens(Text.SplitLines(a + b))) ==
      ChunkFrames(Tokens(Text.SplitLines(a))) + ChunkFrames(Tokens(Text.SplitLines(b)))
  {
    Text.SplitConcat(a, b);
    TokensConcat(Text.SplitLines(a), Text.SplitLines(b));
    EmptyLineIsBlank(Text.SplitLines(a));
    ChunkConcat(Tokens(Text.SplitLines(a)), Tokens(Text.SplitLines(b)));
  }

  lemma TokensConcat(a: seq<string>, b: seq<string>)
    ensures Tokens(a + b) == Tokens(a) + Tokens(b)
  {
  }

  lemma EmptyLineIsBlank(lines: seq<string>)
    requires lines == [] || lines[|lines| - 1] == ""
    ensures lines == [] || Tokens(lines)[|lines| - 1].Blank?
  {
  }

  // ---- The same, as event names and data texts ----

  datatype Payload = Payload(event: string, text: string)

  /** The (event, data) pairs handed to the JSON decoder. */
  function Payloads(frames: seq<Frame>): seq<Payload> {
    seq(|frames|, i requires 0 <= i < |frames| => Payload(frames[i].event, Join(frames[i].lines)))
  }

  ghost predicate Unbroken(lines: seq<string>) {
    forall i :: 0 <= i < |lines| ==> '\n' !in lines[i]
  }

  lemma JoinMore(lines: seq<string>)
    requires |lines| > 1 && Unbroken(lines)
    ensures Text.Partition(Join(lines), '\n') == Text.Parts(lines[0], true, Join(lines[1..]))
  {
    Text.PartitionJoin(lines[0], '\n', Join(lines[1..]));
    assert Join(lines) == lines[0] + ['\n'] + Join(lines[1..]);
  }

  /** Joined data lines can be told apart again. */
  lemma {:induction false} JoinInjective(a: seq<string>, b: seq<string>)
    requires a != [] && b != [] && Unbroken(a) && Unbroken(b) && Join(a) == Join(b)
    ensures a == b
  {
    if |a| > 1 {
      JoinMore(a);
    } else {
      Text.PartitionNone(a[0], '\n');
    }
    if |b| > 1 {
      JoinMore(b);
    } else {
      Text.PartitionNone(b[0], '\n');
    }
    if |a| > 1 {
      JoinInjective(a[1..], b[1..]);
      assert a == [a[0]] + a[1..] && b == [b[0]] + b[1..];
    }
  }

  ghost predicate GoodTokens(ts: seq<Token>) {
    forall i :: 0 <= i < |ts| && ts[i].Data? ==> '\n' !in ts[i].value
  }

  ghost predicate GoodFrames(frames: seq<Frame>) {
    forall i :: 0 <= i < |frames| ==> frames[i].lines != [] && Unbroken(frames[i].lines)
  }

  lemma {:induction false} GoodScans(ts: seq<Token>)
    requires GoodTokens(ts)
    ensures GoodFrames(ChunkRun(ts).out) && Unbroken(ChunkRun(ts).data)
    ensures GoodFrames(LiveRun(ts).out) && Unbroken(LiveRun(ts).data)
  {
    if ts != [] {
      GoodScans(ts[..|ts| - 1]);
    }
  }

  lemma PayloadsInjective(a: seq<Frame>, b: seq<Frame>)
    requires GoodFrames(a) && GoodFrames(b) && Payloads(a) == Payloads(b)
    ensures a == b
  {
    forall i | 0 <= i < |a| ensures a[i] == b[i] {
      assert Payloads(a)[i] == Payloads(b)[i];
      JoinInjective(a[i].lines, b[i].lines);
    }
  }

  lemma {:induction false} StripKeepsUnbroken(value: string)
    requires '\n' !in value
    ensures '\n' !in StripSpaces(value)
  {
    if value != "" && value[0] == ' ' {
      StripKeepsUnbroken(value[1..]);
    }
  }

  lemma {:induction false} StripsToPrefix(line: string)
    ensures StripNewlines(line) <= line
  {
    if line != "" && IsNewline(line[|line| - 1]) {
      StripsToPrefix(line[..|line| - 1]);
    }
  }

  lemma LineIsGood(line: string)
    requires '\n' !in line
    ensures Classify(line).Data? ==> '\n' !in Classify(line).value
  {
    StripsToPrefix(line);
    StripKeepsUnbroken(Text.Partition(StripNewlines(line), ':').after);
  }

  lemma TextTokensGood(text: string)
    ensures GoodTokens(Tokens(Text.SplitLines(text)))
  {
    Text.LinesHaveNoBreaks(text);
    var lines := Text.SplitLines(text);
    forall i | 0 <= i < |lines| ensures Classify(lines[i]).Data? ==> '\n' !in Classify(lines[i]).value {
      LineIsGood(lines[i]);
    }
  }

  /** For any text, both parsers decode the same (event, data) pairs exactly when its blocks are clean and its tail silent. */
  lemma TextAgreesExactly(text: string)
    ensures var ts := Tokens(Text.SplitLines(text));
      Payloads(ChunkFrames(ts)) == Payloads(LiveFrames(ts)) <==>
      Silent(Split(ts).tail) && forall i :: 0 <= i < |Split(ts).closed| ==> Clean(Split(ts).closed[i])
  {
    var ts := Tokens(Text.SplitLines(text));
    AgreeExactly(ts);
    TextTokensGood(text);
    GoodScans(ts);
    if Payloads(ChunkFrames(ts)) == Payloads(LiveFrames(ts)) {
      PayloadsInjective(ChunkFrames(ts), LiveFrames(ts));
    }
  }
}
