/**
 * Tool calls in a model reply (gateway/features/completion/services/tool_protocol.py). The JSON
 * decoder and the code-fence pattern are parameters; the tag pattern is a substring search.
 */
module ToolCalls {
  import opened Wrappers
  import Text

  const OPEN := "<tool_call>"
  const CLOSE := "</tool_call>"

  // ---- Searching and trimming ----

  predicate At(text: string, tag: string, i: nat) {
    i + |tag| <= |text| && text[i..i + |tag|] == tag
  }

  predicate Contains(text: string, tag: string) {
    exists i: nat :: i <= |text| && At(text, tag, i)
  }

  lemma SliceOfRest(text: string, a: nat, k: nat, n: nat)
    requires a + k + n <= |text|
    ensures text[a..][k..k + n] == text[a + k..a + k + n]
  {
  }

  /** The first occurrence of `tag`. */
  function Find(text: string, tag: string): (r: Option<nat>)
    ensures r.Some? ==> At(text, tag, r.value)
  {
    if At(text, tag, 0) then Some(0)
    else if text == "" then None
    else
      var rest := Find(text[1..], tag);
      if rest.None? then None
      else
        SliceOfRest(text, 1, rest.value, |tag|);
        Some(rest.value + 1)
  }

  lemma {:induction false} FindFirst(text: string, tag: string, j: nat)
    requires At(text, tag, j)
    ensures Find(text, tag).Some? && Find(text, tag).value <= j
  {
    if !At(text, tag, 0) {
      SliceOfRest(text, 1, j - 1, |tag|);
      FindFirst(text[1..], tag, j - 1);
    }
  }

  /** Python's whitespace, for `\s` and `strip`. */
  predicate IsSpace(c: char) {
    || '\t' <= c <= '\r' || '\U{1c}' <= c <= ' ' || c == '\U{85}' || c == '\U{a0}' || c == '\U{1680}'
    || '\U{2000}' <= c <= '\U{200a}' || c == '\U{2028}' || c == '\U{2029}' || c == '\U{202f}' || c == '\U{205f}'
    || c == '\U{3000}'
  }

  function StripLeft(s: string): string {
    if s != "" && IsSpace(s[0]) then StripLeft(s[1..]) else s
  }

  function StripRight(s: string): string {
    if s != "" && IsSpace(s[|s| - 1]) then StripRight(s[..|s| - 1]) else s
  }

  function Strip(s: string): string {
    StripRight(StripLeft(s))
  }

  predicate AllSpace(s: string) {
    forall i :: 0 <= i < |s| ==> IsSpace(s[i])
  }

  predicate Trimmed(s: string) {
    s != "" && !IsSpace(s[0]) && !IsSpace(s[|s| - 1])
  }

  lemma {:induction false} StripLeftPad(pad: string, s: string)
    requires AllSpace(pad) && s != "" && !IsSpace(s[0])
    ensures StripLeft(pad + s) == s
  {
    if pad == "" {
      assert pad + s == s;
    } else {
      StripLeftPad(pad[1..], s);
      assert (pad + s)[1..] == pad[1..] + s;
    }
  }

  lemma {:induction false} StripRightPad(s: string, pad: string)
    requires AllSpace(pad) && s != "" && !IsSpace(s[|s| - 1])
    ensures StripRight(s + pad) == s
  {
    if pad == "" {
      assert s + pad == s;
    } else {
      StripRightPad(s, pad[..|pad| - 1]);
      assert (s + pad)[..|s + pad| - 1] == s + pad[..|pad| - 1];
    }
  }

  lemma StripPads(left: string, s: string, right: string)
    requires AllSpace(left) && AllSpace(right) && Trimmed(s)
    ensures Strip(left + s + right) == s
  {
    Text.Assoc(left, s, right);
    StripLeftPad(left, s + right);
    StripRightPad(s, right);
  }

  // ---- The tag scanner ----

  /** The text of a block and what follows it. */
  datatype Block = Block(body: string, rest: string)

  /** From the first `open` to the first `close` after it. */
  function Between(text: string, open: string, close: string): (r: Option<Block>)
    requires open != ""
    ensures r.Some? ==> |r.value.rest| < |text|
  {
    var i := Find(text, open);
    if i.None? then None
    else
      var inside := text[i.value + |open|..];
      var j := Find(inside, close);
      if j.None? then None else Some(Block(inside[..j.value], inside[j.value + |close|..]))
  }

  function TakeBlock(text: string): (r: Option<Block>)
    ensures r.Some? ==> |r.value.rest| < |text|
  {
    Between(text, OPEN, CLOSE)
  }

  /** What the tag pattern finds: the trimmed text of each block, in order. */
  function TagBlocks(text: string): seq<string>
    decreases |text|
  {
    var block := TakeBlock(text);
    if block.None? then [] else [Strip(block.value.body)] + TagBlocks(block.value.rest)
  }

  /** A block and the text before it. */
  datatype Segment = Segment(prose: string, body: string)

  function Compose(segments: seq<Segment>, tail: string): string {
    if segments == [] then tail
    else segments[0].prose + (OPEN + (segments[0].body + (CLOSE + Compose(segments[1..], tail))))
  }

  ghost predicate Plain(s: Segment) {
    !Contains(s.prose, OPEN) && !Contains(s.body, CLOSE)
  }

  /** No block begins in the tail and ends in it. */
  ghost predicate NoBlock(tail: string) {
    forall i: nat, j: nat :: At(tail, OPEN, i) && i + |OPEN| <= j ==> !At(tail, CLOSE, j)
  }

  function Bodies(segments: seq<Segment>): seq<string> {
    seq(|segments|, i requires 0 <= i < |segments| => Strip(segments[i].body))
  }

  predicate OneBracket(tag: string) {
    tag != "" && tag[0] == '<' && forall k :: 1 <= k < |tag| ==> tag[k] != '<'
  }

  /** The search finds the tag where it was put, since no other occurrence can overlap it. */
  lemma FindAfter(before: string, tag: string, after: string)
    requires OneBracket(tag) && !Contains(before, tag)
    ensures Find(before + (tag + after), tag) == Some(|before|)
  {
    var s := before + (tag + after);
    assert s[|before|..|before| + |tag|] == tag;
    FindFirst(s, tag, |before|);
    var j := Find(s, tag).value;
    if j < |before| {
      NoOverlap(before, tag, after, j);
    }
  }

  /** An occurrence that begins before the tag ends before it too. */
  lemma NoOverlap(before: string, tag: string, after: string, j: nat)
    requires OneBracket(tag) && At(before + (tag + after), tag, j) && j < |before|
    ensures At(before, tag, j)
  {
    var s := before + (tag + after);
    assert s[|before|] == '<';
    assert forall k :: j <= k < j + |tag| ==> s[k] == s[j..j + |tag|][k - j];
    assert j + |tag| <= |before| ==> before[j..j + |tag|] == s[j..j + |tag|];
  }

  lemma Cut(before: string, tag: string, after: string)
    ensures (before + (tag + after))[..|before|] == before
    ensures (before + (tag + after))[|before| + |tag|..] == after
  {
  }

  lemma TagsHaveOneBracket()
    ensures OneBracket(OPEN) && OneBracket(CLOSE)
  {
  }

  /** The tag is found where it was put, and splits the text there. */
  ghost predicate SplitsAt(text: string, tag: string, before: string, after: string) {
    && Find(text, tag) == Some(|before|) && |before| + |tag| <= |text|
    && text[..|before|] == before && text[|before| + |tag|..] == after
  }

  lemma CutAt(before: string, tag: string, after: string)
    requires OneBracket(tag) && !Contains(before, tag)
    ensures SplitsAt(before + (tag + after), tag, before, after)
  {
    FindAfter(before, tag, after);
    Cut(before, tag, after);
  }

  lemma BetweenSplits(text: string, prose: string, open: string, inside: string, body: string, close: string, rest: string)
    requires open != "" && SplitsAt(text, open, prose, inside) && SplitsAt(inside, close, body, rest)
    ensures Between(text, open, close) == Some(Block(body, rest))
  {
  }

  lemma FirstBlock(s: Segment, rest: string)
    requires Plain(s)
    ensures TakeBlock(s.prose + (OPEN + (s.body + (CLOSE + rest)))) == Some(Block(s.body, rest))
  {
    TagsHaveOneBracket();
    var inside := s.body + (CLOSE + rest);
    CutAt(s.prose, OPEN, inside);
    CutAt(s.body, CLOSE, rest);
    BetweenSplits(s.prose + (OPEN + inside), s.prose, OPEN, inside, s.body, CLOSE, rest);
  }

  lemma FoundBlock(text: string)
    ensures TakeBlock(text).Some? ==> !NoBlock(text)
  {
    if TakeBlock(text).Some? {
      var open := Find(text, OPEN).value;
      var close := Find(text[open + |OPEN|..], CLOSE).value;
      SliceOfRest(text, open + |OPEN|, close, |CLOSE|);
      assert At(text, CLOSE, open + |OPEN| + close);
    }
  }

  lemma BodiesNext(segments: seq<Segment>)
    requires segments != []
    ensures Bodies(segments) == [Strip(segments[0].body)] + Bodies(segments[1..])
  {
  }

  /** From prose interleaved with blocks the scanner takes exactly the blocks' bodies, in order. */
  lemma {:induction false} ScansBlocks(segments: seq<Segment>, tail: string)
    requires NoBlock(tail) && forall i :: 0 <= i < |segments| ==> Plain(segments[i])
    ensures TagBlocks(Compose(segments, tail)) == Bodies(segments)
  {
    if segments == [] {
      FoundBlock(tail);
    } else {
      ScansBlocks(segments[1..], tail);
      FirstBlock(segments[0], Compose(segments[1..], tail));
      BodiesNext(segments);
    }
  }

  /** Every text is prose interleaved with blocks and a tail without one, so nothing else is ever found. */
  lemma {:induction false} Decompose(text: string) returns (segments: seq<Segment>, tail: string)
    ensures NoBlock(tail) && (forall i :: 0 <= i < |segments| ==> Plain(segments[i]))
    ensures Compose(segments, tail) == text
    decreases |text|
  {
    var open := Find(text, OPEN);
    if open.None? {
      NoneFound(text, OPEN);
      segments, tail := [], text;
    } else {
      var inside := text[open.value + |OPEN|..];
      var close := Find(inside, CLOSE);
      if close.None? {
        NoCloseAfter(text, open.value);
        segments, tail := [], text;
      } else {
        var rest := inside[close.value + |CLOSE|..];
        var s := Segment(text[..open.value], inside[..close.value]);
        BeforeFirst(text, OPEN);
        BeforeFirst(inside, CLOSE);
        var more: seq<Segment>;
        more, tail := Decompose(rest);
        segments := [s] + more;
        assert segments[1..] == more;
      }
    }
  }

  lemma NoneFound(text: string, tag: string)
    requires Find(text, tag).None?
    ensures forall j: nat :: !At(text, tag, j)
  {
    forall j: nat | At(text, tag, j) ensures false {
      FindFirst(text, tag, j);
    }
  }

  lemma NoCloseAfter(text: string, open: nat)
    requires Find(text, OPEN) == Some(open) && Find(text[open + |OPEN|..], CLOSE).None?
    ensures NoBlock(text)
  {
    forall i: nat, j: nat | At(text, OPEN, i) && i + |OPEN| <= j && At(text, CLOSE, j) ensures false {
      FindFirst(text, OPEN, i);
      var k := j - open - |OPEN|;
      SliceOfRest(text, open + |OPEN|, k, |CLOSE|);
      FindFirst(text[open + |OPEN|..], CLOSE, k);
    }
  }

  lemma Rejoin(text: string, tag: string, i: nat)
    requires At(text, tag, i)
    ensures text == text[..i] + (tag + text[i + |tag|..])
  {
    assert text[i..] == text[i..i + |tag|] + text[i + |tag|..];
  }

  lemma AtPrefix(text: string, tag: string, i: nat, j: nat)
    requires i <= |text| && At(text[..i], tag, j)
    ensures At(text, tag, j)
  {
    assert text[j..j + |tag|] == text[..i][j..j + |tag|];
  }

  /** A text cut at the first occurrence has none before it and joins up again. */
  lemma BeforeFirst(text: string, tag: string)
    requires Find(text, tag).Some? && |tag| > 0
    ensures var i := Find(text, tag).value;
      !Contains(text[..i], tag) && text == text[..i] + (tag + text[i + |tag|..])
  {
    var i := Find(text, tag).value;
    Rejoin(text, tag, i);
    forall j: nat | At(text[..i], tag, j) ensures false {
      AtPrefix(text, tag, i, j);
      FindFirst(text, tag, j);
    }
  }

  // ---- From blocks to calls ----

  datatype Json = Object(fields: map<string, Json>) | Str(text: string) | Other

  datatype ParsedCall = ParsedCall(name: string, arguments: map<string, Json>)

  type Decoder = string -> Option<Json>

  /** Arguments given as an object, or as text that decodes to one; anything else means none. */
  function Arguments(decode: Decoder, args: Json): map<string, Json> {
    match args
    case Object(fields) => fields
    case Str(s) =>
      var inner := decode(s);
      if inner.Some? && inner.value.Object? then inner.value.fields else map[]
    case Other => map[]
  }

  function Coerce(decode: Decoder, j: Json): Option<ParsedCall> {
    if !j.Object? || "name" !in j.fields then None
    else
      var name := j.fields["name"];
      if !name.Str? || name.text == "" then None
      else Some(ParsedCall(name.text, if "arguments" in j.fields then Arguments(decode, j.fields["arguments"]) else map[]))
  }

  function Candidate(decode: Decoder, raw: string): Option<ParsedCall> {
    var j := decode(raw);
    if j.None? then None else Coerce(decode, j.value)
  }

  /** The candidates that are calls, in order. */
  function Calls(decode: Decoder, raws: seq<string>): seq<ParsedCall> {
    if raws == [] then []
    else
      var last := Candidate(decode, raws[|raws| - 1]);
      Calls(decode, raws[..|raws| - 1]) + if last.Some? then [last.value] else []
  }

  /** A single bare object as the whole reply. */
  function Bare(decode: Decoder, text: string): seq<ParsedCall> {
    var s := Strip(text);
    if s != "" && s[0] == '{' && s[|s| - 1] == '}' then Calls(decode, [s]) else []
  }

  function Parsed(decode: Decoder, fences: string -> seq<string>, text: string): seq<ParsedCall> {
    if text == "" then []
    else if Calls(decode, TagBlocks(text)) != [] then Calls(decode, TagBlocks(text))
    else if Calls(decode, fences(text)) != [] then Calls(decode, fences(text))
    else Bare(decode, text)
  }

  method Collect(decode: Decoder, raws: seq<string>) returns (calls: seq<ParsedCall>)
    ensures calls == Calls(decode, raws)
  {
    calls := [];
    for i := 0 to |raws|
      invariant calls == Calls(decode, raws[..i])
    {
      assert raws[..i + 1][..i] == raws[..i];
      var j := decode(raws[i]);
      if j.Some? {
        var call := Coerce(decode, j.value);
        if call.Some? {
          calls := calls + [call.value];
        }
      }
    }
    assert raws[..|raws|] == raws;
  }

  /** `_TAG_RE.findall`. */
  method FindAll(text: string) returns (raws: seq<string>)
    ensures raws == TagBlocks(text)
  {
    raws := [];
    var rest := text;
    while true
      invariant raws + TagBlocks(rest) == TagBlocks(text)
      decreases |rest|
    {
      var block := TakeBlock(rest);
      if block.None? {
        return;
      }
      var raw := Strip(block.value.body);
      Text.Assoc(raws, [raw], TagBlocks(block.value.rest));
      raws, rest := raws + [raw], block.value.rest;
    }
  }

  method ParseToolCalls(decode: Decoder, fences: string -> seq<string>, text: string) returns (calls: seq<ParsedCall>)
    ensures calls == Parsed(decode, fences, text)
  {
    if text == "" {
      return [];
    }
    var raws := FindAll(text);
    calls := Collect(decode, raws);
    if calls != [] {
      return;
    }
    calls := Collect(decode, fences(text));
    if calls != [] {
      return;
    }
    var stripped := Strip(text);
    if stripped != "" && stripped[0] == '{' && stripped[|stripped| - 1] == '}' {
      calls := Collect(decode, [stripped]);
    }
  }

  // ---- What a reply with calls gives ----

  /** A call as a model writes it: some JSON text of the call, with any white space around it. */
  datatype Written = Written(prose: string, left: string, json: string, right: string, call: ParsedCall)

  ghost predicate Faithful(decode: Decoder, w: Written) {
    && AllSpace(w.left) && AllSpace(w.right) && Trimmed(w.json)
    && Candidate(decode, w.json) == Some(w.call)
    && !Contains(w.prose, OPEN) && !Contains(w.left + w.json + w.right, CLOSE)
  }

  function Segments(ws: seq<Written>): seq<Segment> {
    seq(|ws|, i requires 0 <= i < |ws| => Segment(ws[i].prose, ws[i].left + ws[i].json + ws[i].right))
  }

  function CallsOf(ws: seq<Written>): seq<ParsedCall> {
    seq(|ws|, i requires 0 <= i < |ws| => ws[i].call)
  }

  function Jsons(ws: seq<Written>): seq<string> {
    seq(|ws|, i requires 0 <= i < |ws| => ws[i].json)
  }

  lemma {:induction false} JsonsDecode(decode: Decoder, ws: seq<Written>)
    requires forall i :: 0 <= i < |ws| ==> Faithful(decode, ws[i])
    ensures Calls(decode, Jsons(ws)) == CallsOf(ws)
  {
    if ws != [] {
      var n := |ws| - 1;
      JsonsDecode(decode, ws[..n]);
      assert Jsons(ws)[..n] == Jsons(ws[..n]);
      assert Faithful(decode, ws[n]);
    }
  }

  /** The calls written into a reply, between any prose, are exactly the ones taken out, in order. */
  lemma RecoversCalls(decode: Decoder, fences: string -> seq<string>, ws: seq<Written>, tail: string)
    requires ws != [] && NoBlock(tail) && forall i :: 0 <= i < |ws| ==> Faithful(decode, ws[i])
    ensures Parsed(decode, fences, Compose(Segments(ws), tail)) == CallsOf(ws)
  {
    var segments, text := Segments(ws), Compose(Segments(ws), tail);
    forall i | 0 <= i < |ws| ensures Plain(segments[i]) && Strip(segments[i].body) == ws[i].json {
      assert Faithful(decode, ws[i]);
      StripPads(ws[i].left, ws[i].json, ws[i].right);
    }
    ScansBlocks(segments, tail);
    assert Bodies(segments) == Jsons(ws);
    JsonsDecode(decode, ws);
    assert |CallsOf(ws)| > 0;
    assert TagBlocks("") == [];
  }

  /**
   * Which call a text stands for: it decodes to an object with a name that is not empty; the arguments
   * are those given, or those in the text given for them, and none if there are none or they are not an object.
   */
  lemma CandidateExactly(decode: Decoder, raw: string, call: ParsedCall)
    ensures Candidate(decode, raw) == Some(call) <==>
      exists fields: map<string, Json> ::
        && decode(raw) == Some(Object(fields)) && call.name != ""
        && "name" in fields && fields["name"] == Str(call.name)
        && ("arguments" !in fields ==> call.arguments == map[])
        && ("arguments" in fields && fields["arguments"].Object? ==> call.arguments == fields["arguments"].fields)
        && ("arguments" in fields && fields["arguments"].Other? ==> call.arguments == map[])
        && ("arguments" in fields && fields["arguments"].Str? ==>
              match decode(fields["arguments"].text)
              case Some(Object(inner)) => call.arguments == inner
              case _ => call.arguments == map[])
  {
    if decode(raw).Some? && decode(raw).value.Object? {
      var fields := decode(raw).value.fields;
      assert decode(raw) == Some(Object(fields));
    }
  }

  /** One candidate gives its call, or nothing. */
  lemma CallOfOne(decode: Decoder, raw: string)
    ensures Calls(decode, [raw]) == match Candidate(decode, raw) case Some(call) => [call] case None => []
  {
    assert [raw][..0] == [];
  }

  lemma CallsNext(decode: Decoder, raws: seq<string>, raw: string)
    ensures Calls(decode, raws + [raw]) == Calls(decode, raws) + Calls(decode, [raw])
  {
    CallOfOne(decode, raw);
    assert (raws + [raw])[..|raws|] == raws;
  }

  /** The calls of several candidates are those of each, one after the other; a candidate that is no call is skipped. */
  lemma {:induction false} CallsInOrder(decode: Decoder, a: seq<string>, b: seq<string>)
    ensures Calls(decode, a + b) == Calls(decode, a) + Calls(decode, b)
  {
    if b == [] {
      assert a + b == a;
    } else {
      var n := |b| - 1;
      CallsInOrder(decode, a, b[..n]);
      CallsNext(decode, a + b[..n], b[n]);
      CallsNext(decode, b[..n], b[n]);
      Text.Assoc(Calls(decode, a), Calls(decode, b[..n]), Calls(decode, [b[n]]));
      assert a + b == a + b[..n] + [b[n]] && b == b[..n] + [b[n]];
    }
  }

  /** Without a tagged call the fenced ones are taken; without those, a text that is one object in braces. */
  lemma FallsBack(decode: Decoder, fences: string -> seq<string>, text: string)
    requires text != "" && !SomeTagDecodes(decode, text)
    ensures Calls(decode, fences(text)) != [] ==> Parsed(decode, fences, text) == Calls(decode, fences(text))
    ensures Calls(decode, fences(text)) == [] ==>
      var s := Strip(text);
      Parsed(decode, fences, text) ==
        if s != "" && s[0] == '{' && s[|s| - 1] == '}' && Candidate(decode, s).Some? then [Candidate(decode, s).value] else []
  {
    TagsFound(decode, text);
    CallOfOne(decode, Strip(text));
  }

  lemma {:induction false} CallAmong(decode: Decoder, raws: seq<string>, i: nat)
    requires i < |raws| && Candidate(decode, raws[i]).Some?
    ensures Candidate(decode, raws[i]).value in Calls(decode, raws)
  {
    if i < |raws| - 1 {
      CallAmong(decode, raws[..|raws| - 1], i);
    }
  }

  lemma {:induction false} SomeAmong(decode: Decoder, raws: seq<string>) returns (i: nat)
    requires Calls(decode, raws) != []
    ensures i < |raws| && Candidate(decode, raws[i]).Some?
  {
    i := |raws| - 1;
    if Candidate(decode, raws[i]).None? {
      i := SomeAmong(decode, raws[..i]);
    }
  }

  ghost predicate SomeTagDecodes(decode: Decoder, text: string) {
    exists i :: 0 <= i < |TagBlocks(text)| && Candidate(decode, TagBlocks(text)[i]).Some?
  }

  ghost predicate NothingDecodes(decode: Decoder) {
    forall raw: string :: Candidate(decode, raw).None?
  }

  /** Whatever the fenced blocks are, the calls taken out are those of the tags. */
  ghost predicate TagsAreAll(decode: Decoder, text: string) {
    forall fences: string -> seq<string> :: Parsed(decode, fences, text) == Calls(decode, TagBlocks(text))
  }

  /** The fenced blocks make no difference to the calls taken out. */
  ghost predicate FencesIgnored(decode: Decoder, text: string) {
    forall fences: string -> seq<string>, fences': string -> seq<string> ::
      Parsed(decode, fences, text) == Parsed(decode, fences', text)
  }

  lemma TagsFound(decode: Decoder, text: string)
    ensures Calls(decode, TagBlocks(text)) != [] <==> SomeTagDecodes(decode, text)
  {
    if Calls(decode, TagBlocks(text)) != [] {
      var i := SomeAmong(decode, TagBlocks(text));
    } else if SomeTagDecodes(decode, text) {
      var i :| 0 <= i < |TagBlocks(text)| && Candidate(decode, TagBlocks(text)[i]).Some?;
      CallAmong(decode, TagBlocks(text), i);
    }
  }

  lemma {:induction false} NoCalls(decode: Decoder, raws: seq<string>)
    requires NothingDecodes(decode)
    ensures Calls(decode, raws) == []
  {
    if raws != [] {
      NoCalls(decode, raws[..|raws| - 1]);
    }
  }

  /** Two fenced blocks with the same call give two calls where no tag decodes; a bare object gives at most one. */
  lemma FencedTwice(decode: Decoder, text: string, raw: string, none: string -> seq<string>, twice: string -> seq<string>)
    requires text != "" && !SomeTagDecodes(decode, text) && Candidate(decode, raw).Some?
    requires none(text) == [] && twice(text) == [raw, raw]
    ensures |Parsed(decode, none, text)| <= 1 && |Parsed(decode, twice, text)| == 2
    ensures Calls(decode, TagBlocks(text)) == []
  {
    TagsFound(decode, text);
    assert [raw, raw][..1] == [raw] && [raw][..0] == [];
    assert |Calls(decode, [raw])| == 1;
    var s := Strip(text);
    assert [s][..0] == [];
  }

  lemma NothingToTake(decode: Decoder, text: string)
    requires NothingDecodes(decode)
    ensures TagsAreAll(decode, text) && FencesIgnored(decode, text)
  {
    NoCalls(decode, TagBlocks(text));
    forall fences: string -> seq<string> ensures Parsed(decode, fences, text) == [] {
      NoCalls(decode, fences(text));
      NoCalls(decode, [Strip(text)]);
    }
  }

  lemma TagsAreEnough(decode: Decoder, text: string)
    requires text == "" || SomeTagDecodes(decode, text)
    ensures TagsAreAll(decode, text) && FencesIgnored(decode, text)
  {
    TagsFound(decode, text);
    assert TagBlocks("") == [];
  }

  lemma FencesMatter(decode: Decoder, text: string, raw: string)
    requires text != "" && !SomeTagDecodes(decode, text) && Candidate(decode, raw).Some?
    ensures !TagsAreAll(decode, text) && !FencesIgnored(decode, text)
  {
    var none: string -> seq<string> := _ => [];
    var twice: string -> seq<string> := _ => [raw, raw];
    FencedTwice(decode, text, raw, none, twice);
    assert Parsed(decode, none, text) != Parsed(decode, twice, text);
  }

  /**
   * Fenced blocks and a bare object are not looked at exactly when some tagged block decodes to a
   * call, unless there is nothing to take out in the first place.
   */
  lemma TagsDecideExactly(decode: Decoder, text: string)
    ensures TagsAreAll(decode, text) <==> text == "" || SomeTagDecodes(decode, text) || NothingDecodes(decode)
    ensures FencesIgnored(decode, text) <==> TagsAreAll(decode, text)
  {
    if text == "" || SomeTagDecodes(decode, text) {
      TagsAreEnough(decode, text);
    } else if NothingDecodes(decode) {
      NothingToTake(decode, text);
    } else {
      var raw: string :| Candidate(decode, raw).Some?;
      FencesMatter(decode, text, raw);
    }
  }

  /** A tagged call that decodes is among the calls taken out, whatever else the reply holds. */
  lemma TaggedCallCounts(decode: Decoder, fences: string -> seq<string>, text: string, i: nat)
    requires i < |TagBlocks(text)| && Candidate(decode, TagBlocks(text)[i]).Some?
    ensures Candidate(decode, TagBlocks(text)[i]).value in Parsed(decode, fences, text)
  {
    CallAmong(decode, TagBlocks(text), i);
    assert TagBlocks("") == [];
  }
}
