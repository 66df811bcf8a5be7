/**
 * Two folds of the same event stream: the session's running totals, published at every message stop
 * (claude_ai/session/http.py, _iterate_stream), and the collector's result
 * (claude_ai/streaming/collector.py).
 */
module StreamFold {
  import opened Wrappers

  datatype Delta =
    | TextDelta(text: string)
    | ThinkingDelta(thinking: string)
    | RawDelta(kind: Option<string>, rawText: Option<string>, rawThinking: Option<string>)   // a plain dictionary
    | OtherDelta

  datatype Start = Start(
    id: string,
    uuid: Option<string>,
    parentUuid: Option<string>,
    model: string,
    requestId: Option<string>,
    traceId: Option<string>)

  datatype Event =
    | MessageStart(message: Start)
    | ContentBlockDelta(delta: Delta)
    | MessageDelta(stopReason: Option<string>, outputTokens: int)
    | MessageStop
    | OtherEvent

  datatype Complete = Complete(
    messageUuid: string,
    text: string,
    thinking: string,
    stopReason: Option<string>,
    outputTokens: int)

  datatype CompletionResult = CompletionResult(
    text: string,
    thinking: string,
    messageId: string,
    messageUuid: string,
    parentUuid: string,
    model: string,
    stopReason: Option<string>,
    outputTokens: int,
    requestId: string,
    traceId: string)

  /** `x or d` on an optional string. */
  function Or(x: Option<string>, d: string): string {
    if x.Some? && x.value != "" then x.value else d
  }

  function Get(x: Option<string>): string {
    if x.Some? then x.value else ""
  }

  // ---- What a stream says, read off its events ----

  function TextIn(d: Delta): string {
    if d.TextDelta? then d.text
    else if d.RawDelta? && d.kind == Some("text_delta") then Get(d.rawText)
    else ""
  }

  function ThinkingIn(d: Delta): string {
    if d.ThinkingDelta? then d.thinking
    else if d.RawDelta? && d.kind == Some("thinking_delta") then Get(d.rawThinking)
    else ""
  }

  /** All text deltas, in order. */
  function TextOf(events: seq<Event>): string {
    if events == [] then ""
    else TextOf(events[..|events| - 1]) + if events[|events| - 1].ContentBlockDelta? then TextIn(events[|events| - 1].delta) else ""
  }

  function ThinkingOf(events: seq<Event>): string {
    if events == [] then ""
    else ThinkingOf(events[..|events| - 1]) + if events[|events| - 1].ContentBlockDelta? then ThinkingIn(events[|events| - 1].delta) else ""
  }

  function LastStart(events: seq<Event>): Option<Start> {
    if events == [] then None
    else if events[|events| - 1].MessageStart? then Some(events[|events| - 1].message)
    else LastStart(events[..|events| - 1])
  }

  function LastDelta(events: seq<Event>): (r: Option<Event>)
    ensures r.Some? ==> r.value.MessageDelta?
  {
    if events == [] then None
    else if events[|events| - 1].MessageDelta? then Some(events[|events| - 1])
    else LastDelta(events[..|events| - 1])
  }

  function StopReasonOf(events: seq<Event>): Option<string> {
    if LastDelta(events).Some? then LastDelta(events).value.stopReason else None
  }

  function TokensOf(events: seq<Event>): int {
    if LastDelta(events).Some? then LastDelta(events).value.outputTokens else 0
  }

  function SessionUuid(events: seq<Event>): string {
    var s := LastStart(events);
    if s.Some? then Or(s.value.uuid, s.value.id) else ""
  }

  function CollectorUuid(events: seq<Event>): string {
    var s := LastStart(events);
    if s.Some? then Or(s.value.uuid, "") else ""
  }

  // ---- The session's fold ----

  function Summary(events: seq<Event>): Complete {
    Complete(SessionUuid(events), TextOf(events), ThinkingOf(events), StopReasonOf(events), TokensOf(events))
  }

  /** One summary for every stop, of the events up to it. */
  function Published(events: seq<Event>): seq<Complete> {
    if events == [] then []
    else Published(events[..|events| - 1]) + if events[|events| - 1].MessageStop? then [Summary(events)] else []
  }

  function Concat(parts: seq<string>): string {
    if parts == [] then "" else Concat(parts[..|parts| - 1]) + parts[|parts| - 1]
  }

  lemma ConcatOne(parts: seq<string>, part: string)
    ensures Concat(parts + [part]) == Concat(parts) + part
  {
    assert (parts + [part])[..|parts|] == parts;
  }

  /** A stop event adds the totals of the events before it. */
  lemma PublishedNext(events: seq<Event>, i: nat)
    requires i < |events|
    ensures Published(events[..i + 1]) ==
      Published(events[..i]) + if events[i].MessageStop? then [Summary(events[..i])] else []
  {
    assert events[..i + 1][..i] == events[..i];
    if events[i].MessageStop? {
      StopAddsNothing(events[..i + 1]);
    }
  }

  lemma StopAddsNothing(events: seq<Event>)
    requires events != [] && events[|events| - 1].MessageStop?
    ensures Summary(events) == Summary(events[..|events| - 1])
  {
    var before := events[..|events| - 1];
    assert LastStart(events) == LastStart(before) && LastDelta(events) == LastDelta(before);
    assert TextOf(events) == TextOf(before) + "" && ThinkingOf(events) == ThinkingOf(before) + "";
  }

  /** What one more event adds to the four readings of a stream. */
  lemma FoldStep(events: seq<Event>, i: nat)
    requires i < |events|
    ensures var d := events[i];
      && TextOf(events[..i + 1]) == TextOf(events[..i]) + (if d.ContentBlockDelta? then TextIn(d.delta) else "")
      && ThinkingOf(events[..i + 1]) == ThinkingOf(events[..i]) + (if d.ContentBlockDelta? then ThinkingIn(d.delta) else "")
      && LastStart(events[..i + 1]) == (if d.MessageStart? then Some(d.message) else LastStart(events[..i]))
      && LastDelta(events[..i + 1]) == (if d.MessageDelta? then Some(d) else LastDelta(events[..i]))
  {
    assert events[..i + 1][..i] == events[..i];
  }

  method Session(events: seq<Event>, hasBus: bool) returns (published: seq<Complete>)
    ensures published == if hasBus then Published(events) else []
  {
    published := [];
    var textParts: seq<string>, thinkingParts: seq<string> := [], [];
    var messageUuid, stopReason, outputTokens := "", None, 0;
    for i := 0 to |events|
      invariant published == if hasBus then Published(events[..i]) else []
      invariant Concat(textParts) == TextOf(events[..i]) && Concat(thinkingParts) == ThinkingOf(events[..i])
      invariant messageUuid == SessionUuid(events[..i])
      invariant stopReason == StopReasonOf(events[..i]) && outputTokens == TokensOf(events[..i])
    {
      PublishedNext(events, i);
      FoldStep(events, i);
      match events[i] {
        case MessageStart(message) =>
          messageUuid := Or(message.uuid, message.id);
        case ContentBlockDelta(delta) =>
          match delta {
            case TextDelta(text) =>
              ConcatOne(textParts, text);
              textParts := textParts + [text];
            case ThinkingDelta(thinking) =>
              ConcatOne(thinkingParts, thinking);
              thinkingParts := thinkingParts + [thinking];
            case RawDelta(kind, text, thinking) =>
              if kind == Some("text_delta") {
                ConcatOne(textParts, Get(text));
                textParts := textParts + [Get(text)];
              } else if kind == Some("thinking_delta") {
                ConcatOne(thinkingParts, Get(thinking));
                thinkingParts := thinkingParts + [Get(thinking)];
              }
            case OtherDelta =>
          }
        case MessageDelta(reason, tokens) =>
          stopReason, outputTokens := reason, tokens;
        case MessageStop =>
          if hasBus {
            published := published +
              [Complete(messageUuid, Concat(textParts), Concat(thinkingParts), stopReason, outputTokens)];
          }
        case OtherEvent =>
      }
    }
    assert events[..|events|] == events;
  }

  // ---- The collector's fold ----

  function Collected(events: seq<Event>): CompletionResult {
    var s := LastStart(events);
    var text, thinking := TextOf(events), ThinkingOf(events);
    var reason, tokens := StopReasonOf(events), TokensOf(events);
    if s.None? then CompletionResult(text, thinking, "", "", "", "", reason, tokens, "", "")
    else
      CompletionResult(text, thinking, s.value.id, CollectorUuid(events), Or(s.value.parentUuid, ""), s.value.model,
                       reason, tokens, Or(s.value.requestId, ""), Or(s.value.traceId, ""))
  }

  method Collect(events: seq<Event>) returns (result: CompletionResult)
    ensures result == Collected(events)
  {
    result := CompletionResult("", "", "", "", "", "", None, 0, "", "");
    var textParts: seq<string>, thinkingParts: seq<string> := [], [];
    for i := 0 to |events|
      invariant result == Collected(events[..i]).(text := "", thinking := "")
      invariant Concat(textParts) == TextOf(events[..i]) && Concat(thinkingParts) == ThinkingOf(events[..i])
    {
      assert events[..i + 1][..i] == events[..i];
      match events[i] {
        case MessageStart(message) =>
          result := result.(
            messageId := message.id,
            messageUuid := Or(message.uuid, ""),
            parentUuid := Or(message.parentUuid, ""),
            model := message.model,
            requestId := Or(message.requestId, ""),
            traceId := Or(message.traceId, ""));
        case ContentBlockDelta(delta) =>
          match delta {
            case TextDelta(text) =>
              ConcatOne(textParts, text);
              textParts := textParts + [text];
            case ThinkingDelta(thinking) =>
              ConcatOne(thinkingParts, thinking);
              thinkingParts := thinkingParts + [thinking];
            case RawDelta(kind, text, thinking) =>
              if kind == Some("text_delta") {
                ConcatOne(textParts, Get(text));
                textParts := textParts + [Get(text)];
              } else if kind == Some("thinking_delta") {
                ConcatOne(thinkingParts, Get(thinking));
                thinkingParts := thinkingParts + [Get(thinking)];
              }
            case OtherDelta =>
          }
        case MessageDelta(reason, tokens) =>
          result := result.(stopReason := reason, outputTokens := tokens);
        case MessageStop =>
        case OtherEvent =>
      }
    }
    assert events[..|events|] == events;
    result := result.(text := Concat(textParts), thinking := Concat(thinkingParts));
  }

  // ---- Agreement ----

  /** How many stops are among the first `n` events. */
  function Stops(events: seq<Event>, n: nat): nat
    requires n <= |events|
  {
    if n == 0 then 0 else Stops(events, n - 1) + if events[n - 1].MessageStop? then 1 else 0
  }

  lemma {:induction false} PublishedAt(events: seq<Event>, n: nat, i: nat)
    requires i < n <= |events| && events[i].MessageStop?
    ensures |Published(events[..n])| == Stops(events, n) && Stops(events, i) < Stops(events, n)
    ensures Published(events[..n])[Stops(events, i)] == Summary(events[..i + 1])
  {
    assert events[..n][..n - 1] == events[..n - 1];
    if i < n - 1 {
      PublishedAt(events, n - 1, i);
    } else {
      PublishedLength(events, i);
    }
  }

  lemma {:induction false} PublishedLength(events: seq<Event>, n: nat)
    requires n <= |events|
    ensures |Published(events[..n])| == Stops(events, n)
  {
    if n > 0 {
      assert events[..n][..n - 1] == events[..n - 1];
      PublishedLength(events, n - 1);
    }
  }

  /**
   * What is published at a message stop is what a collector of the events up to it would report.
   * The two name the message alike exactly when it has a uuid, or no id either, or never started.
   */
  lemma PublishedIsCollected(events: seq<Event>, i: nat)
    requires i < |events| && events[i].MessageStop?
    ensures |Published(events)| == Stops(events, |events|) > Stops(events, i)
    ensures var p, c := Published(events)[Stops(events, i)], Collected(events[..i + 1]);
      && p.text == c.text && p.thinking == c.thinking
      && p.stopReason == c.stopReason && p.outputTokens == c.outputTokens
      && var s := LastStart(events[..i + 1]);
         p.messageUuid == c.messageUuid <==> s.None? || Or(s.value.uuid, "") != "" || s.value.id == ""
  {
    assert events[..|events|] == events;
    PublishedAt(events, |events|, i);
  }

  // ---- What a stream is read as ----

  /** What one event says. */
  lemma OneEvent(e: Event)
    ensures e.ContentBlockDelta? && e.delta.TextDelta? ==> TextOf([e]) == e.delta.text && ThinkingOf([e]) == ""
    ensures e.ContentBlockDelta? && e.delta.ThinkingDelta? ==> ThinkingOf([e]) == e.delta.thinking && TextOf([e]) == ""
    ensures e.ContentBlockDelta? && e.delta.RawDelta? ==>
      && TextOf([e]) == (if e.delta.kind == Some("text_delta") && e.delta.rawText.Some? then e.delta.rawText.value else "")
      && ThinkingOf([e]) ==
           (if e.delta.kind == Some("thinking_delta") && e.delta.rawThinking.Some? then e.delta.rawThinking.value else "")
    ensures !e.ContentBlockDelta? || e.delta.OtherDelta? ==> TextOf([e]) == "" && ThinkingOf([e]) == ""
  {
    assert [e][..0] == [];
  }

  lemma TextNext(events: seq<Event>, e: Event)
    ensures TextOf(events + [e]) == TextOf(events) + TextOf([e])
    ensures ThinkingOf(events + [e]) == ThinkingOf(events) + ThinkingOf([e])
  {
    assert (events + [e])[..|events|] == events && [e][..0] == [];
  }

  lemma Assoc(a: string, b: string, c: string)
    ensures a + (b + c) == a + b + c
  {
  }

  /** Texts and thoughts come in the order of the events that carry them. */
  lemma {:induction false} TextInOrder(a: seq<Event>, b: seq<Event>)
    ensures TextOf(a + b) == TextOf(a) + TextOf(b)
    ensures ThinkingOf(a + b) == ThinkingOf(a) + ThinkingOf(b)
  {
    if b == [] {
      assert a + b == a;
    } else {
      var n := |b| - 1;
      TextInOrder(a, b[..n]);
      TextNext(a + b[..n], b[n]);
      TextNext(b[..n], b[n]);
      assert a + b == a + b[..n] + [b[n]] && b == b[..n] + [b[n]];
      Assoc(TextOf(a), TextOf(b[..n]), TextOf([b[n]]));
      Assoc(ThinkingOf(a), ThinkingOf(b[..n]), ThinkingOf([b[n]]));
    }
  }

  /** The last message start is the one that counts. */
  lemma {:induction false} StartAt(events: seq<Event>, i: nat)
    requires i < |events| && events[i].MessageStart? && forall j :: i < j < |events| ==> !events[j].MessageStart?
    ensures LastStart(events) == Some(events[i].message)
  {
    if i < |events| - 1 {
      StartAt(events[..|events| - 1], i);
    }
  }

  /** The last message delta is the one that counts. */
  lemma {:induction false} DeltaAt(events: seq<Event>, i: nat)
    requires i < |events| && events[i].MessageDelta? && forall j :: i < j < |events| ==> !events[j].MessageDelta?
    ensures LastDelta(events) == Some(events[i])
  {
    if i < |events| - 1 {
      DeltaAt(events[..|events| - 1], i);
    }
  }

  /** A message as it comes: its texts and thoughts in any mixture of deltas. */
  function Deltas(deltas: seq<Delta>): (events: seq<Event>)
    ensures |events| == |deltas| && forall i :: 0 <= i < |deltas| ==> events[i] == ContentBlockDelta(deltas[i])
  {
    seq(|deltas|, i requires 0 <= i < |deltas| => ContentBlockDelta(deltas[i]))
  }

  function Message(start: Start, deltas: seq<Delta>, reason: Option<string>, tokens: int): seq<Event> {
    [MessageStart(start)] + Deltas(deltas) + [MessageDelta(reason, tokens)]
  }

  lemma MessageText(start: Start, deltas: seq<Delta>, reason: Option<string>, tokens: int)
    ensures TextOf(Message(start, deltas, reason, tokens)) == TextOf(Deltas(deltas))
    ensures ThinkingOf(Message(start, deltas, reason, tokens)) == ThinkingOf(Deltas(deltas))
  {
    TextInOrder([MessageStart(start)], Deltas(deltas));
    TextNext([MessageStart(start)] + Deltas(deltas), MessageDelta(reason, tokens));
    OneEvent(MessageStart(start));
    OneEvent(MessageDelta(reason, tokens));
  }

  lemma MessageEnds(start: Start, deltas: seq<Delta>, reason: Option<string>, tokens: int)
    ensures var events := Message(start, deltas, reason, tokens);
      LastStart(events) == Some(start) && LastDelta(events) == Some(MessageDelta(reason, tokens))
  {
    var events := Message(start, deltas, reason, tokens);
    StartAt(events, 0);
    DeltaAt(events, |events| - 1);
  }

  lemma StopPublishes(events: seq<Event>)
    requires forall i :: 0 <= i < |events| ==> !events[i].MessageStop?
    ensures Published(events + [MessageStop]) == [Summary(events)]
  {
    var all := events + [MessageStop];
    assert all[..|all| - 1] == events;
    NothingPublished(events);
    StopAddsNothing(all);
  }

  /**
   * A message is published at its stop, and collected, with the texts of its deltas joined, the reason
   * and tokens of its message delta, and the names of its start.
   */
  lemma MessageIsReported(start: Start, deltas: seq<Delta>, reason: Option<string>, tokens: int)
    ensures var text, thinking := TextOf(Deltas(deltas)), ThinkingOf(Deltas(deltas));
      Published(Message(start, deltas, reason, tokens) + [MessageStop]) ==
        [Complete(if start.uuid.Some? && start.uuid.value != "" then start.uuid.value else start.id, text, thinking, reason, tokens)]
    ensures var c := Collected(Message(start, deltas, reason, tokens));
      && c.text == TextOf(Deltas(deltas)) && c.thinking == ThinkingOf(Deltas(deltas))
      && c.stopReason == reason && c.outputTokens == tokens && c.messageId == start.id && c.model == start.model
      && c.messageUuid == (if start.uuid.Some? then start.uuid.value else "")
      && c.parentUuid == (if start.parentUuid.Some? then start.parentUuid.value else "")
      && c.requestId == (if start.requestId.Some? then start.requestId.value else "")
      && c.traceId == (if start.traceId.Some? then start.traceId.value else "")
  {
    MessageText(start, deltas, reason, tokens);
    MessageEnds(start, deltas, reason, tokens);
    StopPublishes(Message(start, deltas, reason, tokens));
  }

  lemma {:induction false} NothingPublished(events: seq<Event>)
    requires forall i :: 0 <= i < |events| ==> !events[i].MessageStop?
    ensures Published(events) == []
  {
    if events != [] {
      NothingPublished(events[..|events| - 1]);
    }
  }
}
