/**
 * Opaque page cursors (gateway/shared/schemas/pagination.py). Base64 and ISO timestamps are
 * parameters with the laws they promise.
 */
module Cursor {
  import opened Wrappers
  import opened Keyset
  import Text

  /** The text codecs a cursor is made with; `None` stands for a ValueError. */
  datatype Codec = Codec(
    iso: int -> string,
    fromIso: string -> Option<int>,
    b64: string -> string,
    unb64: string -> Option<string>)

  ghost predicate Lawful(codec: Codec) {
    && (forall t :: codec.fromIso(codec.iso(t)) == Some(t) && '|' !in codec.iso(t))
    && (forall s :: codec.unb64(codec.b64(s)) == Some(s))
    && codec.unb64("") == Some("")
  }

  datatype CursorError = InvalidCursor | InvalidTimestamp

  function Encode(codec: Codec, key: Key): string {
    codec.b64(codec.iso(key.at) + "|" + key.id)
  }

  datatype Decoded = Decoded(ts: string, id: string)

  function Decode(codec: Codec, cursor: string): Result<Decoded, CursorError> {
    var raw := codec.unb64(cursor);
    if raw.None? then Err(InvalidCursor)
    else
      var parts := Text.Partition(raw.value, '|');
      if !parts.found then Err(InvalidCursor) else Ok(Decoded(parts.before, parts.after))
  }

  /** The anchor a page request seeks past; a missing or empty cursor means the first page. */
  function Anchor(codec: Codec, cursor: Option<string>): Result<Option<Key>, CursorError> {
    if cursor.None? || cursor.value == "" then Ok(None)
    else
      match Decode(codec, cursor.value)
      case Err(e) => Err(e)
      case Ok(d) =>
        var at := codec.fromIso(d.ts);
        if at.None? then Err(InvalidTimestamp) else Ok(Some(Key(at.value, d.id)))
  }

  function EncodeNext(codec: Codec, next: Option<Key>): Option<string> {
    if next.None? then None else Some(Encode(codec, next.value))
  }

  /** A cursor decodes to what was encoded, even when the id contains the separator. */
  lemma DecodeEncode(codec: Codec, key: Key)
    requires Lawful(codec)
    ensures Decode(codec, Encode(codec, key)) == Ok(Decoded(codec.iso(key.at), key.id))
    ensures Encode(codec, key) != ""
  {
    var raw := codec.iso(key.at) + "|" + key.id;
    Text.PartitionJoin(codec.iso(key.at), '|', key.id);
    assert codec.unb64(codec.b64(raw)) == Some(raw);
    assert raw[|codec.iso(key.at)|] == '|';
  }

  /** Asking with the cursor of a page seeks past exactly that page's last row. */
  lemma AnchorRoundTrip(codec: Codec, next: Option<Key>)
    requires Lawful(codec)
    ensures Anchor(codec, EncodeNext(codec, next)) == Ok(next)
  {
    if next.Some? {
      DecodeEncode(codec, next.value);
      assert codec.fromIso(codec.iso(next.value.at)) == Some(next.value.at);
    }
  }

  /** Cursors are told apart by their rows. */
  lemma EncodeInjective(codec: Codec, a: Key, b: Key)
    requires Lawful(codec) && Encode(codec, a) == Encode(codec, b)
    ensures a == b
  {
    AnchorRoundTrip(codec, Some(a));
    AnchorRoundTrip(codec, Some(b));
  }

  /** "invalid cursor" is raised exactly for text that is not base64 or has no separator in it. */
  lemma InvalidExactly(codec: Codec, cursor: string)
    ensures Decode(codec, cursor) == Err(InvalidCursor) <==>
      codec.unb64(cursor).None? || '|' !in codec.unb64(cursor).value
    ensures Decode(codec, cursor).Err? ==> Decode(codec, cursor).error == InvalidCursor
  {
    var raw := codec.unb64(cursor);
    if raw.Some? && '|' in raw.value {
      var k :| 0 <= k < |raw.value| && raw.value[k] == '|';
      assert Text.IndexOf(raw.value, '|') <= k;
    }
  }
}
