/** The push-registration payload of pkg/linkedingo/push.go: a fixed,
    hand-rolled, length-prefixed key/value layout with two keys.

      0x00 0x02                                   format marker, key count
      0x14 22 "pushNotificationTokens"            first key
      0x01 0x01 0x14 len 0x01 token               one-element array
      0x14 23 "pushNotificationEnabled"           second key
      0x08                                        boolean true

    The decoder here is not part of the source; it reads the layout back by
    its markers, counts and lengths and exists to state the round trip. */
module Push {
  import opened Wrappers
  import opened Bytes
  import Client

  const ProtobufStart: uint8 := 0x00
  const KeyCount: uint8 := 2
  const LeadingOrdinal: uint8 := 0x14
  const ArrayStart: uint8 := 0x01
  const ArrayLength: uint8 := 1
  const UnknownMarker: uint8 := 0x01
  const BooleanTrue: uint8 := 0x08

  const TokensKey: seq<uint8> := AsciiBytes("pushNotificationTokens")
  const EnabledKey: seq<uint8> := AsciiBytes("pushNotificationEnabled")

  /** Bytes 26..31: array marker, element count, and the element's ordinal,
      length byte and unknown marker. */
  function ArrayHeader(tokenLength: nat): seq<uint8> {
    [ArrayStart, ArrayLength, LeadingOrdinal, LengthByte(tokenLength), UnknownMarker]
  }

  /** Where each field of a payload for `token` sits: header, first key,
      array header, token bytes, second key and boolean trailer. */
  ghost predicate PayloadLayout(b: seq<uint8>, token: seq<uint8>) {
    && |b| == 57 + |token|
    && b[..4] == [0x00, 0x02, 0x14, 22]
    && b[4..26] == TokensKey
    && b[26..31] == [0x01, 0x01, 0x14, (|token| % 256) as uint8, 0x01]
    && b[31..31 + |token|] == token
    && b[31 + |token|..] == [0x14, 23] + EnabledKey + [0x08]
  }

  /** `createPushRegistrationPayload`.  The receiver `c` is never read.  The
      token is the Go string's bytes; its length byte is `|token| % 256`. */
  function CreatePushRegistrationPayload(c: Client.Client, token: seq<uint8>): (out: seq<uint8>)
    ensures PayloadLayout(out, token)
    ensures out[0] == 0x00 && out[1] == 0x02 && out[2] == 0x14 && out[3] == 22
    ensures out[|out| - 1] == 0x08
  {
    var payload := [ProtobufStart, KeyCount, LeadingOrdinal, LengthByte(|TokensKey|)];
    var payload := payload + TokensKey;
    var payload := payload + ArrayHeader(|token|);
    var payload := payload + token;
    var payload := payload + [LeadingOrdinal, LengthByte(|EnabledKey|)];
    var payload := payload + EnabledKey;
    var payload := payload + [BooleanTrue];
    assert payload[..4] == [ProtobufStart, KeyCount, LeadingOrdinal, 22];
    assert payload[31 + |token|..] == [LeadingOrdinal, 23] + EnabledKey + [BooleanTrue];
    payload
  }

  // ---------------------------------------------------------------------
  // Decoder
  // ---------------------------------------------------------------------

  datatype DecodeError =
    | Truncated(offset: nat)
    | UnexpectedByte(offset: nat, expected: uint8, found: uint8)
    | UnexpectedKey(offset: nat)
    | TrailingBytes(offset: nat)

  /** Reads one byte. */
  function ReadByte(b: seq<uint8>, pos: nat): (r: Result<uint8, DecodeError>)
    ensures r.Success? <==> pos < |b|
    ensures r.Success? ==> r.value == b[pos]
  {
    if pos < |b| then Success(b[pos]) else Failure(Truncated(pos))
  }

  /** Consumes one byte that must be `v`; yields the next offset. */
  function ExpectByte(b: seq<uint8>, pos: nat, v: uint8): (r: Result<nat, DecodeError>)
    ensures r.Success? <==> pos < |b| && b[pos] == v
    ensures r.Success? ==> r.value == pos + 1
  {
    var found :- ReadByte(b, pos);
    if found == v then Success(pos + 1) else Failure(UnexpectedByte(pos, v, found))
  }

  /** Reads `n` raw bytes. */
  function ReadBytes(b: seq<uint8>, pos: nat, n: nat): (r: Result<seq<uint8>, DecodeError>)
    ensures r.Success? <==> pos + n <= |b|
    ensures r.Success? ==> r.value == b[pos..pos + n]
  {
    if pos + n <= |b| then Success(b[pos..pos + n]) else Failure(Truncated(|b|))
  }

  /** Consumes one key entry (ordinal, length byte, key bytes) that must spell `key`. */
  function ExpectKey(b: seq<uint8>, pos: nat, key: seq<uint8>): (r: Result<nat, DecodeError>)
    ensures r.Success? <==>
              && pos + 2 + |key| <= |b|
              && b[pos] == LeadingOrdinal && b[pos + 1] as int == |key|
              && b[pos + 2..pos + 2 + |key|] == key
    ensures r.Success? ==> r.value == pos + 2 + |key|
  {
    var p :- ExpectByte(b, pos, LeadingOrdinal);
    var n :- ReadByte(b, p);
    var name :- ReadBytes(b, p + 1, n as nat);
    if name == key then Success(p + 1 + n as nat) else Failure(UnexpectedKey(pos))
  }

  /** Reads a push-registration payload back to its token. */
  function DecodePushRegistrationPayload(b: seq<uint8>): Result<seq<uint8>, DecodeError> {
    var p :- ExpectByte(b, 0, ProtobufStart);
    var p :- ExpectByte(b, p, KeyCount);
    var p :- ExpectKey(b, p, TokensKey);
    var p :- ExpectByte(b, p, ArrayStart);
    var p :- ExpectByte(b, p, ArrayLength);
    var p :- ExpectByte(b, p, LeadingOrdinal);
    var n :- ReadByte(b, p);
    var p :- ExpectByte(b, p + 1, UnknownMarker);
    var token :- ReadBytes(b, p, n as nat);
    var p :- ExpectKey(b, p + n as nat, EnabledKey);
    var p :- ExpectByte(b, p, BooleanTrue);
    if p == |b| then Success(token) else Failure(TrailingBytes(p))
  }

  // ---------------------------------------------------------------------
  // Properties
  // ---------------------------------------------------------------------

  /** The payload depends only on the token, never on the client. */
  lemma PayloadIgnoresReceiver(c1: Client.Client, c2: Client.Client, token: seq<uint8>)
    ensures CreatePushRegistrationPayload(c1, token) == CreatePushRegistrationPayload(c2, token)
  {
  }

  /** Round trip: a token whose length fits the one-byte length field is read
      back exactly. */
  lemma DecodeCreatedPayload(c: Client.Client, token: seq<uint8>)
    requires |token| <= 255
    ensures DecodePushRegistrationPayload(CreatePushRegistrationPayload(c, token)) == Success(token)
  {
    var b := CreatePushRegistrationPayload(c, token);
    var n := |token|;
    assert b[4..26] == TokensKey;
    assert b[26] == ArrayStart && b[27] == ArrayLength && b[28] == LeadingOrdinal;
    assert b[29] as int == n && b[30] == UnknownMarker by {
      assert b[26..31][3] == b[29] && b[26..31][4] == b[30];
    }
    assert b[31..31 + n] == token;
    var tail := b[31 + n..];
    assert b[31 + n] == tail[0] == LeadingOrdinal;
    assert b[32 + n] == tail[1] == 23;
    assert b[33 + n..33 + n + 23] == tail[2..25] == EnabledKey;
    assert b[56 + n] == tail[25] == BooleanTrue;
  }

  /** What a successful decode has checked, field by field. */
  lemma DecodedLayout(b: seq<uint8>, token: seq<uint8>)
    requires DecodePushRegistrationPayload(b) == Success(token)
    ensures |token| <= 255
    ensures PayloadLayout(b, token)
  {
    var n := b[29] as nat;
    assert |token| == n;
    assert b[..4] == [0x00, 0x02, 0x14, 22];
    assert b[26..31] == [0x01, 0x01, 0x14, (n % 256) as uint8, 0x01];
    var tail := b[31 + n..];
    assert tail == [0x14, 23] + EnabledKey + [0x08] by {
      assert |tail| == 26;
      assert tail[2..25] == b[33 + n..56 + n] == EnabledKey;
    }
  }

  /** Two byte strings laid out for the same token are equal. */
  lemma LayoutDeterminesBytes(b: seq<uint8>, e: seq<uint8>, token: seq<uint8>)
    requires PayloadLayout(b, token) && PayloadLayout(e, token)
    ensures b == e
  {
    var n := |token|;
    assert b == b[..4] + b[4..26] + b[26..31] + b[31..31 + n] + b[31 + n..];
    assert e == e[..4] + e[4..26] + e[26..31] + e[31..31 + n] + e[31 + n..];
  }

  /** The decoder accepts nothing but payloads: whatever it reads back as a
      token is at most 255 bytes long and is encoded by exactly these bytes. */
  lemma DecodedPayloadIsCreated(c: Client.Client, b: seq<uint8>, token: seq<uint8>)
    requires DecodePushRegistrationPayload(b) == Success(token)
    ensures |token| <= 255
    ensures b == CreatePushRegistrationPayload(c, token)
  {
    DecodedLayout(b, token);
    LayoutDeterminesBytes(b, CreatePushRegistrationPayload(c, token), token);
  }

  /** Decoding succeeds with `token` exactly on the payload of `token`, and
      only when the token's length fits in its length byte. */
  lemma DecodeSucceedsExactlyOnPayloads(c: Client.Client, b: seq<uint8>, token: seq<uint8>)
    ensures DecodePushRegistrationPayload(b) == Success(token)
        <==> |token| <= 255 && b == CreatePushRegistrationPayload(c, token)
  {
    if DecodePushRegistrationPayload(b) == Success(token) {
      DecodedPayloadIsCreated(c, b, token);
    }
    if |token| <= 255 && b == CreatePushRegistrationPayload(c, token) {
      DecodeCreatedPayload(c, token);
    }
  }

  /** A token of 256 bytes or more cannot be read back: its length byte has
      wrapped, and no token at all is decoded from its payload. */
  lemma LongTokenIsNotDecodable(c: Client.Client, token: seq<uint8>)
    requires |token| > 255
    ensures DecodePushRegistrationPayload(CreatePushRegistrationPayload(c, token)).Failure?
  {
    var b := CreatePushRegistrationPayload(c, token);
    var r := DecodePushRegistrationPayload(b);
    var t := if r.Success? then r.value else [];
    DecodeSucceedsExactlyOnPayloads(c, b, t);
  }

  /** Distinct tokens, of any length, give distinct payloads. */
  lemma CreateIsInjective(c1: Client.Client, c2: Client.Client, t1: seq<uint8>, t2: seq<uint8>)
    requires CreatePushRegistrationPayload(c1, t1) == CreatePushRegistrationPayload(c2, t2)
    ensures t1 == t2
  {
    var b := CreatePushRegistrationPayload(c1, t1);
    assert |t1| == |t2|;
    assert t1 == b[31..31 + |t1|] == t2;
  }

  /** The two key names, byte by byte. */
  lemma KeyBytes()
    ensures TokensKey == [
      0x70, 0x75, 0x73, 0x68, 0x4E, 0x6F, 0x74, 0x69, 0x66, 0x69, 0x63,
      0x61, 0x74, 0x69, 0x6F, 0x6E, 0x54, 0x6F, 0x6B, 0x65, 0x6E, 0x73]
    ensures EnabledKey == [
      0x70, 0x75, 0x73, 0x68, 0x4E, 0x6F, 0x74, 0x69, 0x66, 0x69, 0x63,
      0x61, 0x74, 0x69, 0x6F, 0x6E, 0x45, 0x6E, 0x61, 0x62, 0x6C, 0x65, 0x64]
  {
  }

  /** The bytes for the token "abc". */
  lemma AbcPayload(c: Client.Client)
    ensures CreatePushRegistrationPayload(c, [0x61, 0x62, 0x63]) ==
      [0x00, 0x02, 0x14, 0x16]
      + [0x70, 0x75, 0x73, 0x68, 0x4E, 0x6F, 0x74, 0x69, 0x66, 0x69, 0x63,
         0x61, 0x74, 0x69, 0x6F, 0x6E, 0x54, 0x6F, 0x6B, 0x65, 0x6E, 0x73]
      + [0x01, 0x01, 0x14, 0x03, 0x01, 0x61, 0x62, 0x63]
      + [0x14, 0x17]
      + [0x70, 0x75, 0x73, 0x68, 0x4E, 0x6F, 0x74, 0x69, 0x66, 0x69, 0x63,
         0x61, 0x74, 0x69, 0x6F, 0x6E, 0x45, 0x6E, 0x61, 0x62, 0x6C, 0x65, 0x64]
      + [0x08]
  {
    var e: seq<uint8> := [0x61, 0x62, 0x63];
    var x := [0x00, 0x02, 0x14, 0x16] + TokensKey + ([0x01, 0x01, 0x14, 0x03, 0x01] + e) + [0x14, 0x17] + EnabledKey + [0x08];
    assert PayloadLayout(x, e) by {
      assert x[4..26] == TokensKey;
      assert x[26..34] == [0x01, 0x01, 0x14, 0x03, 0x01] + e;
      assert x[26..31] == [0x01, 0x01, 0x14, 0x03, 0x01];
      assert x[31..34] == e;
      assert x[34..] == [0x14, 23] + EnabledKey + [0x08];
    }
    LayoutDeterminesBytes(CreatePushRegistrationPayload(c, e), x, e);
    KeyBytes();
  }

  /** Key names are not unique in the output: a token may spell one. */
  lemma KeyNameMayRecurInToken(c: Client.Client)
    ensures var b := CreatePushRegistrationPayload(c, TokensKey);
            b[4..26] == TokensKey && b[31..53] == TokensKey
  {
  }
}
